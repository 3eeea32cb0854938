/** The parts of Go's `path/filepath` package that the manifests asset relies
    on, for the `/` separator of Unix systems. */
module FilePath {

  const Separator: char := '/'

  /** A single path element that cleaning leaves alone. */
  predicate IsPlainName(name: string)
  {
    name != [] && Separator !in name && name != "." && name != ".."
  }

  function StripTrailingSeparators(path: string): (r: string)
    ensures r == [] || r[|r| - 1] != Separator
    decreases |path|
  {
    if path != [] && path[|path| - 1] == Separator then StripTrailingSeparators(path[..|path| - 1])
    else path
  }

  /** What follows the last separator of `path`. */
  function LastElement(path: string): (r: string)
    ensures Separator !in r
    ensures path != [] && path[|path| - 1] != Separator ==> r != []
    decreases |path|
  {
    if path == [] || path[|path| - 1] == Separator then []
    else LastElement(path[..|path| - 1]) + [path[|path| - 1]]
  }

  /** `filepath.Base`: the last element of `path` once trailing separators are
      dropped; "." for the empty path and "/" for a path of separators only. */
  function Base(path: string): (r: string)
    ensures r != []
    ensures r == [Separator] || Separator !in r
  {
    if path == [] then "."
    else
      var element := LastElement(StripTrailingSeparators(path));
      if element == [] then [Separator] else element
  }

  /** `filepath.Join(dir, name)` for a plain `dir` and a `name` that `Base`
      can return. Join puts a separator between its non-empty arguments and
      cleans the result: a "." element disappears, ".." cancels `dir`, and
      repeated separators collapse into one. */
  function Join(dir: string, name: string): string
    requires IsPlainName(dir)
    requires name == [Separator] || Separator !in name
  {
    if name == [] || name == "." || name == [Separator] then dir
    else if name == ".." then "."
    else dir + [Separator] + name
  }

  lemma {:induction false} LastElementOf(prefix: string, name: string)
    requires Separator !in name
    requires prefix == [] || prefix[|prefix| - 1] == Separator
    ensures LastElement(prefix + name) == name
  {
    if name != [] {
      var path := prefix + name;
      var front := name[..|name| - 1];
      assert path[|path| - 1] == name[|name| - 1];
      assert path[..|path| - 1] == prefix + front;
      assert LastElement(path) == LastElement(prefix + front) + [name[|name| - 1]];
      LastElementOf(prefix, front);
      assert name == front + [name[|name| - 1]];
    } else {
      assert prefix + name == prefix;
    }
  }

  /** The base of `dir/name`, and of `name` alone, is `name`. */
  lemma BaseOf(dir: string, name: string)
    requires name != [] && Separator !in name
    ensures Base(dir + [Separator] + name) == name
    ensures Base(name) == name
  {
    LastElementOf(dir + [Separator], name);
    LastElementOf([], name);
    assert [] + name == name;
  }

  /** Joining a plain name under a directory and taking the base gives the
      name back. */
  lemma BaseOfJoin(dir: string, name: string)
    requires IsPlainName(dir) && IsPlainName(name)
    ensures Base(Join(dir, name)) == name
  {
    BaseOf(dir, name);
  }
}
