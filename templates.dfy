/** The two helper functions the manifests asset installs into every bootkube
    template: `indent` and `add`. */
module Templates {
  import opened Strings

  /** `indent(indention, v)`: every newline of `v` is followed by `indention`
      spaces. A negative width makes `strings.Repeat` panic, so the width is a
      `nat`. */
  function Indent(indention: nat, v: string): string
  {
    ReplaceAll(v, "\n", "\n" + Spaces(indention))
  }

  /** Indent works one character at a time: a newline becomes a newline and
      `n` spaces, any other character stays. */
  lemma IndentCons(n: nat, c: char, v: string)
    ensures Indent(n, [c] + v) == (if c == '\n' then "\n" + Spaces(n) else [c]) + Indent(n, v)
  {
    var s := [c] + v;
    assert s[..1] == [c];
    assert s[1..] == v;
  }

  lemma {:induction false} IndentConcat(n: nat, a: string, b: string)
    ensures Indent(n, a + b) == Indent(n, a) + Indent(n, b)
  {
    if a != [] {
      assert a + b == [a[0]] + (a[1..] + b);
      assert a == [a[0]] + a[1..];
      IndentCons(n, a[0], a[1..] + b);
      IndentCons(n, a[0], a[1..]);
      IndentConcat(n, a[1..], b);
    } else {
      assert a + b == b;
    }
  }

  /** A text without newlines is returned unchanged. */
  lemma {:induction false} IndentNoNewline(n: nat, v: string)
    requires '\n' !in v
    ensures Indent(n, v) == v
  {
    if v != [] {
      assert v == [v[0]] + v[1..];
      IndentCons(n, v[0], v[1..]);
      IndentNoNewline(n, v[1..]);
    }
  }

  /** Exactly `n` spaces are put after every newline and nothing else
      changes: splitting at any newline commutes with indenting. */
  lemma IndentAtNewline(n: nat, a: string, b: string)
    ensures Indent(n, a + "\n" + b) == Indent(n, a) + "\n" + Spaces(n) + Indent(n, b)
  {
    IndentConcat(n, a + "\n", b);
    IndentConcat(n, a, "\n");
    IndentCons(n, '\n', []);
  }

  /** The output is `n` characters longer per newline of the input. */
  lemma {:induction false} IndentLength(n: nat, v: string)
    ensures |Indent(n, v)| == |v| + n * Count('\n', v)
  {
    if v != [] {
      assert v == [v[0]] + v[1..];
      IndentCons(n, v[0], v[1..]);
      IndentLength(n, v[1..]);
      var k := Count('\n', v[1..]);
      assert n * (1 + k) == n + n * k;
    }
  }

  lemma {:induction false} IndentZero(v: string)
    ensures Indent(0, v) == v
  {
    if v != [] {
      assert v == [v[0]] + v[1..];
      IndentCons(0, v[0], v[1..]);
      IndentZero(v[1..]);
    }
  }

  /** `indent` leaves its argument as it was exactly when the width is zero or
      there is no newline to indent after. */
  lemma IndentUnchangedIff(n: nat, v: string)
    ensures Indent(n, v) == v <==> n == 0 || '\n' !in v
  {
    if n == 0 {
      IndentZero(v);
    } else if '\n' !in v {
      IndentNoNewline(n, v);
    } else {
      IndentLength(n, v);
      CountPositive('\n', v);
      assert n * Count('\n', v) > 0;
    }
  }

  /** An indented newline indented again carries both widths of spaces. */
  lemma IndentNewlineRun(m: nat, n: nat)
    ensures Indent(m, "\n" + Spaces(n)) == "\n" + Spaces(m + n)
  {
    IndentConcat(m, "\n", Spaces(n));
    IndentCons(m, '\n', []);
    IndentNoNewline(m, Spaces(n));
    assert Spaces(m) + Spaces(n) == Spaces(m + n);
    assert "\n" + Spaces(m) + Spaces(n) == "\n" + (Spaces(m) + Spaces(n));
  }

  /** Indenting an indented text adds the widths. */
  lemma {:induction false} IndentCompose(m: nat, n: nat, v: string)
    ensures Indent(m, Indent(n, v)) == Indent(m + n, v)
  {
    if v != [] {
      var c, rest := v[0], v[1..];
      assert v == [c] + rest;
      IndentCons(n, c, rest);
      IndentCons(m + n, c, rest);
      var head := if c == '\n' then "\n" + Spaces(n) else [c];
      IndentConcat(m, head, Indent(n, rest));
      if c == '\n' {
        IndentNewlineRun(m, n);
      } else {
        IndentCons(m, c, []);
        assert [c] + [] == [c];
      }
      IndentCompose(m, n, rest);
    }
  }

  lemma IndentExample()
    ensures Indent(2, "a\nb") == "a\n  b"
  {
    IndentAtNewline(2, "a", "b");
    IndentNoNewline(2, "a");
    IndentNoNewline(2, "b");
    assert "a\nb" == "a" + "\n" + "b";
  }

  /** Go's `int` on the 64-bit targets the installer is built for. */
  const MinInt: int := -0x8000_0000_0000_0000
  const MaxInt: int := 0x7fff_ffff_ffff_ffff
  const IntModulus: int := 0x1_0000_0000_0000_0000

  predicate IsInt(x: int)
  {
    MinInt <= x <= MaxInt
  }

  /** The `add` template function: `i + j` on Go `int`, which wraps around on
      overflow. */
  function Add(i: int, j: int): (r: int)
    requires IsInt(i) && IsInt(j)
    ensures IsInt(r)
    ensures IsInt(i + j) ==> r == i + j
    ensures (i + j - r) % IntModulus == 0
  {
    var s := i + j;
    if s > MaxInt then s - IntModulus else if s < MinInt then s + IntModulus else s
  }
}
