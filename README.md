# Manifests asset of the cluster installer, modelled in Dafny

This project models the `Manifests` asset of the installer
(`pkg/asset/manifests/operators.go`). The asset takes the install config,
the cluster ID, the TLS assets, the bootkube template assets and the ingress,
DNS, networking and infrastructure manifest assets, and from them derives
the cluster manifests. It does so in two modes:

- `Generate` redacts the install config and wraps it in the
  `kube-system/cluster-config-v1` config map. It writes that map to
  `manifests/cluster-config.yaml`. It renders every bootkube template into
  `manifests/`, with `etcd-0 … etcd-(n-1)` as the etcd endpoint host names.
  It then appends the files of the four other manifest assets and sorts the
  whole list by file name.
- `Load` restores the asset from the files found under `manifests/`. The
  restore succeeds only when those files include a cluster-config file that
  unmarshals.

Modules:

- `Wrappers` holds `Option` and `Result`.
- `Strings` holds `strings.Replace(…, -1)`, `strings.Repeat(" ", n)` and
  `strings.TrimSuffix`.
- `Decimal` holds the `%d` verb.
- `FilePath` holds `filepath.Base` and `filepath.Join`.
- `Assets` holds `asset.File` and `asset.SortFiles`.
- `InstallConfig` holds the install-config fields that redaction touches,
  and `redactedInstallConfig`.
- `Templates` holds the template helpers `indent` and `add`.
- `Manifests` holds the config map, the bootkube template data, the
  rendering loops, the specifications of `Generate` and `Load`, and the class
  `Manifests` with the fields `KubeSysConfig` and `FileList`.

The class's `Generate` and `Load` are proved against the functions
`GenerateSpec` and `LoadSpec`. The lemmas beside those functions state what
the asset promises:

- The generated files are sorted.
- They are a permutation of the merged inputs.
- They contain the cluster config.
- The config map never depends on the secrets.
- `Load` tells absence apart from a malformed cluster config.
- Loading what `Generate` produced restores the same state.

Behaviour of the code that the model keeps:

- A template that fails to parse or execute panics (`template.Must` at
  line 225, `panic` at line 228). The model turns the panic into an
  `Error.Panic` result.
  So does dereferencing a nil `Replicas` pointer or a negative replica count
  given to `make`.
- A failure does not leave the asset untouched:
  - A failed config-map marshal leaves the new `KubeSysConfig` in place,
    because line 107 runs before line 110.
  - A template panic leaves `FileList` holding only the cluster-config file,
    because line 115 runs before line 121.
  - `Manifests.Manifests.Generate` states both of these.
- Only the ingress, DNS, networking and infrastructure files are merged into
  the list. The other dependencies feed the template data or are rendered
  as bootkube templates.
- Within `Load`, several files at the cluster-config path are all
  unmarshalled. The first that fails aborts the load.

## Model

| member | source | states |
|---|---|---|
| Templates.Indent | pkg/asset/manifests/operators.go:277-280 | `indent`: `strings.Replace(v, "\n", "\n" + Repeat(" ", indention), -1)`, with `ReplaceAll` and `Spaces`. Its meaning is stated by the Indent lemmas below |
| Templates.IndentAtNewline | pkg/asset/manifests/operators.go:277-280 | every newline of the input is followed by exactly `indention` spaces in the output, and indentation distributes over concatenation at a newline |
| Templates.IndentNoNewline | pkg/asset/manifests/operators.go:277-280 | a value without a newline is returned unchanged |
| Templates.IndentZero | pkg/asset/manifests/operators.go:277-280 | indenting by zero columns is the identity |
| Templates.IndentUnchangedIff | pkg/asset/manifests/operators.go:277-280 | the output equals the input exactly when the indentation is zero or the input has no newline |
| Templates.IndentLength | pkg/asset/manifests/operators.go:277-280 | the output is longer than the input by `indention` times the number of newlines |
| Templates.IndentCompose | pkg/asset/manifests/operators.go:277-280 | indenting by m after indenting by n is indenting by m + n |
| Templates.IndentExample | pkg/asset/manifests/operators.go:277-280 | `indent 2 "a\nb"` is `"a\n  b"` |
| Templates.Add | pkg/asset/manifests/operators.go:33-35 | the result is a 64-bit Go int. It equals i + j when that sum fits and is congruent to i + j modulo 2^64 otherwise |
| Decimal.DecimalRoundTrip | pkg/asset/manifests/operators.go:166 | the `%d` rendering of a replica index is a digit string that reads back as the same number |
| Decimal.DecimalStringInjective | pkg/asset/manifests/operators.go:166 | two indices render to the same digits exactly when they are equal |
| Manifests.EtcdHostnames | pkg/asset/manifests/operators.go:164-167 | the slice the hostname loop builds: `replicas` names, the i-th `etcd-` followed by i in decimal. `Manifests.EtcdEndpointHostnames` is proved equal to it |
| Manifests.EtcdEndpointHostnames | pkg/asset/manifests/operators.go:164-167 | the loop yields one host name per control-plane replica, the i-th being `etcd-` followed by i in decimal |
| Manifests.EtcdHostnamesDistinct | pkg/asset/manifests/operators.go:164-167 | the etcd endpoint host names are pairwise distinct |
| Manifests.EtcdHostnamesForThreeReplicas | pkg/asset/manifests/operators.go:164-167 | three replicas give `etcd-0`, `etcd-1`, `etcd-2` |
| Strings.ReplaceAll | pkg/asset/manifests/operators.go:279 | `strings.Replace(s, pattern, replacement, -1)`: every non-overlapping occurrence, scanning left to right, is replaced. Used only through `Templates.Indent` |
| Strings.TrimSuffix | pkg/asset/manifests/operators.go:216 | `strings.TrimSuffix`: one trailing suffix is dropped if present. `Strings.TrimSuffixOnce` and `Strings.TrimSuffixKeeps` state both cases |
| Strings.TrimSuffixKeeps | pkg/asset/manifests/operators.go:216 | a name that does not end in the suffix is left as it is |
| Decimal.DecimalString | pkg/asset/manifests/operators.go:166 | the `%d` rendering of a non-negative int: a non-empty digit string without a leading zero unless the number is zero |
| FilePath.Base | pkg/asset/manifests/operators.go:216 | `filepath.Base`: never empty, and either `/` or free of separators; `.` for the empty path |
| FilePath.Join | pkg/asset/manifests/operators.go:216 | `filepath.Join(dir, name)` for one plain directory element, including the cleaning of the names `""`, `.`, `/` and `..` |
| Assets.LessEq | pkg/asset/manifests/operators.go:128 | Go's byte-wise `<=` on file names, the order `asset.SortFiles` sorts by. `Assets.LessEqReflexive`, `Assets.LessEqTotal`, `Assets.LessEqTransitive` and `Assets.LessEqAntisymmetric` prove it a total order |
| Assets.LessEqReflexive | pkg/asset/manifests/operators.go:128 | every name is `<=` itself |
| Assets.LessEqTotal | pkg/asset/manifests/operators.go:128 | any two names are ordered one way or the other |
| Assets.LessEqTransitive | pkg/asset/manifests/operators.go:128 | the order is transitive |
| Assets.LessEqAntisymmetric | pkg/asset/manifests/operators.go:128 | names ordered both ways are equal |
| Strings.TrimSuffixOnce | pkg/asset/manifests/operators.go:216 | trimming `.template` from a name ending in it gives back the name, and only one suffix is removed |
| FilePath.BaseOf | pkg/asset/manifests/operators.go:216 | the base of `dir/name` is `name` for a single path element |
| FilePath.BaseOfJoin | pkg/asset/manifests/operators.go:216 | `Base(Join(dir, name))` is `name` for a plain element name |
| Manifests.OutputName | pkg/asset/manifests/operators.go:216 | `strings.TrimSuffix(filepath.Base(f.Filename), ".template")`: the result is `/` or has no separator, so `Join` accepts it |
| Manifests.OutputPath | pkg/asset/manifests/operators.go:216 | the file name a rendered template gets: its output name joined under `manifests`. Its meaning is stated by the OutputPath lemmas below |
| Manifests.OutputPathOfTemplate | pkg/asset/manifests/operators.go:216 | a template file `dir/x.template` is written to `manifests/x` |
| Manifests.OutputPathOfOtherFile | pkg/asset/manifests/operators.go:216 | a file whose name does not end in `.template` keeps its base name under `manifests/` |
| Manifests.OutputPathInManifestDir | pkg/asset/manifests/operators.go:216 | a rendered file whose trimmed base name is a plain element lands directly in `manifests/` under that name. For the names `""`, `.` and `/` the cleaned path is `manifests` itself, and for `..` it is `.` |
| Manifests.OutputPathInjective | pkg/asset/manifests/operators.go:216 | two template files whose trimmed base names are plain elements get the same output path exactly when those names are equal |
| Manifests.Render | pkg/asset/manifests/operators.go:214-231 | the templates executed in order, each written to its output path. The first template that fails makes `applyTemplateData` panic. Its meaning is stated by `Manifests.RenderOnePerTemplate` and `Manifests.RenderKeepsFailure` |
| Manifests.TemplateData | pkg/asset/manifests/operators.go:169-190 | `bootkubeTemplateData`: each of the 20 fields is filled from the same parent and the same encoding as at lines 170-189. Certificates and keys are base64-encoded where the source encodes them and copied as strings where it does not |
| Manifests.BootKubeManifests | pkg/asset/manifests/operators.go:138-222 | what `generateBootKubeManifests` returns: a panic for a nil or a negative replica count, otherwise `Render` of the 18 bootkube assets' templates with the template data |
| Manifests.RenderOnePerTemplate | pkg/asset/manifests/operators.go:192-221 | rendering succeeds exactly when every template executes. It then yields one file per template, in order, named by the output path and holding the executed template |
| Manifests.RenderKeepsFailure | pkg/asset/manifests/operators.go:224-231 | once a template panics, no later template is rendered and the panic is the result |
| Manifests.RenderAssetFiles | pkg/asset/manifests/operators.go:214-219 | the inner loop appends the rendered files of one bootkube asset, or stops at the first panic, exactly as `Manifests.Render` does on the templates so far followed by this asset's |
| Manifests.RenderTemplateLists | pkg/asset/manifests/operators.go:192-221 | the outer loop over the 18 bootkube assets renders their files in order, exactly as `Manifests.Render` does on the 18 lists laid end to end |
| Manifests.GenerateBootKubeManifests | pkg/asset/manifests/operators.go:138-222 | yields the bootkube manifests. It panics on a nil or negative replica count and on a failing template; otherwise it renders every template with the template data built from the parents |
| Manifests.BootKubeManifestsCount | pkg/asset/manifests/operators.go:192-221 | a successful render yields exactly as many files as the bootkube assets hold templates |
| InstallConfig.Redacted | pkg/asset/manifests/operators.go:266-273 | the pull secret is emptied and the vSphere user name and password are emptied when a vSphere platform is present. Nothing else changes |
| InstallConfig.RedactedEqualIff | pkg/asset/manifests/operators.go:266-273 | two configs redact to the same value exactly when they differ only in their secrets |
| InstallConfig.RedactedIdempotent | pkg/asset/manifests/operators.go:266-273 | redacting twice is redacting once |
| InstallConfig.RedactedInstallConfig | pkg/asset/manifests/operators.go:266-275 | `redactedInstallConfig`: the YAML marshalling of the redacted config, with the marshaller's error as its error. `InstallConfig.RedactedInstallConfigHidesSecrets` states what it hides |
| InstallConfig.RedactedInstallConfigHidesSecrets | pkg/asset/manifests/operators.go:266-275 | the marshalled redacted config of two configs that differ only in their secrets is the same |
| Assets.SortFiles | pkg/asset/manifests/operators.go:128 | the list is sorted by file name and is a permutation of its input |
| Assets.SortFilesKeepsSorted | pkg/asset/manifests/operators.go:261 | sorting an already sorted list changes nothing |
| Assets.SortedPermutationUnique | pkg/asset/manifests/operators.go:128 | with distinct file names the sorted order is unique, so any sort gives the same list |
| Manifests.Manifests.constructor | pkg/asset/manifests/operators.go:40-43 | a fresh asset has no config map and no files |
| Manifests.Manifests.Files | pkg/asset/manifests/operators.go:134-136 | returns the file list |
| Manifests.GenerateSpec | pkg/asset/manifests/operators.go:94-131 | the four ways `Generate` ends: a wrapped redaction error, a wrapped config-map marshal error after the config map is set, a template panic after the file list is reset to the cluster-config file, or the merged file list. Its meaning is stated by `Manifests.GeneratedFiles`, `Manifests.ClusterConfigHidesSecrets` and `Manifests.RestoreAfterGenerate` |
| Manifests.Manifests.Generate | pkg/asset/manifests/operators.go:94-131 | sets the config map and file list, and returns the error as `Manifests.GenerateSpec` says for each of its four outcomes (redaction failed, config-map marshal failed, template panic, success) |
| Manifests.GeneratedFiles | pkg/asset/manifests/operators.go:102-128 | a successful generate yields a sorted permutation of the cluster-config file, the bootkube manifests and the four assets' files. It contains the cluster-config file and has their total count |
| Manifests.ClusterConfigHidesSecrets | pkg/asset/manifests/operators.go:102-109 | install configs that differ only in their secrets give the same cluster-config map, or both fail redaction |
| Manifests.Manifests.Load | pkg/asset/manifests/operators.go:234-264 | leaves the asset unchanged on an error or on absence, and otherwise adopts the unmarshalled config map and the sorted files, as `Manifests.LoadSpec` says |
| Manifests.Scan | pkg/asset/manifests/operators.go:243-252 | the loop of `Load`: each file at the cluster-config path is unmarshalled, the first failure stops the scan, and otherwise the last one found wins. Its meaning is stated by the Scan lemmas below |
| Manifests.LoadSpec | pkg/asset/manifests/operators.go:234-264 | the three ways `Load` ends: an error (fetch or wrapped unmarshal failure), "not found" (no files, or no cluster-config file), or the restored config and sorted files. Its meaning is stated by `Manifests.LoadAbsentIff`, `Manifests.LoadFailedIff` and `Manifests.LoadRestores` |
| Manifests.ScanNotFoundIff | pkg/asset/manifests/operators.go:243-257 | the scan finds nothing exactly when no file sits at the cluster-config path |
| Manifests.ScanMalformedIff | pkg/asset/manifests/operators.go:245-249 | the scan fails exactly when some file at the cluster-config path does not unmarshal |
| Manifests.ScanFoundFromFile | pkg/asset/manifests/operators.go:245-252 | a found config was unmarshalled from a file at the cluster-config path |
| Manifests.ScanKeepsMalformed | pkg/asset/manifests/operators.go:245-249 | after the first file that does not unmarshal, later files do not change the outcome |
| Manifests.ScanFindsAgreeingConfig | pkg/asset/manifests/operators.go:245-252 | when every cluster-config file unmarshals to the same config and at least one exists, the scan finds that config |
| Manifests.LoadAbsentIff | pkg/asset/manifests/operators.go:235-257 | load reports "not found" exactly when the fetch succeeds and no file is the cluster config. An empty directory is one such case |
| Manifests.LoadFailedIff | pkg/asset/manifests/operators.go:235-249 | load fails exactly when the fetch fails or a cluster-config file does not unmarshal |
| Manifests.LoadRestores | pkg/asset/manifests/operators.go:259-263 | a restored asset holds the fetched files sorted by name and a config unmarshalled from a cluster-config file |
| Manifests.RestoreAfterGenerate | pkg/asset/manifests/operators.go:234-264 | loading the files of a successful generate restores the same config map and file list, given a round-tripping YAML codec and no other file at the cluster-config path |

## Left out

- YAML marshalling and unmarshalling, base64 encoding, `ClusterDomain` and
  template execution are external libraries. They are function-typed
  parameters (`Collaborators`). Template parsing and execution are one
  function whose failure is the panic of `template.Must` or of line 228.
- `asset.Parents.Get` and `FileFetcher.FetchByPattern` are inputs. The
  parents are a record of already-resolved values. The fetch is a `Result`
  of the files under `manifests/`.
- The asset resolver, its memoisation, its dependency ordering and its cycle
  detection are not part of this file. `Name` and `Dependencies` return
  constants and are not modelled.
- `Assets.SortFiles`: the body of `asset.SortFiles` is not in this file. It is modelled as a sort by
  file name: an insertion sort whose result is proved sorted and a
  permutation. `Assets.SortedPermutationUnique` shows that any sort gives
  the same list when the file names are distinct. Equal names may be ordered
  differently by the original.
- `yaml.Unmarshal` into one shared `configurationObject` merges successive
  cluster-config files field by field. The model keeps the last file's
  object instead.
- The `TypeMeta` of the config map is dropped: `ConfigurationObject` has no
  such field, because the `configMap` helper sets it to the constant
  v1/ConfigMap on the only config map built here.
- The install-config fields that redaction does not touch are kept as opaque
  strings. Platforms other than vSphere are one opaque field, which
  redaction leaves untouched.
- `FilePath.Join`: modelled only for a single directory element and a name
  without separators, which is what line 216 passes. The cleaning of `.`,
  `..`, `""` and `/` names is written out.
- `Templates.Indent`: the indention is a `nat`. A negative indention makes
  `strings.Repeat` panic in Go, and this panic is not modelled.
- `Manifests.BootKubeManifests`: `Replicas` is a Go `*int64`, modelled as an
  unbounded `int`. `make` also panics for a length past the allocation
  limit; the model panics only for a negative length.
- A nil `installConfig.Config` pointer is not modelled. The install-config
  asset always sets it.
- Pointer aliasing of `*asset.File` values between the asset and its parents
  is not modelled. Files are values.
- Panics are results, not unwinding. The model states the asset's state at
  the point of the panic.
