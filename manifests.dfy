/** The `Manifests` asset: the common manifest files of the cluster, built
    from the install config, the TLS assets and the bootkube templates, or
    restored from a previous run's `manifests/` directory. */
module Manifests {
  import opened Wrappers
  import opened Strings
  import opened Decimal
  import opened FilePath
  import opened Assets
  import opened InstallConfig

  const ManifestDir: string := "manifests"
  const TemplateSuffix: string := ".template"
  const KubeSysConfigPath: string := Join(ManifestDir, "cluster-config.yaml")

  /** An error the asset returns, or a run-time panic that aborts the
      installer. */
  datatype Error = Error(message: string) | Panic(reason: string)

  /** `errors.Wrap(cause, message)`. */
  function Wrap(cause: string, message: string): Error
  {
    Error(message + ": " + cause)
  }

  datatype ObjectMeta = ObjectMeta(name: string, namespace: string)

  /** `configurationObject`: a config map. Its type metadata is left out:
      the `configMap` helper sets it to the constant v1/ConfigMap. */
  datatype ConfigurationObject = ConfigurationObject(metadata: ObjectMeta, data: map<string, Bytes>)

  /** The zero value `&configurationObject{}` that `Load` unmarshals into. */
  const EmptyConfigurationObject := ConfigurationObject(ObjectMeta("", ""), map[])

  function ConfigMap(namespace: string, name: string, data: map<string, Bytes>): ConfigurationObject
  {
    ConfigurationObject(ObjectMeta(name, namespace), data)
  }

  /** kube-system/cluster-config-v1, holding the redacted install config. */
  function ClusterConfigMap(redactedConfig: Bytes): ConfigurationObject
  {
    ConfigMap("kube-system", "cluster-config-v1", map["install-config" := redactedConfig])
  }

  /** A certificate and its private key, as the TLS assets expose them. */
  datatype CertKey = CertKey(cert: Bytes, key: Bytes)

  /** `bootkubeTemplateData`: the values the bootkube templates are rendered
      against. */
  datatype BootkubeTemplateData = BootkubeTemplateData(
    cvoClusterID: string,
    etcdCaBundle: string,
    etcdCaCert: string,
    etcdClientCaCert: string,
    etcdClientCaKey: string,
    etcdClientCert: string,
    etcdClientKey: string,
    etcdEndpointDNSSuffix: string,
    etcdEndpointHostnames: seq<string>,
    etcdMetricCaCert: string,
    etcdMetricClientCert: string,
    etcdMetricClientKey: string,
    etcdSignerCert: string,
    etcdSignerClientCert: string,
    etcdSignerClientKey: string,
    etcdSignerKey: string,
    mcsTLSCert: string,
    mcsTLSKey: string,
    pullSecretBase64: string,
    rootCaCert: string)

  /** The library code and the other assets the manifests asset calls:
      YAML (un)marshalling, base64 encoding, the install config's cluster
      domain, and the execution of a template (parsed with `indent` and `add`
      installed) against the template data. A failure of `execute` is a parse
      or execution error, on which `applyTemplateData` panics. */
  datatype Collaborators = Collaborators(
    marshalInstallConfig: InstallConfig -> Result<Bytes, string>,
    marshalConfigMap: ConfigurationObject -> Result<Bytes, string>,
    unmarshalConfigMap: Bytes -> Result<ConfigurationObject, string>,
    base64: Bytes -> string,
    clusterDomain: InstallConfig -> string,
    execute: (Bytes, BootkubeTemplateData) -> Result<Bytes, string>)

  /** The bootkube template assets, in the order `generateBootKubeManifests`
      renders them. */
  const BootkubeAssets: seq<string> := [
    "CVOOverrides",
    "EtcdServiceKubeSystem",
    "HostEtcdServiceEndpointsKubeSystem",
    "HostEtcdServiceKubeSystem",
    "KubeCloudConfig",
    "KubeSystemConfigmapEtcdCA",
    "KubeSystemConfigmapEtcdServingCA",
    "KubeSystemConfigmapRootCA",
    "KubeSystemSecretEtcdClient",
    "KubeSystemSecretEtcdClientCADeprecated",
    "KubeSystemSecretEtcdSigner",
    "KubeSystemSecretEtcdSignerClient",
    "MachineConfigServerTLSSecret",
    "OpenshiftConfigConfigmapEtcdMetricServingCA",
    "OpenshiftConfigSecretEtcdMetricClient",
    "OpenshiftConfigSecretPullSecret",
    "OpenshiftMachineConfigOperator",
    "Pull"]

  /** The resolved dependencies of the asset. `bootkubeTemplates` gives the
      files of each bootkube template asset, by name. */
  datatype Parents = Parents(
    clusterID: string,
    installConfig: InstallConfig,
    rootCA: CertKey,
    etcdCA: CertKey,
    etcdSignerCertKey: CertKey,
    etcdCABundle: Bytes,
    etcdSignerClientCertKey: CertKey,
    etcdClientCertKey: CertKey,
    etcdMetricCABundle: Bytes,
    etcdMetricSignerClientCertKey: CertKey,
    mcsCertKey: CertKey,
    bootkubeTemplates: string -> seq<File>,
    ingressFiles: seq<File>,
    dnsFiles: seq<File>,
    networkFiles: seq<File>,
    infraFiles: seq<File>)

  // ---------------------------------------------------------------------
  // etcd endpoint host names

  /** The host name of the i-th control-plane etcd member. */
  function EtcdHostname(i: nat): string
  {
    "etcd-" + DecimalString(i)
  }

  function EtcdHostnames(replicas: nat): seq<string>
  {
    seq(replicas, i requires 0 <= i => EtcdHostname(i))
  }

  /** The hostname loop of `generateBootKubeManifests`: a slice of `replicas`
      names, filled in index order. */
  method EtcdEndpointHostnames(replicas: nat) returns (hostnames: seq<string>)
    ensures |hostnames| == replicas
    ensures forall i :: 0 <= i < replicas ==> hostnames[i] == "etcd-" + DecimalString(i)
  {
    var names := new string[replicas];
    for i := 0 to replicas
      invariant forall k :: 0 <= k < i ==> names[k] == EtcdHostname(k)
    {
      names[i] := EtcdHostname(i);
    }
    hostnames := names[..];
  }

  /** No two etcd members get the same host name. */
  lemma EtcdHostnamesDistinct(replicas: nat, i: nat, j: nat)
    requires i < j < replicas
    ensures EtcdHostnames(replicas)[i] != EtcdHostnames(replicas)[j]
  {
    var hi, hj := EtcdHostname(i), EtcdHostname(j);
    if hi == hj {
      assert hi[5..] == DecimalString(i);
      assert hj[5..] == DecimalString(j);
      DecimalStringInjective(i, j);
    }
  }

  lemma EtcdHostnamesForThreeReplicas()
    ensures EtcdHostnames(3) == ["etcd-0", "etcd-1", "etcd-2"]
  {
    assert DecimalString(0) == "0";
    assert DecimalString(1) == "1";
    assert DecimalString(2) == "2";
    var names := EtcdHostnames(3);
    assert names[0] == "etcd-0" && names[1] == "etcd-1" && names[2] == "etcd-2";
  }

  // ---------------------------------------------------------------------
  // Output paths

  /** The name a template's output is written under: the template's base
      name without one trailing ".template". */
  function OutputName(templatePath: string): (name: string)
    ensures name == [Separator] || Separator !in name
  {
    var base := Base(templatePath);
    TrimSuffixIsPrefix(base, TemplateSuffix);
    assert Separator !in base ==> Separator !in TrimSuffix(base, TemplateSuffix) by {
      var name := TrimSuffix(base, TemplateSuffix);
      if Separator in name {
        var k :| 0 <= k < |name| && name[k] == Separator;
        assert base[k] == Separator;
      }
    }
    TrimSuffix(base, TemplateSuffix)
  }

  /** The path a rendered template is written to: its output name joined
      under the manifests directory. */
  function OutputPath(templatePath: string): string
  {
    Join(ManifestDir, OutputName(templatePath))
  }

  /** A template `dir/name.template` is written to `manifests/name`. */
  lemma OutputPathOfTemplate(dir: string, name: string)
    requires IsPlainName(name)
    ensures OutputPath(dir + "/" + name + TemplateSuffix) == "manifests/" + name
    ensures OutputPath(name + TemplateSuffix) == "manifests/" + name
  {
    var file := name + TemplateSuffix;
    assert Separator !in file;
    assert dir + "/" + name + TemplateSuffix == dir + [Separator] + file;
    BaseOf(dir, file);
    TrimSuffixOnce(name, TemplateSuffix);
    assert OutputName(dir + [Separator] + file) == name;
    assert OutputName(file) == name;
  }

  /** A file without the ".template" suffix keeps its base name. */
  lemma OutputPathOfOtherFile(dir: string, name: string)
    requires IsPlainName(name) && !HasSuffix(name, TemplateSuffix)
    ensures OutputPath(dir + "/" + name) == "manifests/" + name
    ensures OutputPath(name) == "manifests/" + name
  {
    BaseOf(dir, name);
    TrimSuffixKeeps(name, TemplateSuffix);
  }

  /** Outputs stay directly inside the manifests directory, and their base
      name is the template's, without its suffix. When that name is not a
      plain element (empty, ".", ".." or the root), cleaning the joined path
      yields the manifests directory itself or ".". */
  lemma OutputPathInManifestDir(templatePath: string)
    ensures IsPlainName(OutputName(templatePath)) ==>
      OutputPath(templatePath) == "manifests/" + OutputName(templatePath)
      && Base(OutputPath(templatePath)) == OutputName(templatePath)
    ensures !IsPlainName(OutputName(templatePath)) ==>
      OutputPath(templatePath) == (if OutputName(templatePath) == ".." then "." else ManifestDir)
  {
    var name := OutputName(templatePath);
    if IsPlainName(name) {
      BaseOfJoin(ManifestDir, name);
    }
  }

  /** Two templates collide on their output path exactly when their base
      names agree once the suffix is dropped. */
  lemma OutputPathInjective(p: string, q: string)
    requires IsPlainName(OutputName(p)) && IsPlainName(OutputName(q))
    ensures OutputPath(p) == OutputPath(q) <==> OutputName(p) == OutputName(q)
  {
    OutputPathInManifestDir(p);
    OutputPathInManifestDir(q);
  }

  // ---------------------------------------------------------------------
  // Rendering the bootkube templates

  /** The template files of the bootkube assets, asset by asset, in order. */
  function TemplateFileLists(p: Parents): seq<seq<File>>
  {
    seq(|BootkubeAssets|, i requires 0 <= i < |BootkubeAssets| => p.bootkubeTemplates(BootkubeAssets[i]))
  }

  /** The lists laid end to end. */
  function Flatten(lists: seq<seq<File>>): seq<File>
    decreases |lists|
  {
    if lists == [] then [] else Flatten(lists[..|lists| - 1]) + lists[|lists| - 1]
  }

  function TotalLength(lists: seq<seq<File>>): nat
    decreases |lists|
  {
    if lists == [] then 0 else TotalLength(lists[..|lists| - 1]) + |lists[|lists| - 1]|
  }

  lemma {:induction false} FlattenLength(lists: seq<seq<File>>)
    ensures |Flatten(lists)| == TotalLength(lists)
  {
    if lists != [] {
      FlattenLength(lists[..|lists| - 1]);
    }
  }

  lemma {:induction false} FlattenAppend(lists: seq<seq<File>>, more: seq<seq<File>>)
    ensures Flatten(lists + more) == Flatten(lists) + Flatten(more)
    decreases |more|
  {
    if more == [] {
      assert lists + more == lists;
    } else {
      var all := lists + more;
      assert all[..|all| - 1] == lists + more[..|more| - 1];
      FlattenAppend(lists, more[..|more| - 1]);
    }
  }

  /** Each template rendered, in order, to the file at its output path; the
      first template that fails to parse or execute makes
      `applyTemplateData` panic. */
  function Render(templates: seq<File>, data: BootkubeTemplateData,
                  execute: (Bytes, BootkubeTemplateData) -> Result<Bytes, string>,
                  outputPath: string -> string): Result<seq<File>, Error>
    decreases |templates|
  {
    if templates == [] then Success([])
    else
      var done := Render(templates[..|templates| - 1], data, execute, outputPath);
      var t := templates[|templates| - 1];
      if done.Failure? then done
      else match execute(t.data, data)
        case Failure(e) => Failure(Panic(e))
        case Success(body) => Success(done.value + [File(outputPath(t.filename), body)])
  }

  /** One output per template, in the templates' order: rendering succeeds
      exactly when every template executes, and then the k-th output is the
      k-th template executed and written to its output path. */
  lemma {:induction false} RenderOnePerTemplate(templates: seq<File>, data: BootkubeTemplateData,
                                                execute: (Bytes, BootkubeTemplateData) -> Result<Bytes, string>,
                                                outputPath: string -> string)
    ensures Render(templates, data, execute, outputPath).Success? <==>
      forall k :: 0 <= k < |templates| ==> execute(templates[k].data, data).Success?
    ensures Render(templates, data, execute, outputPath).Success? ==>
      var out := Render(templates, data, execute, outputPath).value;
      |out| == |templates| &&
      forall k :: 0 <= k < |templates| ==>
        out[k] == File(outputPath(templates[k].filename), execute(templates[k].data, data).value)
    decreases |templates|
  {
    if templates != [] {
      var front := templates[..|templates| - 1];
      RenderOnePerTemplate(front, data, execute, outputPath);
      assert forall k :: 0 <= k < |front| ==> templates[k] == front[k];
    }
  }

  /** Once a template has failed, rendering more templates after it changes
      nothing. */
  lemma {:induction false} RenderKeepsFailure(templates: seq<File>, more: seq<File>, data: BootkubeTemplateData,
                                             execute: (Bytes, BootkubeTemplateData) -> Result<Bytes, string>,
                                             outputPath: string -> string)
    requires Render(templates, data, execute, outputPath).Failure?
    ensures Render(templates + more, data, execute, outputPath) == Render(templates, data, execute, outputPath)
    decreases |more|
  {
    if more == [] {
      assert templates + more == templates;
    } else {
      var all := templates + more;
      assert all[..|all| - 1] == templates + more[..|more| - 1];
      RenderKeepsFailure(templates, more[..|more| - 1], data, execute, outputPath);
    }
  }

  /** `bootkubeTemplateData` filled from the dependencies. */
  function TemplateData(p: Parents, env: Collaborators, hostnames: seq<string>): BootkubeTemplateData
  {
    var config := p.installConfig;
    BootkubeTemplateData(
      cvoClusterID := p.clusterID,
      etcdCaBundle := env.base64(p.etcdCABundle),
      etcdCaCert := p.etcdCA.cert,
      etcdClientCaCert := env.base64(p.etcdCA.cert),
      etcdClientCaKey := env.base64(p.etcdCA.key),
      etcdClientCert := env.base64(p.etcdClientCertKey.cert),
      etcdClientKey := env.base64(p.etcdClientCertKey.key),
      etcdEndpointDNSSuffix := env.clusterDomain(config),
      etcdEndpointHostnames := hostnames,
      etcdMetricCaCert := p.etcdMetricCABundle,
      etcdMetricClientCert := env.base64(p.etcdMetricSignerClientCertKey.cert),
      etcdMetricClientKey := env.base64(p.etcdMetricSignerClientCertKey.key),
      etcdSignerCert := env.base64(p.etcdSignerCertKey.cert),
      etcdSignerClientCert := env.base64(p.etcdSignerClientCertKey.cert),
      etcdSignerClientKey := env.base64(p.etcdSignerClientCertKey.key),
      etcdSignerKey := env.base64(p.etcdSignerCertKey.key),
      mcsTLSCert := env.base64(p.mcsCertKey.cert),
      mcsTLSKey := env.base64(p.mcsCertKey.key),
      pullSecretBase64 := env.base64(config.pullSecret),
      rootCaCert := p.rootCA.cert)
  }

  const NilDereference: string := "invalid memory address or nil pointer dereference"
  const MakeSliceLength: string := "makeslice: len out of range"

  /** What `generateBootKubeManifests` returns, or the panic it raises: a nil
      replica count cannot be dereferenced and a negative one cannot size a
      slice. */
  function BootKubeManifests(p: Parents, env: Collaborators): Result<seq<File>, Error>
  {
    match p.installConfig.controlPlane.replicas
    case None => Failure(Panic(NilDereference))
    case Some(n) =>
      if n < 0 then Failure(Panic(MakeSliceLength))
      else Render(Flatten(TemplateFileLists(p)), TemplateData(p, env, EtcdHostnames(n)), env.execute, OutputPath)
  }

  /** Rendering one more template that executes appends its output. */
  lemma RenderStepSuccess(done: seq<File>, t: File, data: BootkubeTemplateData,
                          execute: (Bytes, BootkubeTemplateData) -> Result<Bytes, string>,
                          outputPath: string -> string, files: seq<File>)
    requires Render(done, data, execute, outputPath) == Success(files)
    requires execute(t.data, data).Success?
    ensures Render(done + [t], data, execute, outputPath) == Success(files + [File(outputPath(t.filename), execute(t.data, data).value)])
  {
    assert (done + [t])[..|done + [t]| - 1] == done;
  }

  /** Rendering one more template that fails to execute panics. */
  lemma RenderStepFailure(done: seq<File>, t: File, data: BootkubeTemplateData,
                          execute: (Bytes, BootkubeTemplateData) -> Result<Bytes, string>,
                          outputPath: string -> string)
    requires Render(done, data, execute, outputPath).Success?
    requires execute(t.data, data).Failure?
    ensures Render(done + [t], data, execute, outputPath) == Failure(Panic(execute(t.data, data).error))
  {
    assert (done + [t])[..|done + [t]| - 1] == done;
  }

  lemma FlattenSplit(lists: seq<seq<File>>, a: nat, j: nat)
    requires a < |lists| && j <= |lists[a]|
    ensures Flatten(lists) == (Flatten(lists[..a]) + lists[a][..j]) + (lists[a][j..] + Flatten(lists[a + 1..]))
  {
    FlattenAppend(lists[..a + 1], lists[a + 1..]);
    assert lists[..a + 1] + lists[a + 1..] == lists;
    assert lists[..a + 1][..a] == lists[..a];
    assert Flatten(lists[..a + 1]) == Flatten(lists[..a]) + lists[a];
    assert lists[a] == lists[a][..j] + lists[a][j..];
  }

  /** The inner loop's step at the j-th template, when it executes. */
  lemma RenderAssetStep(previous: seq<File>, templates: seq<File>, j: nat, data: BootkubeTemplateData,
                        execute: (Bytes, BootkubeTemplateData) -> Result<Bytes, string>,
                        outputPath: string -> string, files: seq<File>)
    requires j < |templates|
    requires Render(previous + templates[..j], data, execute, outputPath) == Success(files)
    requires execute(templates[j].data, data).Success?
    ensures Render(previous + templates[..j + 1], data, execute, outputPath) ==
      Success(files + [File(outputPath(templates[j].filename), execute(templates[j].data, data).value)])
  {
    assert previous + templates[..j + 1] == (previous + templates[..j]) + [templates[j]];
    RenderStepSuccess(previous + templates[..j], templates[j], data, execute, outputPath, files);
  }

  /** The inner loop's step at the j-th template, when it fails: the whole
      rendering panics with its error. */
  lemma RenderAssetPanic(previous: seq<File>, templates: seq<File>, j: nat, data: BootkubeTemplateData,
                         execute: (Bytes, BootkubeTemplateData) -> Result<Bytes, string>,
                         outputPath: string -> string)
    requires j < |templates|
    requires Render(previous + templates[..j], data, execute, outputPath).Success?
    requires execute(templates[j].data, data).Failure?
    ensures Render(previous + templates, data, execute, outputPath) ==
      Failure(Panic(execute(templates[j].data, data).error))
  {
    var done := previous + templates[..j];
    var t := templates[j];
    RenderStepFailure(done, t, data, execute, outputPath);
    RenderKeepsFailure(done + [t], templates[j + 1..], data, execute, outputPath);
    assert templates == templates[..j] + [t] + templates[j + 1..];
    assert done + [t] + templates[j + 1..] == previous + templates;
  }

  /** The inner loop of `generateBootKubeManifests`: the files of one
      template asset rendered in their order, after the `previous` ones that
      rendered to `files`. */
  method RenderAssetFiles(templates: seq<File>, ghost previous: seq<File>, files: seq<File>,
                          data: BootkubeTemplateData,
                          execute: (Bytes, BootkubeTemplateData) -> Result<Bytes, string>,
                          outputPath: string -> string)
    returns (r: Result<seq<File>, Error>)
    requires Render(previous, data, execute, outputPath) == Success(files)
    ensures r == Render(previous + templates, data, execute, outputPath)
  {
    var rendered := files;
    var j := 0;
    assert previous + templates[..0] == previous;
    while j < |templates|
      invariant 0 <= j <= |templates|
      invariant Render(previous + templates[..j], data, execute, outputPath) == Success(rendered)
    {
      var t := templates[j];
      var body := execute(t.data, data);
      if body.Failure? {
        RenderAssetPanic(previous, templates, j, data, execute, outputPath);
        return Failure(Panic(body.error));
      }
      RenderAssetStep(previous, templates, j, data, execute, outputPath, rendered);
      rendered := rendered + [File(outputPath(t.filename), body.value)];
      j := j + 1;
    }
    assert templates[..j] == templates;
    return Success(rendered);
  }

  /** The outer loop of `generateBootKubeManifests`: the template assets in
      their fixed order. */
  method RenderTemplateLists(lists: seq<seq<File>>, data: BootkubeTemplateData,
                             execute: (Bytes, BootkubeTemplateData) -> Result<Bytes, string>,
                             outputPath: string -> string)
    returns (r: Result<seq<File>, Error>)
    ensures r == Render(Flatten(lists), data, execute, outputPath)
  {
    var files: seq<File> := [];
    var a := 0;
    while a < |lists|
      invariant 0 <= a <= |lists|
      invariant Render(Flatten(lists[..a]), data, execute, outputPath) == Success(files)
    {
      var rendered := RenderAssetFiles(lists[a], Flatten(lists[..a]), files, data, execute, outputPath);
      FlattenSplit(lists, a, |lists[a]|);
      assert lists[a][..|lists[a]|] == lists[a] && lists[a][|lists[a]|..] == [];
      if rendered.Failure? {
        RenderKeepsFailure(Flatten(lists[..a]) + lists[a], Flatten(lists[a + 1..]), data, execute, outputPath);
        assert Flatten(lists) == Flatten(lists[..a]) + lists[a] + Flatten(lists[a + 1..]);
        return rendered;
      }
      assert lists[..a + 1][..a] == lists[..a];
      files := rendered.value;
      a := a + 1;
    }
    assert lists[..a] == lists;
    return Success(files);
  }

  /** `generateBootKubeManifests`: the etcd host names, the template data, and
      the bootkube templates rendered asset by asset. */
  method GenerateBootKubeManifests(p: Parents, env: Collaborators) returns (r: Result<seq<File>, Error>)
    ensures r == BootKubeManifests(p, env)
  {
    var replicas := p.installConfig.controlPlane.replicas;
    if replicas.None? {
      return Failure(Panic(NilDereference));
    }
    if replicas.value < 0 {
      return Failure(Panic(MakeSliceLength));
    }
    var hostnames := EtcdEndpointHostnames(replicas.value);
    assert hostnames == EtcdHostnames(replicas.value);
    var data := TemplateData(p, env, hostnames);
    var lists := seq(|BootkubeAssets|, i requires 0 <= i < |BootkubeAssets| => p.bootkubeTemplates(BootkubeAssets[i]));
    assert lists == TemplateFileLists(p);
    r := RenderTemplateLists(lists, data, env.execute, OutputPath);
  }

  /** `generateBootKubeManifests` emits exactly one file per template file of
      the bootkube assets, so as many files as those assets hold together. */
  lemma BootKubeManifestsCount(p: Parents, env: Collaborators)
    requires BootKubeManifests(p, env).Success?
    ensures |BootKubeManifests(p, env).value| == TotalLength(TemplateFileLists(p))
  {
    var n := p.installConfig.controlPlane.replicas.value;
    RenderOnePerTemplate(Flatten(TemplateFileLists(p)), TemplateData(p, env, EtcdHostnames(n)), env.execute, OutputPath);
    FlattenLength(TemplateFileLists(p));
  }

  // ---------------------------------------------------------------------
  // Generate

  /** How `Generate` ends. A failed redaction changes nothing; a failed
      marshal of the config map leaves the new `KubeSysConfig` in place; a
      template panic strikes after `FileList` has been set to the
      cluster-config file alone. */
  datatype GenerateOutcome =
    | RedactionFailed(error: Error)
    | ConfigMapFailed(config: ConfigurationObject, error: Error)
    | Panicked(config: ConfigurationObject, clusterConfigFile: File, error: Error)
    | Generated(config: ConfigurationObject, files: seq<File>)

  function GenerateSpec(p: Parents, env: Collaborators): GenerateOutcome
  {
    match RedactedInstallConfig(env.marshalInstallConfig, p.installConfig)
    case Failure(e) => RedactionFailed(Wrap(e, "failed to redact install-config"))
    case Success(redacted) =>
      var config := ClusterConfigMap(redacted);
      match env.marshalConfigMap(config)
      case Failure(e) => ConfigMapFailed(config, Wrap(e, "failed to create kube-system/cluster-config-v1 configmap"))
      case Success(data) =>
        var first := File(KubeSysConfigPath, data);
        match BootKubeManifests(p, env)
        case Failure(e) => Panicked(config, first, e)
        case Success(boot) =>
          Generated(config, [first] + boot + p.ingressFiles + p.dnsFiles + p.networkFiles + p.infraFiles)
  }

  /** A successful `Generate` yields, sorted by name, exactly the cluster
      config file, one file per bootkube template, and the files of the
      ingress, DNS, networking and infrastructure assets. */
  lemma GeneratedFiles(p: Parents, env: Collaborators)
    requires GenerateSpec(p, env).Generated?
    ensures var out := GenerateSpec(p, env);
      var sorted := SortFiles(out.files);
      SortedByFilename(sorted)
      && multiset(sorted) == multiset(out.files)
      && File(KubeSysConfigPath, env.marshalConfigMap(out.config).value) in sorted
      && |sorted| == 1 + TotalLength(TemplateFileLists(p))
                       + |p.ingressFiles| + |p.dnsFiles| + |p.networkFiles| + |p.infraFiles|
  {
    var out := GenerateSpec(p, env);
    BootKubeManifestsCount(p, env);
    var sorted := SortFiles(out.files);
    assert out.files[0] in multiset(sorted);
    assert |sorted| == |multiset(sorted)| == |multiset(out.files)| == |out.files|;
  }

  /** The cluster-config map does not depend on the secrets: install configs
      that differ only in the pull secret or the vSphere credentials give the
      same config map, or the same failure. */
  lemma ClusterConfigHidesSecrets(p: Parents, q: Parents, env: Collaborators)
    requires SameExceptSecrets(p.installConfig, q.installConfig)
    ensures GenerateSpec(p, env).RedactionFailed? <==> GenerateSpec(q, env).RedactionFailed?
    ensures !GenerateSpec(p, env).RedactionFailed? ==> GenerateSpec(p, env).config == GenerateSpec(q, env).config
  {
    RedactedInstallConfigHidesSecrets(env.marshalInstallConfig, p.installConfig, q.installConfig);
  }

  // ---------------------------------------------------------------------
  // Load

  /** Where the scan of the fetched files for the cluster config stands. */
  datatype ScanResult = NotFound | Malformed(error: string) | Found(config: ConfigurationObject)

  /** The loop of `Load`: every file named `manifests/cluster-config.yaml` is
      unmarshalled in turn; the first that fails stops the scan, otherwise the
      last one wins. */
  function Scan(files: seq<File>, unmarshal: Bytes -> Result<ConfigurationObject, string>): ScanResult
    decreases |files|
  {
    if files == [] then NotFound
    else
      var prev := Scan(files[..|files| - 1], unmarshal);
      var f := files[|files| - 1];
      if prev.Malformed? || f.filename != KubeSysConfigPath then prev
      else match unmarshal(f.data)
        case Failure(e) => Malformed(e)
        case Success(c) => Found(c)
  }

  /** The scan finds nothing exactly when no file is the cluster config. */
  lemma {:induction false} ScanNotFoundIff(files: seq<File>, unmarshal: Bytes -> Result<ConfigurationObject, string>)
    ensures Scan(files, unmarshal) == NotFound <==> forall f :: f in files ==> f.filename != KubeSysConfigPath
    decreases |files|
  {
    if files != [] {
      var front := files[..|files| - 1];
      ScanNotFoundIff(front, unmarshal);
      assert files == front + [files[|files| - 1]];
      ScanNeverUndoes(files, unmarshal);
    }
  }

  /** Once the scan has found or rejected a cluster config, it never reports
      "not found" again. */
  lemma ScanNeverUndoes(files: seq<File>, unmarshal: Bytes -> Result<ConfigurationObject, string>)
    requires files != []
    ensures Scan(files[..|files| - 1], unmarshal) != NotFound ==> Scan(files, unmarshal) != NotFound
  {
  }

  /** The scan rejects the files exactly when one of the cluster-config files
      does not unmarshal. */
  lemma {:induction false} ScanMalformedIff(files: seq<File>, unmarshal: Bytes -> Result<ConfigurationObject, string>)
    ensures Scan(files, unmarshal).Malformed? <==>
      exists f :: f in files && f.filename == KubeSysConfigPath && unmarshal(f.data).Failure?
    decreases |files|
  {
    if files != [] {
      var front := files[..|files| - 1];
      ScanMalformedIff(front, unmarshal);
      assert files == front + [files[|files| - 1]];
    }
  }

  /** A config the scan finds is the unmarshalled content of a cluster-config
      file among the fetched ones. */
  lemma {:induction false} ScanFoundFromFile(files: seq<File>, unmarshal: Bytes -> Result<ConfigurationObject, string>)
    requires Scan(files, unmarshal).Found?
    ensures exists f :: (f in files && f.filename == KubeSysConfigPath
      && unmarshal(f.data) == Success(Scan(files, unmarshal).config))
    decreases |files|
  {
    var front := files[..|files| - 1];
    var last := files[|files| - 1];
    if Scan(files, unmarshal) == Scan(front, unmarshal) && (last.filename != KubeSysConfigPath) {
      ScanFoundFromFile(front, unmarshal);
      var f :| f in front && f.filename == KubeSysConfigPath
        && unmarshal(f.data) == Success(Scan(front, unmarshal).config);
      assert f in files;
    } else {
      assert last in files;
    }
  }

  /** Once the scan has rejected a cluster config, later files change
      nothing. */
  lemma {:induction false} ScanKeepsMalformed(files: seq<File>, more: seq<File>,
                                               unmarshal: Bytes -> Result<ConfigurationObject, string>)
    requires Scan(files, unmarshal).Malformed?
    ensures Scan(files + more, unmarshal) == Scan(files, unmarshal)
    decreases |more|
  {
    if more == [] {
      assert files + more == files;
    } else {
      var all := files + more;
      assert all[..|all| - 1] == files + more[..|more| - 1];
      ScanKeepsMalformed(files, more[..|more| - 1], unmarshal);
    }
  }

  /** When every cluster-config file unmarshals to `config`, and there is at
      least one, the scan finds `config`. */
  lemma {:induction false} ScanFindsAgreeingConfig(files: seq<File>, unmarshal: Bytes -> Result<ConfigurationObject, string>,
                                                  config: ConfigurationObject)
    requires exists f :: f in files && f.filename == KubeSysConfigPath
    requires forall f :: f in files && f.filename == KubeSysConfigPath ==> unmarshal(f.data) == Success(config)
    ensures Scan(files, unmarshal) == Found(config)
    decreases |files|
  {
    var front := files[..|files| - 1];
    var last := files[|files| - 1];
    assert files == front + [last];
    if exists f :: f in front && f.filename == KubeSysConfigPath {
      ScanFindsAgreeingConfig(front, unmarshal, config);
    } else {
      ScanNotFoundIff(front, unmarshal);
      assert last.filename == KubeSysConfigPath;
    }
  }

  /** How `Load` ends: an error, "not found", or the restored state. */
  datatype LoadOutcome = LoadFailed(error: Error) | Absent | Restored(config: ConfigurationObject, files: seq<File>)

  /** `fetched` is the result of fetching the files under `manifests/`. */
  function LoadSpec(fetched: Result<seq<File>, string>, unmarshal: Bytes -> Result<ConfigurationObject, string>): LoadOutcome
  {
    match fetched
    case Failure(e) => LoadFailed(Error(e))
    case Success(files) =>
      if files == [] then Absent
      else match Scan(files, unmarshal)
        case NotFound => Absent
        case Malformed(e) => LoadFailed(Wrap(e, "failed to unmarshal cluster-config.yaml"))
        case Found(c) => Restored(c, SortFiles(files))
  }

  /** `Load` reports "not found" exactly when the fetch succeeds and no
      fetched file is the cluster config; an empty directory is one such
      case. */
  lemma LoadAbsentIff(fetched: Result<seq<File>, string>, unmarshal: Bytes -> Result<ConfigurationObject, string>)
    ensures LoadSpec(fetched, unmarshal) == Absent <==>
      fetched.Success? && forall f :: f in fetched.value ==> f.filename != KubeSysConfigPath
  {
    if fetched.Success? {
      ScanNotFoundIff(fetched.value, unmarshal);
    }
  }

  /** `Load` fails exactly when the fetch fails or a cluster-config file does
      not unmarshal. */
  lemma LoadFailedIff(fetched: Result<seq<File>, string>, unmarshal: Bytes -> Result<ConfigurationObject, string>)
    ensures LoadSpec(fetched, unmarshal).LoadFailed? <==>
      fetched.Failure? ||
      exists f :: f in fetched.value && f.filename == KubeSysConfigPath && unmarshal(f.data).Failure?
  {
    if fetched.Success? {
      ScanMalformedIff(fetched.value, unmarshal);
    }
  }

  /** A restored state holds exactly the fetched files, sorted by name, and a
      config unmarshalled from the fetched cluster-config file. */
  lemma LoadRestores(fetched: Result<seq<File>, string>, unmarshal: Bytes -> Result<ConfigurationObject, string>)
    requires LoadSpec(fetched, unmarshal).Restored?
    ensures var out := LoadSpec(fetched, unmarshal);
      SortedByFilename(out.files) && multiset(out.files) == multiset(fetched.value)
      && exists f :: f in fetched.value && f.filename == KubeSysConfigPath && unmarshal(f.data) == Success(out.config)
  {
    ScanFoundFromFile(fetched.value, unmarshal);
  }

  /** Restoring what `Generate` produced gives back the same config map and
      the same files, provided the YAML codec round-trips the config map and
      no other asset writes a file at the cluster-config path. */
  lemma RestoreAfterGenerate(p: Parents, env: Collaborators)
    requires GenerateSpec(p, env).Generated?
    requires var out := GenerateSpec(p, env);
      env.unmarshalConfigMap(env.marshalConfigMap(out.config).value) == Success(out.config)
    requires var out := GenerateSpec(p, env);
      forall k :: 1 <= k < |out.files| ==> out.files[k].filename != KubeSysConfigPath
    ensures var out := GenerateSpec(p, env);
      LoadSpec(Success(SortFiles(out.files)), env.unmarshalConfigMap) == Restored(out.config, SortFiles(out.files))
  {
    var out := GenerateSpec(p, env);
    var sorted := SortFiles(out.files);
    var first := out.files[0];
    assert first in multiset(sorted);
    forall f | f in sorted && f.filename == KubeSysConfigPath
      ensures env.unmarshalConfigMap(f.data) == Success(out.config)
    {
      assert f in multiset(out.files);
      var k :| 0 <= k < |out.files| && out.files[k] == f;
      assert k == 0;
    }
    ScanFindsAgreeingConfig(sorted, env.unmarshalConfigMap, out.config);
    SortFilesKeepsSorted(sorted);
  }

  // ---------------------------------------------------------------------
  // The asset

  /** `Manifests`: the generated or restored config map and file list. */
  class Manifests {
    var kubeSysConfig: Option<ConfigurationObject>
    var fileList: seq<File>

    /** The zero value `&Manifests{}`. */
    constructor ()
      ensures kubeSysConfig == None && fileList == []
    {
      kubeSysConfig := None;
      fileList := [];
    }

    /** `Files`: the files generated or restored by the asset. */
    method Files() returns (files: seq<File>)
      ensures files == fileList
    {
      files := fileList;
    }

    /** `Generate`: redact the install config into the cluster-config map,
        then list its file, the rendered bootkube templates and the files of
        the ingress, DNS, networking and infrastructure assets, and sort the
        list by file name. */
    method Generate(p: Parents, env: Collaborators) returns (err: Option<Error>)
      modifies this
      ensures (match GenerateSpec(p, env)
        case RedactionFailed(e) =>
          err == Some(e) && kubeSysConfig == old(kubeSysConfig) && fileList == old(fileList)
        case ConfigMapFailed(c, e) =>
          err == Some(e) && kubeSysConfig == Some(c) && fileList == old(fileList)
        case Panicked(c, first, e) =>
          err == Some(e) && kubeSysConfig == Some(c) && fileList == [first]
        case Generated(c, files) =>
          err == None && kubeSysConfig == Some(c) && fileList == SortFiles(files))
    {
      var redacted := RedactedInstallConfig(env.marshalInstallConfig, p.installConfig);
      if redacted.Failure? {
        return Some(Wrap(redacted.error, "failed to redact install-config"));
      }
      var config := ClusterConfigMap(redacted.value);
      kubeSysConfig := Some(config);
      var kubeSysConfigData := env.marshalConfigMap(config);
      if kubeSysConfigData.Failure? {
        return Some(Wrap(kubeSysConfigData.error, "failed to create kube-system/cluster-config-v1 configmap"));
      }

      fileList := [File(KubeSysConfigPath, kubeSysConfigData.value)];
      var boot := GenerateBootKubeManifests(p, env);
      if boot.Failure? {
        return Some(boot.error);
      }
      fileList := fileList + boot.value;

      fileList := fileList + p.ingressFiles;
      fileList := fileList + p.dnsFiles;
      fileList := fileList + p.networkFiles;
      fileList := fileList + p.infraFiles;

      fileList := SortFiles(fileList);
      return None;
    }

    /** `Load`: adopt the files of a previous run when they include a
        well-formed cluster config. `fetched` is the outcome of fetching the
        files directly under `manifests/`. */
    method Load(fetched: Result<seq<File>, string>, unmarshal: Bytes -> Result<ConfigurationObject, string>)
      returns (found: bool, err: Option<Error>)
      modifies this
      ensures (match LoadSpec(fetched, unmarshal)
        case LoadFailed(e) =>
          !found && err == Some(e) && kubeSysConfig == old(kubeSysConfig) && fileList == old(fileList)
        case Absent =>
          !found && err == None && kubeSysConfig == old(kubeSysConfig) && fileList == old(fileList)
        case Restored(c, files) =>
          found && err == None && kubeSysConfig == Some(c) && fileList == files)
    {
      if fetched.Failure? {
        return false, Some(Error(fetched.error));
      }
      var files := fetched.value;
      if |files| == 0 {
        return false, None;
      }

      var config := EmptyConfigurationObject;
      found := false;
      var i := 0;
      while i < |files|
        invariant 0 <= i <= |files|
        invariant !Scan(files[..i], unmarshal).Malformed?
        invariant found <==> Scan(files[..i], unmarshal).Found?
        invariant found ==> Scan(files[..i], unmarshal) == Found(config)
      {
        var file := files[i];
        assert files[..i + 1][..i] == files[..i];
        if file.filename == KubeSysConfigPath {
          var parsed := unmarshal(file.data);
          if parsed.Failure? {
            ScanKeepsMalformed(files[..i + 1], files[i + 1..], unmarshal);
            assert files[..i + 1] + files[i + 1..] == files;
            return false, Some(Wrap(parsed.error, "failed to unmarshal cluster-config.yaml"));
          }
          config := parsed.value;
          found := true;
        }
        i := i + 1;
      }
      assert files[..i] == files;

      if !found {
        return false, None;
      }

      fileList, kubeSysConfig := files, Some(config);
      fileList := SortFiles(fileList);
      return true, None;
    }
  }
}
