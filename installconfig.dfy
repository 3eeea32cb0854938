/** The install-config record that the manifests asset reads, and its
    redaction before it is written into the cluster-config config map. */
module InstallConfig {
  import opened Wrappers
  import opened Assets

  /** The vSphere platform block, including its vCenter credentials. */
  datatype VSpherePlatform = VSpherePlatform(
    vCenter: string,
    username: string,
    password: string,
    datacenter: string,
    defaultDatastore: string)

  /** `types.Platform`: one optional block per provider. The blocks of the
      providers other than vSphere are passed through untouched and are held
      here in their serialized form. */
  datatype Platform = Platform(otherProviders: string, vsphere: Option<VSpherePlatform>)

  /** A machine pool; `replicas` is a nil-able pointer in Go. */
  datatype MachinePool = MachinePool(name: string, replicas: Option<int>)

  datatype InstallConfig = InstallConfig(
    name: string,
    baseDomain: string,
    sshKey: string,
    pullSecret: string,
    controlPlane: MachinePool,
    compute: seq<MachinePool>,
    networking: string,
    platform: Platform)

  /** Two vSphere blocks agree on everything but the credentials. */
  predicate SameVSphereExceptCredentials(a: Option<VSpherePlatform>, b: Option<VSpherePlatform>)
  {
    match (a, b)
    case (None, None) => true
    case (Some(x), Some(y)) =>
      x.vCenter == y.vCenter && x.datacenter == y.datacenter && x.defaultDatastore == y.defaultDatastore
    case _ => false
  }

  /** Two configs agree on everything but the pull secret and the vSphere
      credentials. */
  predicate SameExceptSecrets(a: InstallConfig, b: InstallConfig)
  {
    a.name == b.name && a.baseDomain == b.baseDomain && a.sshKey == b.sshKey
    && a.controlPlane == b.controlPlane && a.compute == b.compute && a.networking == b.networking
    && a.platform.otherProviders == b.platform.otherProviders
    && SameVSphereExceptCredentials(a.platform.vsphere, b.platform.vsphere)
  }

  /** The record `redactedInstallConfig` serializes. Go passes the config by
      value and copies the vSphere block before clearing it, so the caller's
      config is never touched; here every value is immutable. */
  function Redacted(config: InstallConfig): (r: InstallConfig)
    ensures r.pullSecret == ""
    ensures r.platform.vsphere.Some? <==> config.platform.vsphere.Some?
    ensures r.platform.vsphere.Some? ==> r.platform.vsphere.value.username == "" && r.platform.vsphere.value.password == ""
    ensures SameExceptSecrets(config, r)
  {
    var platform :=
      match config.platform.vsphere
      case None => config.platform
      case Some(p) => config.platform.(vsphere := Some(p.(username := "", password := "")));
    config.(pullSecret := "", platform := platform)
  }

  /** Two configs redact to the same record exactly when they differ at most
      in their secrets. */
  lemma RedactedEqualIff(a: InstallConfig, b: InstallConfig)
    ensures Redacted(a) == Redacted(b) <==> SameExceptSecrets(a, b)
  {
    if SameExceptSecrets(a, b) {
      var ra, rb := Redacted(a), Redacted(b);
      match a.platform.vsphere
      case None =>
        assert ra.platform == rb.platform;
      case Some(x) =>
        var y := b.platform.vsphere.value;
        assert ra.platform.vsphere.value == rb.platform.vsphere.value;
    }
  }

  lemma RedactedIdempotent(config: InstallConfig)
    ensures Redacted(Redacted(config)) == Redacted(config)
  {
  }

  /** `redactedInstallConfig`: the redacted record, serialized by the YAML
      marshaller. */
  function RedactedInstallConfig(marshal: InstallConfig -> Result<Bytes, string>, config: InstallConfig): Result<Bytes, string>
  {
    marshal(Redacted(config))
  }

  /** Whatever the marshaller does, the serialized config does not depend on
      the pull secret or on the vSphere credentials: configs that differ only
      there serialize to the same bytes, or fail the same way. */
  lemma RedactedInstallConfigHidesSecrets(marshal: InstallConfig -> Result<Bytes, string>, a: InstallConfig, b: InstallConfig)
    requires SameExceptSecrets(a, b)
    ensures RedactedInstallConfig(marshal, a) == RedactedInstallConfig(marshal, b)
  {
    RedactedEqualIff(a, b);
  }
}
