/**
 The patches that make a session out of Amalthea's base manifest: one function for each patch
 generator, in the order in which UserServer._get_patches chains them.  A patch is a list of
 operations; the members of appended containers that no later operation addresses (image,
 resources, probes, security context) are left out.
 */
module SessionPatches {
  import opened Prelude
  import opened Json
  import opened Pods
  import opened Text

  type Patch = seq<Op>

  /**
   The deployment's configuration: texts by name, and the parts that decide which patches there are.
   An empty name of the host key secret counts as none.
   */
  datatype Config = Config(
    texts: map<string, string>,
    values: map<string, Json>,
    containersRegistered: seq<string>,
    containersAnonymous: seq<string>,
    sshEnabled: bool,
    sshHostKeySecret: Option<string>)

  datatype UserSecrets = UserSecrets(name: string, mountPath: string)

  datatype Storage = Storage(mountFolder: string, readOnly: bool)

  /** What a session is launched with. */
  datatype Server = Server(
    name: string,
    url: string,
    workDir: string,
    mountPath: string,
    username: string,
    registered: bool,
    accessToken: string,
    refreshToken: string,
    email: string,
    fullName: string,
    commitSha: Option<string>,
    project: Option<string>,
    projectPath: Option<string>,
    lfsAutoFetch: bool,
    imagePrivate: bool,
    hasNodeAffinities: bool,
    priorityClass: Option<string>,
    environment: seq<(string, string)>,
    repositories: seq<string>,
    providers: seq<string>,
    userSecrets: Option<UserSecrets>,
    storages: seq<Storage>)

  function SettingText(cfg: Config, name: string): string {
    if name in cfg.texts then cfg.texts[name] else ""
  }

  function Setting(cfg: Config, name: string): Json {
    Str(SettingText(cfg, name))
  }

  function Opaque(cfg: Config, name: string): Json {
    if name in cfg.values then cfg.values[name] else Null
  }

  // ----------------------------------------------------------------- pieces

  function EnvVar(name: string, value: Json): Json {
    Obj(map["name" := Str(name), "value" := value])
  }

  function OptionalText(value: Option<string>): Json {
    if value.Some? then Str(value.value) else Null
  }

  function Mount(name: string, path: Json, readOnly: bool): Json {
    Obj(map["name" := Str(name), "mountPath" := path, "readOnly" := Bool(readOnly)])
  }

  function EtcCertsMount(readOnly: bool): Json {
    Mount("etc-ssl-certs", Str("/etc/ssl/certs/"), readOnly)
  }

  const CA_BUNDLE := "/etc/ssl/certs/ca-certificates.crt"

  function Volume(name: string, source: string, value: Json): Json {
    Obj(map["name" := Str(name), source := value])
  }

  function NewContainer(name: string, fields: map<string, Json>): Json {
    Obj(fields["name" := Str(name)])
  }

  function ToSpec(name: string, value: Json): Patch {
    [Add(SPEC + [Key(name)], value)]
  }

  function ToSlot(slot: Slot, value: Json): Patch {
    [Add(SlotPath(slot) + [End], value)]
  }

  function ToField(slot: Slot, index: nat, field: string, value: Json): Patch {
    [Add(FieldPath(slot, index, field) + [End], value)]
  }

  // ---------------------------------------------------------------- general

  function Take(names: seq<string>, n: nat): seq<string> {
    if |names| < n then names else names[..n]
  }

  function ExpectedContainers(cfg: Config, sv: Server): seq<string> {
    if sv.registered then Take(cfg.containersRegistered, 2) else Take(cfg.containersAnonymous, 1)
  }

  function TestOp(index: nat, name: string): Op {
    Op.Test(FieldPath(Containers, index, "name"), Str(name))
  }

  function TestContainers(cfg: Config, sv: Server): seq<Patch> {
    var names := ExpectedContainers(cfg, sv);
    seq(|names|, k requires 0 <= k < |names| => [TestOp(k, names[k])])
  }

  function SessionTolerations(cfg: Config): seq<Patch> {
    [ToSpec("tolerations", Opaque(cfg, "tolerations"))]
  }

  function SessionAffinity(cfg: Config): seq<Patch> {
    [ToSpec("affinity", Opaque(cfg, "affinity"))]
  }

  function SessionNodeSelector(cfg: Config, sv: Server): seq<Patch> {
    if sv.hasNodeAffinities then [] else [ToSpec("nodeSelector", Opaque(cfg, "node_selector"))]
  }

  function PriorityClass(sv: Server): seq<Patch> {
    if sv.priorityClass.None? then [] else [ToSpec("priorityClassName", Str(sv.priorityClass.value))]
  }

  function ShmVolume(cfg: Config): Json {
    Volume("shm", "emptyDir", Opaque(cfg, "shm"))
  }

  const SHM_MOUNT := Obj(map["mountPath" := Str("/dev/shm"), "name" := Str("shm")])

  function DevShm(cfg: Config): seq<Patch> {
    [ToSlot(Volumes, ShmVolume(cfg)) + ToField(Containers, 0, "volumeMounts", SHM_MOUNT)]
  }

  function UnverifiedEmailVar(cfg: Config): Json {
    EnvVar("OAUTH2_PROXY_INSECURE_OIDC_ALLOW_UNVERIFIED_EMAIL", Setting(cfg, "oidc.allow_unverified_email"))
  }

  function OidcUnverifiedEmail(cfg: Config, sv: Server): seq<Patch> {
    if sv.registered then [ToField(Containers, 1, "env", UnverifiedEmailVar(cfg))] else []
  }

  // --------------------------------------------------------- jupyter_server

  const JUPYTER_ARGS := Arr([Str("jupyter"), Str("notebook")])

  function Args(): seq<Patch> {
    [[Add(FieldPath(Containers, 0, "args"), JUPYTER_ARGS)]]
  }

  function FixedEnv(sv: Server): seq<(string, Json)> {
    [("RENKU_USERNAME", Str(sv.username)),
     ("CI_COMMIT_SHA", OptionalText(sv.commitSha)),
     ("NOTEBOOK_DIR", Str(sv.workDir)),
     ("MOUNT_PATH", Str(sv.workDir)),
     ("SESSION_URL", Str(sv.url)),
     ("PROJECT_NAME", OptionalText(sv.project)),
     ("GIT_CLONE_REPO", Str("true"))]
  }

  /** A variable that the user asks for clashes with one that the service sets. */
  predicate Overrides(fixed: seq<(string, Json)>, variable: (string, string)) {
    exists k | 0 <= k < |fixed| :: fixed[k].0 == variable.0 && fixed[k].1 != Str(variable.1)
  }

  function JupyterEnv(sv: Server): (env: seq<Json>)
    ensures |env| == |FixedEnv(sv)| + |sv.environment|
  {
    var fixed := FixedEnv(sv);
    seq(|fixed|, k requires 0 <= k < |fixed| => EnvVar(fixed[k].0, fixed[k].1))
    + seq(|sv.environment|,
          k requires 0 <= k < |sv.environment| => EnvVar(sv.environment[k].0, Str(sv.environment[k].1)))
  }

  /** The patch is refused when a variable would override a fixed one with another value. */
  function Env(sv: Server): Result<seq<Patch>, string> {
    if exists k | 0 <= k < |sv.environment| :: Overrides(FixedEnv(sv), sv.environment[k]) then
      Err("OverriddenEnvironmentVariableError")
    else Ok([Appends(FieldPath(Containers, 0, "env"), JupyterEnv(sv))])
  }

  function ImagePullSecret(cfg: Config, sv: Server): seq<Patch> {
    if !sv.imagePrivate then []
    else [[Add([Key("image_pull_secret")], Opaque(cfg, "image_pull_secret"))],
          ToSlot(PullSecrets, Obj(map["name" := Str(sv.name + "-image-secret")]))]
  }

  function DisableServiceLinks(): seq<Patch> {
    [ToSpec("enableServiceLinks", Bool(false))]
  }

  function RenvironVolume(sv: Server): Json {
    Volume(sv.name + "-renviron", "secret", Obj(map["secretName" := Str(sv.name + "-renviron")]))
  }

  function RenvironMount(sv: Server): Json {
    Obj(map["name" := Str(sv.name + "-renviron"), "mountPath" := Str("/home/jovyan/.Renviron"),
            "subPath" := Str(".Renviron"), "readOnly" := Bool(true)])
  }

  function RstudioEnvVariables(cfg: Config, sv: Server): seq<Patch> {
    if sv.environment == [] then []
    else [[Add([Key("renviron")], Opaque(cfg, "renviron"))]
          + ToSlot(Volumes, RenvironVolume(sv))
          + ToField(Containers, 0, "volumeMounts", RenvironMount(sv))]
  }

  function SecretsEnv(cfg: Config, sv: Server): seq<Json> {
    [EnvVar("DATA_SERVICE_URL", Setting(cfg, "data_service_url")),
     EnvVar("RENKU_ACCESS_TOKEN", Str(sv.accessToken)),
     EnvVar("ENCRYPTED_SECRETS_MOUNT_PATH", Str("/encrypted")),
     EnvVar("DECRYPTED_SECRETS_MOUNT_PATH", Str("/decrypted"))]
  }

  function SecretsContainer(cfg: Config, sv: Server, secrets: UserSecrets): Json {
    NewContainer("init-user-secrets", map[
      "env" := Arr(SecretsEnv(cfg, sv)),
      "volumeMounts" := Arr([Mount(secrets.name + "-volume", Str("/encrypted"), true),
                             Mount("user-secrets-volume", Str("/decrypted"), false)])])
  }

  function SecretsVolumes(cfg: Config, secrets: UserSecrets): seq<Json> {
    [Volume("user-secrets-volume", "emptyDir", Opaque(cfg, "user_secrets_volume")),
     Volume(secrets.name + "-volume", "secret", Obj(map["secretName" := Str(secrets.name)]))]
  }

  function SecretsMount(secrets: UserSecrets): Json {
    Mount("user-secrets-volume", Str(secrets.mountPath), true)
  }

  function UserSecretsPatches(cfg: Config, sv: Server): seq<Patch> {
    match sv.userSecrets
    case None => []
    case Some(secrets) =>
      [ToSlot(Inits, SecretsContainer(cfg, sv, secrets)),
       Appends(SlotPath(Volumes), SecretsVolumes(cfg, secrets)),
       ToField(Containers, 0, "volumeMounts", SecretsMount(secrets))]
  }

  // -------------------------------------------------- git proxy and sidecar

  function ProxyEnvFront(cfg: Config, sv: Server): seq<Json> {
    [EnvVar("GIT_PROXY_PORT", Setting(cfg, "git_proxy.port")),
     EnvVar("GIT_PROXY_HEALTH_PORT", Setting(cfg, "git_proxy.health_port")),
     EnvVar("GIT_PROXY_ANONYMOUS_SESSION", Str(if sv.registered then "false" else "true"))]
  }

  function ProxyEnvRest(cfg: Config): seq<Json> {
    [EnvVar("GIT_PROXY_RENKU_REALM", Setting(cfg, "keycloak_realm")),
     EnvVar("GIT_PROXY_RENKU_CLIENT_ID", Setting(cfg, "git_proxy.renku_client_id")),
     EnvVar("GIT_PROXY_RENKU_CLIENT_SECRET", Setting(cfg, "git_proxy.renku_client_secret")),
     EnvVar("GIT_PROXY_RENKU_URL", Setting(cfg, "ingress.url")),
     EnvVar("GIT_PROXY_REPOSITORIES", Setting(cfg, "git_proxy.repositories")),
     EnvVar("GIT_PROXY_PROVIDERS", Setting(cfg, "git_proxy.providers"))]
  }

  function GitProxyEnv(cfg: Config, sv: Server): seq<Json> {
    ProxyEnvFront(cfg, sv)
    + [EnvVar("GIT_PROXY_RENKU_ACCESS_TOKEN", Str(sv.accessToken)),
       EnvVar("GIT_PROXY_RENKU_REFRESH_TOKEN", Str(sv.refreshToken))]
    + ProxyEnvRest(cfg)
  }

  function GitProxyContainer(cfg: Config, sv: Server): Json {
    NewContainer("git-proxy", map["env" := Arr(GitProxyEnv(cfg, sv)), "volumeMounts" := Arr([EtcCertsMount(true)])])
  }

  predicate HasGitContainers(sv: Server) {
    sv.registered && sv.repositories != []
  }

  function GitProxy(cfg: Config, sv: Server): seq<Patch> {
    if !HasGitContainers(sv) then [] else [ToSlot(Containers, GitProxyContainer(cfg, sv))]
  }

  function SidecarMount(sv: Server): Json {
    var mount := map["mountPath" := Str(sv.workDir), "name" := Str("workspace")];
    if sv.projectPath.Some? && sv.projectPath.value != "" then Obj(mount["subPath" := Str(sv.projectPath.value)])
    else Obj(mount)
  }

  function SidecarEnvFront(cfg: Config, sv: Server): seq<Json> {
    [EnvVar("GIT_RPC_MOUNT_PATH", Str(sv.workDir)),
     EnvVar("GIT_RPC_PORT", Setting(cfg, "git_rpc_server.port")),
     EnvVar("GIT_RPC_HOST", Setting(cfg, "git_rpc_server.host")),
     EnvVar("GIT_RPC_URL_PREFIX", Str("/sessions/" + sv.name + "/sidecar/"))]
  }

  function SidecarEnvSentry(cfg: Config): seq<Json> {
    [EnvVar("GIT_RPC_SENTRY__ENABLED", Setting(cfg, "git_rpc_server.sentry.enabled")),
     EnvVar("GIT_RPC_SENTRY__DSN", Setting(cfg, "git_rpc_server.sentry.dsn")),
     EnvVar("GIT_RPC_SENTRY__ENVIRONMENT", Setting(cfg, "git_rpc_server.sentry.env")),
     EnvVar("GIT_RPC_SENTRY__SAMPLE_RATE", Setting(cfg, "git_rpc_server.sentry.sample_rate"))]
  }

  function SidecarEnvRest(cfg: Config, sv: Server): seq<Json> {
    [EnvVar("SENTRY_RELEASE", Opaque(cfg, "SENTRY_RELEASE")),
     EnvVar("CI_COMMIT_SHA", Str(if sv.commitSha.Some? then sv.commitSha.value else "None")),
     EnvVar("RENKU_USERNAME", Str(sv.username)),
     EnvVar("GIT_RPC_GIT_PROXY_HEALTH_PORT", Setting(cfg, "git_proxy.health_port"))]
  }

  function SidecarEnv(cfg: Config, sv: Server): seq<Json> {
    SidecarEnvFront(cfg, sv) + SidecarEnvSentry(cfg) + SidecarEnvRest(cfg, sv)
  }

  function GitSidecarContainer(cfg: Config, sv: Server): Json {
    NewContainer("git-sidecar", map["env" := Arr(SidecarEnv(cfg, sv)), "volumeMounts" := Arr([SidecarMount(sv)])])
  }

  function UpstreamArg(sv: Server): Json {
    Str("--upstream=http://127.0.0.1:8888/sessions/" + sv.name + "/")
  }

  function SidecarArgs(cfg: Config, sv: Server): seq<Json> {
    [Str("--upstream=http://127.0.0.1:" + SettingText(cfg, "git_rpc_server.port") + "/sessions/" + sv.name
         + "/sidecar/"),
     Str("--skip-auth-route=^/sessions/" + sv.name + "/sidecar/health$"),
     Str("--skip-auth-route=^/sessions/" + sv.name + "/sidecar/health/$"),
     Str("--skip-jwt-bearer-tokens=true"),
     Str("--skip-auth-route=^/sessions/" + sv.name + "/sidecar/jsonrpc/map$"),
     Str("--oidc-extra-audience=renku")]
  }

  function GitSidecar(cfg: Config, sv: Server): seq<Patch> {
    if !HasGitContainers(sv) then []
    else [ToSlot(Containers, GitSidecarContainer(cfg, sv)),
          [Replace(FieldPath(Containers, 1, "args") + [At(6)], UpstreamArg(sv))]
          + Appends(FieldPath(Containers, 1, "args"), SidecarArgs(cfg, sv)),
          [Add([Key("serviceRpcServer")], Opaque(cfg, "serviceRpcServer"))]]
  }

  // -------------------------------------------------------------------- ssh

  function SshVolume(secret: string): Json {
    Volume("ssh-host-keys", "secret", Obj(map["secretName" := Str(secret)]))
  }

  function SshMount(cfg: Config): Json {
    Obj(map["name" := Str("ssh-host-keys"), "mountPath" := Setting(cfg, "ssh.host_key_location")])
  }

  function Ssh(cfg: Config): seq<Patch> {
    if !cfg.sshEnabled then []
    else
      var ports :=
        ToSlot(ServicePorts, Opaque(cfg, "ssh.service_port"))
        + [Add(FieldPath(Containers, 0, "ports"), Opaque(cfg, "ssh.container_ports"))];
      match cfg.sshHostKeySecret
      case None => [ports]
      case Some(secret) =>
        [ports, ToField(Containers, 0, "volumeMounts", SshMount(cfg)) + ToSlot(Volumes, SshVolume(secret))]
  }

  // ------------------------------------------------------- init containers

  function CertificatesContainer(cfg: Config): Json {
    NewContainer("init-certificates", map[
      "volumeMounts" := Arr([EtcCertsMount(false), Mount("custom-ca-certs", Setting(cfg, "ca_certs.path"), true)])])
  }

  function CertificateVolumes(cfg: Config): seq<Json> {
    [Volume("etc-ssl-certs", "emptyDir", Obj(map["medium" := Str("Memory")])),
     Volume("custom-ca-certs", "projected", Opaque(cfg, "ca_certs.projected"))]
  }

  function Certificates(cfg: Config): seq<Patch> {
    [ToSlot(Inits, CertificatesContainer(cfg)),
     ToSlot(Volumes, CertificateVolumes(cfg)[0]),
     ToSlot(Volumes, CertificateVolumes(cfg)[1])]
  }

  /** This container gets no environment at all. */
  const DOWNLOAD_CONTAINER := NewContainer("download-image", map[
    "command" := Arr([Str("sh"), Str("-c")]), "args" := Arr([Str("exit"), Str("0")])])

  function DownloadImage(): seq<Patch> {
    [ToSlot(Inits, DOWNLOAD_CONTAINER)]
  }

  function Numbered(prefix: string, values: seq<string>, suffix: string): (env: seq<Json>)
    ensures |env| == |values|
  {
    seq(|values|, k requires 0 <= k < |values| => EnvVar(prefix + Decimal(k) + suffix, Str(values[k])))
  }

  function CloneEnvFront(sv: Server): seq<Json> {
    [EnvVar("GIT_CLONE_MOUNT_PATH", Str(sv.mountPath)),
     EnvVar("GIT_CLONE_LFS_AUTO_FETCH", Str(if sv.lfsAutoFetch then "1" else "0")),
     EnvVar("GIT_CLONE_USER__USERNAME", Str(sv.username))]
  }

  function CloneEnvSentry(cfg: Config): seq<Json> {
    [EnvVar("GIT_CLONE_SENTRY__ENABLED", Setting(cfg, "git_clone.sentry.enabled")),
     EnvVar("GIT_CLONE_SENTRY__DSN", Setting(cfg, "git_clone.sentry.dsn")),
     EnvVar("GIT_CLONE_SENTRY__ENVIRONMENT", Setting(cfg, "git_clone.sentry.env")),
     EnvVar("GIT_CLONE_SENTRY__SAMPLE_RATE", Setting(cfg, "git_clone.sentry.sample_rate"))]
  }

  function CloneEnvSettings(cfg: Config, sv: Server): seq<Json> {
    [EnvVar("GIT_CLONE_IS_GIT_PROXY_ENABLED", Str(if sv.registered then "1" else "0"))]
    + CloneEnvSentry(cfg)
    + [EnvVar("SENTRY_RELEASE", Opaque(cfg, "SENTRY_RELEASE")),
       EnvVar("REQUESTS_CA_BUNDLE", Str(CA_BUNDLE)),
       EnvVar("SSL_CERT_FILE", Str(CA_BUNDLE))]
  }

  function CloneEnvUser(sv: Server): seq<Json> {
    if sv.registered then
      [EnvVar("GIT_CLONE_USER__EMAIL", Str(sv.email)), EnvVar("GIT_CLONE_USER__FULL_NAME", Str(sv.fullName))]
    else []
  }

  function GitCloneEnv(cfg: Config, sv: Server): seq<Json> {
    CloneEnvFront(sv)
    + [EnvVar("GIT_CLONE_USER__RENKU_TOKEN", Str(sv.accessToken))]
    + CloneEnvSettings(cfg, sv)
    + CloneEnvUser(sv)
    + Numbered("GIT_CLONE_REPOSITORIES_", sv.repositories, "_")
    + Numbered("GIT_CLONE_GIT_PROVIDERS_", sv.providers, "_")
  }

  function GitCloneContainer(cfg: Config, sv: Server, env: seq<Json>): Json {
    NewContainer("git-clone", map[
      "env" := Arr(env),
      "volumeMounts" := Arr([Obj(map["mountPath" := Str(sv.mountPath), "name" := Str("workspace")]),
                             EtcCertsMount(true)])])
  }

  function GitClone(cfg: Config, sv: Server): seq<Patch> {
    if sv.repositories == [] then []
    else [ToSlot(Inits, GitCloneContainer(cfg, sv, GitCloneEnv(cfg, sv)))]
  }

  // --------------------------------------------- certificates for the proxy

  function CaFilesVar(): Json {
    EnvVar("OAUTH2_PROXY_PROVIDER_CA_FILES", Str(CA_BUNDLE))
  }

  function InjectCertificates(sv: Server): seq<Patch> {
    [ToField(Containers, 1, "volumeMounts", EtcCertsMount(true))]
    + if sv.registered then [ToField(Containers, 1, "env", CaFilesVar())] else []
  }

  // ---------------------------------------------------------- cloud storage

  function BaseName(sv: Server, i: nat): string {
    sv.name + "-ds-" + Decimal(i)
  }

  function StorageMount(sv: Server, i: nat): Json
    requires i < |sv.storages|
  {
    Mount(BaseName(sv, i), Str(sv.storages[i].mountFolder), sv.storages[i].readOnly)
  }

  function StorageVolume(sv: Server, i: nat): Json
    requires i < |sv.storages|
  {
    Volume(BaseName(sv, i), "persistentVolumeClaim",
           Obj(map["claimName" := Str(BaseName(sv, i)), "readOnly" := Bool(sv.storages[i].readOnly)]))
  }

  function StorageVar(sv: Server, i: nat): Json
    requires i < |sv.storages|
  {
    EnvVar("GIT_CLONE_STORAGE_MOUNTS_" + Decimal(i), Str(sv.storages[i].mountFolder))
  }

  /** RCloneStorageRequest.get_manifest_patch */
  function StorageManifest(cfg: Config, sv: Server, i: nat): Patch
    requires i < |sv.storages|
  {
    [Add([Key(BaseName(sv, i) + "-pv")], Opaque(cfg, BaseName(sv, i) + "-pv")),
     Add([Key(BaseName(sv, i) + "-secret")], Opaque(cfg, BaseName(sv, i) + "-secret"))]
    + ToField(Containers, 0, "volumeMounts", StorageMount(sv, i))
    + ToSlot(Volumes, StorageVolume(sv, i))
  }

  /** The third init container is expected to be the one that clones. */
  function StoragePatches(cfg: Config, sv: Server, i: nat): seq<Patch>
    requires i < |sv.storages|
  {
    [StorageManifest(cfg, sv, i)]
    + if sv.repositories == [] then [] else [ToField(Inits, 2, "env", StorageVar(sv, i))]
  }

  function CloudStorageUpTo(cfg: Config, sv: Server, n: nat): seq<Patch>
    requires n <= |sv.storages|
  {
    if n == 0 then [] else CloudStorageUpTo(cfg, sv, n - 1) + StoragePatches(cfg, sv, n - 1)
  }

  function CloudStorage(cfg: Config, sv: Server): seq<Patch> {
    CloudStorageUpTo(cfg, sv, |sv.storages|)
  }

  // --------------------------------------------------------------- all of it

  /** The patches up to the user secrets, and the rest. */
  function GeneralPatches(cfg: Config, sv: Server): seq<Patch> {
    TestContainers(cfg, sv) + SessionTolerations(cfg) + SessionAffinity(cfg) + SessionNodeSelector(cfg, sv)
    + PriorityClass(sv) + DevShm(cfg)
  }

  function JupyterPatches(cfg: Config, sv: Server, env: seq<Patch>): seq<Patch> {
    Args() + env + ImagePullSecret(cfg, sv) + DisableServiceLinks() + RstudioEnvVariables(cfg, sv)
    + UserSecretsPatches(cfg, sv)
  }

  function SidecarPatches(cfg: Config, sv: Server): seq<Patch> {
    GitProxy(cfg, sv) + GitSidecar(cfg, sv) + OidcUnverifiedEmail(cfg, sv) + Ssh(cfg)
  }

  function InitPatches(cfg: Config, sv: Server): seq<Patch> {
    Certificates(cfg) + DownloadImage() + GitClone(cfg, sv) + InjectCertificates(sv)
  }

  /** UserServer._get_patches */
  function GetPatches(cfg: Config, sv: Server): Result<seq<Patch>, string> {
    match Env(sv)
    case Err(e) => Err(e)
    case Ok(env) =>
      Ok(GeneralPatches(cfg, sv) + JupyterPatches(cfg, sv, env) + SidecarPatches(cfg, sv)
         + InitPatches(cfg, sv) + CloudStorage(cfg, sv))
  }

  /** The operations of a list of patches, in order. */
  function Operations(patches: seq<Patch>): seq<Op> {
    if patches == [] then [] else patches[0] + Operations(patches[1..])
  }

  lemma {:induction false} OperationsThen(a: seq<Patch>, b: seq<Patch>)
    ensures Operations(a + b) == Operations(a) + Operations(b)
  {
    if a == [] {
      assert a + b == b;
    } else {
      assert (a + b)[1..] == a[1..] + b;
      OperationsThen(a[1..], b);
    }
  }
}
