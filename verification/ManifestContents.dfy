/**
 What the patched manifest holds, in the names and values that Kubernetes reads: the arguments,
 variables, mounts, containers and volumes of a session, written out one by one.
 */
module ManifestContents {
  import opened Prelude
  import opened Json
  import opened Text
  import opened Pods
  import opened SessionPatches
  import opened ManifestForm
  import opened Manifest
  import opened ManifestResult
  import opened ManifestMembers

  // -------------------------------------------------------------- what is read

  predicate Holds(x: Json, name: string, value: Json) {
    Child(x, Key(name)) == Some(value)
  }

  predicate IsVar(x: Json, name: string, value: Json) {
    Holds(x, "name", Str(name)) && Holds(x, "value", value)
  }

  /** A text of the configuration; one that is not there is empty. */
  predicate IsText(cfg: Config, name: string, x: Json) {
    x == Str(if name in cfg.texts then cfg.texts[name] else "")
  }

  predicate IsSetVar(cfg: Config, x: Json, name: string, setting: string) {
    Holds(x, "name", Str(name)) && Child(x, Key("value")).Some? && IsText(cfg, setting, Child(x, Key("value")).value)
  }

  predicate IsMount(x: Json, volume: string, path: string, readOnly: bool) {
    Holds(x, "name", Str(volume)) && Holds(x, "mountPath", Str(path)) && Holds(x, "readOnly", Bool(readOnly))
  }

  /** A volume of a secret. */
  predicate IsSecretVolume(x: Json, name: string, secret: string) {
    && Holds(x, "name", Str(name))
    && Child(x, Key("secret")).Some? && Holds(Child(x, Key("secret")).value, "secretName", Str(secret))
  }

  lemma VarsAreVars()
    ensures forall name, value :: IsVar(EnvVar(name, value), name, value)
  {
  }

  lemma SetVarsAreVars(cfg: Config)
    ensures forall name, setting :: IsSetVar(cfg, EnvVar(name, Setting(cfg, setting)), name, setting)
  {
  }

  lemma VarsHaveNames()
    ensures forall name, value :: Holds(EnvVar(name, value), "name", Str(name))
  {
  }

  lemma MountsAreMounts()
    ensures forall name, path, readOnly :: IsMount(Mount(name, Str(path), readOnly), name, path, readOnly)
  {
  }

  // -------------------------------------------------------- the main container

  /** The variables of the notebook: seven of the service, then those that the user asks for. */
  ghost predicate MainVars(sv: Server, env: seq<Json>) {
    && |env| == 7 + |sv.environment|
    && IsVar(env[0], "RENKU_USERNAME", Str(sv.username))
    && IsVar(env[1], "CI_COMMIT_SHA", if sv.commitSha.Some? then Str(sv.commitSha.value) else Null)
    && IsVar(env[2], "NOTEBOOK_DIR", Str(sv.workDir))
    && IsVar(env[3], "MOUNT_PATH", Str(sv.workDir))
    && IsVar(env[4], "SESSION_URL", Str(sv.url))
    && IsVar(env[5], "PROJECT_NAME", if sv.project.Some? then Str(sv.project.value) else Null)
    && IsVar(env[6], "GIT_CLONE_REPO", Str("true"))
    && forall k | 0 <= k < |sv.environment| :: IsVar(env[7 + k], sv.environment[k].0, Str(sv.environment[k].1))
  }

  lemma JupyterEnvIs(sv: Server)
    ensures MainVars(sv, JupyterEnv(sv))
  {
    hide EnvVar, IsVar, IsSetVar;
    VarsAreVars();
  }

  /** The mounts of the notebook: shared memory, .Renviron, user secrets, host keys and the storages, in this order. */
  ghost predicate MainMounts(cfg: Config, sv: Server, mounts: seq<Json>) {
    var renviron := if sv.environment == [] then 0 else 1;
    var secrets := if sv.userSecrets.None? then 0 else 1;
    var keys := if cfg.sshEnabled && cfg.sshHostKeySecret.Some? then 1 else 0;
    var n := 1 + renviron + secrets + keys;
    && |mounts| == n + |sv.storages|
    && Holds(mounts[0], "name", Str("shm")) && Holds(mounts[0], "mountPath", Str("/dev/shm"))
    && (renviron == 1 ==>
          && IsMount(mounts[1], sv.name + "-renviron", "/home/jovyan/.Renviron", true)
          && Holds(mounts[1], "subPath", Str(".Renviron")))
    && (secrets == 1 ==> IsMount(mounts[1 + renviron], "user-secrets-volume", sv.userSecrets.value.mountPath, true))
    && (keys == 1 ==> Holds(mounts[n - 1], "name", Str("ssh-host-keys")))
    && forall i: nat | i < |sv.storages| ::
         IsMount(mounts[n + i], sv.name + "-ds-" + Decimal(i), sv.storages[i].mountFolder, sv.storages[i].readOnly)
  }

  lemma MainMountsAre(cfg: Config, sv: Server)
    ensures MainMounts(cfg, sv, AllAdditions(cfg, sv).mainMounts)
  {
    hide Mount, IsMount, AllAdditions, RenvironMount, SshMount;
    MountsAreMounts();
    RenvironMountIs(sv);
    SshMountIs(cfg);
    MainMountsOfAll(cfg, sv);
    var early := EarlyMounts(cfg, sv) + HostKeyMounts(cfg);
    assert AllAdditions(cfg, sv).mainMounts == early + StorageMounts(sv);
    ShmMountIs();
  }

  lemma MainMountsOfAll(cfg: Config, sv: Server)
    ensures AllAdditions(cfg, sv).mainMounts == EarlyMounts(cfg, sv) + HostKeyMounts(cfg) + StorageMounts(sv)
  {
  }

  lemma ShmMountIs()
    ensures Holds(SHM_MOUNT, "name", Str("shm")) && Holds(SHM_MOUNT, "mountPath", Str("/dev/shm"))
  {
  }

  lemma RenvironMountIs(sv: Server)
    ensures var x := RenvironMount(sv);
      IsMount(x, sv.name + "-renviron", "/home/jovyan/.Renviron", true) && Holds(x, "subPath", Str(".Renviron"))
  {
  }

  lemma SshMountIs(cfg: Config)
    ensures Holds(SshMount(cfg), "name", Str("ssh-host-keys"))
  {
  }

  // ------------------------------------------------------------ the proxy

  ghost predicate ProxyVarsAre(cfg: Config, sv: Server, env: seq<Json>) {
    if !sv.registered then env == []
    else
      && |env| == 2
      && IsSetVar(cfg, env[0], "OAUTH2_PROXY_INSECURE_OIDC_ALLOW_UNVERIFIED_EMAIL", "oidc.allow_unverified_email")
      && IsVar(env[1], "OAUTH2_PROXY_PROVIDER_CA_FILES", Str("/etc/ssl/certs/ca-certificates.crt"))
  }

  lemma ProxyEnvIs(cfg: Config, sv: Server)
    ensures ProxyVarsAre(cfg, sv, If(sv.registered, [UnverifiedEmailVar(cfg), CaFilesVar()]))
  {
    hide EnvVar, Setting, IsVar, IsSetVar;
    VarsAreVars();
    SetVarsAreVars(cfg);
  }

  lemma ProxyEnvOfAll(cfg: Config, sv: Server)
    ensures AllAdditions(cfg, sv).proxyEnv == If(sv.registered, [UnverifiedEmailVar(cfg), CaFilesVar()])
    ensures AllAdditions(cfg, sv).proxyMounts == [EtcCertsMount(true)]
    ensures AllAdditions(cfg, sv).proxyUpstream == if HasGitContainers(sv) then Some(UpstreamArg(sv)) else None
    ensures AllAdditions(cfg, sv).proxyArgs == If(HasGitContainers(sv), SidecarArgs(cfg, sv))
  {
    hide UnverifiedEmailVar, CaFilesVar, EtcCertsMount, UpstreamArg, SidecarArgs, EarlyMounts, EarlyVolumes;
  }

  /** The arguments of the proxy with the git containers: the seventh is exchanged, and six come behind. */
  ghost predicate ProxyArgsAre(cfg: Config, sv: Server, before: seq<Json>, after: seq<Json>) {
    && |before| > 6 && |after| == |before| + 6
    && after[..6] == before[..6] && after[7..|before|] == before[7..]
    && after[6] == Str("--upstream=http://127.0.0.1:8888/sessions/" + sv.name + "/")
    && SidecarArgsAre(cfg, sv, after[|before|..])
  }

  ghost predicate SidecarArgsAre(cfg: Config, sv: Server, args: seq<Json>) {
    var port := if "git_rpc_server.port" in cfg.texts then cfg.texts["git_rpc_server.port"] else "";
    args == [Str("--upstream=http://127.0.0.1:" + port + "/sessions/" + sv.name + "/sidecar/"),
             Str("--skip-auth-route=^/sessions/" + sv.name + "/sidecar/health$"),
             Str("--skip-auth-route=^/sessions/" + sv.name + "/sidecar/health/$"),
             Str("--skip-jwt-bearer-tokens=true"),
             Str("--skip-auth-route=^/sessions/" + sv.name + "/sidecar/jsonrpc/map$"),
             Str("--oidc-extra-audience=renku")]
  }

  lemma SidecarArgsListed(cfg: Config, sv: Server)
    ensures SidecarArgsAre(cfg, sv, SidecarArgs(cfg, sv))
  {
  }

  lemma ProxyArgsFrom(cfg: Config, sv: Server, args: seq<Json>)
    requires |args| > 6
    ensures ProxyArgsAre(cfg, sv, args, NewArgs(args, Some(UpstreamArg(sv)), SidecarArgs(cfg, sv)))
  {
    hide SidecarArgs, SidecarArgsAre;
    SidecarArgsListed(cfg, sv);
    var after := NewArgs(args, Some(UpstreamArg(sv)), SidecarArgs(cfg, sv));
    SixMore(cfg, sv);
    assert after[|args|..] == SidecarArgs(cfg, sv);
  }

  lemma SixMore(cfg: Config, sv: Server)
    ensures |SidecarArgs(cfg, sv)| == 6
  {
  }

  // ------------------------------------------------------- the git containers

  ghost predicate Named(c: Json, name: string) {
    c.Obj? && Holds(c, "name", Str(name))
  }

  /** The git proxy: who it acts for, with which tokens, and where its settings come from. */
  ghost predicate IsGitProxy(cfg: Config, sv: Server, c: Json) {
    && Named(c, "git-proxy") && FieldItems(c, "env").Some? && FieldItems(c, "volumeMounts").Some?
    && GitProxyVars(cfg, sv, FieldItems(c, "env").value)
    && var mounts := FieldItems(c, "volumeMounts").value;
       |mounts| == 1 && IsMount(mounts[0], "etc-ssl-certs", "/etc/ssl/certs/", true)
  }

  ghost predicate GitProxyVars(cfg: Config, sv: Server, env: seq<Json>) {
    && |env| == 11
    && GitProxyVarsFront(cfg, sv, env[..3])
    && IsVar(env[3], "GIT_PROXY_RENKU_ACCESS_TOKEN", Str(sv.accessToken))
    && IsVar(env[4], "GIT_PROXY_RENKU_REFRESH_TOKEN", Str(sv.refreshToken))
    && GitProxyVarsRest(cfg, env[5..])
  }

  ghost predicate GitProxyVarsFront(cfg: Config, sv: Server, env: seq<Json>) {
    && |env| == 3
    && IsSetVar(cfg, env[0], "GIT_PROXY_PORT", "git_proxy.port")
    && IsSetVar(cfg, env[1], "GIT_PROXY_HEALTH_PORT", "git_proxy.health_port")
    && IsVar(env[2], "GIT_PROXY_ANONYMOUS_SESSION", Str(if sv.registered then "false" else "true"))
  }

  ghost predicate GitProxyVarsRest(cfg: Config, env: seq<Json>) {
    && |env| == 6
    && IsSetVar(cfg, env[0], "GIT_PROXY_RENKU_REALM", "keycloak_realm")
    && IsSetVar(cfg, env[1], "GIT_PROXY_RENKU_CLIENT_ID", "git_proxy.renku_client_id")
    && IsSetVar(cfg, env[2], "GIT_PROXY_RENKU_CLIENT_SECRET", "git_proxy.renku_client_secret")
    && IsSetVar(cfg, env[3], "GIT_PROXY_RENKU_URL", "ingress.url")
    && IsSetVar(cfg, env[4], "GIT_PROXY_REPOSITORIES", "git_proxy.repositories")
    && IsSetVar(cfg, env[5], "GIT_PROXY_PROVIDERS", "git_proxy.providers")
  }

  lemma GitProxyIs(cfg: Config, sv: Server)
    ensures IsGitProxy(cfg, sv, GitProxyContainer(cfg, sv))
  {
    hide IsVar, IsSetVar, IsMount, Mount, GitProxyEnv, GitProxyVars;
    GitProxyVarsListed(cfg, sv);
    MountsAreMounts();
  }

  lemma GitProxyFrontListed(cfg: Config, sv: Server)
    ensures GitProxyVarsFront(cfg, sv, ProxyEnvFront(cfg, sv)) && |ProxyEnvFront(cfg, sv)| == 3
  {
    hide EnvVar, Setting, IsVar, IsSetVar;
    VarsAreVars();
    SetVarsAreVars(cfg);
  }

  lemma GitProxyRestListed(cfg: Config)
    ensures GitProxyVarsRest(cfg, ProxyEnvRest(cfg)) && |ProxyEnvRest(cfg)| == 6
  {
    hide EnvVar, Setting, IsSetVar;
    SetVarsAreVars(cfg);
  }

  lemma GitProxyVarsListed(cfg: Config, sv: Server)
    ensures GitProxyVars(cfg, sv, GitProxyEnv(cfg, sv))
  {
    hide EnvVar, IsVar, ProxyEnvFront, ProxyEnvRest, GitProxyVarsFront, GitProxyVarsRest;
    VarsAreVars();
    GitProxyFrontListed(cfg, sv);
    GitProxyRestListed(cfg);
    var env := GitProxyEnv(cfg, sv);
    assert env[..3] == ProxyEnvFront(cfg, sv) && env[5..] == ProxyEnvRest(cfg);
  }

  ghost predicate IsGitSidecar(cfg: Config, sv: Server, c: Json) {
    && Named(c, "git-sidecar") && FieldItems(c, "env").Some? && FieldItems(c, "volumeMounts").Some?
    && SidecarVars(cfg, sv, FieldItems(c, "env").value)
    && var mounts := FieldItems(c, "volumeMounts").value;
       |mounts| == 1 && IsWorkspace(mounts[0], sv.workDir)
       && IsSubPath(sv.projectPath, mounts[0])
  }

  predicate IsSubPath(path: Option<string>, x: Json) {
    Child(x, Key("subPath")) == if path.Some? && path.value != "" then Some(Str(path.value)) else None
  }

  predicate IsWorkspace(x: Json, path: string) {
    Holds(x, "name", Str("workspace")) && Holds(x, "mountPath", Str(path))
  }

  ghost predicate SidecarVars(cfg: Config, sv: Server, env: seq<Json>) {
    && |env| == 12
    && SidecarVarsFront(cfg, sv, env[..4])
    && SidecarVarsSentry(cfg, env[4..8])
    && SidecarVarsRest(cfg, sv, env[8..])
  }

  ghost predicate SidecarVarsFront(cfg: Config, sv: Server, env: seq<Json>) {
    && |env| == 4
    && IsVar(env[0], "GIT_RPC_MOUNT_PATH", Str(sv.workDir))
    && IsSetVar(cfg, env[1], "GIT_RPC_PORT", "git_rpc_server.port")
    && IsSetVar(cfg, env[2], "GIT_RPC_HOST", "git_rpc_server.host")
    && IsVar(env[3], "GIT_RPC_URL_PREFIX", Str("/sessions/" + sv.name + "/sidecar/"))
  }

  ghost predicate SidecarVarsSentry(cfg: Config, env: seq<Json>) {
    && |env| == 4
    && IsSetVar(cfg, env[0], "GIT_RPC_SENTRY__ENABLED", "git_rpc_server.sentry.enabled")
    && IsSetVar(cfg, env[1], "GIT_RPC_SENTRY__DSN", "git_rpc_server.sentry.dsn")
    && IsSetVar(cfg, env[2], "GIT_RPC_SENTRY__ENVIRONMENT", "git_rpc_server.sentry.env")
    && IsSetVar(cfg, env[3], "GIT_RPC_SENTRY__SAMPLE_RATE", "git_rpc_server.sentry.sample_rate")
  }

  ghost predicate SidecarVarsRest(cfg: Config, sv: Server, env: seq<Json>) {
    && |env| == 4
    && Holds(env[0], "name", Str("SENTRY_RELEASE"))
    && IsVar(env[1], "CI_COMMIT_SHA", Str(if sv.commitSha.Some? then sv.commitSha.value else "None"))
    && IsVar(env[2], "RENKU_USERNAME", Str(sv.username))
    && IsSetVar(cfg, env[3], "GIT_RPC_GIT_PROXY_HEALTH_PORT", "git_proxy.health_port")
  }

  lemma GitSidecarIs(cfg: Config, sv: Server)
    ensures IsGitSidecar(cfg, sv, GitSidecarContainer(cfg, sv))
  {
    hide IsWorkspace, SidecarMount, SidecarVars, SidecarEnv;
    SidecarMountIs(sv);
    SidecarVarsListed(cfg, sv);
  }

  lemma SidecarMountIs(sv: Server)
    ensures IsWorkspace(SidecarMount(sv), sv.workDir)
    ensures IsSubPath(sv.projectPath, SidecarMount(sv))
  {
  }

  lemma SidecarVarsListed(cfg: Config, sv: Server)
    ensures SidecarVars(cfg, sv, SidecarEnv(cfg, sv))
  {
    hide SidecarEnvFront, SidecarEnvSentry, SidecarEnvRest;
    SidecarFrontListed(cfg, sv);
    SidecarSentryListed(cfg);
    SidecarRestListed(cfg, sv);
    hide SidecarVarsFront, SidecarVarsSentry, SidecarVarsRest;
    var env := SidecarEnv(cfg, sv);
    assert env[..4] == SidecarEnvFront(cfg, sv) && env[4..8] == SidecarEnvSentry(cfg)
      && env[8..] == SidecarEnvRest(cfg, sv);
  }

  lemma SidecarFrontListed(cfg: Config, sv: Server)
    ensures SidecarVarsFront(cfg, sv, SidecarEnvFront(cfg, sv)) && |SidecarEnvFront(cfg, sv)| == 4
  {
    hide EnvVar, Setting, IsVar, IsSetVar;
    VarsAreVars();
    SetVarsAreVars(cfg);
  }

  lemma SidecarSentryListed(cfg: Config)
    ensures SidecarVarsSentry(cfg, SidecarEnvSentry(cfg)) && |SidecarEnvSentry(cfg)| == 4
  {
    hide EnvVar, Setting, IsVar, IsSetVar;
    SetVarsAreVars(cfg);
  }

  lemma SidecarRestListed(cfg: Config, sv: Server)
    ensures SidecarVarsRest(cfg, sv, SidecarEnvRest(cfg, sv)) && |SidecarEnvRest(cfg, sv)| == 4
  {
    hide EnvVar, Setting, Opaque, Holds, IsVar, IsSetVar;
    VarsAreVars();
    SetVarsAreVars(cfg);
    VarsHaveNames();
  }

  // ------------------------------------------------------ the init containers

  ghost predicate IsSecretsInit(cfg: Config, sv: Server, c: Json)
    requires sv.userSecrets.Some?
  {
    var secrets := sv.userSecrets.value;
    && Named(c, "init-user-secrets") && FieldItems(c, "env").Some? && FieldItems(c, "volumeMounts").Some?
    && SecretsVars(cfg, sv, FieldItems(c, "env").value)
    && var mounts := FieldItems(c, "volumeMounts").value;
       && |mounts| == 2
       && IsMount(mounts[0], secrets.name + "-volume", "/encrypted", true)
       && IsMount(mounts[1], "user-secrets-volume", "/decrypted", false)
  }

  ghost predicate SecretsVars(cfg: Config, sv: Server, env: seq<Json>) {
    && |env| == 4
    && IsSetVar(cfg, env[0], "DATA_SERVICE_URL", "data_service_url")
    && IsVar(env[1], "RENKU_ACCESS_TOKEN", Str(sv.accessToken))
    && IsVar(env[2], "ENCRYPTED_SECRETS_MOUNT_PATH", Str("/encrypted"))
    && IsVar(env[3], "DECRYPTED_SECRETS_MOUNT_PATH", Str("/decrypted"))
  }

  lemma SecretsVarsListed(cfg: Config, sv: Server)
    ensures SecretsVars(cfg, sv, SecretsEnv(cfg, sv))
  {
    hide EnvVar, Setting, IsVar, IsSetVar;
    VarsAreVars();
    SetVarsAreVars(cfg);
  }

  lemma SecretsInitIs(cfg: Config, sv: Server)
    requires sv.userSecrets.Some?
    ensures IsSecretsInit(cfg, sv, SecretsContainer(cfg, sv, sv.userSecrets.value))
  {
    hide SecretsEnv, SecretsVars, Mount, IsMount;
    SecretsVarsListed(cfg, sv);
    MountsAreMounts();
  }

  ghost predicate IsCertificatesInit(c: Json) {
    && Named(c, "init-certificates") && FieldItems(c, "volumeMounts").Some?
    && var mounts := FieldItems(c, "volumeMounts").value;
       |mounts| == 2 && IsMount(mounts[0], "etc-ssl-certs", "/etc/ssl/certs/", false)
       && Holds(mounts[1], "name", Str("custom-ca-certs")) && Holds(mounts[1], "readOnly", Bool(true))
  }

  lemma CertificatesInitIs(cfg: Config)
    ensures IsCertificatesInit(CertificatesContainer(cfg))
  {
  }

  /** The clone: twelve variables, two of a registered user, then repositories, providers and storages by number. */
  ghost predicate IsClone(cfg: Config, sv: Server, c: Json) {
    && Named(c, "git-clone") && FieldItems(c, "env").Some? && FieldItems(c, "volumeMounts").Some?
    && CloneVarsAre(cfg, sv, FieldItems(c, "env").value)
    && var mounts := FieldItems(c, "volumeMounts").value;
       |mounts| == 2 && IsWorkspace(mounts[0], sv.mountPath)
       && IsMount(mounts[1], "etc-ssl-certs", "/etc/ssl/certs/", true)
  }

  ghost predicate CloneVarsAre(cfg: Config, sv: Server, env: seq<Json>) {
    var n := if sv.registered then 14 else 12;
    |env| >= n && CloneVarsStart(cfg, sv, env[..n]) && CloneVarsLists(sv, env[n..])
  }

  ghost predicate CloneVarsLists(sv: Server, env: seq<Json>) {
    var n, m := |sv.repositories|, |sv.providers|;
    && |env| == n + m + |sv.storages|
    && (forall k: nat | k < n ::
          IsVar(env[k], "GIT_CLONE_REPOSITORIES_" + Decimal(k) + "_", Str(sv.repositories[k])))
    && (forall k: nat | k < m ::
          IsVar(env[n + k], "GIT_CLONE_GIT_PROVIDERS_" + Decimal(k) + "_", Str(sv.providers[k])))
    && (forall k: nat | k < |sv.storages| ::
          IsVar(env[n + m + k], "GIT_CLONE_STORAGE_MOUNTS_" + Decimal(k), Str(sv.storages[k].mountFolder)))
  }

  ghost predicate CloneVarsStart(cfg: Config, sv: Server, env: seq<Json>) {
    && |env| == (if sv.registered then 14 else 12)
    && CloneVarsFront(sv, env[..5])
    && CloneVarsSentry(cfg, env[5..9])
    && CloneVarsRest(sv, env[9..])
  }

  ghost predicate CloneVarsFront(sv: Server, env: seq<Json>) {
    && |env| == 5
    && IsVar(env[0], "GIT_CLONE_MOUNT_PATH", Str(sv.mountPath))
    && IsVar(env[1], "GIT_CLONE_LFS_AUTO_FETCH", Str(if sv.lfsAutoFetch then "1" else "0"))
    && IsVar(env[2], "GIT_CLONE_USER__USERNAME", Str(sv.username))
    && IsVar(env[3], "GIT_CLONE_USER__RENKU_TOKEN", Str(sv.accessToken))
    && IsVar(env[4], "GIT_CLONE_IS_GIT_PROXY_ENABLED", Str(if sv.registered then "1" else "0"))
  }

  ghost predicate CloneVarsSentry(cfg: Config, env: seq<Json>) {
    && |env| == 4
    && IsSetVar(cfg, env[0], "GIT_CLONE_SENTRY__ENABLED", "git_clone.sentry.enabled")
    && IsSetVar(cfg, env[1], "GIT_CLONE_SENTRY__DSN", "git_clone.sentry.dsn")
    && IsSetVar(cfg, env[2], "GIT_CLONE_SENTRY__ENVIRONMENT", "git_clone.sentry.env")
    && IsSetVar(cfg, env[3], "GIT_CLONE_SENTRY__SAMPLE_RATE", "git_clone.sentry.sample_rate")
  }

  ghost predicate CloneVarsRest(sv: Server, env: seq<Json>) {
    && |env| == (if sv.registered then 5 else 3)
    && Holds(env[0], "name", Str("SENTRY_RELEASE"))
    && IsVar(env[1], "REQUESTS_CA_BUNDLE", Str("/etc/ssl/certs/ca-certificates.crt"))
    && IsVar(env[2], "SSL_CERT_FILE", Str("/etc/ssl/certs/ca-certificates.crt"))
    && (sv.registered ==>
          && IsVar(env[3], "GIT_CLONE_USER__EMAIL", Str(sv.email))
          && IsVar(env[4], "GIT_CLONE_USER__FULL_NAME", Str(sv.fullName)))
  }

  ghost function CloneFront(sv: Server): seq<Json> {
    CloneEnvFront(sv)
    + [EnvVar("GIT_CLONE_USER__RENKU_TOKEN", Str(sv.accessToken)),
       EnvVar("GIT_CLONE_IS_GIT_PROXY_ENABLED", Str(if sv.registered then "1" else "0"))]
  }

  ghost function CloneRest(cfg: Config, sv: Server): seq<Json> {
    [EnvVar("SENTRY_RELEASE", Opaque(cfg, "SENTRY_RELEASE")), EnvVar("REQUESTS_CA_BUNDLE", Str(CA_BUNDLE)),
     EnvVar("SSL_CERT_FILE", Str(CA_BUNDLE))]
    + CloneEnvUser(sv)
  }

  lemma CloneFrontListed(cfg: Config, sv: Server)
    ensures CloneVarsFront(sv, CloneFront(sv)) && |CloneFront(sv)| == 5
  {
    hide EnvVar, IsVar, IsSetVar;
    VarsAreVars();
  }

  lemma CloneSentryListed(cfg: Config)
    ensures CloneVarsSentry(cfg, CloneEnvSentry(cfg)) && |CloneEnvSentry(cfg)| == 4
  {
    hide EnvVar, Setting, IsVar, IsSetVar;
    SetVarsAreVars(cfg);
  }

  lemma CloneRestListed(cfg: Config, sv: Server)
    ensures CloneVarsRest(sv, CloneRest(cfg, sv)) && |CloneRest(cfg, sv)| == if sv.registered then 5 else 3
  {
    hide EnvVar, Opaque, Holds, IsVar, IsSetVar;
    VarsAreVars();
    VarsHaveNames();
  }

  lemma CloneStartSplits(cfg: Config, sv: Server)
    ensures CloneEnvFront(sv) + [EnvVar("GIT_CLONE_USER__RENKU_TOKEN", Str(sv.accessToken))] + CloneEnvSettings(cfg, sv)
            + CloneEnvUser(sv)
         == CloneFront(sv) + CloneEnvSentry(cfg) + CloneRest(cfg, sv)
  {
    hide EnvVar, Opaque, CloneEnvFront, CloneEnvSentry, CloneEnvUser;
  }

  ghost function CloneLists(sv: Server): seq<Json> {
    Numbered("GIT_CLONE_REPOSITORIES_", sv.repositories, "_") + Numbered("GIT_CLONE_GIT_PROVIDERS_", sv.providers, "_")
    + StorageVars(sv)
  }

  lemma NumberedVars(prefix: string, values: seq<string>, suffix: string)
    ensures forall k: nat | k < |values| ::
              IsVar(Numbered(prefix, values, suffix)[k], prefix + Decimal(k) + suffix, Str(values[k]))
  {
    hide EnvVar, IsVar;
    VarsAreVars();
  }

  lemma StorageVarsListed(sv: Server)
    ensures |StorageVars(sv)| == |sv.storages|
    ensures forall k: nat | k < |sv.storages| ::
              IsVar(StorageVars(sv)[k], "GIT_CLONE_STORAGE_MOUNTS_" + Decimal(k), Str(sv.storages[k].mountFolder))
  {
    hide EnvVar, IsVar;
    VarsAreVars();
  }

  lemma CloneListsListed(sv: Server)
    ensures CloneVarsLists(sv, CloneLists(sv))
  {
    hide IsVar, Numbered, StorageVars;
    NumberedVars("GIT_CLONE_REPOSITORIES_", sv.repositories, "_");
    NumberedVars("GIT_CLONE_GIT_PROVIDERS_", sv.providers, "_");
    StorageVarsListed(sv);
  }

  lemma CloneVarsListed(cfg: Config, sv: Server)
    ensures CloneVarsAre(cfg, sv, GitCloneEnv(cfg, sv) + StorageVars(sv))
  {
    hide EnvVar, CloneVarsFront, CloneVarsSentry, CloneVarsRest, CloneVarsLists, CloneFront, CloneRest, CloneEnvFront,
         CloneEnvSentry, CloneEnvSettings, CloneEnvUser, Numbered, StorageVars;
    CloneFrontListed(cfg, sv);
    CloneSentryListed(cfg);
    CloneRestListed(cfg, sv);
    CloneStartSplits(cfg, sv);
    var env := GitCloneEnv(cfg, sv) + StorageVars(sv);
    var n := if sv.registered then 14 else 12;
    var start := CloneFront(sv) + CloneEnvSentry(cfg) + CloneRest(cfg, sv);
    assert env[..n] == start;
    assert env[n..] == CloneLists(sv);
    CloneListsListed(sv);
    assert start[..5] == CloneFront(sv) && start[5..9] == CloneEnvSentry(cfg) && start[9..] == CloneRest(cfg, sv);
  }

  lemma CloneIs(cfg: Config, sv: Server)
    ensures IsClone(cfg, sv, CloneContainer(cfg, sv))
  {
    hide GitCloneEnv, StorageVars, CloneVarsAre, IsMount, Mount;
    CloneVarsListed(cfg, sv);
    MountsAreMounts();
  }

  // ------------------------------------------------------------------ volumes

  predicate IsClaim(x: Json, name: string, readOnly: bool) {
    && Holds(x, "name", Str(name))
    && Child(x, Key("persistentVolumeClaim")).Some?
    && var claim := Child(x, Key("persistentVolumeClaim")).value;
       Holds(claim, "claimName", Str(name)) && Holds(claim, "readOnly", Bool(readOnly))
  }

  predicate IsVolume(x: Json, name: string, source: string) {
    Holds(x, "name", Str(name)) && Child(x, Key(source)).Some?
  }

  /** Shared memory, .Renviron, the two of the user secrets, the host keys, the two for certificates, the storages. */
  ghost predicate VolumesAre(cfg: Config, sv: Server, volumes: seq<Json>) {
    var renviron := if sv.environment == [] then 0 else 1;
    var secrets := if sv.userSecrets.None? then 0 else 2;
    var keys := if cfg.sshEnabled && cfg.sshHostKeySecret.Some? then 1 else 0;
    var n := 1 + renviron + secrets + keys;
    && |volumes| == n + 2 + |sv.storages|
    && IsVolume(volumes[0], "shm", "emptyDir")
    && (renviron == 1 ==> IsSecretVolume(volumes[1], sv.name + "-renviron", sv.name + "-renviron"))
    && (secrets == 2 ==>
          var name := sv.userSecrets.value.name;
          && IsVolume(volumes[1 + renviron], "user-secrets-volume", "emptyDir")
          && IsSecretVolume(volumes[2 + renviron], name + "-volume", name))
    && (keys == 1 ==> IsSecretVolume(volumes[n - 1], "ssh-host-keys", cfg.sshHostKeySecret.value))
    && IsVolume(volumes[n], "etc-ssl-certs", "emptyDir")
    && IsVolume(volumes[n + 1], "custom-ca-certs", "projected")
    && forall i: nat | i < |sv.storages| ::
         IsClaim(volumes[n + 2 + i], sv.name + "-ds-" + Decimal(i), sv.storages[i].readOnly)
  }

  lemma VolumesHaveNames(cfg: Config)
    ensures IsVolume(ShmVolume(cfg), "shm", "emptyDir")
    ensures IsVolume(CertificateVolumes(cfg)[0], "etc-ssl-certs", "emptyDir")
    ensures IsVolume(CertificateVolumes(cfg)[1], "custom-ca-certs", "projected")
    ensures forall secret :: IsSecretVolume(SshVolume(secret), "ssh-host-keys", secret)
  {
    hide Opaque;
    assert |"name"| == 4 && |"emptyDir"| == 8 && |"projected"| == 9 && |"secret"| == 6;
  }

  lemma SessionVolumesHaveNames(cfg: Config, sv: Server)
    ensures IsSecretVolume(RenvironVolume(sv), sv.name + "-renviron", sv.name + "-renviron")
    ensures forall secrets: UserSecrets ::
              && |SecretsVolumes(cfg, secrets)| == 2
              && IsVolume(SecretsVolumes(cfg, secrets)[0], "user-secrets-volume", "emptyDir")
              && IsSecretVolume(SecretsVolumes(cfg, secrets)[1], secrets.name + "-volume", secrets.name)
  {
    hide Opaque;
    assert |"name"| == 4 && |"emptyDir"| == 8 && |"secret"| == 6;
  }

  lemma ClaimsHaveNames(sv: Server)
    ensures |StorageVolumes(sv)| == |sv.storages|
    ensures forall i: nat | i < |sv.storages| ::
              IsClaim(StorageVolumes(sv)[i], sv.name + "-ds-" + Decimal(i), sv.storages[i].readOnly)
  {
    hide Decimal;
    forall i: nat | i < |sv.storages|
      ensures IsClaim(StorageVolume(sv, i), sv.name + "-ds-" + Decimal(i), sv.storages[i].readOnly)
    {
      ClaimIs(sv.name + "-ds-" + Decimal(i), sv.storages[i].readOnly);
    }
  }

  lemma ClaimIs(name: string, readOnly: bool)
    ensures var claim := Obj(map["claimName" := Str(name), "readOnly" := Bool(readOnly)]);
      IsClaim(Volume(name, "persistentVolumeClaim", claim), name, readOnly)
  {
    assert |"name"| == 4 && |"persistentVolumeClaim"| == 21 && |"claimName"| == 9 && |"readOnly"| == 8;
  }

  lemma VolumesOfAll(cfg: Config, sv: Server)
    ensures AllAdditions(cfg, sv).volumes
         == EarlyVolumes(cfg, sv) + HostKeyVolumes(cfg) + CertificateVolumes(cfg) + StorageVolumes(sv)
  {
    hide EarlyVolumes, HostKeyVolumes, CertificateVolumes, StorageVolumes, StorageMounts, EarlyMounts;
  }

  lemma VolumesListed(cfg: Config, sv: Server)
    ensures VolumesAre(cfg, sv, AllAdditions(cfg, sv).volumes)
  {
    hide AllAdditions, ShmVolume, RenvironVolume, SshVolume, Volume, IsVolume, IsSecretVolume, IsClaim, SecretsVolumes,
         StorageVolumes;
    VolumesOfAll(cfg, sv);
    VolumesHaveNames(cfg);
    SessionVolumesHaveNames(cfg, sv);
    ClaimsHaveNames(sv);
  }

  // --------------------------------------------------------------- main results

  /** The list in a member of the pod's spec. */
  function ListAt(d: Json, name: string): Option<seq<Json>> {
    Items(InPodSpec(d, name))
  }

  lemma ListsAreSlots(d: Json)
    ensures SlotOf(d, Containers) == ListAt(d, "containers") && SlotOf(d, Inits) == ListAt(d, "initContainers")
    ensures SlotOf(d, Volumes) == ListAt(d, "volumes") && SlotOf(d, PullSecrets) == ListAt(d, "imagePullSecrets")
  {
    hide Get;
    forall name: string
      ensures SPEC + [Key(name)] == [Key("statefulset"), Key("spec"), Key("template"), Key("spec"), Key(name)]
    {
    }
  }

  /** The run, with the lists read at their places. */
  lemma ListsAfter(cfg: Config, sv: Server, d: Json, patches: seq<Patch>) returns (base: Pod, a: Additions)
    requires Admissible(cfg, sv, d) && GetPatches(cfg, sv) == Ok(patches) && !StorageMisses(sv)
    ensures a == AllAdditions(cfg, sv) && Fits(base, a) && Run(d, patches).Some?
    ensures base == PodOf(d) && ListAt(d, "containers") == base.containers && ListAt(d, "volumes") == base.volumes
      && ListAt(d, "imagePullSecrets") == base.pullSecrets
    ensures var after := Run(d, patches).value;
      && ListAt(after, "containers") == Some(AllContainers(base, a))
      && ListAt(after, "initContainers") == Some(a.inits)
      && ListAt(after, "volumes") == Some(base.volumes.value + a.volumes)
      && ListAt(after, "imagePullSecrets") == With(base, a).pullSecrets
  {
    hide Run, GetPatches, StorageMisses, AllAdditions, AllContainers, ListAt, SlotOf, Fits;
    PatchesApply(cfg, sv, d, patches);
    base, a := PodOf(d), AllAdditions(cfg, sv);
    ListsAreSlots(d);
    ListsAreSlots(Run(d, patches).value);
  }

  /** The init containers: user secrets, certificates, the image download and the clone, each in its place. */
  lemma InitsAfter(cfg: Config, sv: Server, d: Json, patches: seq<Patch>) returns (inits: seq<Json>)
    requires Admissible(cfg, sv, d) && GetPatches(cfg, sv) == Ok(patches) && !StorageMisses(sv)
    ensures Run(d, patches).Some? && ListAt(Run(d, patches).value, "initContainers") == Some(inits)
    ensures var n := if sv.userSecrets.Some? then 1 else 0;
      && |inits| == n + 2 + (if sv.repositories != [] then 1 else 0)
      && (n == 1 ==> IsSecretsInit(cfg, sv, inits[0]))
      && IsCertificatesInit(inits[n])
      && Named(inits[n + 1], "download-image") && Child(inits[n + 1], Key("env")) == None
      && (sv.repositories != [] ==> IsClone(cfg, sv, inits[n + 2]))
  {
    hide Admissible, Run, GetPatches, StorageMisses, ListAt, Fits, AllContainers, With, BeforeStorage, CloneContainer,
         CertificatesContainer, SecretsContainer, IsSecretsInit, IsCertificatesInit, IsClone;
    var base, a := ListsAfter(cfg, sv, d, patches);
    inits := a.inits;
    if sv.userSecrets.Some? {
      SecretsInitIs(cfg, sv);
    }
    CertificatesInitIs(cfg);
    DownloadIs();
    CloneIs(cfg, sv);
  }

  lemma DownloadIs()
    ensures Named(DOWNLOAD_CONTAINER, "download-image") && Child(DOWNLOAD_CONTAINER, Key("env")) == None
  {
  }

  /** The volumes of the base, and behind them those of the session. */
  lemma VolumesAfter(cfg: Config, sv: Server, d: Json, patches: seq<Patch>) returns (added: seq<Json>)
    requires Admissible(cfg, sv, d) && GetPatches(cfg, sv) == Ok(patches) && !StorageMisses(sv)
    ensures Run(d, patches).Some? && ListAt(d, "volumes").Some?
    ensures ListAt(Run(d, patches).value, "volumes") == Some(ListAt(d, "volumes").value + added)
    ensures VolumesAre(cfg, sv, added)
  {
    hide Admissible, Run, GetPatches, StorageMisses, ListAt, AllContainers, With, AllAdditions, VolumesAre;
    var base, a := ListsAfter(cfg, sv, d, patches);
    added := a.volumes;
    VolumesListed(cfg, sv);
  }

  /** The pull secret of a private image. */
  lemma PullSecretsAfter(cfg: Config, sv: Server, d: Json, patches: seq<Patch>) returns (added: seq<Json>)
    requires Admissible(cfg, sv, d) && GetPatches(cfg, sv) == Ok(patches) && !StorageMisses(sv)
    ensures Run(d, patches).Some?
    ensures !sv.imagePrivate ==> ListAt(Run(d, patches).value, "imagePullSecrets") == ListAt(d, "imagePullSecrets")
    ensures sv.imagePrivate ==>
              && ListAt(d, "imagePullSecrets").Some?
              && ListAt(Run(d, patches).value, "imagePullSecrets") == Some(ListAt(d, "imagePullSecrets").value + added)
              && |added| == 1 && Holds(added[0], "name", Str(sv.name + "-image-secret"))
  {
    hide Admissible, Run, GetPatches, StorageMisses, ListAt, AllContainers, AllAdditions;
    var base, a := ListsAfter(cfg, sv, d, patches);
    added := a.pullSecrets;
    PullSecretOfAll(cfg, sv);
    SecretNameIs(sv);
  }

  lemma PullSecretOfAll(cfg: Config, sv: Server)
    ensures AllAdditions(cfg, sv).pullSecrets == SecretName(sv)
    ensures AllAdditions(cfg, sv).servicePorts == If(cfg.sshEnabled, [Opaque(cfg, "ssh.service_port")])
  {
    hide SecretName;
  }

  lemma SecretNameIs(sv: Server)
    ensures sv.imagePrivate ==>
      |SecretName(sv)| == 1 && Holds(SecretName(sv)[0], "name", Str(sv.name + "-image-secret"))
    ensures !sv.imagePrivate ==> SecretName(sv) == []
  {
  }

  /** The list in a member of an object, and what is behind it afterwards. */
  ghost predicate Grows(before: Option<Json>, after: Option<Json>, added: seq<Json>) {
    before.Some? && before.value.Arr? && after == Some(Arr(before.value.items + added))
  }

  ghost predicate SameBut(c: Json, c': Json, names: set<string>) {
    forall name | name !in names :: Child(c', Key(name)) == Child(c, Key(name))
  }

  /** The notebook's container: arguments, variables, mounts and ports, and nothing else of it. */
  ghost predicate IsMainFrom(cfg: Config, sv: Server, c: Json, c': Json, env: seq<Json>, mounts: seq<Json>) {
    && Holds(c', "args", Arr([Str("jupyter"), Str("notebook")]))
    && Grows(Child(c, Key("env")), Child(c', Key("env")), env) && MainVars(sv, env)
    && Grows(Child(c, Key("volumeMounts")), Child(c', Key("volumeMounts")), mounts) && MainMounts(cfg, sv, mounts)
    && (if cfg.sshEnabled then IsConfigured(cfg, "ssh.container_ports", Child(c', Key("ports")))
        else Child(c', Key("ports")) == Child(c, Key("ports")))
    && SameBut(c, c', {"args", "env", "volumeMounts", "ports"})
  }

  /** The proxy's container: variables of a registered user, arguments with the git containers, and a mount. */
  ghost predicate IsProxyFrom(cfg: Config, sv: Server, c: Json, c': Json, env: seq<Json>, mounts: seq<Json>) {
    && ProxyVarsAre(cfg, sv, env)
    && (if sv.registered then Grows(Child(c, Key("env")), Child(c', Key("env")), env)
        else Child(c', Key("env")) == Child(c, Key("env")))
    && Grows(Child(c, Key("volumeMounts")), Child(c', Key("volumeMounts")), mounts)
    && |mounts| == 1 && IsMount(mounts[0], "etc-ssl-certs", "/etc/ssl/certs/", true)
    && (if sv.registered && sv.repositories != [] then
          && FieldItems(c, "args").Some? && FieldItems(c', "args").Some?
          && ProxyArgsAre(cfg, sv, FieldItems(c, "args").value, FieldItems(c', "args").value)
        else Child(c', Key("args")) == Child(c, Key("args")))
    && SameBut(c, c', {"args", "env", "volumeMounts"})
  }

  lemma MainIs(cfg: Config, sv: Server, c: Json)
    requires MainFits(c)
    ensures var a := AllAdditions(cfg, sv); IsMainFrom(cfg, sv, c, Main(c, a), a.mainEnv, a.mainMounts)
  {
    hide AllAdditions, MainVars, MainMounts, IsConfigured;
    var a := AllAdditions(cfg, sv);
    JupyterEnvIs(sv);
    MainMountsAre(cfg, sv);
    MainOfAll(cfg, sv);
    MainMembers(c, a);
    ContainerPortsAre(cfg);
  }

  lemma ContainerPortsAre(cfg: Config)
    ensures IsConfigured(cfg, "ssh.container_ports", Some(Opaque(cfg, "ssh.container_ports")))
  {
  }

  lemma MainOfAll(cfg: Config, sv: Server)
    ensures AllAdditions(cfg, sv).mainArgs == Some(JUPYTER_ARGS) && AllAdditions(cfg, sv).mainEnv == JupyterEnv(sv)
    ensures AllAdditions(cfg, sv).mainPorts == if cfg.sshEnabled then Some(Opaque(cfg, "ssh.container_ports")) else None
  {
    hide JupyterEnv, EarlyMounts, EarlyVolumes;
  }

  lemma MainMembers(c: Json, a: Additions)
    requires MainFits(c)
    ensures Grows(Child(c, Key("env")), Child(Main(c, a), Key("env")), a.mainEnv)
    ensures Grows(Child(c, Key("volumeMounts")), Child(Main(c, a), Key("volumeMounts")), a.mainMounts)
    ensures Child(Main(c, a), Key("args")) == if a.mainArgs.Some? then a.mainArgs else Child(c, Key("args"))
    ensures Child(Main(c, a), Key("ports")) == if a.mainPorts.Some? then a.mainPorts else Child(c, Key("ports"))
    ensures SameBut(c, Main(c, a), {"args", "env", "volumeMounts", "ports"})
  {
    assert |"args"| == 4 && |"env"| == 3 && |"volumeMounts"| == 12 && |"ports"| == 5;
  }

  lemma ProxyMembers(c: Json, a: Additions)
    requires ProxyFits(c, a)
    ensures if a.proxyEnv == [] then Child(Proxy(c, a), Key("env")) == Child(c, Key("env"))
            else Grows(Child(c, Key("env")), Child(Proxy(c, a), Key("env")), a.proxyEnv)
    ensures Grows(Child(c, Key("volumeMounts")), Child(Proxy(c, a), Key("volumeMounts")), a.proxyMounts)
    ensures a.proxyUpstream.None? && a.proxyArgs == [] ==> Child(Proxy(c, a), Key("args")) == Child(c, Key("args"))
    ensures a.proxyUpstream.Some? || a.proxyArgs != [] ==>
              && FieldItems(c, "args").Some?
              && FieldItems(Proxy(c, a), "args")
                 == Some(NewArgs(FieldItems(c, "args").value, a.proxyUpstream, a.proxyArgs))
    ensures SameBut(c, Proxy(c, a), {"args", "env", "volumeMounts"})
  {
    assert |"args"| == 4 && |"env"| == 3 && |"volumeMounts"| == 12;
  }

  lemma ProxyMountIs()
    ensures IsMount(EtcCertsMount(true), "etc-ssl-certs", "/etc/ssl/certs/", true)
  {
  }

  lemma ProxyIs(cfg: Config, sv: Server, c: Json)
    requires ProxyFits(c, AllAdditions(cfg, sv))
    ensures var a := AllAdditions(cfg, sv); IsProxyFrom(cfg, sv, c, Proxy(c, a), a.proxyEnv, a.proxyMounts)
  {
    hide AllAdditions, Proxy, UnverifiedEmailVar, CaFilesVar, EtcCertsMount, UpstreamArg, SidecarArgs, IsMount, NewArgs,
         ProxyArgsAre, Grows, SameBut, IsVar, IsSetVar;
    var a := AllAdditions(cfg, sv);
    ProxyEnvIs(cfg, sv);
    ProxyEnvOfAll(cfg, sv);
    ProxyMembers(c, a);
    ProxyMountIs();
    if HasGitContainers(sv) {
      ProxyArgsFrom(cfg, sv, FieldItems(c, "args").value);
    }
  }

  lemma AddedContainers(cfg: Config, sv: Server)
    ensures AllAdditions(cfg, sv).containers
         == If(HasGitContainers(sv), [GitProxyContainer(cfg, sv), GitSidecarContainer(cfg, sv)])
  {
    hide GitProxyContainer, GitSidecarContainer, EarlyMounts, EarlyVolumes;
  }

  /** The containers: the notebook and the proxy as described, the others of the base, and the two for git. */
  lemma ContainersAfter(cfg: Config, sv: Server, d: Json, patches: seq<Patch>)
    returns (env: seq<Json>, mounts: seq<Json>, proxyEnv: seq<Json>, proxyMounts: seq<Json>, added: seq<Json>)
    requires Admissible(cfg, sv, d) && GetPatches(cfg, sv) == Ok(patches) && !StorageMisses(sv)
    ensures Run(d, patches).Some? && ListAt(d, "containers").Some? && ListAt(Run(d, patches).value, "containers").Some?
    ensures var cs, cs' := ListAt(d, "containers").value, ListAt(Run(d, patches).value, "containers").value;
      && |cs| >= 2 && |cs'| == |cs| + |added|
      && IsMainFrom(cfg, sv, cs[0], cs'[0], env, mounts)
      && IsProxyFrom(cfg, sv, cs[1], cs'[1], proxyEnv, proxyMounts)
      && cs'[2..|cs|] == cs[2..]
      && cs'[|cs|..] == added
    ensures if sv.registered && sv.repositories != [] then
              |added| == 2 && IsGitProxy(cfg, sv, added[0]) && IsGitSidecar(cfg, sv, added[1])
            else added == []
  {
    hide Admissible, Run, GetPatches, StorageMisses, ListAt, AllAdditions, Main, Proxy, IsMainFrom, IsProxyFrom,
         IsGitProxy, IsGitSidecar, GitProxyContainer, GitSidecarContainer, With;
    var base, a := ListsAfter(cfg, sv, d, patches);
    MainIs(cfg, sv, base.containers.value[0]);
    ProxyIs(cfg, sv, base.containers.value[1]);
    AddedContainers(cfg, sv);
    GitProxyIs(cfg, sv);
    GitSidecarIs(cfg, sv);
    env, mounts, proxyEnv, proxyMounts, added := a.mainEnv, a.mainMounts, a.proxyEnv, a.proxyMounts, a.containers;
  }

  /** The ports of the service gain one for ssh. */
  lemma ServicePortsAfter(cfg: Config, sv: Server, d: Json, patches: seq<Patch>) returns (port: Json)
    requires Admissible(cfg, sv, d) && GetPatches(cfg, sv) == Ok(patches) && !StorageMisses(sv)
    ensures Run(d, patches).Some?
    ensures var place: Path := [Key("service"), Key("spec"), Key("ports")];
      var before, after := Items(Get(d, place)), Items(Get(Run(d, patches).value, place));
      if cfg.sshEnabled then
        before.Some? && after == Some(before.value + [port]) && Configured(cfg, "ssh.service_port", port)
      else after == before
  {
    hide Run, GetPatches, Admissible, StorageMisses, AllAdditions, AllContainers;
    PatchesApply(cfg, sv, d, patches);
    PullSecretOfAll(cfg, sv);
    port := Opaque(cfg, "ssh.service_port");
    var base := PodOf(d);
    assert base.servicePorts == SlotOf(d, ServicePorts);
    assert With(base, AllAdditions(cfg, sv)).servicePorts == SlotOf(Run(d, patches).value, ServicePorts);
  }
}
