/**
 The manifest and the token renewal fit together: in the statefulset of a session that was started
 from the generated patches, the renewal finds every token that the patches put there.
 */
module SessionTokens {
  import opened Prelude
  import opened Json
  import opened Text
  import opened Pods
  import opened SessionPatches
  import opened ManifestForm
  import opened Manifest
  import opened ManifestResult
  import T = TokenPatches

  // ----------------------------------------------- consequences for the manifest

  lemma NamesStay(c: Json, a: Additions)
    ensures MainFits(c) ==> Child(Main(c, a), Key("name")) == Child(c, Key("name"))
    ensures ProxyFits(c, a) ==> Child(Proxy(c, a), Key("name")) == Child(c, Key("name"))
  {
  }

  /**
   The first two containers of the result are the two that the base had there, so the operations
   that address containers by these indices reached the containers whose names were tested.
   */
  lemma TestedContainersAreAddressed(cfg: Config, sv: Server, d: Json, patches: seq<Patch>, k: nat)
    requires Admissible(cfg, sv, d) && GetPatches(cfg, sv) == Ok(patches) && !StorageMisses(sv)
    requires k < |ExpectedContainers(cfg, sv)|
    ensures Run(d, patches).Some? && PodOf(Run(d, patches).value).containers.Some?
    ensures var cs := PodOf(Run(d, patches).value).containers.value;
      k < |cs| && Child(cs[k], Key("name")) == Some(Str(ExpectedContainers(cfg, sv)[k]))
  {
    hide Run, GetPatches, AllAdditions, StorageMisses;
    PatchesApply(cfg, sv, d, patches);
    var base := PodOf(d).containers.value;
    NamesStay(base[0], AllAdditions(cfg, sv));
    NamesStay(base[1], AllAdditions(cfg, sv));
    NameAt(d, base, k);
  }

  lemma NameAt(d: Json, items: seq<Json>, k: nat)
    requires SlotOf(d, Containers) == Some(items) && k < |items|
    ensures Get(d, FieldPath(Containers, k, "name")) == Child(items[k], Key("name"))
  {
    GetThrough(d, SlotPath(Containers), [At(k), Key("name")]);
    TwoTokens(Arr(items), At(k), Key("name"), Null);
  }

  /** The clone container is the third init container, and tells where each storage is mounted, in order. */
  lemma StoragesReachTheClone(cfg: Config, sv: Server, d: Json, patches: seq<Patch>)
    requires Admissible(cfg, sv, d) && GetPatches(cfg, sv) == Ok(patches)
    requires sv.repositories != [] && sv.userSecrets.None?
    ensures Run(d, patches).Some? && PodOf(Run(d, patches).value).inits.Some?
    ensures var inits := PodOf(Run(d, patches).value).inits.value;
      && |inits| == 3
      && Child(inits[2], Key("name")) == Some(Str("git-clone"))
      && FieldItems(inits[2], "env") == Some(GitCloneEnv(cfg, sv) + StorageVars(sv))
    ensures |StorageVars(sv)| == |sv.storages|
    ensures forall i: nat | i < |sv.storages| ::
              StorageVars(sv)[i] == EnvVar("GIT_CLONE_STORAGE_MOUNTS_" + Decimal(i), Str(sv.storages[i].mountFolder))
  {
    hide Run, GetPatches, Admissible, GitCloneEnv, CertificatesContainer, BeforeStorage;
    PatchesApply(cfg, sv, d, patches);
    var inits := AllAdditions(cfg, sv).inits;
    assert inits == [CertificatesContainer(cfg), DOWNLOAD_CONTAINER, CloneContainer(cfg, sv)];
  }

  // --------------------------------------------------------- finding the tokens

  /** Just this item has the name. */
  ghost predicate Only(items: seq<Json>, name: string, k: nat) {
    k < |items| && forall j | 0 <= j < |items| :: T.Named(items[j], name) <==> j == k
  }

  ghost predicate NoneNamed(items: seq<Json>, name: string) {
    forall j | 0 <= j < |items| :: !T.Named(items[j], name)
  }

  lemma FirstNamedIs(items: seq<Json>, name: string, k: nat)
    requires Only(items, name, k)
    ensures T.FirstNamed(items, name, 0) == Some(k)
  {
    var r := T.FirstNamed(items, name, 0);
    assert T.Named(items[k], name);
  }

  lemma OnlyBetween(before: seq<Json>, x: Json, after: seq<Json>, name: string)
    requires NoneNamed(before, name) && T.Named(x, name) && NoneNamed(after, name)
    ensures Only(before + [x] + after, name, |before|)
  {
    hide T.Named;
  }

  lemma NoneInBoth(a: seq<Json>, b: seq<Json>, name: string)
    requires NoneNamed(a, name) && NoneNamed(b, name)
    ensures NoneNamed(a + b, name)
  {
    hide T.Named;
  }

  lemma NumberedAreNot(prefix: string, values: seq<string>, suffix: string, name: string)
    requires |prefix| > 10 && |name| > 10 && prefix[10] != name[10]
    ensures NoneNamed(Numbered(prefix, values, suffix), name)
  {
    forall j | 0 <= j < |values|
      ensures !T.Named(Numbered(prefix, values, suffix)[j], name)
    {
      assert (prefix + Decimal(j) + suffix)[10] == prefix[10];
    }
  }

  lemma VarsHaveNames()
    ensures forall variable: string, value: Json, name: string ::
              T.Named(EnvVar(variable, value), name) <==> variable == name
    ensures forall variable: string, value: Json :: Child(EnvVar(variable, value), Key("value")) == Some(value)
  {
  }

  const ACCESS := "GIT_PROXY_RENKU_ACCESS_TOKEN"
  const REFRESH := "GIT_PROXY_RENKU_REFRESH_TOKEN"

  lemma NotInProxyFront(cfg: Config, sv: Server)
    ensures NoneNamed(ProxyEnvFront(cfg, sv), ACCESS) && NoneNamed(ProxyEnvFront(cfg, sv), REFRESH)
  {
    hide EnvVar, Setting, T.Named;
    VarsHaveNames();
    assert |ACCESS| == 28 && |REFRESH| == 29;
    assert |"GIT_PROXY_PORT"| == 14 && |"GIT_PROXY_HEALTH_PORT"| == 21 && |"GIT_PROXY_ANONYMOUS_SESSION"| == 27;
  }

  lemma NotInProxyRest(cfg: Config)
    ensures NoneNamed(ProxyEnvRest(cfg), ACCESS) && NoneNamed(ProxyEnvRest(cfg), REFRESH)
  {
    hide EnvVar, Setting, T.Named;
    VarsHaveNames();
    assert |ACCESS| == 28 && |REFRESH| == |"GIT_PROXY_RENKU_CLIENT_SECRET"| == 29;
    assert REFRESH[16] == 'R' && "GIT_PROXY_RENKU_CLIENT_SECRET"[16] == 'C';
    assert |"GIT_PROXY_RENKU_REALM"| == 21 && |"GIT_PROXY_RENKU_CLIENT_ID"| == 25 && |"GIT_PROXY_RENKU_URL"| == 19;
    assert |"GIT_PROXY_REPOSITORIES"| == 22 && |"GIT_PROXY_PROVIDERS"| == 19;
  }

  lemma ProxyEnvTokens(cfg: Config, sv: Server)
    ensures var env := GitProxyEnv(cfg, sv);
      && Only(env, "GIT_PROXY_RENKU_ACCESS_TOKEN", 3)
      && Only(env, "GIT_PROXY_RENKU_REFRESH_TOKEN", 4)
      && Child(env[3], Key("value")) == Some(Str(sv.accessToken))
      && Child(env[4], Key("value")) == Some(Str(sv.refreshToken))
  {
    hide EnvVar, T.Named, ProxyEnvRest, Only, NoneNamed;
    VarsHaveNames();
    NotInProxyFront(cfg, sv);
    NotInProxyRest(cfg);
    assert |ACCESS| == 28 && |REFRESH| == 29;
    var front, rest := ProxyEnvFront(cfg, sv), ProxyEnvRest(cfg);
    var access, refresh := EnvVar(ACCESS, Str(sv.accessToken)), EnvVar(REFRESH, Str(sv.refreshToken));
    OneIsNot(access, REFRESH);
    OneIsNot(refresh, ACCESS);
    NoneInBoth([refresh], rest, ACCESS);
    NoneInBoth(front, [access], REFRESH);
    OnlyBetween(front, access, [refresh] + rest, ACCESS);
    OnlyBetween(front + [access], refresh, rest, REFRESH);
    var env := GitProxyEnv(cfg, sv);
    assert env == front + [access] + ([refresh] + rest) && env == front + [access] + [refresh] + rest;
  }

  lemma OneIsNot(x: Json, name: string)
    requires !T.Named(x, name)
    ensures NoneNamed([x], name)
  {
    hide T.Named;
  }

  lemma ProxyTokens(cfg: Config, sv: Server)
    ensures T.Named(GitProxyContainer(cfg, sv), "git-proxy")
    ensures FieldItems(GitProxyContainer(cfg, sv), "env") == Some(GitProxyEnv(cfg, sv))
    ensures !T.Named(GitSidecarContainer(cfg, sv), "git-proxy")
  {
    hide GitProxyEnv, EtcCertsMount, SidecarMount;
    assert |"git-proxy"| == 9 && |"git-sidecar"| == 11;
  }

  const CLONE_TOKEN := "GIT_CLONE_USER__RENKU_TOKEN"

  lemma NotInCloneFront(sv: Server)
    ensures NoneNamed(CloneEnvFront(sv), CLONE_TOKEN) && NoneNamed(CloneEnvUser(sv), CLONE_TOKEN)
  {
    hide EnvVar, T.Named;
    VarsHaveNames();
    assert |CLONE_TOKEN| == 27 && |"GIT_CLONE_USER__EMAIL"| == 21 && |"GIT_CLONE_USER__FULL_NAME"| == 25;
    assert |"GIT_CLONE_MOUNT_PATH"| == 20 && |"GIT_CLONE_LFS_AUTO_FETCH"| == |"GIT_CLONE_USER__USERNAME"| == 24;
  }

  lemma NotInCloneSentry(cfg: Config)
    ensures NoneNamed(CloneEnvSentry(cfg), CLONE_TOKEN)
  {
    hide EnvVar, Setting, T.Named;
    VarsHaveNames();
    assert |CLONE_TOKEN| == 27 && |"GIT_CLONE_SENTRY__ENABLED"| == 25 && |"GIT_CLONE_SENTRY__DSN"| == 21;
    assert |"GIT_CLONE_SENTRY__ENVIRONMENT"| == |"GIT_CLONE_SENTRY__SAMPLE_RATE"| == 29;
  }

  lemma NotInCloneSettings(cfg: Config, sv: Server)
    ensures NoneNamed(CloneEnvSettings(cfg, sv), CLONE_TOKEN)
  {
    hide EnvVar, Setting, Opaque, T.Named, CloneEnvSentry;
    VarsHaveNames();
    NotInCloneSentry(cfg);
    assert |CLONE_TOKEN| == 27 && |"GIT_CLONE_IS_GIT_PROXY_ENABLED"| == 30;
    assert |"SENTRY_RELEASE"| == 14 && |"REQUESTS_CA_BUNDLE"| == 18 && |"SSL_CERT_FILE"| == 13;
  }

  lemma StorageVarsAreNot(sv: Server)
    ensures NoneNamed(StorageVars(sv), CLONE_TOKEN)
  {
    forall j: nat | j < |sv.storages|
      ensures !T.Named(StorageVars(sv)[j], CLONE_TOKEN)
    {
      assert ("GIT_CLONE_STORAGE_MOUNTS_" + Decimal(j))[10] == 'S' && CLONE_TOKEN[10] == 'U';
    }
  }

  /** What follows the token in the environment of the clone. */
  ghost function CloneEnvAfter(cfg: Config, sv: Server): seq<Json> {
    CloneEnvSettings(cfg, sv) + CloneEnvUser(sv)
    + (Numbered("GIT_CLONE_REPOSITORIES_", sv.repositories, "_")
       + (Numbered("GIT_CLONE_GIT_PROVIDERS_", sv.providers, "_") + StorageVars(sv)))
  }

  lemma NotAfterCloneToken(cfg: Config, sv: Server)
    ensures NoneNamed(CloneEnvAfter(cfg, sv), CLONE_TOKEN)
  {
    hide CloneEnvSettings, CloneEnvUser, Numbered, StorageVars, NoneNamed;
    var repositories := Numbered("GIT_CLONE_REPOSITORIES_", sv.repositories, "_");
    var providers := Numbered("GIT_CLONE_GIT_PROVIDERS_", sv.providers, "_");
    NotInCloneFront(sv);
    NotInCloneSettings(cfg, sv);
    StorageVarsAreNot(sv);
    NumberedAreNot("GIT_CLONE_REPOSITORIES_", sv.repositories, "_", CLONE_TOKEN);
    NumberedAreNot("GIT_CLONE_GIT_PROVIDERS_", sv.providers, "_", CLONE_TOKEN);
    NoneInBoth(CloneEnvSettings(cfg, sv), CloneEnvUser(sv), CLONE_TOKEN);
    NoneInBoth(providers, StorageVars(sv), CLONE_TOKEN);
    NoneInBoth(repositories, providers + StorageVars(sv), CLONE_TOKEN);
    NoneInBoth(CloneEnvSettings(cfg, sv) + CloneEnvUser(sv), repositories + (providers + StorageVars(sv)), CLONE_TOKEN);
  }

  lemma CloneToken(cfg: Config, sv: Server)
    ensures T.Named(CloneContainer(cfg, sv), "git-clone")
    ensures var env := FieldItems(CloneContainer(cfg, sv), "env");
      && env.Some? && Only(env.value, "GIT_CLONE_USER__RENKU_TOKEN", 3)
      && Child(env.value[3], Key("value")) == Some(Str(sv.accessToken))
  {
    hide GitCloneEnv, StorageVars;
    assert FieldItems(CloneContainer(cfg, sv), "env") == Some(GitCloneEnv(cfg, sv) + StorageVars(sv));
    CloneEnvToken(cfg, sv);
  }

  lemma CloneEnvToken(cfg: Config, sv: Server)
    ensures var env := GitCloneEnv(cfg, sv) + StorageVars(sv);
      Only(env, "GIT_CLONE_USER__RENKU_TOKEN", 3) && Child(env[3], Key("value")) == Some(Str(sv.accessToken))
  {
    hide EnvVar, CloneEnvSettings, CloneEnvUser, Numbered, StorageVars, Only, NoneNamed, T.Named;
    VarsHaveNames();
    NotInCloneFront(sv);
    NotAfterCloneToken(cfg, sv);
    var front, token, after := CloneEnvFront(sv), EnvVar(CLONE_TOKEN, Str(sv.accessToken)), CloneEnvAfter(cfg, sv);
    OnlyBetween(front, token, after, CLONE_TOKEN);
    assert GitCloneEnv(cfg, sv) + StorageVars(sv) == front + [token] + after;
  }

  lemma SecretsEnvToken(cfg: Config, sv: Server)
    ensures Only(SecretsEnv(cfg, sv), "RENKU_ACCESS_TOKEN", 1)
    ensures Child(SecretsEnv(cfg, sv)[1], Key("value")) == Some(Str(sv.accessToken))
  {
    hide Setting, EnvVar, T.Named;
    VarsHaveNames();
    assert |"RENKU_ACCESS_TOKEN"| == 18 && |"DATA_SERVICE_URL"| == 16;
    assert |"ENCRYPTED_SECRETS_MOUNT_PATH"| == |"DECRYPTED_SECRETS_MOUNT_PATH"| == 28;
  }

  lemma SecretsToken(cfg: Config, sv: Server)
    requires sv.userSecrets.Some?
    ensures var c := SecretsContainer(cfg, sv, sv.userSecrets.value);
      && T.Named(c, "init-user-secrets")
      && var env := FieldItems(c, "env");
        && env.Some? && Only(env.value, "RENKU_ACCESS_TOKEN", 1)
        && Child(env.value[1], Key("value")) == Some(Str(sv.accessToken))
  {
    hide SecretsEnv, Only;
    SecretsEnvToken(cfg, sv);
    assert FieldItems(SecretsContainer(cfg, sv, sv.userSecrets.value), "env") == Some(SecretsEnv(cfg, sv));
  }

  /** A variable that is found in a list of containers, and the only one with these names. */
  lemma FoundIn(sts: Json, target: T.Target, items: seq<Json>, c: nat, v: nat)
    requires T.ItemsOf(sts, T.ListPath(target.list)) == Some(items)
    requires Only(items, target.container, c) && FieldItems(items[c], "env").Some?
    requires Only(FieldItems(items[c], "env").value, target.variable, v)
    ensures T.Find(sts, target) == Ok(Some(T.ValuePath(target.list, c, v)))
    ensures Get(sts, T.ValuePath(target.list, c, v)) == Child(FieldItems(items[c], "env").value[v], Key("value"))
    ensures T.Sole(sts, target)
  {
    FirstNamedIs(items, target.container, c);
    FirstNamedIs(FieldItems(items[c], "env").value, target.variable, v);
    var inner: Path := [At(c), Key("env"), At(v), Key("value")];
    assert T.ValuePath(target.list, c, v) == T.ListPath(target.list) + inner;
    GetThrough(sts, T.ListPath(target.list), inner);
    assert inner == [At(c), Key("env")] + [At(v), Key("value")];
    GetThrough(Arr(items), [At(c), Key("env")], [At(v), Key("value")]);
    TwoTokens(Arr(items), At(c), Key("env"), Null);
    TwoTokens(Child(items[c], Key("env")).value, At(v), Key("value"), Null);
  }

  /** The lists of the statefulset are those of the manifest it is part of. */
  lemma ListsOfStatefulset(d: Json, slot: Slot)
    requires slot.Containers? || slot.Inits?
    requires Get(d, [Key("statefulset")]).Some?
    ensures T.ItemsOf(Get(d, [Key("statefulset")]).value, T.ListPath(SpecName(slot))) == SlotOf(d, slot)
  {
    assert SlotPath(slot) == [Key("statefulset")] + T.ListPath(SpecName(slot));
    GetThrough(d, [Key("statefulset")], T.ListPath(SpecName(slot)));
  }

  lemma ContainersFound(cfg: Config, sv: Server, sts: Json, items: seq<Json>, n: nat, t: T.RenkuTokens)
    requires T.ItemsOf(sts, T.ListPath("containers")) == Some(items)
    requires |items| == n + 2 && items[n] == GitProxyContainer(cfg, sv) && items[n + 1] == GitSidecarContainer(cfg, sv)
    requires NoneNamed(items[..n], "git-proxy")
    ensures T.Find(sts, T.Targets(t)[0]) == Ok(Some(T.ValuePath("containers", n, 3)))
    ensures T.Find(sts, T.Targets(t)[1]) == Ok(Some(T.ValuePath("containers", n, 4)))
    ensures Get(sts, T.ValuePath("containers", n, 3)) == Some(Str(sv.accessToken))
    ensures Get(sts, T.ValuePath("containers", n, 4)) == Some(Str(sv.refreshToken))
    ensures T.Sole(sts, T.Targets(t)[0]) && T.Sole(sts, T.Targets(t)[1])
  {
    hide GitProxyContainer, GitProxyEnv, GitSidecarContainer, T.Named, Only, T.Sole;
    ProxyTokens(cfg, sv);
    ProxyEnvTokens(cfg, sv);
    OnlyBetween(items[..n], items[n], [items[n + 1]], "git-proxy");
    assert items == items[..n] + [items[n]] + [items[n + 1]];
    FoundIn(sts, T.Targets(t)[0], items, n, 3);
    FoundIn(sts, T.Targets(t)[1], items, n, 4);
  }

  lemma InitNames(cfg: Config, sv: Server)
    ensures !T.Named(CertificatesContainer(cfg), "git-clone") && !T.Named(DOWNLOAD_CONTAINER, "git-clone")
    ensures !T.Named(CertificatesContainer(cfg), "init-user-secrets")
      && !T.Named(DOWNLOAD_CONTAINER, "init-user-secrets")
    ensures !T.Named(CloneContainer(cfg, sv), "init-user-secrets")
    ensures sv.userSecrets.Some? ==> !T.Named(SecretsContainer(cfg, sv, sv.userSecrets.value), "git-clone")
  {
    hide GitCloneEnv, StorageVars, EtcCertsMount, Setting;
    assert |"git-clone"| == 9 && |"init-user-secrets"| == 17 && |"init-certificates"| == 17 && |"download-image"| == 14;
    assert "init-user-secrets"[5] == 'u' && "init-certificates"[5] == 'c';
  }

  /** The init containers of a session with repositories. */
  ghost function InitsMade(cfg: Config, sv: Server): seq<Json> {
    SecretsInits(cfg, sv) + [CertificatesContainer(cfg), DOWNLOAD_CONTAINER, CloneContainer(cfg, sv)]
  }

  lemma CloneFound(cfg: Config, sv: Server, sts: Json, t: T.RenkuTokens)
    requires T.ItemsOf(sts, T.ListPath("initContainers")) == Some(InitsMade(cfg, sv))
    ensures var c := if sv.userSecrets.Some? then 3 else 2;
      && T.Find(sts, T.Targets(t)[2]) == Ok(Some(T.ValuePath("initContainers", c, 3)))
      && Get(sts, T.ValuePath("initContainers", c, 3)) == Some(Str(sv.accessToken))
    ensures T.Sole(sts, T.Targets(t)[2])
  {
    hide CertificatesContainer, CloneContainer, SecretsContainer, T.Named, Only, T.Sole;
    InitNames(cfg, sv);
    CloneToken(cfg, sv);
    var clone := CloneContainer(cfg, sv);
    var before := SecretsInits(cfg, sv) + [CertificatesContainer(cfg), DOWNLOAD_CONTAINER];
    OnlyBetween(before, clone, [], "git-clone");
    assert InitsMade(cfg, sv) == before + [clone] + [];
    FoundIn(sts, T.Targets(t)[2], InitsMade(cfg, sv), |before|, 3);
  }

  lemma SecretsFound(cfg: Config, sv: Server, sts: Json, t: T.RenkuTokens)
    requires T.ItemsOf(sts, T.ListPath("initContainers")) == Some(InitsMade(cfg, sv))
    ensures if sv.userSecrets.Some? then
        T.Find(sts, T.Targets(t)[3]) == Ok(Some(T.ValuePath("initContainers", 0, 1)))
        && Get(sts, T.ValuePath("initContainers", 0, 1)) == Some(Str(sv.accessToken))
      else T.Find(sts, T.Targets(t)[3]) == Ok(None)
    ensures T.Sole(sts, T.Targets(t)[3])
  {
    hide CertificatesContainer, CloneContainer, SecretsContainer, T.Named, Only;
    InitNames(cfg, sv);
    var items := InitsMade(cfg, sv);
    var after := [CertificatesContainer(cfg), DOWNLOAD_CONTAINER, CloneContainer(cfg, sv)];
    if sv.userSecrets.Some? {
      SecretsToken(cfg, sv);
      OnlyBetween([], items[0], after, "init-user-secrets");
      assert items == [] + [items[0]] + after;
      FoundIn(sts, T.Targets(t)[3], items, 0, 1);
    } else {
      var r := T.FirstNamed(items, "init-user-secrets", 0);
      assert items == after;
      assert NoneNamed(items, "init-user-secrets");
    }
  }

  /** The renewal finds all tokens of a session whose git proxy is container n, and leaves no old one behind. */
  ghost predicate Renewable(sv: Server, sts: Json, n: nat, t: T.RenkuTokens) {
    && T.Find(sts, T.Targets(t)[0]) == Ok(Some(T.ValuePath("containers", n, 3)))
    && T.Find(sts, T.Targets(t)[1]) == Ok(Some(T.ValuePath("containers", n, 4)))
    && T.Find(sts, T.Targets(t)[2]) == Ok(Some(T.ValuePath("initContainers", if sv.userSecrets.Some? then 3 else 2, 3)))
    && T.Find(sts, T.Targets(t)[3])
       == Ok(if sv.userSecrets.Some? then Some(T.ValuePath("initContainers", 0, 1)) else None)
    && T.Patches(sts, t).Ok?
    && ApplyAll(sts, T.Patches(sts, t).value).Some?
    && T.AllNew(ApplyAll(sts, T.Patches(sts, t).value).value, t)
  }

  /**
   A session of a registered user with repositories can have its tokens renewed: in the statefulset
   that the patches make, the renewal finds the access and refresh token of the git proxy, the token
   of the clone container, and that of the user secrets when there are some.  All of them hold literal
   values, so the operations apply, and afterwards no variable of these names in a container of these
   names holds an old token.
   */
  lemma StartedSessionIsRenewable(cfg: Config, sv: Server, d: Json, patches: seq<Patch>, t: T.RenkuTokens)
    requires Admissible(cfg, sv, d) && GetPatches(cfg, sv) == Ok(patches)
    requires HasGitContainers(sv) && !StorageMisses(sv)
    requires NoneNamed(PodOf(d).containers.value, "git-proxy")
    ensures Run(d, patches).Some? && Get(Run(d, patches).value, [Key("statefulset")]).Some?
    ensures Renewable(sv, Get(Run(d, patches).value, [Key("statefulset")]).value, |PodOf(d).containers.value|, t)
  {
    hide Run, GetPatches, StorageMisses, AllAdditions, T.Find, T.Patches, T.AllNew, NoneNamed, ApplyAll, Fits, With;
    PatchesApply(cfg, sv, d, patches);
    ResultLists(cfg, sv, PodOf(d));
    RunKeepsSpec(cfg, sv, d, patches);
    ResultIsRenewable(cfg, sv, PodOf(d), Run(d, patches).value, t);
  }

  lemma ResultIsRenewable(cfg: Config, sv: Server, base: Pod, d: Json, t: T.RenkuTokens)
    requires Fits(base, AllAdditions(cfg, sv)) && PodOf(d) == With(base, AllAdditions(cfg, sv))
    requires HasGitContainers(sv) && NoneNamed(base.containers.value, "git-proxy")
    requires Get(d, [Key("statefulset")]).Some?
    ensures Renewable(sv, Get(d, [Key("statefulset")]).value, |base.containers.value|, t)
  {
    hide T.Find, T.Patches, T.Targets, T.AllNew, NoneNamed, ApplyAll, InitsMade, AllAdditions, With, MainFits,
         ProxyFits, Renewable, Child, Get, GitProxyContainer, GitSidecarContainer, T.Named;
    ResultLists(cfg, sv, base);
    ListsOfStatefulset(d, Containers);
    ListsOfStatefulset(d, Inits);
    var n := |base.containers.value|;
    SameNames(base.containers.value, PodOf(d).containers.value[..n], "git-proxy");
    ListsAreRenewable(cfg, sv, Get(d, [Key("statefulset")]).value, PodOf(d).containers.value, n, t);
  }

  lemma SameNames(items: seq<Json>, items': seq<Json>, name: string)
    requires |items'| == |items| && forall k | 0 <= k < |items| ::
      Child(items'[k], Key("name")) == Child(items[k], Key("name"))
    requires NoneNamed(items, name)
    ensures NoneNamed(items', name)
  {
  }

  lemma ListsAreRenewable(cfg: Config, sv: Server, sts: Json, cs: seq<Json>, n: nat, t: T.RenkuTokens)
    requires T.ItemsOf(sts, T.ListPath("containers")) == Some(cs)
    requires T.ItemsOf(sts, T.ListPath("initContainers")) == Some(InitsMade(cfg, sv))
    requires |cs| == n + 2 && cs[n] == GitProxyContainer(cfg, sv) && cs[n + 1] == GitSidecarContainer(cfg, sv)
    requires NoneNamed(cs[..n], "git-proxy")
    ensures Renewable(sv, sts, n, t)
  {
    hide T.Find, T.ValuePath, GitProxyContainer, GitSidecarContainer, InitsMade, T.PatchesFor, T.Sole, T.AllNew,
         T.Named;
    ContainersFound(cfg, sv, sts, cs, n, t);
    CloneFound(cfg, sv, sts, t);
    SecretsFound(cfg, sv, sts, t);
    assert T.Readable(sts, T.Targets(t));
    var ops := T.PatchesFor(sts, T.Targets(t));
    T.TokensAreRenewed(sts, t, ops);
    T.NothingOldStays(sts, t, ops, ApplyAll(sts, ops).value);
  }

  /** A manifest whose spec holds arrays has a spec. */
  lemma RunKeepsSpec(cfg: Config, sv: Server, d: Json, patches: seq<Patch>)
    requires Run(d, patches).Some? && PodOf(Run(d, patches).value).containers.Some?
    ensures Get(Run(d, patches).value, SPEC).Some?
  {
    hide Run;
    GetThrough(Run(d, patches).value, SPEC, [Key("containers")]);
  }

  lemma ListsWith(base: Pod, a: Additions)
    requires Fits(base, a) && |a.containers| == 2
    ensures With(base, a).containers.Some? && With(base, a).inits == Some(a.inits)
    ensures var cs := With(base, a).containers.value; var n := |base.containers.value|;
      && |cs| == n + 2 && cs[n] == a.containers[0] && cs[n + 1] == a.containers[1]
      && forall k | 0 <= k < n :: Child(cs[k], Key("name")) == Child(base.containers.value[k], Key("name"))
  {
    hide Main, Proxy;
    NamesStay(base.containers.value[0], a);
    NamesStay(base.containers.value[1], a);
  }

  lemma ResultLists(cfg: Config, sv: Server, base: Pod)
    requires Fits(base, AllAdditions(cfg, sv)) && HasGitContainers(sv)
    ensures With(base, AllAdditions(cfg, sv)).containers.Some?
    ensures var cs := With(base, AllAdditions(cfg, sv)).containers.value; var n := |base.containers.value|;
      && |cs| == n + 2 && cs[n] == GitProxyContainer(cfg, sv) && cs[n + 1] == GitSidecarContainer(cfg, sv)
      && forall k | 0 <= k < n :: Child(cs[k], Key("name")) == Child(base.containers.value[k], Key("name"))
    ensures With(base, AllAdditions(cfg, sv)).inits == Some(InitsMade(cfg, sv))
  {
    hide With, AllAdditions, GitProxyContainer, GitSidecarContainer, CertificatesContainer, CloneContainer,
         SecretsInits;
    GitAdditions(cfg, sv);
    ListsWith(base, AllAdditions(cfg, sv));
  }

  lemma GitAdditions(cfg: Config, sv: Server)
    requires HasGitContainers(sv)
    ensures AllAdditions(cfg, sv).containers == [GitProxyContainer(cfg, sv), GitSidecarContainer(cfg, sv)]
    ensures AllAdditions(cfg, sv).inits == InitsMade(cfg, sv)
  {
    hide GitProxyContainer, GitSidecarContainer, CertificatesContainer, CloneContainer, SecretsContainer,
         GitCloneContainer, GitCloneEnv, JupyterEnv, SidecarArgs, EarlyMounts, EarlyVolumes, StorageMounts,
         StorageVolumes, UpstreamArg;
  }
}
