/** The cloud storages, which come last and address an init container by its index, and the whole run. */
module ManifestResult {
  import opened Prelude
  import opened Json
  import opened Text
  import opened Pods
  import opened SessionPatches
  import opened ManifestForm
  import opened Manifest

  /** The additions after the first n cloud storages, when the third init container is the clone. */
  ghost function WithStorages(cfg: Config, sv: Server, n: nat): Additions
    requires n <= |sv.storages|
  {
    var a := BeforeStorage(cfg, sv);
    a.(mainMounts := a.mainMounts + StorageMounts(sv)[..n],
       volumes := a.volumes + StorageVolumes(sv)[..n],
       inits := SecretsInits(cfg, sv) + [CertificatesContainer(cfg), DOWNLOAD_CONTAINER]
                + If(sv.repositories != [], [GitCloneContainer(cfg, sv, GitCloneEnv(cfg, sv) + StorageVars(sv)[..n])]))
  }

  lemma StorageNames(base: string)
    ensures base + "-pv" != "statefulset" && base + "-pv" != "service"
    ensures base + "-secret" != "statefulset" && base + "-secret" != "service"
  {
    var pv, secret := base + "-pv", base + "-secret";
    assert pv[|pv| - 1] == 'v';
    assert secret[|secret| - 7] == '-';
    assert "statefulset"[4] == 'e' && "service"[0] == 's';
  }

  lemma StorageRoots(cfg: Config, sv: Server, d: Json, base: Pod, a: Additions, i: nat) returns (d': Json)
    requires Has(d, base, a) && i < |sv.storages|
    ensures ApplyAll(d, StorageManifest(cfg, sv, i)[..2]) == Some(d') && Has(d', base, a)
  {
    var name := BaseName(sv, i);
    StorageNames(name);
    var d1 := AddToRoot(d, With(base, a), name + "-pv", Opaque(cfg, name + "-pv"));
    d' := AddToRoot(d1, With(base, a), name + "-secret", Opaque(cfg, name + "-secret"));
    OpsThen(d, [Add([Key(name + "-pv")], Opaque(cfg, name + "-pv"))], d1,
            [Add([Key(name + "-secret")], Opaque(cfg, name + "-secret"))]);
    assert StorageManifest(cfg, sv, i)[..2]
        == [Add([Key(name + "-pv")], Opaque(cfg, name + "-pv"))]
          + [Add([Key(name + "-secret")], Opaque(cfg, name + "-secret"))];
  }

  lemma StorageManifestRuns(cfg: Config, sv: Server, d: Json, base: Pod, a: Additions, i: nat) returns (d': Json)
    requires Has(d, base, a) && i < |sv.storages|
    ensures Run(d, [StorageManifest(cfg, sv, i)]) == Some(d')
    ensures Has(d', base,
                a.(mainMounts := a.mainMounts + [StorageMount(sv, i)], volumes := a.volumes + [StorageVolume(sv, i)]))
  {
    hide Has;
    var ops := StorageManifest(cfg, sv, i);
    var d1 := StorageRoots(cfg, sv, d, base, a, i);
    var d2 := AddMainMounts(d1, base, a, [StorageMount(sv, i)]);
    d' := AddVolumes(d2, base, a.(mainMounts := a.mainMounts + [StorageMount(sv, i)]), [StorageVolume(sv, i)]);
    OneAppend(FieldPath(Containers, 0, "volumeMounts"), StorageMount(sv, i));
    OneAppend(SlotPath(Volumes), StorageVolume(sv, i));
    var mount, volume := ToField(Containers, 0, "volumeMounts", StorageMount(sv, i)),
      ToSlot(Volumes, StorageVolume(sv, i));
    assert ops == ops[..2] + mount + volume;
    OpsThen(d, ops[..2], d1, mount);
    OpsThen(d, ops[..2] + mount, d2, volume);
    RunOne(d, ops);
  }

  lemma CloneGrows(cfg: Config, sv: Server, env: seq<Json>, more: seq<Json>)
    ensures FieldItems(GitCloneContainer(cfg, sv, env), "env") == Some(env)
    ensures Extend(GitCloneContainer(cfg, sv, env), "env", more) == GitCloneContainer(cfg, sv, env + more)
  {
    assert Extend(GitCloneContainer(cfg, sv, env), "env", more).members
      == GitCloneContainer(cfg, sv, env + more).members;
  }

  /** One more storage variable for the clone container, at the third place. */
  lemma CloneEnvRuns(cfg: Config, sv: Server, d: Json, base: Pod, a: Additions, env: seq<Json>, i: nat)
    returns (d': Json)
    requires Has(d, base, a) && i < |sv.storages|
    requires |a.inits| == 3 && a.inits[2] == GitCloneContainer(cfg, sv, env)
    ensures Run(d, [ToField(Inits, 2, "env", StorageVar(sv, i))]) == Some(d')
    ensures Has(d', base, a.(inits := a.inits[2 := GitCloneContainer(cfg, sv, env + [StorageVar(sv, i)])]))
  {
    hide Has, GitCloneContainer, StorageVar, FieldItems;
    var x := StorageVar(sv, i);
    CloneGrows(cfg, sv, env, [x]);
    d' := AddInitEnv(d, base, a, 2, [x]);
    OneAppend(FieldPath(Inits, 2, "env"), x);
    RunOne(d, ToField(Inits, 2, "env", x));
  }

  lemma NextStorage(cfg: Config, sv: Server, d: Json, base: Pod, n: nat) returns (d': Json)
    requires n < |sv.storages| && Has(d, base, WithStorages(cfg, sv, n))
    requires sv.repositories != [] ==> sv.userSecrets.None?
    ensures Run(d, StoragePatches(cfg, sv, n)) == Some(d') && Has(d', base, WithStorages(cfg, sv, n + 1))
  {
    hide Has, Run, CertificatesContainer, GitCloneContainer, GitCloneEnv, BeforeStorage, StorageManifest, StorageMount,
         StorageVolume, StorageVar;
    var a, a' := WithStorages(cfg, sv, n), WithStorages(cfg, sv, n + 1);
    var d1 := StorageManifestRuns(cfg, sv, d, base, a, n);
    var a1 := a.(mainMounts := a.mainMounts + [StorageMount(sv, n)], volumes := a.volumes + [StorageVolume(sv, n)]);
    assert a1.mainMounts == a'.mainMounts && a1.volumes == a'.volumes;
    if sv.repositories == [] {
      d' := d1;
      assert StoragePatches(cfg, sv, n) == [StorageManifest(cfg, sv, n)];
    } else {
      var env := GitCloneEnv(cfg, sv) + StorageVars(sv)[..n];
      assert a1.inits == [CertificatesContainer(cfg), DOWNLOAD_CONTAINER, GitCloneContainer(cfg, sv, env)];
      d' := CloneEnvRuns(cfg, sv, d1, base, a1, env, n);
      assert env + [StorageVar(sv, n)] == GitCloneEnv(cfg, sv) + StorageVars(sv)[..n + 1];
      assert a'.inits == a1.inits[2 := GitCloneContainer(cfg, sv, env + [StorageVar(sv, n)])];
      Then(d, [StorageManifest(cfg, sv, n)], d1, [ToField(Inits, 2, "env", StorageVar(sv, n))], d');
    }
  }

  lemma {:induction false} StoragesRun(cfg: Config, sv: Server, d: Json, base: Pod, n: nat) returns (d': Json)
    requires n <= |sv.storages| && Has(d, base, BeforeStorage(cfg, sv))
    requires sv.repositories != [] && n > 0 ==> sv.userSecrets.None?
    ensures Run(d, CloudStorageUpTo(cfg, sv, n)) == Some(d') && Has(d', base, WithStorages(cfg, sv, n))
  {
    hide Has, Run, StoragePatches, GitCloneEnv, GitCloneContainer, CertificatesContainer, JupyterEnv, SidecarArgs,
         GitProxyContainer, GitSidecarContainer;
    if n == 0 {
      d' := d;
      RunOne(d, []);
      var a := BeforeStorage(cfg, sv);
      assert a.mainMounts + [] == a.mainMounts && a.volumes + [] == a.volumes
        && GitCloneEnv(cfg, sv) + [] == GitCloneEnv(cfg, sv);
      assert WithStorages(cfg, sv, 0) == a;
    } else {
      var d1 := StoragesRun(cfg, sv, d, base, n - 1);
      d' := NextStorage(cfg, sv, d1, base, n - 1);
      Then(d, CloudStorageUpTo(cfg, sv, n - 1), d1, StoragePatches(cfg, sv, n - 1), d');
    }
  }

  // -------------------------------------------------------------- the failure

  lemma ThirdIsDownload(cfg: Config, sv: Server)
    requires sv.userSecrets.Some?
    ensures var inits := BeforeStorage(cfg, sv).inits; |inits| > 2 && inits[2] == DOWNLOAD_CONTAINER
  {
    hide GitCloneEnv, GitCloneContainer, CertificatesContainer, CertificateVolumes, SecretsContainer, SecretsVolumes,
         SecretsMount, JupyterEnv, SidecarArgs, UpstreamArg, GitProxyContainer, GitSidecarContainer,
         UnverifiedEmailVar, CaFilesVar, EtcCertsMount, EarlyMounts, EarlyVolumes, HostKeyMounts, HostKeyVolumes,
         Opaque, SecretName;
  }

  /** Behind the user secrets the third init container is the image download, which has no environment. */
  lemma FirstStorageFails(cfg: Config, sv: Server, d: Json, base: Pod)
    requires Has(d, base, BeforeStorage(cfg, sv)) && StorageMisses(sv)
    ensures Run(d, StoragePatches(cfg, sv, 0)) == None
  {
    hide Has, Run, BeforeStorage, StorageManifest, StorageMount, StorageVolume, StorageVar;
    var a := BeforeStorage(cfg, sv);
    var d1 := StorageManifestRuns(cfg, sv, d, base, a, 0);
    var a1 := a.(mainMounts := a.mainMounts + [StorageMount(sv, 0)], volumes := a.volumes + [StorageVolume(sv, 0)]);
    ThirdIsDownload(cfg, sv);
    EnvOfDownloadMissing(d1, base, a1, StorageVar(sv, 0));
    RunThen(d, [StorageManifest(cfg, sv, 0)], [ToField(Inits, 2, "env", StorageVar(sv, 0))]);
  }

  lemma EnvOfDownloadMissing(d: Json, base: Pod, a: Additions, x: Json)
    requires Has(d, base, a) && |a.inits| > 2 && a.inits[2] == DOWNLOAD_CONTAINER
    ensures Run(d, [ToField(Inits, 2, "env", x)]) == None
  {
    assert FieldItems(DOWNLOAD_CONTAINER, "env").None?;
    AppendToMissingField(d, With(base, a), Inits, 2, "env", x);
    RunOne(d, ToField(Inits, 2, "env", x));
  }

  lemma {:induction false} StoragesFail(cfg: Config, sv: Server, d: Json, n: nat)
    requires 0 < n <= |sv.storages| && Run(d, StoragePatches(cfg, sv, 0)) == None
    ensures Run(d, CloudStorageUpTo(cfg, sv, n)) == None
  {
    hide Run, StoragePatches;
    if n == 1 {
      assert CloudStorageUpTo(cfg, sv, 1) == [] + StoragePatches(cfg, sv, 0) == StoragePatches(cfg, sv, 0);
    } else {
      StoragesFail(cfg, sv, d, n - 1);
      RunThen(d, CloudStorageUpTo(cfg, sv, n - 1), StoragePatches(cfg, sv, n - 1));
    }
  }

  // -------------------------------------------------------------- the whole run

  lemma UpToStorage(cfg: Config, sv: Server, d: Json, env: seq<Patch>) returns (d': Json)
    requires Admissible(cfg, sv, d) && Env(sv) == Ok(env)
    ensures Run(d, GeneralPatches(cfg, sv) + JupyterPatches(cfg, sv, env) + SidecarPatches(cfg, sv)
                   + InitPatches(cfg, sv)) == Some(d')
    ensures Has(d', PodOf(d), BeforeStorage(cfg, sv))
  {
    hide Has, Run, GeneralPatches, JupyterPatches, SidecarPatches, InitPatches, BeforeStorage, AfterJupyter,
         AfterSidecar;
    var base := PodOf(d);
    var d1 := GeneralRuns(cfg, sv, d);
    var d2 := JupyterRuns(cfg, sv, env, d1, base, NOTHING.(volumes := [ShmVolume(cfg)], mainMounts := [SHM_MOUNT]));
    var d3 := SidecarPatchesRun(cfg, sv, d2, base);
    d' := InitPatchesRun(cfg, sv, d3, base);
    var p, q, r := GeneralPatches(cfg, sv), JupyterPatches(cfg, sv, env), SidecarPatches(cfg, sv);
    Then(d, p, d1, q, d2);
    Then(d, p + q, d2, r, d3);
    Then(d, p + q + r, d3, InitPatches(cfg, sv), d');
  }

  /**
   The whole run.  On every admissible base the generated patches succeed exactly when the server
   does not combine user secrets, cloud storage and repositories, and then the arrays of the
   result are those of the base with exactly the expected additions.
   */
  lemma PatchesApply(cfg: Config, sv: Server, d: Json, patches: seq<Patch>)
    requires Admissible(cfg, sv, d) && GetPatches(cfg, sv) == Ok(patches)
    ensures Run(d, patches).Some? <==> !StorageMisses(sv)
    ensures Run(d, patches).Some? ==>
              Fits(PodOf(d), AllAdditions(cfg, sv))
                && PodOf(Run(d, patches).value) == With(PodOf(d), AllAdditions(cfg, sv))
  {
    hide Run, GeneralPatches, JupyterPatches, SidecarPatches, InitPatches, BeforeStorage, CloudStorageUpTo, Env,
         StoragePatches;
    var env := Env(sv).value;
    var base := PodOf(d);
    var d1 := UpToStorage(cfg, sv, d, env);
    var early := GeneralPatches(cfg, sv) + JupyterPatches(cfg, sv, env) + SidecarPatches(cfg, sv)
      + InitPatches(cfg, sv);
    RunThen(d, early, CloudStorage(cfg, sv));
    if StorageMisses(sv) {
      FirstStorageFails(cfg, sv, d1, base);
      StoragesFail(cfg, sv, d1, |sv.storages|);
    } else {
      var d2 := StoragesRun(cfg, sv, d1, base, |sv.storages|);
      AllStorages(cfg, sv);
    }
  }

  lemma AllStorages(cfg: Config, sv: Server)
    ensures WithStorages(cfg, sv, |sv.storages|) == AllAdditions(cfg, sv)
  {
    hide GitCloneEnv, CertificatesContainer, BeforeStorage;
    var n := |sv.storages|;
    assert StorageMounts(sv)[..n] == StorageMounts(sv) && StorageVolumes(sv)[..n] == StorageVolumes(sv);
    assert StorageVars(sv)[..n] == StorageVars(sv);
  }

  // ---------------------------------------------------------- the tested names

  lemma {:induction false} AFailedTestFails(d: Json, tests: seq<Patch>, k: nat)
    requires forall j | 0 <= j < |tests| :: |tests[j]| == 1 && tests[j][0].Test?
    requires k < |tests| && Get(d, tests[k][0].path) != Some(tests[k][0].value)
    ensures Run(d, tests) == None
    decreases |tests|
  {
    assert tests == [tests[0]] + tests[1..];
    RunThen(d, [tests[0]], tests[1..]);
    RunOne(d, tests[0]);
    assert tests[0] == [tests[0][0]];
    assert Run(d, [tests[0]]) == Apply(d, tests[0][0]) by {
      if Apply(d, tests[0][0]).Some? {
        OneOp(d, tests[0][0], Apply(d, tests[0][0]).value);
      }
    }
    if k > 0 {
      AFailedTestFails(d, tests[1..], k - 1);
    }
  }

  /** On a manifest whose containers are not the expected ones, in the expected places, nothing is patched at all. */
  lemma WrongContainersFail(cfg: Config, sv: Server, d: Json, patches: seq<Patch>, k: nat)
    requires GetPatches(cfg, sv) == Ok(patches)
    requires k < |ExpectedContainers(cfg, sv)|
    requires Get(d, FieldPath(Containers, k, "name")) != Some(Str(ExpectedContainers(cfg, sv)[k]))
    ensures Run(d, patches) == None
  {
    hide Run, JupyterPatches, SidecarPatches, InitPatches, CloudStorage, SessionTolerations, SessionAffinity,
         SessionNodeSelector, PriorityClass, DevShm, FieldPath;
    var tests := TestContainers(cfg, sv);
    AFailedTestFails(d, tests, k);
    var env := Env(sv).value;
    var general := SessionTolerations(cfg) + SessionAffinity(cfg) + SessionNodeSelector(cfg, sv) + PriorityClass(sv)
      + DevShm(cfg);
    assert GeneralPatches(cfg, sv) == tests + general;
    var rest := general + JupyterPatches(cfg, sv, env) + SidecarPatches(cfg, sv) + InitPatches(cfg, sv)
      + CloudStorage(cfg, sv);
    assert patches == tests + rest;
    RunThen(d, tests, rest);
  }
}
