/**
 What the whole sequence of patches does to a base manifest.  On every base that passes the tests
 and has the arrays that Amalthea provides, the sequence succeeds unless user secrets, cloud
 storage and repositories come together, and then the result is the base with exactly the
 additions listed here.
 */
module Manifest {
  import opened Prelude
  import opened Json
  import opened Text
  import opened Pods
  import opened SessionPatches
  import opened ManifestForm

  // ---------------------------------------------------------- what is expected

  /** A base manifest that the patches of this server are meant for. */
  ghost predicate Admissible(cfg: Config, sv: Server, d: Json) {
    var base := PodOf(d);
    && Shows(d, base)
    && base.containers.Some? && |base.containers.value| >= 2
    && MainFits(base.containers.value[0])
    && ProxyReady(sv, base.containers.value[1])
    && base.inits == Some([])
    && base.volumes.Some?
    && (sv.imagePrivate ==> base.pullSecrets.Some?)
    && (cfg.sshEnabled ==> base.servicePorts.Some?)
    && (forall k | 0 <= k < |ExpectedContainers(cfg, sv)| ::
          Get(d, FieldPath(Containers, k, "name")) == Some(Str(ExpectedContainers(cfg, sv)[k])))
  }

  ghost predicate ProxyReady(sv: Server, c: Json) {
    && c.Obj? && FieldItems(c, "volumeMounts").Some?
    && (sv.registered ==> FieldItems(c, "env").Some?)
    && (HasGitContainers(sv) ==> FieldItems(c, "args").Some? && |FieldItems(c, "args").value| > 6)
  }

  function If(condition: bool, values: seq<Json>): seq<Json> {
    if condition then values else []
  }

  function StorageVars(sv: Server): seq<Json> {
    seq(|sv.storages|, i requires 0 <= i < |sv.storages| => StorageVar(sv, i))
  }

  function StorageMounts(sv: Server): seq<Json> {
    seq(|sv.storages|, i requires 0 <= i < |sv.storages| => StorageMount(sv, i))
  }

  function StorageVolumes(sv: Server): seq<Json> {
    seq(|sv.storages|, i requires 0 <= i < |sv.storages| => StorageVolume(sv, i))
  }

  /** The clone container with the places of its storages, in order. */
  function CloneContainer(cfg: Config, sv: Server): Json {
    GitCloneContainer(cfg, sv, GitCloneEnv(cfg, sv) + StorageVars(sv))
  }

  function SecretsInits(cfg: Config, sv: Server): seq<Json> {
    if sv.userSecrets.Some? then [SecretsContainer(cfg, sv, sv.userSecrets.value)] else []
  }

  function HostKeyMounts(cfg: Config): seq<Json> {
    If(cfg.sshEnabled && cfg.sshHostKeySecret.Some?, [SshMount(cfg)])
  }

  function HostKeyVolumes(cfg: Config): seq<Json> {
    if cfg.sshEnabled && cfg.sshHostKeySecret.Some? then [SshVolume(cfg.sshHostKeySecret.value)] else []
  }

  function EarlyMounts(cfg: Config, sv: Server): seq<Json> {
    [SHM_MOUNT]
    + If(sv.environment != [], [RenvironMount(sv)])
    + (if sv.userSecrets.Some? then [SecretsMount(sv.userSecrets.value)] else [])
  }

  function EarlyVolumes(cfg: Config, sv: Server): seq<Json> {
    [ShmVolume(cfg)]
    + If(sv.environment != [], [RenvironVolume(sv)])
    + (if sv.userSecrets.Some? then SecretsVolumes(cfg, sv.userSecrets.value) else [])
  }

  /** Everything but the cloud storages. */
  function BeforeStorage(cfg: Config, sv: Server): Additions {
    Additions(
      Some(JUPYTER_ARGS),
      if cfg.sshEnabled then Some(Opaque(cfg, "ssh.container_ports")) else None,
      JupyterEnv(sv),
      EarlyMounts(cfg, sv) + HostKeyMounts(cfg),
      if HasGitContainers(sv) then Some(UpstreamArg(sv)) else None,
      If(HasGitContainers(sv), SidecarArgs(cfg, sv)),
      If(sv.registered, [UnverifiedEmailVar(cfg), CaFilesVar()]),
      [EtcCertsMount(true)],
      If(HasGitContainers(sv), [GitProxyContainer(cfg, sv), GitSidecarContainer(cfg, sv)]),
      SecretsInits(cfg, sv) + [CertificatesContainer(cfg), DOWNLOAD_CONTAINER]
        + If(sv.repositories != [], [GitCloneContainer(cfg, sv, GitCloneEnv(cfg, sv))]),
      EarlyVolumes(cfg, sv) + HostKeyVolumes(cfg) + CertificateVolumes(cfg),
      SecretName(sv),
      If(cfg.sshEnabled, [Opaque(cfg, "ssh.service_port")]))
  }

  /** All the additions: what each container, list and volume ends up with. */
  function AllAdditions(cfg: Config, sv: Server): Additions {
    var a := BeforeStorage(cfg, sv);
    a.(mainMounts := a.mainMounts + StorageMounts(sv),
       volumes := a.volumes + StorageVolumes(sv),
       inits := SecretsInits(cfg, sv) + [CertificatesContainer(cfg), DOWNLOAD_CONTAINER]
                + If(sv.repositories != [], [CloneContainer(cfg, sv)]))
  }

  /** The combination for which the third init container is not the one that clones. */
  predicate StorageMisses(sv: Server) {
    sv.userSecrets.Some? && sv.storages != [] && sv.repositories != []
  }

  // ------------------------------------------------------------ running patches

  function Run(d: Json, patches: seq<Patch>): Option<Json> {
    ApplyAll(d, Operations(patches))
  }

  lemma RunThen(d: Json, a: seq<Patch>, b: seq<Patch>)
    ensures Run(d, a + b) == match Run(d, a) case None => None case Some(d') => Run(d', b)
  {
    OperationsThen(a, b);
    ApplyAllThen(d, Operations(a), Operations(b));
  }

  /** Patches that lead from d to d1 and on to d2. */
  lemma Then(d: Json, a: seq<Patch>, d1: Json, b: seq<Patch>, d2: Json)
    requires Run(d, a) == Some(d1) && Run(d1, b) == Some(d2)
    ensures Run(d, a + b) == Some(d2)
  {
    RunThen(d, a, b);
  }

  lemma RunOne(d: Json, patch: Patch)
    ensures Run(d, [patch]) == ApplyAll(d, patch)
    ensures Run(d, []) == Some(d)
  {
    assert [patch][1..] == [];
    assert patch + [] == patch;
  }

  lemma OpsThen(d: Json, a: seq<Op>, d1: Json, b: seq<Op>)
    requires ApplyAll(d, a) == Some(d1)
    ensures ApplyAll(d, a + b) == ApplyAll(d1, b)
  {
    ApplyAllThen(d, a, b);
  }

  lemma OneAppend(path: Path, x: Json)
    ensures [Add(path + [End], x)] == Appends(path, [x])
  {
    assert [x][1..] == [];
  }

  // -------------------------------------------------------------- each generator

  lemma SpecRuns(d: Json, base: Pod, a: Additions, name: string, x: Json) returns (d': Json)
    requires Has(d, base, a)
    requires name !in {"containers", "initContainers", "volumes", "imagePullSecrets"}
    ensures Run(d, [ToSpec(name, x)]) == Some(d') && Has(d', base, a)
  {
    d' := AddToSpec(d, With(base, a), name, x);
    RunOne(d, ToSpec(name, x));
  }

  /** Tests that hold leave the manifest as it is. */
  lemma {:induction false} TestsRun(d: Json, tests: seq<Patch>)
    requires forall k | 0 <= k < |tests| ::
      |tests[k]| == 1 && tests[k][0].Test? && Get(d, tests[k][0].path) == Some(tests[k][0].value)
    ensures Run(d, tests) == Some(d)
  {
    if tests != [] {
      assert tests == [tests[0]] + tests[1..];
      RunThen(d, [tests[0]], tests[1..]);
      RunOne(d, tests[0]);
      assert tests[0] == [tests[0][0]];
      OneOp(d, tests[0][0], d);
      TestsRun(d, tests[1..]);
    }
  }

  lemma ShmRuns(cfg: Config, d: Json, base: Pod, a: Additions) returns (d': Json)
    requires Has(d, base, a)
    ensures Run(d, DevShm(cfg)) == Some(d')
    ensures Has(d', base, a.(volumes := a.volumes + [ShmVolume(cfg)], mainMounts := a.mainMounts + [SHM_MOUNT]))
  {
    OneAppend(SlotPath(Volumes), ShmVolume(cfg));
    OneAppend(FieldPath(Containers, 0, "volumeMounts"), SHM_MOUNT);
    var d1 := AddVolumes(d, base, a, [ShmVolume(cfg)]);
    d' := AddMainMounts(d1, base, a.(volumes := a.volumes + [ShmVolume(cfg)]), [SHM_MOUNT]);
    OpsThen(d, ToSlot(Volumes, ShmVolume(cfg)), d1, ToField(Containers, 0, "volumeMounts", SHM_MOUNT));
    RunOne(d, DevShm(cfg)[0]);
  }

  lemma SpecPatchesRun(cfg: Config, sv: Server, d: Json, base: Pod, a: Additions) returns (d': Json)
    requires Has(d, base, a)
    ensures Run(d, SessionTolerations(cfg) + SessionAffinity(cfg)) == Some(d') && Has(d', base, a)
  {
    var d1 := SpecRuns(d, base, a, "tolerations", Opaque(cfg, "tolerations"));
    d' := SpecRuns(d1, base, a, "affinity", Opaque(cfg, "affinity"));
    Then(d, SessionTolerations(cfg), d1, SessionAffinity(cfg), d');
  }

  lemma PlacementRuns(cfg: Config, sv: Server, d: Json, base: Pod, a: Additions) returns (d': Json)
    requires Has(d, base, a)
    ensures Run(d, SessionNodeSelector(cfg, sv) + PriorityClass(sv)) == Some(d') && Has(d', base, a)
  {
    RunOne(d, []);
    var d1 := d;
    if !sv.hasNodeAffinities {
      d1 := SpecRuns(d, base, a, "nodeSelector", Opaque(cfg, "node_selector"));
    }
    RunOne(d1, []);
    d' := d1;
    if sv.priorityClass.Some? {
      d' := SpecRuns(d1, base, a, "priorityClassName", Str(sv.priorityClass.value));
    }
    Then(d, SessionNodeSelector(cfg, sv), d1, PriorityClass(sv), d');
  }

  lemma AdmissibleFits(cfg: Config, sv: Server, d: Json)
    requires Admissible(cfg, sv, d)
    ensures Has(d, PodOf(d), NOTHING)
    ensures Run(d, TestContainers(cfg, sv)) == Some(d)
  {
    NothingAdded(PodOf(d));
    TestsRun(d, TestContainers(cfg, sv));
  }

  /** Tests, tolerations, affinity, node selector, priority class, shared memory. */
  lemma GeneralRuns(cfg: Config, sv: Server, d: Json) returns (d': Json)
    requires Admissible(cfg, sv, d)
    ensures Run(d, GeneralPatches(cfg, sv)) == Some(d')
    ensures Has(d', PodOf(d), NOTHING.(volumes := [ShmVolume(cfg)], mainMounts := [SHM_MOUNT]))
  {
    hide Has, Run, Admissible;
    var base := PodOf(d);
    AdmissibleFits(cfg, sv, d);
    var d1 := SpecPatchesRun(cfg, sv, d, base, NOTHING);
    var d2 := PlacementRuns(cfg, sv, d1, base, NOTHING);
    d' := ShmRuns(cfg, d2, base, NOTHING);
    var t, p, q := TestContainers(cfg, sv), SessionTolerations(cfg) + SessionAffinity(cfg), SessionNodeSelector(cfg, sv)
      + PriorityClass(sv);
    Then(d, t, d, p, d1);
    Then(d, t + p, d1, q, d2);
    Then(d, t + p + q, d2, DevShm(cfg), d');
    assert GeneralPatches(cfg, sv) == t + p + q + DevShm(cfg);
    assert [] + [ShmVolume(cfg)] == [ShmVolume(cfg)] && [] + [SHM_MOUNT] == [SHM_MOUNT];
  }

  lemma PullSecretRuns(cfg: Config, sv: Server, d: Json, base: Pod, a: Additions) returns (d': Json)
    requires Has(d, base, a) && (sv.imagePrivate ==> base.pullSecrets.Some?)
    ensures Run(d, ImagePullSecret(cfg, sv)) == Some(d')
    ensures Has(d', base, a.(pullSecrets := a.pullSecrets + SecretName(sv)))
  {
    if sv.imagePrivate {
      var secret := Obj(map["name" := Str(sv.name + "-image-secret")]);
      var d1 := AddToRoot(d, With(base, a), "image_pull_secret", Opaque(cfg, "image_pull_secret"));
      d' := AddPullSecret(d1, base, a, secret);
      OneAppend(SlotPath(PullSecrets), secret);
      var first := [Add([Key("image_pull_secret")], Opaque(cfg, "image_pull_secret"))];
      assert ImagePullSecret(cfg, sv) == [first] + [ToSlot(PullSecrets, secret)];
      RunOne(d, first);
      RunOne(d1, ToSlot(PullSecrets, secret));
      RunThen(d, [first], [ToSlot(PullSecrets, secret)]);
    } else {
      d' := d;
      assert a.pullSecrets + [] == a.pullSecrets;
    }
  }

  lemma RstudioRuns(cfg: Config, sv: Server, d: Json, base: Pod, a: Additions) returns (d': Json)
    requires Has(d, base, a)
    ensures Run(d, RstudioEnvVariables(cfg, sv)) == Some(d')
    ensures Has(d', base, a.(volumes := a.volumes + If(sv.environment != [], [RenvironVolume(sv)]),
                             mainMounts := a.mainMounts + If(sv.environment != [], [RenvironMount(sv)])))
  {
    if sv.environment != [] {
      var first := [Add([Key("renviron")], Opaque(cfg, "renviron"))];
      var d1 := AddToRoot(d, With(base, a), "renviron", Opaque(cfg, "renviron"));
      var d2 := AddVolumes(d1, base, a, [RenvironVolume(sv)]);
      d' := AddMainMounts(d2, base, a.(volumes := a.volumes + [RenvironVolume(sv)]), [RenvironMount(sv)]);
      OneAppend(SlotPath(Volumes), RenvironVolume(sv));
      OneAppend(FieldPath(Containers, 0, "volumeMounts"), RenvironMount(sv));
      OpsThen(d, first, d1, ToSlot(Volumes, RenvironVolume(sv)));
      OpsThen(d, first + ToSlot(Volumes, RenvironVolume(sv)), d2,
              ToField(Containers, 0, "volumeMounts", RenvironMount(sv)));
      RunOne(d, RstudioEnvVariables(cfg, sv)[0]);
    } else {
      d' := d;
      assert a.volumes + [] == a.volumes && a.mainMounts + [] == a.mainMounts;
    }
  }

  lemma SecretsRun(cfg: Config, sv: Server, d: Json, base: Pod, a: Additions) returns (d': Json)
    requires Has(d, base, a) && sv.userSecrets.Some?
    ensures Run(d, UserSecretsPatches(cfg, sv)) == Some(d')
    ensures var secrets := sv.userSecrets.value;
      Has(d', base, a.(inits := a.inits + [SecretsContainer(cfg, sv, secrets)],
                       volumes := a.volumes + SecretsVolumes(cfg, secrets),
                       mainMounts := a.mainMounts + [SecretsMount(secrets)]))
  {
    var secrets := sv.userSecrets.value;
    var p := UserSecretsPatches(cfg, sv);
    var d1 := AddInits(d, base, a, [SecretsContainer(cfg, sv, secrets)]);
    var a1 := a.(inits := a.inits + [SecretsContainer(cfg, sv, secrets)]);
    var d2 := AddVolumes(d1, base, a1, SecretsVolumes(cfg, secrets));
    d' := AddMainMounts(d2, base, a1.(volumes := a.volumes + SecretsVolumes(cfg, secrets)), [SecretsMount(secrets)]);
    OneAppend(SlotPath(Inits), SecretsContainer(cfg, sv, secrets));
    OneAppend(FieldPath(Containers, 0, "volumeMounts"), SecretsMount(secrets));
    ThreePatches(d, p[0], d1, p[1], d2, p[2], d');
  }

  lemma ThreePatches(d: Json, p: Patch, d1: Json, q: Patch, d2: Json, r: Patch, d3: Json)
    requires ApplyAll(d, p) == Some(d1) && ApplyAll(d1, q) == Some(d2) && ApplyAll(d2, r) == Some(d3)
    ensures Run(d, [p, q, r]) == Some(d3)
  {
    assert [p, q, r] == [p] + [q] + [r];
    RunOne(d, p);
    RunOne(d1, q);
    RunOne(d2, r);
    RunThen(d, [p], [q]);
    RunThen(d, [p] + [q], [r]);
  }

  lemma EarlyJupyterRuns(cfg: Config, sv: Server, env: seq<Patch>, d: Json, base: Pod, a: Additions) returns (d': Json)
    requires Has(d, base, a) && Env(sv) == Ok(env)
    ensures Run(d, Args() + env) == Some(d')
    ensures Has(d', base, a.(mainArgs := Some(JUPYTER_ARGS), mainEnv := a.mainEnv + JupyterEnv(sv)))
  {
    hide Has, Run;
    var d1 := SetMainArgs(d, base, a, JUPYTER_ARGS);
    RunOne(d, Args()[0]);
    d' := AddMainEnv(d1, base, a.(mainArgs := Some(JUPYTER_ARGS)), JupyterEnv(sv));
    RunOne(d1, env[0]);
    Then(d, Args(), d1, env, d');
  }

  function SecretName(sv: Server): seq<Json> {
    If(sv.imagePrivate, [Obj(map["name" := Str(sv.name + "-image-secret")])])
  }

  lemma MidJupyterRuns(cfg: Config, sv: Server, d: Json, base: Pod, a: Additions) returns (d': Json)
    requires Has(d, base, a) && (sv.imagePrivate ==> base.pullSecrets.Some?)
    ensures Run(d, ImagePullSecret(cfg, sv) + DisableServiceLinks()) == Some(d')
    ensures Has(d', base, a.(pullSecrets := a.pullSecrets + SecretName(sv)))
  {
    hide Has, Run;
    var d1 := PullSecretRuns(cfg, sv, d, base, a);
    d' := SpecRuns(d1, base, a.(pullSecrets := a.pullSecrets + SecretName(sv)), "enableServiceLinks", Bool(false));
    Then(d, ImagePullSecret(cfg, sv), d1, DisableServiceLinks(), d');
  }

  /** The notebook container's arguments and environment, the pull secret, the .Renviron file, the user secrets. */
  lemma JupyterRuns(cfg: Config, sv: Server, env: seq<Patch>, d: Json, base: Pod, a: Additions) returns (d': Json)
    requires Has(d, base, a) && (sv.imagePrivate ==> base.pullSecrets.Some?)
    requires Env(sv) == Ok(env)
    requires a == NOTHING.(volumes := [ShmVolume(cfg)], mainMounts := [SHM_MOUNT])
    ensures Run(d, JupyterPatches(cfg, sv, env)) == Some(d')
    ensures Has(d', base, AfterJupyter(cfg, sv))
  {
    hide Has, Run, Env, Args, JupyterEnv, SecretName, SecretsInits, SecretsVolumes, SecretsMount, RenvironVolume,
         RenvironMount, ShmVolume, ImagePullSecret, DisableServiceLinks, RstudioEnvVariables, UserSecretsPatches;
    var d1 := EarlyJupyterRuns(cfg, sv, env, d, base, a);
    var a1 := a.(mainArgs := Some(JUPYTER_ARGS), mainEnv := a.mainEnv + JupyterEnv(sv));
    var d2 := MidJupyterRuns(cfg, sv, d1, base, a1);
    var a2 := a1.(pullSecrets := a1.pullSecrets + SecretName(sv));
    d' := LateJupyterRuns(cfg, sv, d2, base, a2);
    var p, q, r := Args() + env, ImagePullSecret(cfg, sv) + DisableServiceLinks(), RstudioEnvVariables(cfg, sv)
      + UserSecretsPatches(cfg, sv);
    Then(d, p, d1, q, d2);
    Then(d, p + q, d2, r, d');
    assert JupyterPatches(cfg, sv, env) == p + q + r;
    assert [] + JupyterEnv(sv) == JupyterEnv(sv) && [] + SecretName(sv) == SecretName(sv)
      && [] + SecretsInits(cfg, sv) == SecretsInits(cfg, sv);
  }

  lemma LateJupyterRuns(cfg: Config, sv: Server, d: Json, base: Pod, a: Additions) returns (d': Json)
    requires Has(d, base, a)
    ensures Run(d, RstudioEnvVariables(cfg, sv) + UserSecretsPatches(cfg, sv)) == Some(d')
    ensures Has(d', base, a.(
      volumes := a.volumes + If(sv.environment != [], [RenvironVolume(sv)])
                 + (if sv.userSecrets.Some? then SecretsVolumes(cfg, sv.userSecrets.value) else []),
      mainMounts := a.mainMounts + If(sv.environment != [], [RenvironMount(sv)])
                    + (if sv.userSecrets.Some? then [SecretsMount(sv.userSecrets.value)] else []),
      inits := a.inits + SecretsInits(cfg, sv)))
  {
    hide Has, Run;
    var d1 := RstudioRuns(cfg, sv, d, base, a);
    RunThen(d, RstudioEnvVariables(cfg, sv), UserSecretsPatches(cfg, sv));
    var a1 := a.(volumes := a.volumes + If(sv.environment != [], [RenvironVolume(sv)]),
                 mainMounts := a.mainMounts + If(sv.environment != [], [RenvironMount(sv)]));
    if sv.userSecrets.Some? {
      d' := SecretsRun(cfg, sv, d1, base, a1);
    } else {
      d' := d1;
      RunOne(d1, []);
      assert a1.volumes + [] == a1.volumes && a1.mainMounts + [] == a1.mainMounts && a1.inits + [] == a1.inits;
    }
  }

  function AfterJupyter(cfg: Config, sv: Server): Additions {
    NOTHING.(
      mainArgs := Some(JUPYTER_ARGS),
      mainEnv := JupyterEnv(sv),
      mainMounts := EarlyMounts(cfg, sv),
      volumes := EarlyVolumes(cfg, sv),
      inits := SecretsInits(cfg, sv),
      pullSecrets := SecretName(sv))
  }

  lemma SidecarRuns(cfg: Config, sv: Server, d: Json, base: Pod, a: Additions) returns (d': Json)
    requires Has(d, base, a) && HasGitContainers(sv) && a.proxyUpstream.None? && a.proxyArgs == []
    requires ProxyReady(sv, base.containers.value[1])
    ensures Run(d, GitProxy(cfg, sv) + GitSidecar(cfg, sv)) == Some(d')
    ensures Has(d', base, a.(containers := a.containers + [GitProxyContainer(cfg, sv)] + [GitSidecarContainer(cfg, sv)],
                             proxyUpstream := Some(UpstreamArg(sv)), proxyArgs := SidecarArgs(cfg, sv)))
  {
    var d1 := AddContainers(d, base, a, [GitProxyContainer(cfg, sv)]);
    OneAppend(SlotPath(Containers), GitProxyContainer(cfg, sv));
    RunOne(d, GitProxy(cfg, sv)[0]);
    RunThen(d, GitProxy(cfg, sv), GitSidecar(cfg, sv));
    var a1 := a.(containers := a.containers + [GitProxyContainer(cfg, sv)]);
    var d2 := AddContainers(d1, base, a1, [GitSidecarContainer(cfg, sv)]);
    OneAppend(SlotPath(Containers), GitSidecarContainer(cfg, sv));
    var a2 := a1.(containers := a1.containers + [GitSidecarContainer(cfg, sv)]);
    var d3 := ProxyArgsRun(cfg, sv, d2, base, a2);
    var a3 := a2.(proxyUpstream := Some(UpstreamArg(sv)), proxyArgs := SidecarArgs(cfg, sv));
    d' := AddToRoot(d3, With(base, a3), "serviceRpcServer", Opaque(cfg, "serviceRpcServer"));
    var p := GitSidecar(cfg, sv);
    ThreePatches(d1, p[0], d2, p[1], d3, p[2], d');
  }

  lemma ProxyArgsRun(cfg: Config, sv: Server, d: Json, base: Pod, a: Additions) returns (d': Json)
    requires Has(d, base, a) && HasGitContainers(sv) && a.proxyUpstream.None? && a.proxyArgs == []
    requires ProxyReady(sv, base.containers.value[1])
    ensures ApplyAll(d, GitSidecar(cfg, sv)[1]) == Some(d')
    ensures Has(d', base, a.(proxyUpstream := Some(UpstreamArg(sv)), proxyArgs := SidecarArgs(cfg, sv)))
  {
    var d1 := SetProxyUpstream(d, base, a, UpstreamArg(sv));
    d' := AddProxyArgs(d1, base, a.(proxyUpstream := Some(UpstreamArg(sv))), SidecarArgs(cfg, sv));
    OpsThen(d, [Replace(FieldPath(Containers, 1, "args") + [At(6)], UpstreamArg(sv))], d1,
            Appends(FieldPath(Containers, 1, "args"), SidecarArgs(cfg, sv)));
    assert [] + SidecarArgs(cfg, sv) == SidecarArgs(cfg, sv);
  }

  lemma SshRuns(cfg: Config, d: Json, base: Pod, a: Additions) returns (d': Json)
    requires Has(d, base, a) && cfg.sshEnabled && base.servicePorts.Some?
    ensures Run(d, Ssh(cfg)) == Some(d')
    ensures Has(d', base, a.(servicePorts := a.servicePorts + [Opaque(cfg, "ssh.service_port")],
                             mainPorts := Some(Opaque(cfg, "ssh.container_ports")),
                             mainMounts := a.mainMounts + HostKeyMounts(cfg),
                             volumes := a.volumes + HostKeyVolumes(cfg)))
  {
    hide Has, Opaque, HostKeyMounts, HostKeyVolumes;
    var port := Opaque(cfg, "ssh.service_port");
    var ports := ToSlot(ServicePorts, port)
      + [Add(FieldPath(Containers, 0, "ports"), Opaque(cfg, "ssh.container_ports"))];
    OneAppend(SlotPath(ServicePorts), port);
    var d1 := AddServicePort(d, base, a, port);
    var a1 := a.(servicePorts := a.servicePorts + [port]);
    var d2 := SetMainPorts(d1, base, a1, Opaque(cfg, "ssh.container_ports"));
    OpsThen(d, ToSlot(ServicePorts, port), d1,
            [Add(FieldPath(Containers, 0, "ports"), Opaque(cfg, "ssh.container_ports"))]);
    RunOne(d, ports);
    var a2 := a1.(mainPorts := Some(Opaque(cfg, "ssh.container_ports")));
    d' := d2;
    if cfg.sshHostKeySecret.Some? {
      d' := HostKeyRuns(cfg, d2, base, a2);
      assert Ssh(cfg) == [ports] + [Ssh(cfg)[1]];
      RunThen(d, [ports], [Ssh(cfg)[1]]);
    } else {
      NoHostKey(cfg);
      assert a.mainMounts + [] == a.mainMounts && a.volumes + [] == a.volumes;
    }
  }

  lemma NoHostKey(cfg: Config)
    requires cfg.sshHostKeySecret.None?
    ensures HostKeyMounts(cfg) == [] && HostKeyVolumes(cfg) == []
  {
  }

  lemma HostKeyRuns(cfg: Config, d: Json, base: Pod, a: Additions) returns (d': Json)
    requires Has(d, base, a) && cfg.sshEnabled && cfg.sshHostKeySecret.Some?
    ensures Run(d, [Ssh(cfg)[1]]) == Some(d')
    ensures Has(d', base,
                a.(mainMounts := a.mainMounts + HostKeyMounts(cfg), volumes := a.volumes + HostKeyVolumes(cfg)))
  {
    var volume := SshVolume(cfg.sshHostKeySecret.value);
    OneAppend(FieldPath(Containers, 0, "volumeMounts"), SshMount(cfg));
    OneAppend(SlotPath(Volumes), volume);
    var d1 := AddMainMounts(d, base, a, [SshMount(cfg)]);
    d' := AddVolumes(d1, base, a.(mainMounts := a.mainMounts + [SshMount(cfg)]), [volume]);
    OpsThen(d, ToField(Containers, 0, "volumeMounts", SshMount(cfg)), d1, ToSlot(Volumes, volume));
    RunOne(d, Ssh(cfg)[1]);
  }

  function AfterSidecar(cfg: Config, sv: Server): Additions {
    var a := AfterJupyter(cfg, sv);
    a.(containers := If(HasGitContainers(sv), [GitProxyContainer(cfg, sv), GitSidecarContainer(cfg, sv)]),
       proxyUpstream := if HasGitContainers(sv) then Some(UpstreamArg(sv)) else None,
       proxyArgs := If(HasGitContainers(sv), SidecarArgs(cfg, sv)),
       proxyEnv := If(sv.registered, [UnverifiedEmailVar(cfg)]),
       servicePorts := If(cfg.sshEnabled, [Opaque(cfg, "ssh.service_port")]),
       mainPorts := if cfg.sshEnabled then Some(Opaque(cfg, "ssh.container_ports")) else None,
       mainMounts := a.mainMounts + HostKeyMounts(cfg),
       volumes := a.volumes + HostKeyVolumes(cfg))
  }

  lemma GitContainersRun(cfg: Config, sv: Server, d: Json, base: Pod, a: Additions) returns (d': Json)
    requires Has(d, base, a) && a.proxyUpstream.None? && a.proxyArgs == [] && a.containers == []
    requires ProxyReady(sv, base.containers.value[1])
    ensures Run(d, GitProxy(cfg, sv) + GitSidecar(cfg, sv)) == Some(d')
    ensures Has(d', base,
                a.(containers := If(HasGitContainers(sv), [GitProxyContainer(cfg, sv), GitSidecarContainer(cfg, sv)]),
                   proxyUpstream := if HasGitContainers(sv) then Some(UpstreamArg(sv)) else None,
                   proxyArgs := If(HasGitContainers(sv), SidecarArgs(cfg, sv))))
  {
    hide Has, GitProxyContainer, GitSidecarContainer, SidecarArgs, UpstreamArg;
    if HasGitContainers(sv) {
      d' := SidecarRuns(cfg, sv, d, base, a);
      assert a.containers + [GitProxyContainer(cfg, sv)] + [GitSidecarContainer(cfg, sv)]
          == [GitProxyContainer(cfg, sv), GitSidecarContainer(cfg, sv)];
    } else {
      d' := d;
      assert GitProxy(cfg, sv) + GitSidecar(cfg, sv) == [];
      RunOne(d, []);
    }
  }

  lemma UnverifiedEmailRuns(cfg: Config, sv: Server, d: Json, base: Pod, a: Additions) returns (d': Json)
    requires Has(d, base, a) && a.proxyEnv == []
    requires sv.registered ==> FieldItems(base.containers.value[1], "env").Some?
    ensures Run(d, OidcUnverifiedEmail(cfg, sv)) == Some(d')
    ensures Has(d', base, a.(proxyEnv := If(sv.registered, [UnverifiedEmailVar(cfg)])))
  {
    if sv.registered {
      d' := AddProxyEnv(d, base, a, [UnverifiedEmailVar(cfg)]);
      OneAppend(FieldPath(Containers, 1, "env"), UnverifiedEmailVar(cfg));
      RunOne(d, OidcUnverifiedEmail(cfg, sv)[0]);
      assert a.proxyEnv + [UnverifiedEmailVar(cfg)] == [UnverifiedEmailVar(cfg)];
    } else {
      d' := d;
      RunOne(d, []);
    }
  }

  lemma SshIfEnabled(cfg: Config, d: Json, base: Pod, a: Additions) returns (d': Json)
    requires Has(d, base, a) && a.servicePorts == [] && a.mainPorts.None?
    requires cfg.sshEnabled ==> base.servicePorts.Some?
    ensures Run(d, Ssh(cfg)) == Some(d')
    ensures Has(d', base, a.(servicePorts := If(cfg.sshEnabled, [Opaque(cfg, "ssh.service_port")]),
                             mainPorts := if cfg.sshEnabled then Some(Opaque(cfg, "ssh.container_ports")) else None,
                             mainMounts := a.mainMounts + HostKeyMounts(cfg),
                             volumes := a.volumes + HostKeyVolumes(cfg)))
  {
    if cfg.sshEnabled {
      d' := SshRuns(cfg, d, base, a);
      assert a.servicePorts + [Opaque(cfg, "ssh.service_port")] == [Opaque(cfg, "ssh.service_port")];
    } else {
      d' := d;
      RunOne(d, []);
      assert a.mainMounts + [] == a.mainMounts && a.volumes + [] == a.volumes;
    }
  }

  /** The git containers, the unverified e-mail switch, the ssh port. */
  lemma SidecarPatchesRun(cfg: Config, sv: Server, d: Json, base: Pod) returns (d': Json)
    requires Has(d, base, AfterJupyter(cfg, sv))
    requires ProxyReady(sv, base.containers.value[1]) && (cfg.sshEnabled ==> base.servicePorts.Some?)
    ensures Run(d, SidecarPatches(cfg, sv)) == Some(d')
    ensures Has(d', base, AfterSidecar(cfg, sv))
  {
    hide Has, Run, GitProxyContainer, GitSidecarContainer, SidecarArgs, UpstreamArg, UnverifiedEmailVar, GitProxy,
         GitSidecar, OidcUnverifiedEmail, Ssh, HostKeyMounts, HostKeyVolumes;
    var a := AfterJupyter(cfg, sv);
    var d1 := GitContainersRun(cfg, sv, d, base, a);
    var a1 := a.(containers := If(HasGitContainers(sv), [GitProxyContainer(cfg, sv), GitSidecarContainer(cfg, sv)]),
                 proxyUpstream := if HasGitContainers(sv) then Some(UpstreamArg(sv)) else None,
                 proxyArgs := If(HasGitContainers(sv), SidecarArgs(cfg, sv)));
    var d2 := UnverifiedEmailRuns(cfg, sv, d1, base, a1);
    d' := SshIfEnabled(cfg, d2, base, a1.(proxyEnv := If(sv.registered, [UnverifiedEmailVar(cfg)])));
    var p := GitProxy(cfg, sv) + GitSidecar(cfg, sv);
    Then(d, p, d1, OidcUnverifiedEmail(cfg, sv), d2);
    Then(d, p + OidcUnverifiedEmail(cfg, sv), d2, Ssh(cfg), d');
  }

  lemma CertificateVolumesRun(cfg: Config, d: Json, base: Pod, a: Additions) returns (d1: Json, d2: Json)
    requires Has(d, base, a)
    ensures ApplyAll(d, Certificates(cfg)[1]) == Some(d1) && ApplyAll(d1, Certificates(cfg)[2]) == Some(d2)
    ensures Has(d2, base, a.(volumes := a.volumes + CertificateVolumes(cfg)))
  {
    var vs := CertificateVolumes(cfg);
    OneAppend(SlotPath(Volumes), vs[0]);
    OneAppend(SlotPath(Volumes), vs[1]);
    d1 := AddVolumes(d, base, a, [vs[0]]);
    var a1 := a.(volumes := a.volumes + [vs[0]]);
    d2 := AddVolumes(d1, base, a1, [vs[1]]);
    assert a1.volumes + [vs[1]] == a.volumes + vs;
  }

  lemma CertificatesRun(cfg: Config, d: Json, base: Pod, a: Additions) returns (d': Json)
    requires Has(d, base, a)
    ensures Run(d, Certificates(cfg) + DownloadImage()) == Some(d')
    ensures Has(d', base, a.(inits := a.inits + [CertificatesContainer(cfg), DOWNLOAD_CONTAINER],
                             volumes := a.volumes + CertificateVolumes(cfg)))
  {
    OneAppend(SlotPath(Inits), CertificatesContainer(cfg));
    OneAppend(SlotPath(Inits), DOWNLOAD_CONTAINER);
    var d1 := AddInits(d, base, a, [CertificatesContainer(cfg)]);
    var a1 := a.(inits := a.inits + [CertificatesContainer(cfg)]);
    var d2, d3 := CertificateVolumesRun(cfg, d1, base, a1);
    var p := Certificates(cfg);
    ThreePatches(d, p[0], d1, p[1], d2, p[2], d3);
    d' := AddInits(d3, base, a1.(volumes := a1.volumes + CertificateVolumes(cfg)), [DOWNLOAD_CONTAINER]);
    RunOne(d3, DownloadImage()[0]);
    Then(d, Certificates(cfg), d3, DownloadImage(), d');
    assert a1.inits + [DOWNLOAD_CONTAINER] == a.inits + [CertificatesContainer(cfg), DOWNLOAD_CONTAINER];
  }

  lemma CloneRuns(cfg: Config, sv: Server, d: Json, base: Pod, a: Additions) returns (d': Json)
    requires Has(d, base, a)
    ensures Run(d, GitClone(cfg, sv)) == Some(d')
    ensures Has(d', base,
                a.(inits := a.inits + If(sv.repositories != [], [GitCloneContainer(cfg, sv, GitCloneEnv(cfg, sv))])))
  {
    var clone := GitCloneContainer(cfg, sv, GitCloneEnv(cfg, sv));
    if sv.repositories != [] {
      d' := AddInits(d, base, a, [clone]);
      OneAppend(SlotPath(Inits), clone);
      RunOne(d, GitClone(cfg, sv)[0]);
    } else {
      d' := d;
      RunOne(d, []);
      assert a.inits + [] == a.inits;
    }
  }

  lemma InjectRuns(sv: Server, d: Json, base: Pod, a: Additions) returns (d': Json)
    requires Has(d, base, a) && (sv.registered ==> FieldItems(base.containers.value[1], "env").Some?)
    ensures Run(d, InjectCertificates(sv)) == Some(d')
    ensures Has(d', base, a.(proxyMounts := a.proxyMounts + [EtcCertsMount(true)],
                             proxyEnv := a.proxyEnv + If(sv.registered, [CaFilesVar()])))
  {
    OneAppend(FieldPath(Containers, 1, "volumeMounts"), EtcCertsMount(true));
    OneAppend(FieldPath(Containers, 1, "env"), CaFilesVar());
    var first := ToField(Containers, 1, "volumeMounts", EtcCertsMount(true));
    var d1 := AddProxyMounts(d, base, a, [EtcCertsMount(true)]);
    var a1 := a.(proxyMounts := a.proxyMounts + [EtcCertsMount(true)]);
    RunOne(d, first);
    d' := d1;
    if sv.registered {
      d' := AddProxyEnv(d1, base, a1, [CaFilesVar()]);
      RunOne(d1, ToField(Containers, 1, "env", CaFilesVar()));
      RunThen(d, [first], [ToField(Containers, 1, "env", CaFilesVar())]);
    } else {
      assert InjectCertificates(sv) == [first];
      assert a.proxyEnv + [] == a.proxyEnv;
    }
  }

  /** The init containers and the certificates of the proxy. */
  lemma InitPatchesRun(cfg: Config, sv: Server, d: Json, base: Pod) returns (d': Json)
    requires Has(d, base, AfterSidecar(cfg, sv))
    requires sv.registered ==> FieldItems(base.containers.value[1], "env").Some?
    ensures Run(d, InitPatches(cfg, sv)) == Some(d')
    ensures Has(d', base, BeforeStorage(cfg, sv))
  {
    hide Has, Run, GitCloneEnv, GitCloneContainer, CertificatesContainer, CertificateVolumes, CaFilesVar, EtcCertsMount,
         UnverifiedEmailVar, SidecarArgs, UpstreamArg, GitProxyContainer, GitSidecarContainer, Certificates,
         DownloadImage, GitClone, InjectCertificates, EarlyMounts, EarlyVolumes, JupyterEnv;
    var a := AfterSidecar(cfg, sv);
    var d1 := CertificatesRun(cfg, d, base, a);
    var a1 := a.(inits := a.inits + [CertificatesContainer(cfg), DOWNLOAD_CONTAINER],
                 volumes := a.volumes + CertificateVolumes(cfg));
    var d2 := CloneRuns(cfg, sv, d1, base, a1);
    var a2 := a1.(inits := a1.inits + If(sv.repositories != [], [GitCloneContainer(cfg, sv, GitCloneEnv(cfg, sv))]));
    d' := InjectRuns(sv, d2, base, a2);
    var p := Certificates(cfg) + DownloadImage();
    Then(d, p, d1, GitClone(cfg, sv), d2);
    Then(d, p + GitClone(cfg, sv), d2, InjectCertificates(sv), d');
    assert a2.proxyMounts + [EtcCertsMount(true)] == [EtcCertsMount(true)];
    assert a2.proxyEnv + If(sv.registered, [CaFilesVar()])
      == If(sv.registered, [UnverifiedEmailVar(cfg), CaFilesVar()]);
  }

}
