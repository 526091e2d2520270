/**
 Which places the patches change: every generated operation is a test, works in one of the five arrays,
 or sets one of the members that are listed here.
 */
module ManifestPlaces {
  import opened Prelude
  import opened Json
  import opened Text
  import opened Pods
  import opened SessionPatches
  import opened ManifestForm
  import opened Manifest
  import opened ManifestResult
  import PatchGenerators

  // ------------------------------------------------- what one operation leaves

  /** A test, or a change at or below one of the five arrays that moves no element of an array. */
  ghost predicate InArrays(op: Op) {
    op.Test? || ((op.Replace? || (op.Add? && SetsOrAppends(op.path))) && exists slot :: SlotPath(slot) <= op.path)
  }

  predicate SetsOrAppends(path: Path) {
    path != [] && !path[|path| - 1].At?
  }

  predicate SetsMember(op: Op) {
    op.Add? && op.path != [] && op.path[|op.path| - 1].Key?
  }

  ghost predicate ApartFromArrays(q: Path) {
    forall slot :: Apart(SlotPath(slot), q)
  }

  lemma {:induction false} AddElsewhere(d: Json, path: Path, x: Json, q: Path)
    requires SetsOrAppends(path) && ApplyAdd(d, path, x).Some?
    requires Apart(if path[|path| - 1].End? then path[..|path| - 1] else path, q)
    ensures Get(ApplyAdd(d, path, x).value, q) == Get(d, q)
    decreases |path|
  {
    if |path| > 1 && path[0] == q[0] {
      assert path[1..][..|path| - 2] == path[..|path| - 1][1..];
      AddElsewhere(Child(d, path[0]).value, path[1..], x, q[1..]);
    }
  }

  lemma ReplaceElsewhere(d: Json, path: Path, x: Json, q: Path)
    requires ApplyReplace(d, path, x).Some? && Apart(path, q)
    ensures Get(ApplyReplace(d, path, x).value, q) == Get(d, q)
  {
    ReplaceIsPut(d, path, x);
    GetElsewhere(d, path, q, x);
  }

  lemma {:induction false} ApartBelow(p: Path, below: Path, q: Path)
    requires Apart(p, q) && p <= below
    ensures Apart(below, q)
    decreases |p|
  {
    if p[0] == q[0] {
      assert p[1..] <= below[1..];
      ApartBelow(p[1..], below[1..], q[1..]);
    }
  }

  /** Whatever happens in the arrays leaves the places apart from them. */
  lemma ArraysElsewhere(d: Json, op: Op, q: Path)
    requires InArrays(op) && ApartFromArrays(q) && Apply(d, op).Some?
    ensures Get(Apply(d, op).value, q) == Get(d, q)
  {
    hide SlotPath;
    if !op.Test? {
      var slot :| SlotPath(slot) <= op.path;
      var n := |op.path|;
      if op.Replace? {
        ApartBelow(SlotPath(slot), op.path, q);
        ReplaceElsewhere(d, op.path, op.value, q);
      } else {
        if op.path[n - 1].End? {
          SlotsEndWithKeys(slot);
          assert SlotPath(slot) <= op.path[..n - 1];
          ApartBelow(SlotPath(slot), op.path[..n - 1], q);
        } else {
          ApartBelow(SlotPath(slot), op.path, q);
        }
        AddElsewhere(d, op.path, op.value, q);
      }
    }
  }

  lemma SlotsEndWithKeys(slot: Slot)
    ensures SlotPath(slot) != [] && SlotPath(slot)[|SlotPath(slot)| - 1].Key?
  {
  }

  lemma {:induction false} AddedIsThere(d: Json, path: Path, x: Json)
    requires path != [] && path[|path| - 1].Key? && ApplyAdd(d, path, x).Some?
    ensures Get(ApplyAdd(d, path, x).value, path) == Some(x)
    decreases |path|
  {
    if |path| == 1 {
      assert path[1..] == [];
    } else {
      AddedIsThere(Child(d, path[0]).value, path[1..], x);
      WithChildTwice(d, path[0], ApplyAdd(Child(d, path[0]).value, path[1..], x).value, x);
    }
  }

  // ------------------------------------------------------------ a run of them

  /** The operation stays in the arrays, or sets another member, or sets this place to the value. */
  ghost predicate Minds(op: Op, q: Path, x: Json) {
    InArrays(op) || (SetsMember(op) && (Apart(op.path, q) || op == Add(q, x)))
  }

  /** A place is what it was, unless one of the operations sets it. */
  lemma {:induction false} RunLeaves(d: Json, ops: seq<Op>, q: Path, x: Json)
    requires ApplyAll(d, ops).Some? && ApartFromArrays(q) && forall op | op in ops :: Minds(op, q, x)
    ensures Get(ApplyAll(d, ops).value, q) == if Add(q, x) in ops then Some(x) else Get(d, q)
    decreases |ops|
  {
    hide InArrays, ApartFromArrays;
    if ops != [] {
      var op, d' := ops[0], Apply(d, ops[0]).value;
      assert Minds(op, q, x) && ops == [op] + ops[1..];
      RunLeaves(d', ops[1..], q, x);
      if InArrays(op) {
        ArraysElsewhere(d, op, q);
        AddIsOutside(op, q, x);
      } else if op == Add(q, x) {
        AddedIsThere(d, q, x);
      } else {
        AddElsewhere(d, op.path, op.value, q);
      }
    }
  }

  lemma AddIsOutside(op: Op, q: Path, x: Json)
    requires InArrays(op) && ApartFromArrays(q)
    ensures op != Add(q, x)
  {
    hide SlotPath;
    if op == Add(q, x) {
      var slot :| SlotPath(slot) <= q;
      ApartBelow(SlotPath(slot), q, q);
      NotApart(q);
    }
  }

  lemma {:induction false} NotApart(q: Path)
    ensures !Apart(q, q)
    decreases |q|
  {
    if q != [] {
      NotApart(q[1..]);
    }
  }

  // ------------------------------------------------- what the generators set

  /** The operations outside the arrays are these. */
  ghost predicate Makes(patches: seq<Patch>, settings: set<Op>) {
    (set op | op in Operations(patches) && !InArrays(op)) == settings
  }

  lemma MakesThen(a: seq<Patch>, s: set<Op>, b: seq<Patch>, t: set<Op>)
    requires Makes(a, s) && Makes(b, t)
    ensures Makes(a + b, s + t)
  {
    hide InArrays, Operations;
    OperationsThen(a, b);
    forall op
      ensures op in Operations(a + b) && !InArrays(op) <==> op in s + t
    {
      assert op in Operations(a + b) <==> op in Operations(a) || op in Operations(b);
      assert op in s <==> op in Operations(a) && !InArrays(op);
      assert op in t <==> op in Operations(b) && !InArrays(op);
    }
  }

  lemma MakesNothing()
    ensures Makes([], {})
  {
  }

  /** A patch whose operations are all in the arrays. */
  lemma MakesNone(patch: Patch)
    requires forall op | op in patch :: InArrays(op)
    ensures Makes([patch], {})
  {
    hide InArrays;
    OnePatch(patch);
  }

  lemma OnePatch(patch: Patch)
    ensures Operations([patch]) == patch
  {
    assert [patch][1..] == [];
    assert patch + [] == patch;
  }

  /** A patch that sets these members and then works in the arrays. */
  lemma MakesThese(members: seq<Op>, rest: Patch)
    requires forall op | op in rest :: InArrays(op)
    requires forall op | op in members :: !InArrays(op)
    ensures Makes([members + rest], set op | op in members)
  {
    hide InArrays;
    OnePatch(members + rest);
  }

  lemma SlotIn(slot: Slot, value: Json)
    ensures forall op | op in ToSlot(slot, value) :: InArrays(op)
  {
    assert SlotPath(slot) <= SlotPath(slot) + [End];
  }

  lemma FieldIn(slot: Slot, index: nat, field: string, value: Json)
    ensures forall op | op in ToField(slot, index, field, value) :: InArrays(op)
    ensures InArrays(Add(FieldPath(slot, index, field), value))
  {
    assert SlotPath(slot) <= FieldPath(slot, index, field) <= FieldPath(slot, index, field) + [End];
    assert FieldPath(slot, index, field)[|SlotPath(slot)| + 1] == Key(field);
  }

  lemma AppendsIn(slot: Slot, path: Path, values: seq<Json>)
    requires SlotPath(slot) <= path
    ensures forall op | op in Appends(path, values) :: InArrays(op)
  {
    PatchGenerators.AppendsAt(path, values);
    assert SlotPath(slot) <= path + [End];
  }

  lemma ReplaceIn(slot: Slot, path: Path, value: Json)
    requires SlotPath(slot) <= path
    ensures InArrays(Replace(path, value))
  {
    hide SlotPath;
  }

  lemma BothIn(a: seq<Op>, b: seq<Op>)
    requires (forall op | op in a :: InArrays(op)) && forall op | op in b :: InArrays(op)
    ensures forall op | op in a + b :: InArrays(op)
  {
    hide InArrays;
  }

  lemma RootOutside(name: string, value: Json)
    requires name != "statefulset" && name != "service"
    ensures !InArrays(Add([Key(name)], value))
  {
    forall slot: Slot
      ensures !(SlotPath(slot) <= [Key(name)])
    {
      assert |SlotPath(slot)| >= 3;
    }
  }

  lemma SpecOutside(name: string, value: Json)
    requires name !in ["containers", "initContainers", "volumes", "imagePullSecrets"]
    ensures !InArrays(Add(SPEC + [Key(name)], value))
  {
    var path := SPEC + [Key(name)];
    forall slot: Slot
      ensures !(SlotPath(slot) <= path)
    {
      assert slot.ServicePorts? ==> path[0] != SlotPath(slot)[0];
      assert !slot.ServicePorts? ==> path[4] == Key(name) && SlotPath(slot)[4] == Key(SpecName(slot));
    }
  }

  lemma MakesSpec(name: string, value: Json)
    requires name !in ["containers", "initContainers", "volumes", "imagePullSecrets"]
    ensures Makes([ToSpec(name, value)], {Add(SPEC + [Key(name)], value)})
  {
    hide InArrays;
    SpecOutside(name, value);
    MakesThese(ToSpec(name, value), []);
    assert ToSpec(name, value) + [] == ToSpec(name, value);
    assert (set op | op in ToSpec(name, value)) == {Add(SPEC + [Key(name)], value)};
  }

  // ------------------------------------------------------------- by generator

  function InSpec(name: string, value: Json): Op {
    Add(SPEC + [Key(name)], value)
  }

  function AtRoot(name: string, value: Json): Op {
    Add([Key(name)], value)
  }

  function Only(condition: bool, op: Op): set<Op> {
    if condition then {op} else {}
  }

  function PlacementMembers(cfg: Config, sv: Server): set<Op> {
    {InSpec("tolerations", Opaque(cfg, "tolerations")), InSpec("affinity", Opaque(cfg, "affinity"))}
    + Only(!sv.hasNodeAffinities, InSpec("nodeSelector", Opaque(cfg, "node_selector")))
    + (if sv.priorityClass.Some? then {InSpec("priorityClassName", Str(sv.priorityClass.value))} else {})
  }

  lemma GeneralMakes(cfg: Config, sv: Server)
    ensures Makes(GeneralPatches(cfg, sv), PlacementMembers(cfg, sv))
  {
    hide Makes, InArrays, Opaque, ShmVolume;
    TestsMake(cfg, sv);
    MakesNothing();
    var t, a := InSpec("tolerations", Opaque(cfg, "tolerations")), InSpec("affinity", Opaque(cfg, "affinity"));
    MakesSpec("tolerations", Opaque(cfg, "tolerations"));
    MakesSpec("affinity", Opaque(cfg, "affinity"));
    MakesSpec("nodeSelector", Opaque(cfg, "node_selector"));
    if sv.priorityClass.Some? {
      MakesSpec("priorityClassName", Str(sv.priorityClass.value));
    }
    ShmMakes(cfg);
    var n := Only(!sv.hasNodeAffinities, InSpec("nodeSelector", Opaque(cfg, "node_selector")));
    var c := if sv.priorityClass.Some? then {InSpec("priorityClassName", Str(sv.priorityClass.value))} else {};
    var p := TestContainers(cfg, sv);
    MakesThen(p, {}, SessionTolerations(cfg), {t});
    MakesThen(p + SessionTolerations(cfg), {} + {t}, SessionAffinity(cfg), {a});
    p := p + SessionTolerations(cfg) + SessionAffinity(cfg);
    MakesThen(p, {} + {t} + {a}, SessionNodeSelector(cfg, sv), n);
    MakesThen(p + SessionNodeSelector(cfg, sv), {} + {t} + {a} + n, PriorityClass(sv), c);
    MakesThen(p + SessionNodeSelector(cfg, sv) + PriorityClass(sv), {} + {t} + {a} + n + c, DevShm(cfg), {});
    assert {} + {t} + {a} + n + c + {} == PlacementMembers(cfg, sv);
  }

  lemma {:induction false} OnlyTests(tests: seq<Patch>)
    requires forall k | 0 <= k < |tests| :: |tests[k]| == 1 && tests[k][0].Test?
    ensures Makes(tests, {})
  {
    if tests != [] {
      OnlyTests(tests[1..]);
      MakesNone(tests[0]);
      MakesThen([tests[0]], {}, tests[1..], {});
      assert [tests[0]] + tests[1..] == tests;
    }
  }

  lemma TestsMake(cfg: Config, sv: Server)
    ensures Makes(TestContainers(cfg, sv), {})
  {
    OnlyTests(TestContainers(cfg, sv));
  }

  lemma ShmMakes(cfg: Config)
    ensures Makes(DevShm(cfg), {})
  {
    hide InArrays, ToSlot, ToField, Makes;
    SlotIn(Volumes, ShmVolume(cfg));
    FieldIn(Containers, 0, "volumeMounts", SHM_MOUNT);
    BothIn(ToSlot(Volumes, ShmVolume(cfg)), ToField(Containers, 0, "volumeMounts", SHM_MOUNT));
    MakesNone(ToSlot(Volumes, ShmVolume(cfg)) + ToField(Containers, 0, "volumeMounts", SHM_MOUNT));
  }

  lemma SlotMakes(slot: Slot, value: Json)
    ensures Makes([ToSlot(slot, value)], {})
  {
    hide InArrays, Makes;
    SlotIn(slot, value);
    MakesNone(ToSlot(slot, value));
  }

  lemma FieldMakes(slot: Slot, index: nat, field: string, value: Json)
    ensures Makes([ToField(slot, index, field, value)], {}) && Makes([[Add(FieldPath(slot, index, field), value)]], {})
  {
    hide InArrays, Makes, FieldPath;
    FieldIn(slot, index, field, value);
    MakesNone(ToField(slot, index, field, value));
    MakesNone([Add(FieldPath(slot, index, field), value)]);
  }

  lemma AppendsMake(slot: Slot, path: Path, values: seq<Json>)
    requires SlotPath(slot) <= path
    ensures Makes([Appends(path, values)], {})
  {
    hide InArrays, Makes;
    AppendsIn(slot, path, values);
    MakesNone(Appends(path, values));
  }

  lemma RootMakes(name: string, value: Json)
    requires name != "statefulset" && name != "service"
    ensures Makes([[AtRoot(name, value)]], {AtRoot(name, value)})
  {
    hide InArrays;
    RootOutside(name, value);
    MakesThese([AtRoot(name, value)], []);
    assert [AtRoot(name, value)] + [] == [AtRoot(name, value)];
    assert (set op | op in [AtRoot(name, value)]) == {AtRoot(name, value)};
  }

  /** Patches one after the other, none of which sets a member. */
  lemma {:induction false} AllNone(patches: seq<Patch>)
    requires forall k | 0 <= k < |patches| :: Makes([patches[k]], {})
    ensures Makes(patches, {})
  {
    hide Makes;
    if patches == [] {
      MakesNothing();
    } else {
      AllNone(patches[1..]);
      var none: set<Op> := {};
      assert none + none == none;
      MakesThen([patches[0]], none, patches[1..], none);
      assert [patches[0]] + patches[1..] == patches;
    }
  }

  function JupyterMembers(cfg: Config, sv: Server): set<Op> {
    Only(sv.imagePrivate, AtRoot("image_pull_secret", Opaque(cfg, "image_pull_secret")))
    + {InSpec("enableServiceLinks", Bool(false))}
    + Only(sv.environment != [], AtRoot("renviron", Opaque(cfg, "renviron")))
  }

  lemma PullSecretMakes(cfg: Config, sv: Server)
    ensures Makes(ImagePullSecret(cfg, sv),
                  Only(sv.imagePrivate, AtRoot("image_pull_secret", Opaque(cfg, "image_pull_secret"))))
  {
    hide Makes, ToSlot, Opaque;
    var value := Obj(map["name" := Str(sv.name + "-image-secret")]);
    var root := AtRoot("image_pull_secret", Opaque(cfg, "image_pull_secret"));
    MakesNothing();
    RootMakes("image_pull_secret", Opaque(cfg, "image_pull_secret"));
    SlotMakes(PullSecrets, value);
    MakesThen([[root]], {root}, [ToSlot(PullSecrets, value)], {});
    assert [[root]] + [ToSlot(PullSecrets, value)] == [[root], ToSlot(PullSecrets, value)] && {root} + {} == {root};
  }

  lemma RenvironMakes(cfg: Config, sv: Server)
    ensures Makes(RstudioEnvVariables(cfg, sv),
                  Only(sv.environment != [], AtRoot("renviron", Opaque(cfg, "renviron"))))
  {
    hide Makes, InArrays, ToSlot, ToField, Opaque, RenvironVolume, RenvironMount;
    MakesNothing();
    var root := AtRoot("renviron", Opaque(cfg, "renviron"));
    var volume, mount := ToSlot(Volumes, RenvironVolume(sv)),
      ToField(Containers, 0, "volumeMounts", RenvironMount(sv));
    RootOutside("renviron", Opaque(cfg, "renviron"));
    SlotIn(Volumes, RenvironVolume(sv));
    FieldIn(Containers, 0, "volumeMounts", RenvironMount(sv));
    BothIn(volume, mount);
    MakesThese([root], volume + mount);
    assert [root] + (volume + mount) == [root] + volume + mount && (set op | op in [root]) == {root};
  }

  lemma UserSecretsMake(cfg: Config, sv: Server)
    ensures Makes(UserSecretsPatches(cfg, sv), {})
  {
    hide Makes, ToSlot, ToField, SecretsContainer, SecretsVolumes, SecretsMount;
    if sv.userSecrets.Some? {
      var secrets := sv.userSecrets.value;
      SlotMakes(Inits, SecretsContainer(cfg, sv, secrets));
      AppendsMake(Volumes, SlotPath(Volumes), SecretsVolumes(cfg, secrets));
      FieldMakes(Containers, 0, "volumeMounts", SecretsMount(secrets));
    }
    AllNone(UserSecretsPatches(cfg, sv));
  }

  lemma JupyterMakes(cfg: Config, sv: Server, env: seq<Patch>)
    requires Env(sv) == Ok(env)
    ensures Makes(JupyterPatches(cfg, sv, env), JupyterMembers(cfg, sv))
  {
    hide Makes, Opaque, JupyterEnv, ImagePullSecret, RstudioEnvVariables, UserSecretsPatches, FieldPath;
    FieldMakes(Containers, 0, "args", JUPYTER_ARGS);
    EnvMakes(sv);
    PullSecretMakes(cfg, sv);
    MakesSpec("enableServiceLinks", Bool(false));
    RenvironMakes(cfg, sv);
    UserSecretsMake(cfg, sv);
    var s := Only(sv.imagePrivate, AtRoot("image_pull_secret", Opaque(cfg, "image_pull_secret")));
    var l := {InSpec("enableServiceLinks", Bool(false))};
    var r := Only(sv.environment != [], AtRoot("renviron", Opaque(cfg, "renviron")));
    var p := Args() + env;
    MakesThen(Args(), {}, env, {});
    MakesThen(p, {} + {}, ImagePullSecret(cfg, sv), s);
    p := p + ImagePullSecret(cfg, sv);
    MakesThen(p, {} + {} + s, DisableServiceLinks(), l);
    p := p + DisableServiceLinks();
    MakesThen(p, {} + {} + s + l, RstudioEnvVariables(cfg, sv), r);
    MakesThen(p + RstudioEnvVariables(cfg, sv), {} + {} + s + l + r, UserSecretsPatches(cfg, sv), {});
    assert {} + {} + s + l + r + {} == JupyterMembers(cfg, sv);
  }

  lemma EnvMakes(sv: Server)
    ensures Makes([Appends(FieldPath(Containers, 0, "env"), JupyterEnv(sv))], {})
  {
    assert SlotPath(Containers) <= FieldPath(Containers, 0, "env");
    AppendsMake(Containers, FieldPath(Containers, 0, "env"), JupyterEnv(sv));
  }

  function SidecarMembers(cfg: Config, sv: Server): set<Op> {
    Only(HasGitContainers(sv), AtRoot("serviceRpcServer", Opaque(cfg, "serviceRpcServer")))
  }

  lemma SidecarArgsMake(cfg: Config, sv: Server)
    ensures Makes([[Replace(FieldPath(Containers, 1, "args") + [At(6)], UpstreamArg(sv))]
                   + Appends(FieldPath(Containers, 1, "args"), SidecarArgs(cfg, sv))], {})
  {
    hide Makes, InArrays, UpstreamArg, SidecarArgs;
    var path := FieldPath(Containers, 1, "args");
    assert SlotPath(Containers) <= path && SlotPath(Containers) <= path + [At(6)];
    AppendsIn(Containers, path, SidecarArgs(cfg, sv));
    ReplaceIn(Containers, path + [At(6)], UpstreamArg(sv));
    BothIn([Replace(path + [At(6)], UpstreamArg(sv))], Appends(path, SidecarArgs(cfg, sv)));
    MakesNone([Replace(path + [At(6)], UpstreamArg(sv))] + Appends(path, SidecarArgs(cfg, sv)));
  }

  lemma SidecarMakes(cfg: Config, sv: Server)
    ensures Makes(SidecarPatches(cfg, sv), SidecarMembers(cfg, sv))
  {
    hide Makes, Opaque, GitProxy, GitSidecar, OidcUnverifiedEmail, Ssh;
    GitMakes(cfg, sv);
    ProxyVarMakes(cfg, sv);
    SshMakes(cfg);
    var s := SidecarMembers(cfg, sv);
    var p := GitProxy(cfg, sv) + GitSidecar(cfg, sv);
    MakesThen(p, s, OidcUnverifiedEmail(cfg, sv), {});
    MakesThen(p + OidcUnverifiedEmail(cfg, sv), s + {}, Ssh(cfg), {});
    assert s + {} + {} == s;
  }

  lemma GitMakes(cfg: Config, sv: Server)
    ensures Makes(GitProxy(cfg, sv) + GitSidecar(cfg, sv), SidecarMembers(cfg, sv))
  {
    hide Makes, Opaque, ToSlot, FieldPath, GitProxyContainer, GitSidecarContainer, SidecarArgs, UpstreamArg;
    if HasGitContainers(sv) {
      var arrays := GitProxy(cfg, sv) + GitSidecar(cfg, sv)[..2];
      SlotMakes(Containers, GitProxyContainer(cfg, sv));
      SlotMakes(Containers, GitSidecarContainer(cfg, sv));
      SidecarArgsMake(cfg, sv);
      AllNone(arrays);
      RootMakes("serviceRpcServer", Opaque(cfg, "serviceRpcServer"));
      var root := AtRoot("serviceRpcServer", Opaque(cfg, "serviceRpcServer"));
      MakesThen(arrays, {}, [[root]], {root});
      assert arrays + [[root]] == GitProxy(cfg, sv) + GitSidecar(cfg, sv) && {} + {root} == {root};
    } else {
      MakesNothing();
      assert GitProxy(cfg, sv) + GitSidecar(cfg, sv) == [];
    }
  }

  lemma ProxyVarMakes(cfg: Config, sv: Server)
    ensures Makes(OidcUnverifiedEmail(cfg, sv), {})
  {
    hide Makes, ToField, UnverifiedEmailVar;
    FieldMakes(Containers, 1, "env", UnverifiedEmailVar(cfg));
    AllNone(OidcUnverifiedEmail(cfg, sv));
  }

  lemma SshMakes(cfg: Config)
    ensures Makes(Ssh(cfg), {})
  {
    hide Makes, InArrays, ToSlot, ToField, FieldPath, Opaque, SshMount, SshVolume;
    var port, ports := Opaque(cfg, "ssh.service_port"), Opaque(cfg, "ssh.container_ports");
    SlotIn(ServicePorts, port);
    FieldIn(Containers, 0, "ports", ports);
    BothIn(ToSlot(ServicePorts, port), [Add(FieldPath(Containers, 0, "ports"), ports)]);
    MakesNone(ToSlot(ServicePorts, port) + [Add(FieldPath(Containers, 0, "ports"), ports)]);
    if cfg.sshHostKeySecret.Some? {
      var mount := ToField(Containers, 0, "volumeMounts", SshMount(cfg));
      var volume := ToSlot(Volumes, SshVolume(cfg.sshHostKeySecret.value));
      SlotIn(Volumes, SshVolume(cfg.sshHostKeySecret.value));
      FieldIn(Containers, 0, "volumeMounts", SshMount(cfg));
      BothIn(mount, volume);
      MakesNone(mount + volume);
    }
    AllNone(Ssh(cfg));
  }

  lemma InitsMake(cfg: Config, sv: Server)
    ensures Makes(InitPatches(cfg, sv), {})
  {
    hide Makes, ToSlot, ToField, CertificatesContainer, Volume, GitCloneContainer, GitCloneEnv, EtcCertsMount,
         CaFilesVar;
    SlotMakes(Inits, CertificatesContainer(cfg));
    SlotMakes(Volumes, CertificateVolumes(cfg)[0]);
    SlotMakes(Volumes, CertificateVolumes(cfg)[1]);
    SlotMakes(Inits, DOWNLOAD_CONTAINER);
    SlotMakes(Inits, GitCloneContainer(cfg, sv, GitCloneEnv(cfg, sv)));
    FieldMakes(Containers, 1, "volumeMounts", EtcCertsMount(true));
    FieldMakes(Containers, 1, "env", CaFilesVar());
    AllNone(Certificates(cfg));
    AllNone(DownloadImage());
    AllNone(GitClone(cfg, sv));
    AllNone(InjectCertificates(sv));
    var none: set<Op> := {};
    assert none + none == none;
    MakesThen(Certificates(cfg), none, DownloadImage(), none);
    MakesThen(Certificates(cfg) + DownloadImage(), none, GitClone(cfg, sv), none);
    MakesThen(Certificates(cfg) + DownloadImage() + GitClone(cfg, sv), none, InjectCertificates(sv), none);
  }

  function StorageMembers(cfg: Config, sv: Server, n: nat): set<Op>
    requires n <= |sv.storages|
  {
    if n == 0 then {}
    else
      StorageMembers(cfg, sv, n - 1)
      + {AtRoot(BaseName(sv, n - 1) + "-pv", Opaque(cfg, BaseName(sv, n - 1) + "-pv")),
         AtRoot(BaseName(sv, n - 1) + "-secret", Opaque(cfg, BaseName(sv, n - 1) + "-secret"))}
  }

  lemma StorageMakes(cfg: Config, sv: Server, i: nat)
    requires i < |sv.storages|
    ensures Makes([StorageManifest(cfg, sv, i)],
                  {AtRoot(BaseName(sv, i) + "-pv", Opaque(cfg, BaseName(sv, i) + "-pv")),
                   AtRoot(BaseName(sv, i) + "-secret", Opaque(cfg, BaseName(sv, i) + "-secret"))})
  {
    hide Makes, InArrays, ToSlot, ToField, BaseName, Opaque, StorageMount, StorageVolume;
    var pv, secret := AtRoot(BaseName(sv, i) + "-pv", Opaque(cfg, BaseName(sv, i) + "-pv")),
      AtRoot(BaseName(sv, i) + "-secret", Opaque(cfg, BaseName(sv, i) + "-secret"));
    var mount, volume := ToField(Containers, 0, "volumeMounts", StorageMount(sv, i)),
      ToSlot(Volumes, StorageVolume(sv, i));
    StorageNames(BaseName(sv, i));
    RootOutside(BaseName(sv, i) + "-pv", Opaque(cfg, BaseName(sv, i) + "-pv"));
    RootOutside(BaseName(sv, i) + "-secret", Opaque(cfg, BaseName(sv, i) + "-secret"));
    SlotIn(Volumes, StorageVolume(sv, i));
    FieldIn(Containers, 0, "volumeMounts", StorageMount(sv, i));
    BothIn(mount, volume);
    MakesThese([pv, secret], mount + volume);
    assert [pv, secret] + (mount + volume) == StorageManifest(cfg, sv, i);
    assert (set op | op in [pv, secret]) == {pv, secret};
  }

  lemma {:induction false} StoragesMake(cfg: Config, sv: Server, n: nat)
    requires n <= |sv.storages|
    ensures Makes(CloudStorageUpTo(cfg, sv, n), StorageMembers(cfg, sv, n))
  {
    hide Makes, ToField, AtRoot, StorageManifest, StorageVar;
    if n == 0 {
      MakesNothing();
    } else {
      var i := n - 1;
      StoragesMake(cfg, sv, i);
      StorageMakes(cfg, sv, i);
      var made := {AtRoot(BaseName(sv, i) + "-pv", Opaque(cfg, BaseName(sv, i) + "-pv")),
                   AtRoot(BaseName(sv, i) + "-secret", Opaque(cfg, BaseName(sv, i) + "-secret"))};
      var variable := if sv.repositories == [] then [] else [ToField(Inits, 2, "env", StorageVar(sv, i))];
      FieldMakes(Inits, 2, "env", StorageVar(sv, i));
      AllNone(variable);
      MakesThen([StorageManifest(cfg, sv, i)], made, variable, {});
      MakesThen(CloudStorageUpTo(cfg, sv, i), StorageMembers(cfg, sv, i), StoragePatches(cfg, sv, i), made + {});
      assert made + {} == made;
    }
  }

  /** All the members that the generated patches set. */
  function Members(cfg: Config, sv: Server): set<Op> {
    PlacementMembers(cfg, sv) + JupyterMembers(cfg, sv) + SidecarMembers(cfg, sv)
    + StorageMembers(cfg, sv, |sv.storages|)
  }

  lemma AllMake(cfg: Config, sv: Server, patches: seq<Patch>)
    requires GetPatches(cfg, sv) == Ok(patches)
    ensures Makes(patches, Members(cfg, sv))
  {
    hide Makes, Env, PlacementMembers, JupyterMembers, SidecarMembers, StorageMembers, GeneralPatches, JupyterPatches,
         SidecarPatches, InitPatches, CloudStorageUpTo;
    var env := Env(sv).value;
    GeneralMakes(cfg, sv);
    JupyterMakes(cfg, sv, env);
    SidecarMakes(cfg, sv);
    InitsMake(cfg, sv);
    StoragesMake(cfg, sv, |sv.storages|);
    var g, j, s := PlacementMembers(cfg, sv), JupyterMembers(cfg, sv), SidecarMembers(cfg, sv);
    var p := GeneralPatches(cfg, sv) + JupyterPatches(cfg, sv, env);
    MakesThen(GeneralPatches(cfg, sv), g, JupyterPatches(cfg, sv, env), j);
    MakesThen(p, g + j, SidecarPatches(cfg, sv), s);
    MakesThen(p + SidecarPatches(cfg, sv), g + j + s, InitPatches(cfg, sv), {});
    MakesThen(p + SidecarPatches(cfg, sv) + InitPatches(cfg, sv), g + j + s + {}, CloudStorage(cfg, sv),
              StorageMembers(cfg, sv, |sv.storages|));
    assert g + j + s + {} == g + j + s;
  }
}
