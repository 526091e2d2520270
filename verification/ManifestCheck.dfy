/**
 The two parts of composing a manifest fit together: whatever the generators put together passes the
 check for overridden environment variables, so that only jupyter_server.env can refuse a variable.
 */
module ManifestCheck {
  import opened Prelude
  import opened Json
  import opened Text
  import opened Pods
  import opened SessionPatches
  import opened Manifest
  import opened EnvOverrides
  import PatchGenerators

  /** The operations that append to an environment. */
  function EnvOps(ops: seq<Op>): seq<Op> {
    if ops == [] then [] else (if AppendsEnv(ops[0]) then [ops[0]] else []) + EnvOps(ops[1..])
  }

  lemma {:induction false} EnvOpsThen(a: seq<Op>, b: seq<Op>)
    ensures EnvOps(a + b) == EnvOps(a) + EnvOps(b)
  {
    hide AppendsEnv;
    if a == [] {
      assert a + b == b;
    } else {
      assert (a + b)[1..] == a[1..] + b;
      EnvOpsThen(a[1..], b);
    }
  }

  lemma {:induction false} EnvOpsHas(ops: seq<Op>, op: Op)
    requires op in ops && AppendsEnv(op)
    ensures op in EnvOps(ops)
  {
    hide AppendsEnv;
    if op != ops[0] {
      assert ops == [ops[0]] + ops[1..];
      EnvOpsHas(ops[1..], op);
    }
  }

  ghost predicate Quiet(ops: seq<Op>) {
    forall k | 0 <= k < |ops| :: !AppendsEnv(ops[k])
  }

  lemma {:induction false} QuietHasNone(ops: seq<Op>)
    requires Quiet(ops)
    ensures EnvOps(ops) == []
  {
    hide AppendsEnv;
    if ops != [] {
      QuietHasNone(ops[1..]);
    }
  }

  ghost predicate AllQuiet(patches: seq<Patch>) {
    forall k | 0 <= k < |patches| :: Quiet(patches[k])
  }

  lemma {:induction false} QuietPatches(patches: seq<Patch>)
    requires AllQuiet(patches)
    ensures EnvOps(Operations(patches)) == []
  {
    hide Quiet;
    if patches != [] {
      QuietHasNone(patches[0]);
      QuietPatches(patches[1..]);
      EnvOpsThen(patches[0], Operations(patches[1..]));
    }
  }

  /** What two lists of patches append to environments, one after the other. */
  lemma PatchesThen(a: seq<Patch>, b: seq<Patch>)
    ensures EnvOps(Operations(a + b)) == EnvOps(Operations(a)) + EnvOps(Operations(b))
  {
    OperationsThen(a, b);
    EnvOpsThen(Operations(a), Operations(b));
  }

  // ----------------------------------------------- which operations are quiet

  lemma ToSlotIsQuiet(slot: Slot, value: Json)
    ensures Quiet(ToSlot(slot, value)) && !AppendsEnv(Add(SlotPath(slot) + [End], value))
  {
    var path := SlotPath(slot) + [End];
    var name := if slot.ServicePorts? then "ports" else SpecName(slot);
    assert path[|path| - 2] == Key(name) && |Lower(name)| == |name| && |"env"| == 3 && |name| > 3;
  }

  lemma ToFieldIsQuiet(slot: Slot, index: nat, field: string, value: Json)
    requires |field| > 3
    ensures Quiet(ToField(slot, index, field, value)) && Quiet([Add(FieldPath(slot, index, field), value)])
  {
    var path := FieldPath(slot, index, field) + [End];
    assert path[|path| - 2] == Key(field) && |Lower(field)| == |field|;
    assert path[|path| - 3] == At(index);
  }

  lemma AppendsAreQuiet(path: Path, values: seq<Json>)
    requires path != [] && (path[|path| - 1].Key? ==> |path[|path| - 1].name| > 3)
    ensures Quiet(Appends(path, values))
  {
    if values != [] {
      var p := path + [End];
      assert p[|p| - 2] == path[|path| - 1];
      if path[|path| - 1].Key? {
        assert |Lower(path[|path| - 1].name)| > 3;
      }
      AppendsAreQuiet(path, values[1..]);
    }
  }

  lemma BothQuiet(a: seq<Op>, b: seq<Op>)
    requires Quiet(a) && Quiet(b)
    ensures Quiet(a + b)
  {
    hide AppendsEnv;
  }

  // --------------------------------------------------------- by generator

  lemma GeneralIsQuiet(cfg: Config, sv: Server)
    ensures AllQuiet(GeneralPatches(cfg, sv))
  {
    hide AppendsEnv, Quiet, ShmVolume, FieldPath, SlotPath;
    forall k | 0 <= k < |ExpectedContainers(cfg, sv)|
      ensures Quiet([TestOp(k, ExpectedContainers(cfg, sv)[k])])
    {
      TestIsQuiet(k, ExpectedContainers(cfg, sv)[k]);
    }
    SpecIsQuiet("tolerations", Opaque(cfg, "tolerations"));
    SpecIsQuiet("affinity", Opaque(cfg, "affinity"));
    SpecIsQuiet("nodeSelector", Opaque(cfg, "node_selector"));
    if sv.priorityClass.Some? {
      SpecIsQuiet("priorityClassName", Str(sv.priorityClass.value));
    }
    ToSlotIsQuiet(Volumes, ShmVolume(cfg));
    MountIsQuiet(0, SHM_MOUNT);
    BothQuiet(ToSlot(Volumes, ShmVolume(cfg)), ToField(Containers, 0, "volumeMounts", SHM_MOUNT));
  }

  lemma TestIsQuiet(index: nat, name: string)
    ensures Quiet([TestOp(index, name)])
  {
    var path := FieldPath(Containers, index, "name");
    assert path[|path| - 1] == Key("name");
  }

  lemma SpecIsQuiet(name: string, value: Json)
    ensures Quiet(ToSpec(name, value))
  {
    assert (SPEC + [Key(name)])[|SPEC|] == Key(name);
  }

  lemma MountIsQuiet(index: nat, value: Json)
    ensures Quiet(ToField(Containers, index, "volumeMounts", value))
  {
    assert |"volumeMounts"| == 12;
    ToFieldIsQuiet(Containers, index, "volumeMounts", value);
  }

  lemma RootIsQuiet(name: string, value: Json)
    ensures Quiet([Add([Key(name)], value)])
  {
  }

  /** Everything of the jupyter server but its environment. */
  lemma JupyterIsQuiet(cfg: Config, sv: Server)
    ensures AllQuiet(Args())
      && AllQuiet(ImagePullSecret(cfg, sv) + DisableServiceLinks() + RstudioEnvVariables(cfg, sv)
                  + UserSecretsPatches(cfg, sv))
  {
    hide AppendsEnv, Quiet, FieldPath, SlotPath, SecretsContainer, SecretsVolumes, SecretsMount, RenvironVolume,
         RenvironMount;
    assert |"args"| == 4;
    ToFieldIsQuiet(Containers, 0, "args", JUPYTER_ARGS);
    RootIsQuiet("image_pull_secret", Opaque(cfg, "image_pull_secret"));
    ToSlotIsQuiet(PullSecrets, Obj(map["name" := Str(sv.name + "-image-secret")]));
    SpecIsQuiet("enableServiceLinks", Bool(false));
    RootIsQuiet("renviron", Opaque(cfg, "renviron"));
    ToSlotIsQuiet(Volumes, RenvironVolume(sv));
    MountIsQuiet(0, RenvironMount(sv));
    BothQuiet([Add([Key("renviron")], Opaque(cfg, "renviron"))], ToSlot(Volumes, RenvironVolume(sv)));
    BothQuiet([Add([Key("renviron")], Opaque(cfg, "renviron"))] + ToSlot(Volumes, RenvironVolume(sv)),
              ToField(Containers, 0, "volumeMounts", RenvironMount(sv)));
    if sv.userSecrets.Some? {
      ToSlotIsQuiet(Inits, SecretsContainer(cfg, sv, sv.userSecrets.value));
      SlotAppendsAreQuiet(Volumes, SecretsVolumes(cfg, sv.userSecrets.value));
      MountIsQuiet(0, SecretsMount(sv.userSecrets.value));
    }
  }

  lemma SlotAppendsAreQuiet(slot: Slot, values: seq<Json>)
    ensures Quiet(Appends(SlotPath(slot), values))
  {
    var name := if slot.ServicePorts? then "ports" else SpecName(slot);
    assert SlotPath(slot)[|SlotPath(slot)| - 1] == Key(name) && |name| > 3;
    AppendsAreQuiet(SlotPath(slot), values);
  }

  lemma SidecarIsQuiet(cfg: Config, sv: Server)
    ensures AllQuiet(GitProxy(cfg, sv) + GitSidecar(cfg, sv)) && AllQuiet(Ssh(cfg))
  {
    hide AppendsEnv, Quiet, SlotPath, GitProxyContainer, GitSidecarContainer, SidecarArgs, UpstreamArg, SshMount,
         SshVolume;
    ToSlotIsQuiet(Containers, GitProxyContainer(cfg, sv));
    ToSlotIsQuiet(Containers, GitSidecarContainer(cfg, sv));
    SidecarArgsAreQuiet(cfg, sv);
    RootIsQuiet("serviceRpcServer", Opaque(cfg, "serviceRpcServer"));
    ToSlotIsQuiet(ServicePorts, Opaque(cfg, "ssh.service_port"));
    assert |"ports"| == 5;
    ToFieldIsQuiet(Containers, 0, "ports", Opaque(cfg, "ssh.container_ports"));
    BothQuiet(ToSlot(ServicePorts, Opaque(cfg, "ssh.service_port")),
              [Add(FieldPath(Containers, 0, "ports"), Opaque(cfg, "ssh.container_ports"))]);
    MountIsQuiet(0, SshMount(cfg));
    if cfg.sshHostKeySecret.Some? {
      ToSlotIsQuiet(Volumes, SshVolume(cfg.sshHostKeySecret.value));
      BothQuiet(ToField(Containers, 0, "volumeMounts", SshMount(cfg)),
                ToSlot(Volumes, SshVolume(cfg.sshHostKeySecret.value)));
    }
  }

  lemma SidecarArgsAreQuiet(cfg: Config, sv: Server)
    ensures Quiet([Replace(FieldPath(Containers, 1, "args") + [At(6)], UpstreamArg(sv))]
                  + Appends(FieldPath(Containers, 1, "args"), SidecarArgs(cfg, sv)))
  {
    hide SidecarArgs, UpstreamArg;
    var path := FieldPath(Containers, 1, "args");
    assert path[|path| - 1] == Key("args") && |"args"| == 4;
    AppendsAreQuiet(path, SidecarArgs(cfg, sv));
    assert (path + [At(6)])[|path|] == At(6);
    BothQuiet([Replace(path + [At(6)], UpstreamArg(sv))], Appends(path, SidecarArgs(cfg, sv)));
  }

  lemma InitsAreQuiet(cfg: Config, sv: Server)
    ensures AllQuiet(Certificates(cfg) + DownloadImage() + GitClone(cfg, sv))
    ensures AllQuiet([ToField(Containers, 1, "volumeMounts", EtcCertsMount(true))])
  {
    hide AppendsEnv, Quiet, SlotPath, FieldPath, CertificatesContainer, GitCloneContainer, GitCloneEnv, EtcCertsMount;
    ToSlotIsQuiet(Inits, CertificatesContainer(cfg));
    ToSlotIsQuiet(Volumes, CertificateVolumes(cfg)[0]);
    ToSlotIsQuiet(Volumes, CertificateVolumes(cfg)[1]);
    ToSlotIsQuiet(Inits, DOWNLOAD_CONTAINER);
    ToSlotIsQuiet(Inits, GitCloneContainer(cfg, sv, GitCloneEnv(cfg, sv)));
    MountIsQuiet(1, EtcCertsMount(true));
  }

  lemma StorageManifestIsQuiet(cfg: Config, sv: Server, i: nat)
    requires i < |sv.storages|
    ensures AllQuiet([StorageManifest(cfg, sv, i)])
  {
    hide AppendsEnv, SlotPath, FieldPath, StorageMount, StorageVolume;
    RootIsQuiet(BaseName(sv, i) + "-pv", Opaque(cfg, BaseName(sv, i) + "-pv"));
    RootIsQuiet(BaseName(sv, i) + "-secret", Opaque(cfg, BaseName(sv, i) + "-secret"));
    MountIsQuiet(0, StorageMount(sv, i));
    ToSlotIsQuiet(Volumes, StorageVolume(sv, i));
    var roots := [Add([Key(BaseName(sv, i) + "-pv")], Opaque(cfg, BaseName(sv, i) + "-pv")),
                  Add([Key(BaseName(sv, i) + "-secret")], Opaque(cfg, BaseName(sv, i) + "-secret"))];
    assert roots == [roots[0]] + [roots[1]];
    BothQuiet([roots[0]], [roots[1]]);
    BothQuiet(roots, ToField(Containers, 0, "volumeMounts", StorageMount(sv, i)));
    BothQuiet(roots + ToField(Containers, 0, "volumeMounts", StorageMount(sv, i)),
              ToSlot(Volumes, StorageVolume(sv, i)));
  }

  // ------------------------------------------------------- the operations left

  const MAIN_ENV: Path := FieldPath(Containers, 0, "env")
  const PROXY_ENV: Path := FieldPath(Containers, 1, "env")
  const CLONE_ENV: Path := FieldPath(Inits, 2, "env")

  lemma {:induction false} AppendsAre(path: Path, values: seq<Json>, op: Op)
    requires op in Appends(path, values)
    ensures op.Add? && op.path == path + [End] && op.value in values
  {
    var first := Add(path + [End], values[0]);
    assert Appends(path, values) == [first] + Appends(path, values[1..]);
    if op != first {
      AppendsAre(path, values[1..], op);
      assert values == [values[0]] + values[1..];
    }
  }

  lemma EnvPaths(path: Path, x: Json)
    requires path == MAIN_ENV || path == PROXY_ENV || path == CLONE_ENV
    ensures AppendsEnv(Add(path + [End], x))
  {
    var p := path + [End];
    assert p[|p| - 2] == Key("env") && Lower("env") == "env";
  }

  lemma {:induction false} EnvAppendsCount(path: Path, values: seq<Json>)
    requires path == MAIN_ENV || path == PROXY_ENV || path == CLONE_ENV
    ensures EnvOps(Appends(path, values)) == Appends(path, values)
  {
    hide AppendsEnv;
    if values != [] {
      EnvPaths(path, values[0]);
      EnvAppendsCount(path, values[1..]);
      assert Appends(path, values)[1..] == Appends(path, values[1..]);
    }
  }

  /** What one patch of appends to an environment adds. */
  lemma OneEnvPatch(path: Path, values: seq<Json>)
    requires path == MAIN_ENV || path == PROXY_ENV || path == CLONE_ENV
    ensures EnvOps(Operations([Appends(path, values)])) == Appends(path, values)
  {
    hide AppendsEnv, EnvOps, Appends;
    assert [Appends(path, values)][1..] == [];
    assert Appends(path, values) + [] == Appends(path, values);
    EnvAppendsCount(path, values);
  }

  lemma OneVariable(path: Path, x: Json)
    requires path == MAIN_ENV || path == PROXY_ENV || path == CLONE_ENV
    ensures EnvOps(Operations([[Add(path + [End], x)]])) == Appends(path, [x])
  {
    assert Appends(path, [x]) == [Add(path + [End], x)] + Appends(path, [x][1..]);
    OneEnvPatch(path, [x]);
  }

  function CloneVars(sv: Server, n: nat): seq<Json>
    requires n <= |sv.storages|
  {
    If(sv.repositories != [], StorageVars(sv)[..n])
  }

  lemma {:induction false} StorageOps(cfg: Config, sv: Server, n: nat)
    requires n <= |sv.storages|
    ensures EnvOps(Operations(CloudStorageUpTo(cfg, sv, n))) == Appends(CLONE_ENV, CloneVars(sv, n))
  {
    hide AppendsEnv, EnvOps, Operations, Appends, StorageManifest, StorageVar, AllQuiet;
    if n == 0 {
      NothingToAppend(sv);
    } else {
      StorageOps(cfg, sv, n - 1);
      PatchesThen(CloudStorageUpTo(cfg, sv, n - 1), StoragePatches(cfg, sv, n - 1));
      StorageManifestIsQuiet(cfg, sv, n - 1);
      QuietPatches([StorageManifest(cfg, sv, n - 1)]);
      if sv.repositories != [] {
        var x := StorageVar(sv, n - 1);
        PatchesThen([StorageManifest(cfg, sv, n - 1)], [ToField(Inits, 2, "env", x)]);
        OneVariable(CLONE_ENV, x);
        assert StorageVars(sv)[..n] == StorageVars(sv)[..n - 1] + [x];
        PatchGenerators.AppendsSnoc(CLONE_ENV, StorageVars(sv)[..n - 1], x);
        OneAppend(CLONE_ENV, x);
      } else {
        NothingToAppend(sv);
        assert StoragePatches(cfg, sv, n - 1) == [StorageManifest(cfg, sv, n - 1)];
      }
    }
  }

  lemma NothingToAppend(sv: Server)
    ensures EnvOps(Operations([])) == [] == Appends(CLONE_ENV, CloneVars(sv, 0))
  {
  }

  function ProxyVars(cfg: Config, sv: Server): seq<Json> {
    If(sv.registered, [UnverifiedEmailVar(cfg), CaFilesVar()])
  }

  lemma FiveParts(a: seq<Patch>, b: seq<Patch>, c: seq<Patch>, d: seq<Patch>, e: seq<Patch>)
    ensures EnvOps(Operations(a + b + c + d + e))
         == EnvOps(Operations(a)) + EnvOps(Operations(b)) + (EnvOps(Operations(c)) + EnvOps(Operations(d)))
           + EnvOps(Operations(e))
  {
    hide EnvOps, Operations;
    PatchesThen(a + b + c + d, e);
    PatchesThen(a + b + c, d);
    PatchesThen(a + b, c);
    PatchesThen(a, b);
  }

  /** The environment operations of all generated patches: for the main container, the proxy and the clone. */
  lemma EnvOpsOfAll(cfg: Config, sv: Server, patches: seq<Patch>)
    requires GetPatches(cfg, sv) == Ok(patches)
    ensures EnvOps(Operations(patches))
         == Appends(MAIN_ENV, JupyterEnv(sv)) + Appends(PROXY_ENV, ProxyVars(cfg, sv))
           + Appends(CLONE_ENV, CloneVars(sv, |sv.storages|))
  {
    hide AppendsEnv, EnvOps, Operations, Appends, AllQuiet, JupyterEnv, CloneVars, ProxyVars, Env, StorageVars,
         GeneralPatches, JupyterPatches, SidecarPatches, InitPatches, CloudStorageUpTo, FieldPath;
    var env := Env(sv).value;
    GeneralIsQuiet(cfg, sv);
    QuietPatches(GeneralPatches(cfg, sv));
    JupyterOps(cfg, sv, env);
    StorageOps(cfg, sv, |sv.storages|);
    ProxyOps(cfg, sv);
    FiveParts(GeneralPatches(cfg, sv), JupyterPatches(cfg, sv, env), SidecarPatches(cfg, sv), InitPatches(cfg, sv),
              CloudStorage(cfg, sv));
  }

  lemma JupyterOps(cfg: Config, sv: Server, env: seq<Patch>)
    requires Env(sv) == Ok(env)
    ensures EnvOps(Operations(JupyterPatches(cfg, sv, env))) == Appends(MAIN_ENV, JupyterEnv(sv))
  {
    hide AppendsEnv, EnvOps, Operations, Appends, AllQuiet, JupyterEnv, ImagePullSecret, RstudioEnvVariables,
         UserSecretsPatches;
    var rest := ImagePullSecret(cfg, sv) + DisableServiceLinks() + RstudioEnvVariables(cfg, sv)
      + UserSecretsPatches(cfg, sv);
    JupyterIsQuiet(cfg, sv);
    QuietPatches(Args());
    QuietPatches(rest);
    assert JupyterPatches(cfg, sv, env) == (Args() + env) + rest;
    PatchesThen(Args() + env, rest);
    PatchesThen(Args(), env);
    OneEnvPatch(MAIN_ENV, JupyterEnv(sv));
  }

  lemma ProxyOps(cfg: Config, sv: Server)
    ensures EnvOps(Operations(SidecarPatches(cfg, sv))) + EnvOps(Operations(InitPatches(cfg, sv)))
      == Appends(PROXY_ENV, ProxyVars(cfg, sv))
  {
    hide AppendsEnv, EnvOps, Operations, Appends, AllQuiet, GitProxy, GitSidecar, Ssh, Certificates, GitClone,
         UnverifiedEmailVar, CaFilesVar, EtcCertsMount;
    SidecarIsQuiet(cfg, sv);
    QuietPatches(GitProxy(cfg, sv) + GitSidecar(cfg, sv));
    QuietPatches(Ssh(cfg));
    PatchesThen(GitProxy(cfg, sv) + GitSidecar(cfg, sv) + OidcUnverifiedEmail(cfg, sv), Ssh(cfg));
    PatchesThen(GitProxy(cfg, sv) + GitSidecar(cfg, sv), OidcUnverifiedEmail(cfg, sv));
    InitsAreQuiet(cfg, sv);
    var mounts := [ToField(Containers, 1, "volumeMounts", EtcCertsMount(true))];
    var early := Certificates(cfg) + DownloadImage() + GitClone(cfg, sv);
    QuietPatches(early);
    QuietPatches(mounts);
    PatchesThen(early, InjectCertificates(sv));
    PatchesThen(mounts, if sv.registered then [ToField(Containers, 1, "env", CaFilesVar())] else []);
    assert InjectCertificates(sv) == mounts +
      if sv.registered then [ToField(Containers, 1, "env", CaFilesVar())] else [];
    assert InitPatches(cfg, sv) == early + InjectCertificates(sv);
    if sv.registered {
      var email, files := UnverifiedEmailVar(cfg), CaFilesVar();
      OneVariable(PROXY_ENV, email);
      OneVariable(PROXY_ENV, files);
      OneAppend(PROXY_ENV, email);
      OneAppend(PROXY_ENV, files);
      PatchGenerators.AppendsSnoc(PROXY_ENV, [email], files);
      assert [email] + [files] == ProxyVars(cfg, sv);
    } else {
      NoProxyVars(cfg, sv);
    }
  }

  lemma NoProxyVars(cfg: Config, sv: Server)
    requires !sv.registered
    ensures EnvOps(Operations([])) == [] == Appends(PROXY_ENV, ProxyVars(cfg, sv))
  {
  }

  // -------------------------------------------------------------- no clashes

  /** Only variables, and none with two values. */
  ghost predicate Consistent(values: seq<Json>) {
    && (forall x | x in values :: Child(x, Key("name")).Some? && Child(x, Key("value")).Some?)
    && (forall x, y | x in values && y in values && Child(x, Key("name")) == Child(y, Key("name")) ::
        Child(x, Key("value")) == Child(y, Key("value")))
  }

  lemma EnvPathsDiffer()
    ensures LowerPath(MAIN_ENV + [End]) != LowerPath(PROXY_ENV + [End])
    ensures LowerPath(MAIN_ENV + [End]) != LowerPath(CLONE_ENV + [End])
    ensures LowerPath(PROXY_ENV + [End]) != LowerPath(CLONE_ENV + [End])
  {
    var main, proxy, clone := LowerPath(MAIN_ENV + [End]), LowerPath(PROXY_ENV + [End]), LowerPath(CLONE_ENV + [End]);
    assert main[5] == At(0) && proxy[5] == At(1) && clone[5] == At(2);
  }

  lemma GroupsDoNotClash(a: seq<Json>, b: seq<Json>, c: seq<Json>)
    requires Consistent(a) && Consistent(b) && Consistent(c)
    ensures var ops := Appends(MAIN_ENV, a) + Appends(PROXY_ENV, b) + Appends(CLONE_ENV, c);
      !Clashes(ops) && AllReadable(ops)
  {
    hide AppendsEnv, Appends, LowerPath;
    var ops := Appends(MAIN_ENV, a) + Appends(PROXY_ENV, b) + Appends(CLONE_ENV, c);
    EnvPathsDiffer();
    forall op | op in ops
      ensures op.Add?
        && ((op.path == MAIN_ENV + [End] && op.value in a) || (op.path == PROXY_ENV + [End] && op.value in b)
           || (op.path == CLONE_ENV + [End] && op.value in c))
    {
      if op in Appends(MAIN_ENV, a) {
        AppendsAre(MAIN_ENV, a, op);
      } else if op in Appends(PROXY_ENV, b) {
        AppendsAre(PROXY_ENV, b, op);
      } else {
        AppendsAre(CLONE_ENV, c, op);
      }
    }
    forall i, j | 0 <= i < |ops| && 0 <= j < |ops|
      ensures !Clash(ops[i], ops[j])
    {
      assert ops[i] in ops && ops[j] in ops;
    }
    forall k | 0 <= k < |ops|
      ensures !Unreadable(ops[k])
    {
      assert ops[k] in ops;
    }
  }

  lemma ClashStays(ops: seq<Op>)
    requires Clashes(ops)
    ensures Clashes(EnvOps(ops))
  {
    hide AppendsEnv, HasNameAndValue, LowerPath, EnvOps;
    var left := EnvOps(ops);
    var i, j :| 0 <= i < |ops| && 0 <= j < |ops| && Clash(ops[i], ops[j]);
    EnvOpsHas(ops, ops[i]);
    EnvOpsHas(ops, ops[j]);
    var i' :| 0 <= i' < |left| && left[i'] == ops[i];
    var j' :| 0 <= j' < |left| && left[j'] == ops[j];
    assert Clash(left[i'], left[j']);
  }

  lemma UnreadableStays(ops: seq<Op>)
    requires !AllReadable(ops)
    ensures !AllReadable(EnvOps(ops))
  {
    hide AppendsEnv, HasNameAndValue, EnvOps;
    var left := EnvOps(ops);
    var k :| 0 <= k < |ops| && Unreadable(ops[k]);
    EnvOpsHas(ops, ops[k]);
    var k' :| 0 <= k' < |left| && left[k'] == ops[k];
    assert Unreadable(left[k']);
  }

  /** Only the environment operations matter for the check. */
  lemma EnvOpsDecide(ops: seq<Op>)
    requires !Clashes(EnvOps(ops)) && AllReadable(EnvOps(ops))
    ensures !Clashes(ops) && AllReadable(ops)
  {
    hide Clashes, AllReadable, EnvOps;
    if Clashes(ops) {
      ClashStays(ops);
    }
    if !AllReadable(ops) {
      UnreadableStays(ops);
    }
  }

  lemma VarIs(name: string, value: Json)
    ensures Child(EnvVar(name, value), Key("name")) == Some(Str(name))
      && Child(EnvVar(name, value), Key("value")) == Some(value)
  {
  }

  /** The keys of a dictionary differ. */
  ghost predicate DistinctKeys(pairs: seq<(string, string)>) {
    forall i, j | 0 <= i < j < |pairs| :: pairs[i].0 != pairs[j].0
  }

  lemma JupyterEnvAt(sv: Server, i: nat) returns (name: string, value: Json)
    requires i < |JupyterEnv(sv)|
    ensures JupyterEnv(sv)[i] == EnvVar(name, value)
    ensures i < |FixedEnv(sv)| ==> (name, value) == FixedEnv(sv)[i]
    ensures i >= |FixedEnv(sv)| ==>
      (name, value) == (sv.environment[i - |FixedEnv(sv)|].0, Str(sv.environment[i - |FixedEnv(sv)|].1))
  {
    hide EnvVar, FixedEnv;
    var n := |FixedEnv(sv)|;
    if i < n {
      name, value := FixedEnv(sv)[i].0, FixedEnv(sv)[i].1;
    } else {
      name, value := sv.environment[i - n].0, Str(sv.environment[i - n].1);
    }
  }

  lemma SameNameSameValue(sv: Server, i: nat, j: nat)
    requires Env(sv).Ok? && DistinctKeys(sv.environment) && i <= j < |JupyterEnv(sv)|
    requires Child(JupyterEnv(sv)[i], Key("name")) == Child(JupyterEnv(sv)[j], Key("name"))
    ensures Child(JupyterEnv(sv)[i], Key("value")) == Child(JupyterEnv(sv)[j], Key("value"))
  {
    hide EnvVar, FixedEnv, JupyterEnv;
    var n := |FixedEnv(sv)|;
    var name, value := JupyterEnvAt(sv, i);
    var name', value' := JupyterEnvAt(sv, j);
    VarIs(name, value);
    VarIs(name', value');
    if i < j < n {
      PatchGenerators.FixedNamesDiffer(sv, i, j);
    } else if i < n <= j {
      assert !Overrides(FixedEnv(sv), sv.environment[j - n]);
    }
  }

  lemma JupyterIsConsistent(sv: Server)
    requires Env(sv).Ok? && DistinctKeys(sv.environment)
    ensures Consistent(JupyterEnv(sv))
  {
    hide EnvVar, FixedEnv, JupyterEnv, Env;
    var values := JupyterEnv(sv);
    forall x | x in values
      ensures Child(x, Key("name")).Some? && Child(x, Key("value")).Some?
    {
      var i :| 0 <= i < |values| && values[i] == x;
      var name, value := JupyterEnvAt(sv, i);
      VarIs(name, value);
    }
    forall x, y | x in values && y in values && Child(x, Key("name")) == Child(y, Key("name"))
      ensures Child(x, Key("value")) == Child(y, Key("value"))
    {
      var i :| 0 <= i < |values| && values[i] == x;
      var j :| 0 <= j < |values| && values[j] == y;
      if i <= j {
        SameNameSameValue(sv, i, j);
      } else {
        SameNameSameValue(sv, j, i);
      }
    }
  }

  lemma ProxyIsConsistent(cfg: Config, sv: Server)
    ensures Consistent(ProxyVars(cfg, sv))
  {
    hide EnvVar, Setting;
    var email, files := "OAUTH2_PROXY_INSECURE_OIDC_ALLOW_UNVERIFIED_EMAIL", "OAUTH2_PROXY_PROVIDER_CA_FILES";
    assert |email| == 49 && |files| == 30;
    VarIs(email, Setting(cfg, "oidc.allow_unverified_email"));
    VarIs(files, Str(CA_BUNDLE));
  }

  lemma StorageNamesDiffer(sv: Server, i: nat, j: nat)
    requires i < |sv.storages| && j < |sv.storages|
    ensures Child(StorageVar(sv, i), Key("name")).Some? && Child(StorageVar(sv, i), Key("value")).Some?
    ensures Child(StorageVar(sv, i), Key("name")) == Child(StorageVar(sv, j), Key("name")) ==> i == j
  {
    hide EnvVar, Decimal;
    var prefix := "GIT_CLONE_STORAGE_MOUNTS_";
    VarIs(prefix + Decimal(i), Str(sv.storages[i].mountFolder));
    VarIs(prefix + Decimal(j), Str(sv.storages[j].mountFolder));
    if prefix + Decimal(i) == prefix + Decimal(j) {
      assert (prefix + Decimal(i))[|prefix|..] == Decimal(i) && (prefix + Decimal(j))[|prefix|..] == Decimal(j);
      DecimalInjective(i, j);
    }
  }

  lemma StorageIsConsistent(sv: Server)
    ensures Consistent(CloneVars(sv, |sv.storages|))
  {
    hide StorageVar;
    var values := CloneVars(sv, |sv.storages|);
    forall x, y | x in values && y in values
      ensures Child(x, Key("name")).Some? && Child(x, Key("value")).Some?
      ensures Child(x, Key("name")) == Child(y, Key("name")) ==> Child(x, Key("value")) == Child(y, Key("value"))
    {
      var i :| 0 <= i < |values| && values[i] == x;
      var j :| 0 <= j < |values| && values[j] == y;
      StorageNamesDiffer(sv, i, j);
    }
  }

  /**
   Whatever the generators put together is accepted by the check: each of its environment
   operations has a name and a value, and no two set a variable of one container to different values.
   */
  lemma GeneratedPatchesAreAccepted(cfg: Config, sv: Server, patches: seq<Patch>)
    requires GetPatches(cfg, sv) == Ok(patches) && DistinctKeys(sv.environment)
    ensures AllReadable(Operations(patches)) && !Clashes(Operations(patches))
  {
    hide AppendsEnv, EnvOps, Operations, Appends, Clashes, AllReadable, Consistent, JupyterEnv, ProxyVars, CloneVars,
         GeneralPatches, JupyterPatches, SidecarPatches, InitPatches, CloudStorage;
    EnvOpsOfAll(cfg, sv, patches);
    JupyterIsConsistent(sv);
    ProxyIsConsistent(cfg, sv);
    StorageIsConsistent(sv);
    GroupsDoNotClash(JupyterEnv(sv), ProxyVars(cfg, sv), CloneVars(sv, |sv.storages|));
    EnvOpsDecide(Operations(patches));
  }
}
