/**
 The manifest after the patches, besides its arrays: which members of the pod's spec and of the manifest
 are set, to which values and under which conditions, and that nothing else changes.
 */
module ManifestMembers {
  import opened Prelude
  import opened Json
  import opened Text
  import opened Pods
  import opened SessionPatches
  import opened Manifest
  import opened ManifestResult
  import opened ManifestPlaces

  // ---------------------------------------------------------------- one place

  lemma SpecNamesApart(a: string, b: string)
    ensures a != b ==> Apart(SPEC + [Key(a)], SPEC + [Key(b)])
    ensures a != "statefulset" ==> Apart([Key(a)], SPEC + [Key(b)]) && Apart(SPEC + [Key(b)], [Key(a)])
    ensures a != b ==> Apart([Key(a)], [Key(b)])
  {
    if a != b {
      assert Apart([Key(a)], [Key(b)]);
      ApartAfter(SPEC, [Key(a)], [Key(b)]);
    }
  }

  lemma NamesApartFromArrays(name: string)
    ensures name !in ["containers", "initContainers", "volumes", "imagePullSecrets"]
            ==> ApartFromArrays(SPEC + [Key(name)])
    ensures name != "statefulset" && name != "service" ==> ApartFromArrays([Key(name)])
  {
    forall slot: Slot
      ensures name !in ["containers", "initContainers", "volumes", "imagePullSecrets"]
              ==> Apart(SlotPath(slot), SPEC + [Key(name)])
      ensures name != "statefulset" && name != "service" ==> Apart(SlotPath(slot), [Key(name)])
    {
      if !slot.ServicePorts? {
        SpecNamesApart(SpecName(slot), name);
      }
    }
  }

  /** What one place is after the run: the value of the member that is set there, or as it was. */
  lemma PlaceAfter(cfg: Config, sv: Server, d: Json, patches: seq<Patch>, q: Path, x: Json)
    requires GetPatches(cfg, sv) == Ok(patches) && Run(d, patches).Some? && ApartFromArrays(q)
    requires forall op | op in Members(cfg, sv) :: SetsMember(op) && (Apart(op.path, q) || op == Add(q, x))
    ensures Get(Run(d, patches).value, q) == if Add(q, x) in Members(cfg, sv) then Some(x) else Get(d, q)
  {
    hide Members, InArrays, SetsMember, Operations;
    AllMake(cfg, sv, patches);
    var ops := Operations(patches);
    forall op | op in ops
      ensures Minds(op, q, x)
    {
      assert InArrays(op) || op in Members(cfg, sv);
    }
    RunLeaves(d, ops, q, x);
    if Add(q, x) in ops && InArrays(Add(q, x)) {
      AddIsOutside(Add(q, x), q, x);
    }
  }

  /** What the configuration says about a value that the model does not look into. */
  predicate Configured(cfg: Config, name: string, x: Json) {
    x == if name in cfg.values then cfg.values[name] else Null
  }

  /** The members of the pod's spec that are set, and their values. */
  predicate SpecValue(cfg: Config, sv: Server, name: string, x: Json) {
    || (name == "tolerations" && Configured(cfg, "tolerations", x))
    || (name == "affinity" && Configured(cfg, "affinity", x))
    || (name == "nodeSelector" && !sv.hasNodeAffinities && Configured(cfg, "node_selector", x))
    || (name == "priorityClassName" && sv.priorityClass.Some? && x == Str(sv.priorityClass.value))
    || (name == "enableServiceLinks" && x == Bool(false))
  }

  /** The members of the manifest that are set, and their values. */
  predicate RootValue(cfg: Config, sv: Server, name: string, x: Json) {
    || (name == "image_pull_secret" && sv.imagePrivate && Configured(cfg, "image_pull_secret", x))
    || (name == "renviron" && sv.environment != [] && Configured(cfg, "renviron", x))
    || (name == "serviceRpcServer" && sv.registered && sv.repositories != [] && Configured(cfg, "serviceRpcServer", x))
    || (exists i | 0 <= i < |sv.storages| :: StorageValue(cfg, sv, i, name, x))
  }

  predicate StorageValue(cfg: Config, sv: Server, i: nat, name: string, x: Json) {
    && (name == sv.name + "-ds-" + Decimal(i) + "-pv" || name == sv.name + "-ds-" + Decimal(i) + "-secret")
    && Configured(cfg, name, x)
  }

  lemma {:induction false} StorageMemberIs(cfg: Config, sv: Server, n: nat, op: Op) returns (i: nat, name: string)
    requires n <= |sv.storages| && op in StorageMembers(cfg, sv, n)
    ensures i < n && op.Add? && op.path == [Key(name)] && StorageValue(cfg, sv, i, name, op.value)
  {
    if op in StorageMembers(cfg, sv, n - 1) {
      i, name := StorageMemberIs(cfg, sv, n - 1, op);
    } else {
      i, name := n - 1, op.path[0].name;
    }
  }

  lemma {:induction false} StorageIsMember(cfg: Config, sv: Server, n: nat, i: nat, name: string, x: Json)
    requires i < n <= |sv.storages| && StorageValue(cfg, sv, i, name, x)
    ensures Add([Key(name)], x) in StorageMembers(cfg, sv, n)
  {
    if i < n - 1 {
      StorageIsMember(cfg, sv, n - 1, i, name, x);
    }
  }

  /** Every operation on a member sets one that is listed, to the value that is listed. */
  lemma MemberIs(cfg: Config, sv: Server, op: Op) returns (name: string)
    requires op in Members(cfg, sv)
    ensures op.Add?
    ensures || (op.path == SPEC + [Key(name)] && SpecValue(cfg, sv, name, op.value))
            || (op.path == [Key(name)] && RootValue(cfg, sv, name, op.value))
  {
    hide StorageMembers, StorageValue;
    if op in StorageMembers(cfg, sv, |sv.storages|) {
      var i, n := StorageMemberIs(cfg, sv, |sv.storages|, op);
      name := n;
    } else {
      name := op.path[|op.path| - 1].name;
    }
  }

  lemma SpecIsMember(cfg: Config, sv: Server, name: string, x: Json)
    requires SpecValue(cfg, sv, name, x)
    ensures Add(SPEC + [Key(name)], x) in Members(cfg, sv)
  {
    hide StorageMembers, SidecarMembers;
  }

  lemma RootIsMember(cfg: Config, sv: Server, name: string, x: Json)
    requires RootValue(cfg, sv, name, x)
    ensures Add([Key(name)], x) in Members(cfg, sv)
  {
    hide StorageMembers, PlacementMembers, StorageValue;
    if i :| 0 <= i < |sv.storages| && StorageValue(cfg, sv, i, name, x) {
      StorageIsMember(cfg, sv, |sv.storages|, i, name, x);
    }
  }

  // ------------------------------------------------- each is set to one value

  lemma SpecNames(cfg: Config, sv: Server, name: string, x: Json)
    requires SpecValue(cfg, sv, name, x)
    ensures name !in ["containers", "initContainers", "volumes", "imagePullSecrets"]
  {
    assert |"tolerations"| == 11 && |"affinity"| == 8 && |"nodeSelector"| == 12;
    assert |"priorityClassName"| == 17 && |"enableServiceLinks"| == 18;
    assert |"containers"| == 10 && |"initContainers"| == 14 && |"volumes"| == 7 && |"imagePullSecrets"| == 16;
  }

  lemma OneSpecValue(cfg: Config, sv: Server, name: string, x: Json, y: Json)
    requires SpecValue(cfg, sv, name, x) && SpecValue(cfg, sv, name, y)
    ensures x == y
  {
    hide Configured;
    assert |"tolerations"| == 11 && |"affinity"| == 8 && |"nodeSelector"| == 12;
    assert |"priorityClassName"| == 17 && |"enableServiceLinks"| == 18;
    OneConfigured(cfg, x, y);
  }

  lemma OneConfigured(cfg: Config, x: Json, y: Json)
    ensures forall name :: Configured(cfg, name, x) && Configured(cfg, name, y) ==> x == y
  {
  }

  /** The names of the storages end as no other name does. */
  lemma StorageEnds(cfg: Config, sv: Server, i: nat, name: string, x: Json)
    requires i < |sv.storages| && StorageValue(cfg, sv, i, name, x)
    ensures |name| > 7
    ensures name[|name| - 1] == 'v' || (name[|name| - 1] == 't' && name[|name| - 7] == '-')
    ensures Configured(cfg, name, x)
  {
    hide Configured, Decimal;
    var base := sv.name + "-ds-" + Decimal(i);
    assert |"-secret"| == 7 && |"-pv"| == 3;
    assert name == base + "-pv" || name == base + "-secret";
    assert (base + "-pv")[|base| + 2] == 'v' && (base + "-secret")[|base|] == '-'
      && (base + "-secret")[|base| + 6] == 't';
  }

  lemma OneRootValue(cfg: Config, sv: Server, name: string, x: Json, y: Json)
    requires RootValue(cfg, sv, name, x) && RootValue(cfg, sv, name, y)
    ensures x == y && name != "statefulset" && name != "service"
  {
    hide Configured, StorageValue;
    var a, b, c := "image_pull_secret", "renviron", "serviceRpcServer";
    assert |a| == 17 && |b| == 8 && |c| == 16 && |"statefulset"| == 11 && |"service"| == 7;
    assert a[16] == 't' && a[10] == '_' && b[7] == 'n' && c[15] == 'r' && "statefulset"[10] == 't'
      && "statefulset"[4] == 'e';
    OneConfigured(cfg, x, y);
    if i :| 0 <= i < |sv.storages| && StorageValue(cfg, sv, i, name, x) {
      StorageEnds(cfg, sv, i, name, x);
    }
    if i :| 0 <= i < |sv.storages| && StorageValue(cfg, sv, i, name, y) {
      StorageEnds(cfg, sv, i, name, y);
    }
  }

  // ------------------------------------------------------------- main results

  /** A member of the pod's spec that is set has its value. */
  lemma SpecAfter(cfg: Config, sv: Server, d: Json, patches: seq<Patch>, name: string, x: Json)
    requires GetPatches(cfg, sv) == Ok(patches) && Run(d, patches).Some? && SpecValue(cfg, sv, name, x)
    ensures Get(Run(d, patches).value, SPEC + [Key(name)]) == Some(x)
  {
    hide Members, SpecValue, RootValue, Run, ApartFromArrays, Apart;
    var q := SPEC + [Key(name)];
    SpecNames(cfg, sv, name, x);
    NamesApartFromArrays(name);
    forall op | op in Members(cfg, sv)
      ensures SetsMember(op) && (Apart(op.path, q) || op == Add(q, x))
    {
      var n := MemberIs(cfg, sv, op);
      SpecNamesApart(n, name);
      if op.path == SPEC + [Key(n)] && SpecValue(cfg, sv, n, op.value) {
        if n == name {
          OneSpecValue(cfg, sv, name, x, op.value);
        }
      } else {
        OneRootValue(cfg, sv, n, op.value, op.value);
      }
    }
    SpecIsMember(cfg, sv, name, x);
    PlaceAfter(cfg, sv, d, patches, q, x);
  }

  /** A member of the manifest that is set has its value. */
  lemma RootAfter(cfg: Config, sv: Server, d: Json, patches: seq<Patch>, name: string, x: Json)
    requires GetPatches(cfg, sv) == Ok(patches) && Run(d, patches).Some? && RootValue(cfg, sv, name, x)
    ensures Get(Run(d, patches).value, [Key(name)]) == Some(x)
  {
    hide Members, SpecValue, RootValue, Run, ApartFromArrays, Apart;
    OneRootValue(cfg, sv, name, x, x);
    NamesApartFromArrays(name);
    forall op | op in Members(cfg, sv)
      ensures SetsMember(op) && (Apart(op.path, [Key(name)]) || op == Add([Key(name)], x))
    {
      var n := MemberIs(cfg, sv, op);
      SpecNamesApart(name, n);
      SpecNamesApart(n, name);
      if op.path == [Key(n)] && RootValue(cfg, sv, n, op.value) && n == name {
        OneRootValue(cfg, sv, name, x, op.value);
      }
    }
    RootIsMember(cfg, sv, name, x);
    PlaceAfter(cfg, sv, d, patches, [Key(name)], x);
  }

  /** Not in the arrays, and not in a member that is set. */
  ghost predicate Elsewhere(cfg: Config, sv: Server, q: Path) {
    && ApartFromArrays(q)
    && (forall name, x | SpecValue(cfg, sv, name, x) :: Apart(SPEC + [Key(name)], q))
    && (forall name, x | RootValue(cfg, sv, name, x) :: Apart([Key(name)], q))
  }

  lemma ElsewhereAfter(cfg: Config, sv: Server, d: Json, patches: seq<Patch>, q: Path)
    requires GetPatches(cfg, sv) == Ok(patches) && Run(d, patches).Some? && Elsewhere(cfg, sv, q)
    ensures Get(Run(d, patches).value, q) == Get(d, q)
  {
    hide Members, SpecValue, RootValue, Run, ApartFromArrays, Apart;
    forall op | op in Members(cfg, sv)
      ensures SetsMember(op) && Apart(op.path, q) && op.path != q
    {
      var n := MemberIs(cfg, sv, op);
      NotApart(q);
    }
    PlaceAfter(cfg, sv, d, patches, q, Null);
  }

  /** A member of the pod's spec, by its place in the manifest. */
  function InPodSpec(d: Json, name: string): Option<Json> {
    Get(d, [Key("statefulset"), Key("spec"), Key("template"), Key("spec"), Key(name)])
  }

  function AtTop(d: Json, name: string): Option<Json> {
    Get(d, [Key(name)])
  }

  ghost predicate IsConfigured(cfg: Config, name: string, found: Option<Json>) {
    found.Some? && Configured(cfg, name, found.value)
  }

  /** The member at the top is the one that the configuration gives for this name. */
  ghost predicate IsGiven(cfg: Config, d: Json, name: string) {
    IsConfigured(cfg, name, AtTop(d, name))
  }

  lemma InPodSpecAfter(cfg: Config, sv: Server, d: Json, patches: seq<Patch>, name: string, x: Json)
    requires GetPatches(cfg, sv) == Ok(patches) && Run(d, patches).Some? && SpecValue(cfg, sv, name, x)
    ensures InPodSpec(Run(d, patches).value, name) == Some(x)
  {
    hide GetPatches, Run, SpecValue;
    SpecAfter(cfg, sv, d, patches, name, x);
    assert SPEC + [Key(name)] == [Key("statefulset"), Key("spec"), Key("template"), Key("spec"), Key(name)];
  }

  lemma InPodSpecStays(cfg: Config, sv: Server, d: Json, patches: seq<Patch>, name: string)
    requires GetPatches(cfg, sv) == Ok(patches) && Run(d, patches).Some? && Elsewhere(cfg, sv, SPEC + [Key(name)])
    ensures InPodSpec(Run(d, patches).value, name) == InPodSpec(d, name)
  {
    hide GetPatches, Run, Elsewhere;
    ElsewhereAfter(cfg, sv, d, patches, SPEC + [Key(name)]);
    assert SPEC + [Key(name)] == [Key("statefulset"), Key("spec"), Key("template"), Key("spec"), Key(name)];
  }

  /**
   The members of the pod's spec after the run: tolerations, affinity and the switch for service
   links are always set, the node selector exactly without node affinities, and the priority class
   exactly for a server with one.
   */
  lemma SpecMembersAfter(cfg: Config, sv: Server, d: Json, patches: seq<Patch>)
    requires GetPatches(cfg, sv) == Ok(patches) && Run(d, patches).Some?
    ensures var after := Run(d, patches).value;
      && InPodSpec(after, "enableServiceLinks") == Some(Bool(false))
      && IsConfigured(cfg, "tolerations", InPodSpec(after, "tolerations"))
      && IsConfigured(cfg, "affinity", InPodSpec(after, "affinity"))
      && (if sv.hasNodeAffinities then InPodSpec(after, "nodeSelector") == InPodSpec(d, "nodeSelector")
          else IsConfigured(cfg, "node_selector", InPodSpec(after, "nodeSelector")))
      && (match sv.priorityClass
          case Some(p) => InPodSpec(after, "priorityClassName") == Some(Str(p))
          case None => InPodSpec(after, "priorityClassName") == InPodSpec(d, "priorityClassName"))
  {
    hide Run, GetPatches, Elsewhere, InPodSpec;
    InPodSpecAfter(cfg, sv, d, patches, "enableServiceLinks", Bool(false));
    InPodSpecAfter(cfg, sv, d, patches, "tolerations", Opaque(cfg, "tolerations"));
    InPodSpecAfter(cfg, sv, d, patches, "affinity", Opaque(cfg, "affinity"));
    if sv.hasNodeAffinities {
      UnsetIsElsewhere(cfg, sv, "nodeSelector");
      InPodSpecStays(cfg, sv, d, patches, "nodeSelector");
    } else {
      InPodSpecAfter(cfg, sv, d, patches, "nodeSelector", Opaque(cfg, "node_selector"));
    }
    if sv.priorityClass.Some? {
      InPodSpecAfter(cfg, sv, d, patches, "priorityClassName", Str(sv.priorityClass.value));
    } else {
      UnsetIsElsewhere(cfg, sv, "priorityClassName");
      InPodSpecStays(cfg, sv, d, patches, "priorityClassName");
    }
  }

  lemma UnsetIsElsewhere(cfg: Config, sv: Server, name: string)
    requires (name == "nodeSelector" && sv.hasNodeAffinities) || (name == "priorityClassName" && sv.priorityClass.None?)
    ensures Elsewhere(cfg, sv, SPEC + [Key(name)])
  {
    hide RootValue, ApartFromArrays, Apart, Configured;
    UnsetNames(cfg, sv, name);
    NamesApartFromArrays(name);
    forall n, x | SpecValue(cfg, sv, n, x)
      ensures Apart(SPEC + [Key(n)], SPEC + [Key(name)])
    {
      SpecNamesApart(n, name);
    }
    forall n, x | RootValue(cfg, sv, n, x)
      ensures Apart([Key(n)], SPEC + [Key(name)])
    {
      OneRootValue(cfg, sv, n, x, x);
      SpecNamesApart(n, name);
    }
  }

  lemma UnsetNames(cfg: Config, sv: Server, name: string)
    requires (name == "nodeSelector" && sv.hasNodeAffinities) || (name == "priorityClassName" && sv.priorityClass.None?)
    ensures name !in ["containers", "initContainers", "volumes", "imagePullSecrets"]
    ensures forall x :: !SpecValue(cfg, sv, name, x)
  {
    hide Configured;
    assert |"tolerations"| == 11 && |"affinity"| == 8 && |"nodeSelector"| == 12;
    assert |"priorityClassName"| == 17 && |"enableServiceLinks"| == 18;
    assert |"containers"| == 10 && |"initContainers"| == 14 && |"volumes"| == 7 && |"imagePullSecrets"| == 16;
  }

  /** A member at the top that is not set stays as it was. */
  lemma AtTopStays(cfg: Config, sv: Server, d: Json, patches: seq<Patch>, name: string)
    requires GetPatches(cfg, sv) == Ok(patches) && Run(d, patches).Some?
    requires name != "statefulset" && name != "service" && forall x :: !RootValue(cfg, sv, name, x)
    ensures AtTop(Run(d, patches).value, name) == AtTop(d, name)
  {
    hide GetPatches, Run, SpecValue, RootValue, ApartFromArrays, Apart;
    NamesApartFromArrays(name);
    forall n, x | SpecValue(cfg, sv, n, x)
      ensures Apart(SPEC + [Key(n)], [Key(name)])
    {
      SpecNamesApart(name, n);
    }
    forall n, x | RootValue(cfg, sv, n, x)
      ensures Apart([Key(n)], [Key(name)])
    {
      SpecNamesApart(n, name);
    }
    ElsewhereAfter(cfg, sv, d, patches, [Key(name)]);
  }

  lemma UnsetAtTop(cfg: Config, sv: Server, name: string)
    requires || (name == "image_pull_secret" && !sv.imagePrivate)
             || (name == "renviron" && sv.environment == [])
             || (name == "serviceRpcServer" && !(sv.registered && sv.repositories != []))
    ensures name != "statefulset" && name != "service" && forall x :: !RootValue(cfg, sv, name, x)
  {
    hide Configured, StorageValue;
    var a, b, c := "image_pull_secret", "renviron", "serviceRpcServer";
    assert |a| == 17 && |b| == 8 && |c| == 16 && |"statefulset"| == 11 && |"service"| == 7;
    assert a[16] == 't' && a[10] == '_' && b[7] == 'n' && c[15] == 'r';
    forall x
      ensures !RootValue(cfg, sv, name, x)
    {
      if i :| 0 <= i < |sv.storages| && StorageValue(cfg, sv, i, name, x) {
        StorageEnds(cfg, sv, i, name, x);
      }
    }
  }

  lemma TopAfter(cfg: Config, sv: Server, d: Json, patches: seq<Patch>, name: string, present: bool)
    requires GetPatches(cfg, sv) == Ok(patches) && Run(d, patches).Some?
    requires present ==> RootValue(cfg, sv, name, Opaque(cfg, name))
    requires !present ==> name != "statefulset" && name != "service" && forall x :: !RootValue(cfg, sv, name, x)
    ensures if present then IsGiven(cfg, Run(d, patches).value, name)
            else AtTop(Run(d, patches).value, name) == AtTop(d, name)
  {
    hide GetPatches, Run, RootValue;
    if present {
      RootAfter(cfg, sv, d, patches, name, Opaque(cfg, name));
    } else {
      AtTopStays(cfg, sv, d, patches, name);
    }
  }

  lemma NamedAfter(cfg: Config, sv: Server, d: Json, patches: seq<Patch>)
    requires GetPatches(cfg, sv) == Ok(patches) && Run(d, patches).Some?
    ensures var after := Run(d, patches).value;
      && (if sv.imagePrivate then IsGiven(cfg, after, "image_pull_secret")
          else AtTop(after, "image_pull_secret") == AtTop(d, "image_pull_secret"))
      && (if sv.environment != [] then IsGiven(cfg, after, "renviron")
          else AtTop(after, "renviron") == AtTop(d, "renviron"))
      && (if sv.registered && sv.repositories != [] then
            IsGiven(cfg, after, "serviceRpcServer")
          else AtTop(after, "serviceRpcServer") == AtTop(d, "serviceRpcServer"))
  {
    hide Run, GetPatches, IsGiven, AtTop, StorageValue;
    if !sv.imagePrivate {
      UnsetAtTop(cfg, sv, "image_pull_secret");
    }
    if sv.environment == [] {
      UnsetAtTop(cfg, sv, "renviron");
    }
    if !(sv.registered && sv.repositories != []) {
      UnsetAtTop(cfg, sv, "serviceRpcServer");
    }
    TopAfter(cfg, sv, d, patches, "image_pull_secret", sv.imagePrivate);
    TopAfter(cfg, sv, d, patches, "renviron", sv.environment != []);
    TopAfter(cfg, sv, d, patches, "serviceRpcServer", sv.registered && sv.repositories != []);
  }

  /**
   The members of the manifest after the run: the pull secret exactly for a private image, the
   .Renviron secret exactly for a nonempty environment, the git service exactly for a registered
   user with repositories, and two members for each storage.
   */
  lemma RootMembersAfter(cfg: Config, sv: Server, d: Json, patches: seq<Patch>)
    requires GetPatches(cfg, sv) == Ok(patches) && Run(d, patches).Some?
    ensures var after := Run(d, patches).value;
      && (if sv.imagePrivate then IsGiven(cfg, after, "image_pull_secret")
          else AtTop(after, "image_pull_secret") == AtTop(d, "image_pull_secret"))
      && (if sv.environment != [] then IsGiven(cfg, after, "renviron")
          else AtTop(after, "renviron") == AtTop(d, "renviron"))
      && (if sv.registered && sv.repositories != [] then
            IsGiven(cfg, after, "serviceRpcServer")
          else AtTop(after, "serviceRpcServer") == AtTop(d, "serviceRpcServer"))
      && (forall i: nat | i < |sv.storages| ::
            && IsGiven(cfg, after, sv.name + "-ds-" + Decimal(i) + "-pv")
            && IsGiven(cfg, after, sv.name + "-ds-" + Decimal(i) + "-secret"))
  {
    hide Run, GetPatches;
    NamedAfter(cfg, sv, d, patches);
    forall i: nat | i < |sv.storages|
      ensures IsGiven(cfg, Run(d, patches).value, sv.name + "-ds-" + Decimal(i) + "-pv")
      ensures IsGiven(cfg, Run(d, patches).value, sv.name + "-ds-" + Decimal(i) + "-secret")
    {
      var base := sv.name + "-ds-" + Decimal(i);
      assert StorageValue(cfg, sv, i, base + "-pv", Opaque(cfg, base + "-pv"));
      assert StorageValue(cfg, sv, i, base + "-secret", Opaque(cfg, base + "-secret"));
      RootAfter(cfg, sv, d, patches, base + "-pv", Opaque(cfg, base + "-pv"));
      RootAfter(cfg, sv, d, patches, base + "-secret", Opaque(cfg, base + "-secret"));
    }
  }

  /**
   Nothing else changes: a place that is apart from the five arrays and from the members that are
   set is after the run what it was before.
   */
  lemma NothingElseChanges(cfg: Config, sv: Server, d: Json, patches: seq<Patch>, q: Path)
    requires GetPatches(cfg, sv) == Ok(patches) && Run(d, patches).Some?
    requires forall name | name in ["containers", "initContainers", "volumes", "imagePullSecrets"] ::
      Apart([Key("statefulset"), Key("spec"), Key("template"), Key("spec"), Key(name)], q)
    requires Apart([Key("service"), Key("spec"), Key("ports")], q)
    requires forall name, x | SpecValue(cfg, sv, name, x) ::
      Apart([Key("statefulset"), Key("spec"), Key("template"), Key("spec"), Key(name)], q)
    requires forall name, x | RootValue(cfg, sv, name, x) :: Apart([Key(name)], q)
    ensures Get(Run(d, patches).value, q) == Get(d, q)
  {
    hide GetPatches, Run, SpecValue, RootValue, Apart;
    forall name: string
      ensures SPEC + [Key(name)] == [Key("statefulset"), Key("spec"), Key("template"), Key("spec"), Key(name)]
    {
    }
    forall slot: Slot
      ensures Apart(SlotPath(slot), q)
    {
      if !slot.ServicePorts? {
        assert SpecName(slot) in ["containers", "initContainers", "volumes", "imagePullSecrets"];
        assert SlotPath(slot) == SPEC + [Key(SpecName(slot))];
      }
    }
    ElsewhereAfter(cfg, sv, d, patches, q);
  }
}
