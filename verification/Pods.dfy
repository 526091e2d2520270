/**
 The arrays of a session's manifest that the patches address, and what one operation on a
 document does to them.
 */
module Pods {
  import opened Prelude
  import opened Json

  /** The arrays that patches extend: four in the pod's spec, and the ports of the service. */
  datatype Slot = Containers | Inits | Volumes | PullSecrets | ServicePorts

  const SPEC: Path := [Key("statefulset"), Key("spec"), Key("template"), Key("spec")]

  function SpecName(slot: Slot): string
    requires !slot.ServicePorts?
  {
    match slot
    case Containers => "containers"
    case Inits => "initContainers"
    case Volumes => "volumes"
    case PullSecrets => "imagePullSecrets"
  }

  function SlotPath(slot: Slot): Path {
    if slot.ServicePorts? then [Key("service"), Key("spec"), Key("ports")] else SPEC + [Key(SpecName(slot))]
  }

  function Items(x: Option<Json>): Option<seq<Json>> {
    if x.Some? && x.value.Arr? then Some(x.value.items) else None
  }

  /** A manifest's arrays; None where the document has no array. */
  datatype Pod = Pod(
    containers: Option<seq<Json>>,
    inits: Option<seq<Json>>,
    volumes: Option<seq<Json>>,
    pullSecrets: Option<seq<Json>>,
    servicePorts: Option<seq<Json>>)
  {
    function Slot(slot: Slot): Option<seq<Json>> {
      match slot
      case Containers => containers
      case Inits => inits
      case Volumes => volumes
      case PullSecrets => pullSecrets
      case ServicePorts => servicePorts
    }

    function With(slot: Slot, items: seq<Json>): Pod {
      match slot
      case Containers => this.(containers := Some(items))
      case Inits => this.(inits := Some(items))
      case Volumes => this.(volumes := Some(items))
      case PullSecrets => this.(pullSecrets := Some(items))
      case ServicePorts => this.(servicePorts := Some(items))
    }
  }

  function SlotOf(d: Json, slot: Slot): Option<seq<Json>> {
    Items(Get(d, SlotPath(slot)))
  }

  function PodOf(d: Json): Pod {
    Pod(SlotOf(d, Containers), SlotOf(d, Inits), SlotOf(d, Volumes), SlotOf(d, PullSecrets), SlotOf(d, ServicePorts))
  }

  /** The document shows these arrays, and has a pod spec that members can be added to. */
  ghost predicate Shows(d: Json, pod: Pod) {
    && d.Obj?
    && Get(d, SPEC).Some? && Get(d, SPEC).value.Obj?
    && PodOf(d) == pod
  }

  // --------------------------------------------------------- one field deeper

  /** A field of one container in a slot. */
  function FieldPath(slot: Slot, index: nat, field: string): Path {
    SlotPath(slot) + [At(index), Key(field)]
  }

  /** The array in a member of an object, if there is one. */
  function FieldItems(c: Json, field: string): Option<seq<Json>> {
    Items(Child(c, Key(field)))
  }

  /** A container with more elements in one of its arrays. */
  function Extend(c: Json, field: string, values: seq<Json>): Json
    requires FieldItems(c, field).Some?
  {
    Obj(c.members[field := Arr(FieldItems(c, field).value + values)])
  }

  function WithField(c: Json, field: string, x: Json): Json
    requires c.Obj?
  {
    Obj(c.members[field := x])
  }

  // ------------------------------------------------------------ laws of paths

  lemma SlotsApart(a: Slot, b: Slot)
    requires a != b
    ensures Apart(SlotPath(a), SlotPath(b))
  {
    if a.ServicePorts? || b.ServicePorts? {
    } else {
      assert Apart([Key(SpecName(a))], [Key(SpecName(b))]);
      ApartAfter(SPEC, [Key(SpecName(a))], [Key(SpecName(b))]);
    }
  }

  /** A change at or below a slot's location leaves the other slots and the spec object in place. */
  lemma PutInSlot(d: Json, pod: Pod, slot: Slot, items: seq<Json>)
    requires Shows(d, pod) && pod.Slot(slot).Some?
    ensures Shows(Put(d, SlotPath(slot), Arr(items)), pod.With(slot, items))
  {
    var path := SlotPath(slot);
    var d' := Put(d, path, Arr(items));
    GetPut(d, path, Arr(items));
    forall other: Slot | other != slot
      ensures SlotOf(d', other) == SlotOf(d, other)
    {
      SlotsApart(slot, other);
      GetElsewhere(d, path, SlotPath(other), Arr(items));
    }
    SpecStays(d, slot, items);
  }

  lemma SpecStays(d: Json, slot: Slot, items: seq<Json>)
    requires d.Obj? && Get(d, SPEC).Some? && Get(d, SPEC).value.Obj? && Get(d, SlotPath(slot)).Some?
    ensures var d' := Put(d, SlotPath(slot), Arr(items)); d'.Obj? && Get(d', SPEC).Some? && Get(d', SPEC).value.Obj?
  {
    if slot.ServicePorts? {
      assert Apart(SlotPath(slot), SPEC);
      GetElsewhere(d, SlotPath(slot), SPEC, Arr(items));
    } else {
      var last := [Key(SpecName(slot))];
      GetThrough(d, SPEC, last);
      PutThrough(d, SPEC, last, Arr(items));
      GetPut(d, SPEC, Put(Get(d, SPEC).value, last, Arr(items)));
    }
  }

  // -------------------------------------------------------- operations on pods

  /** Appending to a slot's array. */
  lemma AppendToSlot(d: Json, pod: Pod, slot: Slot, values: seq<Json>) returns (d': Json)
    requires Shows(d, pod) && pod.Slot(slot).Some?
    ensures ApplyAll(d, Appends(SlotPath(slot), values)) == Some(d')
    ensures Shows(d', pod.With(slot, pod.Slot(slot).value + values))
  {
    AppendsExtend(d, SlotPath(slot), values);
    d' := Put(d, SlotPath(slot), Arr(pod.Slot(slot).value + values));
    PutInSlot(d, pod, slot, pod.Slot(slot).value + values);
  }

  lemma ElementPut(items: seq<Json>, index: nat, rest: Path, x: Json)
    requires index < |items| && Get(items[index], rest).Some?
    ensures Get(Arr(items), [At(index)] + rest) == Get(items[index], rest)
    ensures Put(Arr(items), [At(index)] + rest, x) == Arr(items[index := Put(items[index], rest, x)])
  {
    assert ([At(index)] + rest)[1..] == rest;
  }

  /** A change inside one container is a change of its slot. */
  lemma PutInContainer(d: Json, pod: Pod, slot: Slot, index: nat, rest: Path, x: Json)
    requires Shows(d, pod) && pod.Slot(slot).Some? && index < |pod.Slot(slot).value|
    requires Get(pod.Slot(slot).value[index], rest).Some?
    ensures Get(d, SlotPath(slot) + [At(index)] + rest) == Get(pod.Slot(slot).value[index], rest)
    ensures Shows(Put(d, SlotPath(slot) + [At(index)] + rest, x),
                  pod.With(slot, pod.Slot(slot).value[index := Put(pod.Slot(slot).value[index], rest, x)]))
  {
    hide Get, Put, SlotPath;
    var path, items := SlotPath(slot), pod.Slot(slot).value;
    var inner := [At(index)] + rest;
    assert path + [At(index)] + rest == path + inner;
    ElementPut(items, index, rest, x);
    GetThrough(d, path, inner);
    PutThrough(d, path, inner, x);
    PutInSlot(d, pod, slot, items[index := Put(items[index], rest, x)]);
  }

  /** Appending to an array inside one container. */
  lemma AppendToField(d: Json, pod: Pod, slot: Slot, index: nat, field: string, values: seq<Json>) returns (d': Json)
    requires Shows(d, pod) && pod.Slot(slot).Some? && index < |pod.Slot(slot).value|
    requires FieldItems(pod.Slot(slot).value[index], field).Some?
    ensures ApplyAll(d, Appends(FieldPath(slot, index, field), values)) == Some(d')
    ensures Shows(d', pod.With(slot, pod.Slot(slot).value[index := Extend(pod.Slot(slot).value[index], field, values)]))
  {
    var c := pod.Slot(slot).value[index];
    var path := FieldPath(slot, index, field);
    var rest := [Key(field)];
    assert path == SlotPath(slot) + [At(index)] + rest;
    var extended := Arr(FieldItems(c, field).value + values);
    OneToken(c, Key(field), extended);
    PutInContainer(d, pod, slot, index, rest, extended);
    AppendsExtend(d, path, values);
    d' := Put(d, path, extended);
  }

  /** Appending fails where the container has no such array. */
  lemma AppendToMissingField(d: Json, pod: Pod, slot: Slot, index: nat, field: string, x: Json)
    requires Shows(d, pod) && pod.Slot(slot).Some? && index < |pod.Slot(slot).value|
    requires FieldItems(pod.Slot(slot).value[index], field).None?
    ensures Apply(d, Add(FieldPath(slot, index, field) + [End], x)) == None
  {
    var c := pod.Slot(slot).value[index];
    var inner := [At(index), Key(field)];
    GetThrough(d, SlotPath(slot), inner);
    TwoTokens(Arr(pod.Slot(slot).value), At(index), Key(field), x);
    assert Get(d, FieldPath(slot, index, field)) == Child(c, Key(field));
    AppendNeedsArray(d, FieldPath(slot, index, field), x);
  }

  /** Setting a member of one container. */
  lemma SetField(d: Json, pod: Pod, slot: Slot, index: nat, field: string, x: Json) returns (d': Json)
    requires Shows(d, pod) && pod.Slot(slot).Some? && index < |pod.Slot(slot).value|
    requires pod.Slot(slot).value[index].Obj?
    ensures ApplyAll(d, [Add(FieldPath(slot, index, field), x)]) == Some(d')
    ensures Shows(d', pod.With(slot, pod.Slot(slot).value[index := WithField(pod.Slot(slot).value[index], field, x)]))
  {
    var c := pod.Slot(slot).value[index];
    var parent := SlotPath(slot) + [At(index)];
    assert FieldPath(slot, index, field) == parent + [Key(field)];
    assert parent == SlotPath(slot) + [At(index)] + [];
    PutInContainer(d, pod, slot, index, [], WithField(c, field, x));
    AddIsPut(d, parent, Key(field), x);
    d' := Put(d, parent, WithField(c, field, x));
    OneOp(d, Add(FieldPath(slot, index, field), x), d');
  }

  lemma OneOp(d: Json, op: Op, d': Json)
    requires Apply(d, op) == Some(d')
    ensures ApplyAll(d, [op]) == Some(d')
  {
    assert [op][1..] == [];
  }

  /** Replacing one element of an array inside one container. */
  lemma ReplaceElement(d: Json, pod: Pod, slot: Slot, index: nat, field: string, k: nat, x: Json) returns (d': Json)
    requires Shows(d, pod) && pod.Slot(slot).Some? && index < |pod.Slot(slot).value|
    requires FieldItems(pod.Slot(slot).value[index], field).Some?
      && k < |FieldItems(pod.Slot(slot).value[index], field).value|
    ensures ApplyAll(d, [Replace(FieldPath(slot, index, field) + [At(k)], x)]) == Some(d')
    ensures var c := pod.Slot(slot).value[index];
      Shows(d', pod.With(slot,
                         pod.Slot(slot).value[index := WithField(c, field, Arr(FieldItems(c, field).value[k := x]))]))
  {
    var c := pod.Slot(slot).value[index];
    var rest := [Key(field), At(k)];
    TwoTokens(c, Key(field), At(k), x);
    var path := FieldPath(slot, index, field) + [At(k)];
    assert path == SlotPath(slot) + [At(index)] + rest;
    PutInContainer(d, pod, slot, index, rest, x);
    ReplaceIsPut(d, path, x);
    d' := Put(d, path, x);
    OneOp(d, Replace(path, x), d');
  }

  /** Adding a member to the pod's spec that is not one of the slots. */
  lemma AddToSpec(d: Json, pod: Pod, name: string, x: Json) returns (d': Json)
    requires Shows(d, pod)
    requires name !in {"containers", "initContainers", "volumes", "imagePullSecrets"}
    ensures ApplyAll(d, [Add(SPEC + [Key(name)], x)]) == Some(d')
    ensures Shows(d', pod)
  {
    var spec := Get(d, SPEC).value;
    AddIsPut(d, SPEC, Key(name), x);
    var spec' := Obj(spec.members[name := x]);
    d' := Put(d, SPEC, spec');
    OneOp(d, Add(SPEC + [Key(name)], x), d');
    GetPut(d, SPEC, spec');
    forall slot: Slot
      ensures SlotOf(d', slot) == SlotOf(d, slot)
    {
      if slot.ServicePorts? {
        assert Apart(SPEC, SlotPath(slot));
        GetElsewhere(d, SPEC, SlotPath(slot), spec');
      } else {
        var last := [Key(SpecName(slot))];
        GetThrough(d, SPEC, last);
        GetThrough(d', SPEC, last);
        assert last[1..] == [];
      }
    }
  }

  /** Adding a member to the manifest besides the statefulset and the service. */
  lemma AddToRoot(d: Json, pod: Pod, name: string, x: Json) returns (d': Json)
    requires Shows(d, pod)
    requires name != "statefulset" && name != "service"
    ensures ApplyAll(d, [Add([Key(name)], x)]) == Some(d')
    ensures Shows(d', pod)
  {
    d' := Obj(d.members[name := x]);
    OneOp(d, Add([Key(name)], x), d');
    assert SPEC[0] == Key("statefulset");
    assert Get(d', SPEC) == Get(d, SPEC);
    forall slot: Slot
      ensures SlotOf(d', slot) == SlotOf(d, slot)
    {
      assert SlotPath(slot)[0] == Key("statefulset") || SlotPath(slot)[0] == Key("service");
      assert Get(d', SlotPath(slot)) == Get(d, SlotPath(slot));
    }
  }
}
