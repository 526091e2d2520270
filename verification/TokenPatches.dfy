/**
 Renewing the tokens of a running session: the replace operations that are generated from the
 session's statefulset, and what they do to it.
 */
module TokenPatches {
  import opened Prelude
  import opened Json
  import Pods

  datatype RenkuTokens = RenkuTokens(access: string, refresh: string)

  const POD_SPEC: Path := [Key("spec"), Key("template"), Key("spec")]

  function ListPath(list: string): Path {
    POD_SPEC + [Key(list)]
  }

  function ItemsOf(d: Json, path: Path): Option<seq<Json>> {
    Pods.Items(Get(d, path))
  }

  predicate Named(x: Json, name: string) {
    Child(x, Key("name")) == Some(Str(name))
  }

  /** The first element with a name: the first of a filtered enumeration. */
  function FirstNamed(items: seq<Json>, name: string, from: nat): (r: Option<nat>)
    requires from <= |items|
    ensures r.Some? ==> from <= r.value < |items| && Named(items[r.value], name)
    ensures forall k | from <= k < (if r.Some? then r.value else |items|) :: !Named(items[k], name)
    decreases |items| - from
  {
    if from == |items| then None
    else if Named(items[from], name) then Some(from)
    else FirstNamed(items, name, from + 1)
  }

  /** A token variable: where it is expected, and the token it gets. */
  datatype Target = Target(list: string, container: string, variable: string, value: string)

  function Targets(t: RenkuTokens): seq<Target> {
    [Target("containers", "git-proxy", "GIT_PROXY_RENKU_ACCESS_TOKEN", t.access),
     Target("containers", "git-proxy", "GIT_PROXY_RENKU_REFRESH_TOKEN", t.refresh),
     Target("initContainers", "git-clone", "GIT_CLONE_USER__RENKU_TOKEN", t.access),
     Target("initContainers", "init-user-secrets", "RENKU_ACCESS_TOKEN", t.access)]
  }

  function ValuePath(list: string, container: nat, variable: nat): Path {
    ListPath(list) + [At(container), Key("env"), At(variable), Key("value")]
  }

  /** The place of a target's value; iterating over a list that is missing is an error. */
  function Find(d: Json, target: Target): Result<Option<Path>, string> {
    match ItemsOf(d, ListPath(target.list))
    case None => Err("TypeError")
    case Some(containers) =>
      match FirstNamed(containers, target.container, 0)
      case None => Ok(None)
      case Some(c) =>
        var env := Child(containers[c], Key("env"));
        if env.None? || !env.value.Arr? then Err("TypeError")
        else
          match FirstNamed(env.value.items, target.variable, 0)
          case None => Ok(None)
          case Some(v) => Ok(Some(ValuePath(target.list, c, v)))
  }

  /** The operation for one target, if its variable is there. */
  function PatchFor(d: Json, target: Target): seq<Op> {
    match Find(d, target)
    case Err(_) => []
    case Ok(None) => []
    case Ok(Some(path)) => [Replace(path, Str(target.value))]
  }

  function PatchesFor(d: Json, targets: seq<Target>): seq<Op> {
    if targets == [] then [] else PatchesFor(d, targets[..|targets| - 1]) + PatchFor(d, targets[|targets| - 1])
  }

  predicate Readable(d: Json, targets: seq<Target>) {
    forall k | 0 <= k < |targets| :: Find(d, targets[k]).Ok?
  }

  /** _get_statefulset_token_patches */
  function Patches(d: Json, t: RenkuTokens): Result<seq<Op>, string> {
    if Readable(d, Targets(t)) then Ok(PatchesFor(d, Targets(t))) else Err("TypeError")
  }

  // ------------------------------------------- sequences of replace operations

  ghost predicate Replaces(ops: seq<Op>) {
    forall k | 0 <= k < |ops| :: ops[k].Replace?
  }

  /** No two of the operations touch the same place. */
  ghost predicate Independent(ops: seq<Op>) {
    Replaces(ops) && forall i, j | 0 <= i < |ops| && 0 <= j < |ops| && i != j :: Apart(ops[i].path, ops[j].path)
  }

  /** Everything that the operations replace is there. */
  ghost predicate AllThere(d: Json, ops: seq<Op>) {
    forall k | 0 <= k < |ops| :: Get(d, ops[k].path).Some?
  }

  lemma ReplaceStep(d: Json, op: Op)
    requires op.Replace? && Get(d, op.path).Some?
    ensures Apply(d, op) == Some(Put(d, op.path, op.value))
    ensures Get(Put(d, op.path, op.value), op.path) == Some(op.value)
  {
    ReplaceIsPut(d, op.path, op.value);
    GetPut(d, op.path, op.value);
  }

  lemma RestStaysThere(d: Json, op: Op, ops: seq<Op>)
    requires op.Replace? && Get(d, op.path).Some?
    requires forall k | 0 <= k < |ops| :: Apart(op.path, ops[k].path)
    ensures AllThere(Put(d, op.path, op.value), ops) <==> AllThere(d, ops)
  {
    forall k | 0 <= k < |ops|
      ensures Get(Put(d, op.path, op.value), ops[k].path) == Get(d, ops[k].path)
    {
      GetElsewhere(d, op.path, ops[k].path, op.value);
    }
  }

  /** Independent replacements succeed exactly when everything they replace is there. */
  lemma {:induction false} ReplacesSucceedIff(d: Json, ops: seq<Op>)
    requires Independent(ops)
    ensures ApplyAll(d, ops).Some? <==> AllThere(d, ops)
    decreases |ops|
  {
    if ops != [] {
      var op, rest := ops[0], ops[1..];
      ReplaceIsPut(d, op.path, op.value);
      if Get(d, op.path).Some? {
        var d' := Put(d, op.path, op.value);
        assert forall k | 0 <= k < |rest| :: rest[k] == ops[k + 1];
        RestStaysThere(d, op, rest);
        ReplacesSucceedIff(d', rest);
        assert AllThere(d, ops) <==> AllThere(d, rest);
      } else {
        assert !AllThere(d, ops);
      }
    }
  }

  /** They set every place they name, and no place that is apart from all of these. */
  lemma {:induction false} ReplacesSet(d: Json, ops: seq<Op>)
    requires Independent(ops) && AllThere(d, ops)
    ensures ApplyAll(d, ops).Some?
    ensures forall k | 0 <= k < |ops| :: Get(ApplyAll(d, ops).value, ops[k].path) == Some(ops[k].value)
    ensures forall q: Path | (forall k | 0 <= k < |ops| :: Apart(ops[k].path, q)) ::
      Get(ApplyAll(d, ops).value, q) == Get(d, q)
    decreases |ops|
  {
    ReplacesSucceedIff(d, ops);
    if ops != [] {
      var op, rest := ops[0], ops[1..];
      ReplaceStep(d, op);
      var d' := Put(d, op.path, op.value);
      assert forall k | 0 <= k < |rest| :: rest[k] == ops[k + 1];
      RestStaysThere(d, op, rest);
      ReplacesSet(d', rest);
      forall k | 0 <= k < |rest|
        ensures Apart(rest[k].path, op.path)
      {
        assert Apart(ops[k + 1].path, ops[0].path);
      }
      assert Get(ApplyAll(d', rest).value, op.path) == Get(d', op.path);
      forall q: Path | forall k | 0 <= k < |ops| :: Apart(ops[k].path, q)
        ensures Get(ApplyAll(d, ops).value, q) == Get(d, q)
      {
        GetElsewhere(d, op.path, q, op.value);
      }
    }
  }

  lemma Regrouped(g: Op, rest: seq<Op>, h: Op, b: seq<Op>)
    ensures [g] + rest + [h] + b == [g] + (rest + [h] + b) && ([g] + (rest + [h] + b))[1..] == rest + [h] + b
    ensures [g] + ([h] + (rest + b)) == [g] + ([h] + rest + b) && ([g] + ([h] + rest + b))[1..] == [h] + rest + b
    ensures [h] + ([g] + rest) + b == [h] + ([g] + (rest + b))
  {
  }

  lemma {:induction false} MoveToFront(d: Json, a: seq<Op>, h: Op, b: seq<Op>)
    requires Independent(a) && AllThere(d, a) && h.Replace? && Get(d, h.path).Some?
    requires forall k | 0 <= k < |a| :: Apart(a[k].path, h.path)
    ensures ApplyAll(d, a + [h] + b) == ApplyAll(d, [h] + a + b)
    decreases |a|
  {
    hide Get, Put;
    if a == [] {
      assert a + [h] + b == [h] + a + b;
    } else {
      var g, rest := a[0], a[1..];
      assert a == [g] + rest;
      assert forall k | 0 <= k < |rest| :: rest[k] == a[k + 1];
      SwapFront(d, g, h, rest + b);
      RestStaysThere(d, g, rest);
      ReplaceStep(d, g);
      GetElsewhere(d, g.path, h.path, g.value);
      MoveToFront(Put(d, g.path, g.value), rest, h, b);
      Regrouped(g, rest, h, b);
    }
  }

  lemma SwapFront(d: Json, g: Op, h: Op, more: seq<Op>)
    requires g.Replace? && h.Replace? && Get(d, g.path).Some? && Get(d, h.path).Some? && Apart(g.path, h.path)
    ensures ApplyAll(d, [g] + ([h] + more)) == ApplyAll(d, [h] + ([g] + more))
  {
    hide Get, Put;
    ReplaceStep(d, g);
    ReplaceStep(d, h);
    PutsCommute(d, g.path, h.path, g.value, h.value);
    ReplaceStep(Put(d, g.path, g.value), h);
    ReplaceStep(Put(d, h.path, h.value), g);
    assert ([g] + ([h] + more))[1..] == [h] + more && ([h] + more)[1..] == more;
    assert ([h] + ([g] + more))[1..] == [g] + more && ([g] + more)[1..] == more;
  }

  // ------------------------------------------------------------- permutations

  lemma {:induction false} NotApartFromItself(p: Path)
    ensures !Apart(p, p)
    decreases |p|
  {
    if p != [] {
      NotApartFromItself(p[1..]);
    }
  }

  lemma {:induction false} CountAtMostOne(ops: seq<Op>, x: Op)
    requires forall i, j | 0 <= i < |ops| && 0 <= j < |ops| && i != j :: ops[i] != ops[j]
    ensures multiset(ops)[x] <= 1
  {
    if ops != [] {
      var n := |ops| - 1;
      CountAtMostOne(ops[..n], x);
      assert ops == ops[..n] + [ops[n]];
      if x == ops[n] {
        assert x !in ops[..n];
        assert multiset(ops[..n])[x] == 0;
      }
    }
  }

  lemma TwiceCounts(ops: seq<Op>, i: nat, j: nat)
    requires i < j < |ops| && ops[i] == ops[j]
    ensures multiset(ops)[ops[i]] >= 2
  {
    assert ops == ops[..j] + ([ops[j]] + ops[j + 1..]);
    assert ops[..j][i] == ops[i];
    assert ops[i] in multiset(ops[..j]);
  }

  lemma PermutationIndependent(ops: seq<Op>, ops': seq<Op>)
    requires Independent(ops) && multiset(ops) == multiset(ops')
    ensures Independent(ops')
  {
    forall i | 0 <= i < |ops'|
      ensures ops'[i] in ops
    {
      assert ops'[i] in multiset(ops');
      assert ops'[i] in multiset(ops);
    }
    forall i, j | 0 <= i < |ops'| && 0 <= j < |ops'| && i != j
      ensures Apart(ops'[i].path, ops'[j].path)
    {
      if ops'[i] == ops'[j] {
        TwiceCounts(ops', if i < j then i else j, if i < j then j else i);
        forall m, n | 0 <= m < |ops| && 0 <= n < |ops| && m != n
          ensures ops[m] != ops[n]
        {
          NotApartFromItself(ops[m].path);
        }
        CountAtMostOne(ops, ops'[i]);
        assert false;
      }
      var m :| 0 <= m < |ops| && ops[m] == ops'[i];
      var n :| 0 <= n < |ops| && ops[n] == ops'[j];
      assert m != n;
    }
  }

  /** Of any order of the operations, the one that comes first in ops can be applied first. */
  lemma FirstIsReplace(d: Json, ops: seq<Op>)
    requires Independent(ops) && AllThere(d, ops) && ops != []
    ensures ops[0].Replace? && Get(d, ops[0].path).Some?
  {
  }

  lemma FirstComesFirst(d: Json, ops: seq<Op>, ops': seq<Op>) returns (rest': seq<Op>)
    requires Independent(ops) && AllThere(d, ops) && ops != [] && multiset(ops) == multiset(ops')
    ensures multiset(rest') == multiset(ops[1..])
    ensures ApplyAll(d, ops') == ApplyAll(Put(d, ops[0].path, ops[0].value), rest')
  {
    hide Get, Put, Independent, AllThere, Apart;
    var h := ops[0];
    FirstIsReplace(d, ops);
    var k := PlaceOf(ops, ops');
    var a, b := ops'[..k], ops'[k + 1..];
    rest' := a + b;
    BeforePlace(d, ops, ops', k);
    MoveToFront(d, a, h, b);
    assert ops' == a + [h] + b;
    ReplaceStep(d, h);
    assert [h] + a + b == [h] + rest' && ([h] + rest')[1..] == rest';
  }

  /** Independent replacements give the same result in every order. */
  lemma {:induction false} ReplacesInAnyOrder(d: Json, ops: seq<Op>, ops': seq<Op>)
    requires Independent(ops) && AllThere(d, ops) && multiset(ops) == multiset(ops')
    ensures ApplyAll(d, ops') == ApplyAll(d, ops)
    decreases |ops|
  {
    hide Get, Put;
    if ops == [] {
      assert |ops'| == |multiset(ops')| == |multiset(ops)| == 0;
    } else {
      var h, rest := ops[0], ops[1..];
      assert forall k | 0 <= k < |rest| :: rest[k] == ops[k + 1];
      var rest' := FirstComesFirst(d, ops, ops');
      ReplaceStep(d, h);
      RestStaysThere(d, h, rest);
      ReplacesInAnyOrder(Put(d, h.path, h.value), rest, rest');
    }
  }

  lemma PlaceOf(ops: seq<Op>, ops': seq<Op>) returns (k: nat)
    requires ops != [] && multiset(ops) == multiset(ops')
    ensures k < |ops'| && ops'[k] == ops[0] && multiset(ops'[..k] + ops'[k + 1..]) == multiset(ops[1..])
  {
    assert ops[0] in multiset(ops');
    k :| 0 <= k < |ops'| && ops'[k] == ops[0];
    assert ops == [ops[0]] + ops[1..];
    assert ops' == ops'[..k] + ([ops[0]] + ops'[k + 1..]);
    assert multiset(ops'[..k] + ops'[k + 1..]) == multiset(ops') - multiset{ops[0]};
  }

  lemma BeforePlace(d: Json, ops: seq<Op>, ops': seq<Op>, k: nat)
    requires Independent(ops) && AllThere(d, ops) && multiset(ops) == multiset(ops')
    requires k < |ops'| && ops != [] && ops'[k] == ops[0]
    ensures Independent(ops'[..k]) && AllThere(d, ops'[..k])
    ensures forall i | 0 <= i < k :: Apart(ops'[..k][i].path, ops[0].path)
  {
    PermutationIndependent(ops, ops');
    assert forall i | 0 <= i < k :: ops'[..k][i] == ops'[i];
    forall i | 0 <= i < k
      ensures Get(d, ops'[i].path).Some?
    {
      assert ops'[i] in multiset(ops');
      assert ops'[i] in multiset(ops);
      var m :| 0 <= m < |ops| && ops[m] == ops'[i];
    }
  }

  // --------------------------------------------------- the generated operations

  predicate SameVariable(a: Target, b: Target) {
    a.list == b.list && a.container == b.container && a.variable == b.variable
  }

  lemma FoundApart(d: Json, a: Target, b: Target)
    requires !SameVariable(a, b)
    requires Find(d, a).Ok? && Find(d, a).value.Some? && Find(d, b).Ok? && Find(d, b).value.Some?
    ensures Apart(Find(d, a).value.value, Find(d, b).value.value)
  {
    var (ca, va) := Indices(d, a);
    var (cb, vb) := Indices(d, b);
    var ra, rb := [At(ca), Key("env"), At(va), Key("value")], [At(cb), Key("env"), At(vb), Key("value")];
    if a.list != b.list {
      var la, lb := [Key(a.list)] + ra, [Key(b.list)] + rb;
      assert Apart(la, lb);
      ApartAfter(POD_SPEC, la, lb);
      assert POD_SPEC + la == ValuePath(a.list, ca, va) && POD_SPEC + lb == ValuePath(b.list, cb, vb);
    } else {
      if ca != cb {
        assert Apart(ra, rb);
      } else {
        assert va != vb;
        assert ra[1..] == [Key("env"), At(va), Key("value")] && rb[1..] == [Key("env"), At(vb), Key("value")];
        assert ra[1..][1..] == [At(va), Key("value")] && rb[1..][1..] == [At(vb), Key("value")];
        assert Apart(ra[1..][1..], rb[1..][1..]);
      }
      ApartAfter(ListPath(a.list), ra, rb);
    }
  }

  /** The container and the variable of a target that is found. */
  function Indices(d: Json, target: Target): (r: (nat, nat))
    requires Find(d, target).Ok? && Find(d, target).value.Some?
    ensures Find(d, target) == Ok(Some(ValuePath(target.list, r.0, r.1)))
    ensures var items := ItemsOf(d, ListPath(target.list));
      && items.Some? && r.0 < |items.value| && Named(items.value[r.0], target.container)
      && Child(items.value[r.0], Key("env")).Some? && Child(items.value[r.0], Key("env")).value.Arr?
      && r.1 < |Child(items.value[r.0], Key("env")).value.items|
      && Named(Child(items.value[r.0], Key("env")).value.items[r.1], target.variable)
  {
    var containers := ItemsOf(d, ListPath(target.list)).value;
    var c := FirstNamed(containers, target.container, 0).value;
    (c, FirstNamed(Child(containers[c], Key("env")).value.items, target.variable, 0).value)
  }

  ghost predicate DistinctTargets(targets: seq<Target>) {
    forall i, j | 0 <= i < |targets| && 0 <= j < |targets| && i != j :: !SameVariable(targets[i], targets[j])
  }

  /** An operation for a target that is found. */
  ghost predicate OpFor(d: Json, target: Target, op: Op) {
    Find(d, target).Ok? && Find(d, target).value.Some? && op == Replace(Find(d, target).value.value, Str(target.value))
  }

  /** An operation for one target is apart from the operation for another. */
  lemma OpsApart(d: Json, a: Target, b: Target, op: Op, op': Op)
    requires OpFor(d, a, op) && OpFor(d, b, op') && !SameVariable(a, b) && !SameVariable(b, a)
    ensures Apart(op.path, op'.path) && Apart(op'.path, op.path)
  {
    hide Find, Apart, SameVariable;
    FoundApart(d, a, b);
    FoundApart(d, b, a);
  }

  lemma IndependentSnoc(ops: seq<Op>, op: Op)
    requires Independent(ops) && op.Replace?
    requires forall x | x in ops :: Apart(x.path, op.path) && Apart(op.path, x.path)
    ensures Independent(ops + [op])
  {
    hide Apart;
  }

  /** The last target adds its operation, if it has one. */
  lemma PatchesSnoc(d: Json, targets: seq<Target>)
    requires targets != []
    ensures var n := |targets| - 1;
      if PatchFor(d, targets[n]) == [] then PatchesFor(d, targets) == PatchesFor(d, targets[..n])
      else PatchesFor(d, targets) == PatchesFor(d, targets[..n]) + [PatchFor(d, targets[n])[0]]
           && OpFor(d, targets[n], PatchFor(d, targets[n])[0])
  {
    hide Find;
  }

  lemma {:induction false} PatchesHaveTargets(d: Json, targets: seq<Target>)
    ensures forall op | op in PatchesFor(d, targets) :: exists k | 0 <= k < |targets| :: OpFor(d, targets[k], op)
    ensures forall k, op | 0 <= k < |targets| && OpFor(d, targets[k], op) :: op in PatchesFor(d, targets)
  {
    hide Find;
    if targets != [] {
      var n := |targets| - 1;
      PatchesHaveTargets(d, targets[..n]);
      PatchesSnoc(d, targets);
      assert forall k | 0 <= k < n :: targets[..n][k] == targets[k];
      forall op | op in PatchesFor(d, targets[..n])
        ensures exists k | 0 <= k < |targets| :: OpFor(d, targets[k], op)
      {
        var k :| 0 <= k < n && OpFor(d, targets[..n][k], op);
        assert OpFor(d, targets[k], op);
      }
    }
  }

  /** There is one operation for each target that is found, and the operations are independent. */
  lemma PatchesIndependent(d: Json, targets: seq<Target>)
    requires DistinctTargets(targets)
    ensures Independent(PatchesFor(d, targets))
    ensures forall op | op in PatchesFor(d, targets) :: exists k | 0 <= k < |targets| :: OpFor(d, targets[k], op)
    ensures forall k | 0 <= k < |targets| && Find(d, targets[k]).Ok? && Find(d, targets[k]).value.Some? ::
              Replace(Find(d, targets[k]).value.value, Str(targets[k].value)) in PatchesFor(d, targets)
  {
    hide Find, Apart, SameVariable, PatchFor, PatchesFor, Independent;
    PatchesHaveTargets(d, targets);
    forall k | 0 <= k < |targets| && Find(d, targets[k]).Ok? && Find(d, targets[k]).value.Some?
      ensures Replace(Find(d, targets[k]).value.value, Str(targets[k].value)) in PatchesFor(d, targets)
    {
      assert OpFor(d, targets[k], Replace(Find(d, targets[k]).value.value, Str(targets[k].value)));
    }
    AllIndependent(d, targets);
  }

  lemma {:induction false} AllIndependent(d: Json, targets: seq<Target>)
    requires DistinctTargets(targets)
    ensures Independent(PatchesFor(d, targets))
  {
    hide Find, Apart, SameVariable, PatchFor;
    if targets != [] {
      var n := |targets| - 1;
      var before := targets[..n];
      assert forall k | 0 <= k < n :: before[k] == targets[k];
      AllIndependent(d, before);
      PatchesSnoc(d, targets);
      if PatchFor(d, targets[n]) != [] {
        var op := PatchFor(d, targets[n])[0];
        PatchesHaveTargets(d, before);
        forall x | x in PatchesFor(d, before)
          ensures Apart(x.path, op.path) && Apart(op.path, x.path)
        {
          var k :| 0 <= k < n && OpFor(d, before[k], x);
          OpsApart(d, targets[k], targets[n], x, op);
        }
        IndependentSnoc(PatchesFor(d, before), op);
      }
    }
  }

  /** Every variable that is found holds a literal value rather than a reference to one. */
  ghost predicate HoldLiterals(d: Json, targets: seq<Target>) {
    forall k | 0 <= k < |targets| && Find(d, targets[k]).Ok? && Find(d, targets[k]).value.Some? ::
      Get(d, Find(d, targets[k]).value.value).Some?
  }

  lemma LiteralsAreThere(d: Json, targets: seq<Target>)
    requires DistinctTargets(targets)
    ensures HoldLiterals(d, targets) <==> AllThere(d, PatchesFor(d, targets))
  {
    PatchesIndependent(d, targets);
    var ops := PatchesFor(d, targets);
    if HoldLiterals(d, targets) {
      forall i | 0 <= i < |ops|
        ensures Get(d, ops[i].path).Some?
      {
        assert ops[i] in ops;
        var k :| 0 <= k < |targets| && OpFor(d, targets[k], ops[i]);
      }
    }
    if AllThere(d, ops) {
      forall k | 0 <= k < |targets| && Find(d, targets[k]).Ok? && Find(d, targets[k]).value.Some?
        ensures Get(d, Find(d, targets[k]).value.value).Some?
      {
        var op := Replace(Find(d, targets[k]).value.value, Str(targets[k].value));
        var i :| 0 <= i < |ops| && ops[i] == op;
      }
    }
  }

  /**
   What the generated operations do.  They apply exactly when every token variable that is found
   holds a literal value.  Then each of these variables ends with its new token, every place apart
   from them is as it was, and any order of the operations gives the same statefulset.
   */
  lemma TokensAreRenewed(d: Json, t: RenkuTokens, ops: seq<Op>)
    requires Patches(d, t) == Ok(ops)
    ensures ApplyAll(d, ops).Some? <==> HoldLiterals(d, Targets(t))
    ensures HoldLiterals(d, Targets(t)) ==>
      var d' := ApplyAll(d, ops).value;
      && (forall k | 0 <= k < 4 && Find(d, Targets(t)[k]).value.Some? ::
            Get(d', Find(d, Targets(t)[k]).value.value) == Some(Str(Targets(t)[k].value)))
      && (forall q: Path | (forall k | 0 <= k < 4 && Find(d, Targets(t)[k]).value.Some? ::
                            Apart(Find(d, Targets(t)[k]).value.value, q)) ::
            Get(d', q) == Get(d, q))
      && (forall ops' | multiset(ops') == multiset(ops) :: ApplyAll(d, ops') == Some(d'))
  {
    var targets := Targets(t);
    PatchesIndependent(d, targets);
    LiteralsAreThere(d, targets);
    ReplacesSucceedIff(d, ops);
    if HoldLiterals(d, targets) {
      ReplacesSet(d, ops);
      var d' := ApplyAll(d, ops).value;
      forall k | 0 <= k < 4 && Find(d, targets[k]).value.Some?
        ensures Get(d', Find(d, targets[k]).value.value) == Some(Str(targets[k].value))
      {
        var op := Replace(Find(d, targets[k]).value.value, Str(targets[k].value));
        var i :| 0 <= i < |ops| && ops[i] == op;
      }
      forall q: Path | forall k | 0 <= k < 4 && Find(d, targets[k]).value.Some? ::
        Apart(Find(d, targets[k]).value.value, q)
        ensures Get(d', q) == Get(d, q)
      {
        forall i | 0 <= i < |ops|
          ensures Apart(ops[i].path, q)
        {
          assert ops[i] in ops;
          var k :| 0 <= k < |targets| && OpFor(d, targets[k], ops[i]);
        }
      }
      forall ops' | multiset(ops') == multiset(ops)
        ensures ApplyAll(d, ops') == Some(d')
      {
        ReplacesInAnyOrder(d, ops, ops');
      }
    }
  }

  // ------------------------------------------------------------ doing it again

  lemma {:induction false} FirstNamedByNames(items: seq<Json>, items': seq<Json>, name: string, from: nat)
    requires from <= |items| == |items'|
    requires forall k | 0 <= k < |items| :: Named(items'[k], name) <==> Named(items[k], name)
    ensures FirstNamed(items', name, from) == FirstNamed(items, name, from)
    decreases |items| - from
  {
    if from < |items| && !Named(items[from], name) {
      FirstNamedByNames(items, items', name, from + 1);
    }
  }

  /** A container whose environment has one value exchanged. */
  lemma ValueInContainer(c: Json, v: nat, x: Json)
    requires Get(c, [Key("env"), At(v), Key("value")]).Some?
    ensures var c' := Put(c, [Key("env"), At(v), Key("value")], x);
      && Child(c', Key("name")) == Child(c, Key("name"))
      && Child(c, Key("env")).Some? && Child(c, Key("env")).value.Arr?
      && Child(c', Key("env")).Some? && Child(c', Key("env")).value.Arr?
      && var env, env' := Child(c, Key("env")).value.items, Child(c', Key("env")).value.items;
        && |env'| == |env|
        && (forall k | 0 <= k < |env| :: Child(env'[k], Key("name")) == Child(env[k], Key("name")))
  {
    var rest: Path := [At(v), Key("value")];
    assert [Key("env"), At(v), Key("value")][1..] == rest;
    var env := Child(c, Key("env")).value;
    assert Get(env, rest).Some?;
    TwoTokens(env, At(v), Key("value"), x);
    assert Put(env, rest, x) == Arr(env.items[v := WithChild(env.items[v], Key("value"), x)]);
  }

  /** Exchanging the value of a variable changes nothing about where variables are found. */
  lemma PutKeepsFind(d: Json, list: string, c: nat, v: nat, x: Json, target: Target)
    requires Get(d, ValuePath(list, c, v)).Some?
    ensures Find(Put(d, ValuePath(list, c, v), x), target) == Find(d, target)
  {
    var path := ValuePath(list, c, v);
    var inner: Path := [At(c), Key("env"), At(v), Key("value")];
    assert path == ListPath(list) + inner;
    var d' := Put(d, path, x);
    if target.list != list {
      assert Apart([Key(list)] + inner, [Key(target.list)]);
      ApartAfter(POD_SPEC, [Key(list)] + inner, [Key(target.list)]);
      assert POD_SPEC + ([Key(list)] + inner) == path;
      GetElsewhere(d, path, ListPath(target.list), x);
    } else {
      ListWithValue(d, list, c, v, x);
      var items, items' := ItemsOf(d, ListPath(list)).value, ItemsOf(d', ListPath(list)).value;
      FirstNamedByNames(items, items', target.container, 0);
      match FirstNamed(items, target.container, 0)
      case None =>
      case Some(found) =>
        if found == c {
          FirstNamedByNames(Child(items[c], Key("env")).value.items, Child(items'[c], Key("env")).value.items,
                            target.variable, 0);
        }
    }
  }

  lemma ListWithValue(d: Json, list: string, c: nat, v: nat, x: Json)
    requires Get(d, ValuePath(list, c, v)).Some?
    ensures var d' := Put(d, ValuePath(list, c, v), x);
      && ItemsOf(d, ListPath(list)).Some? && ItemsOf(d', ListPath(list)).Some?
      && var items, items' := ItemsOf(d, ListPath(list)).value, ItemsOf(d', ListPath(list)).value;
        && c < |items| == |items'| && items' == items[c := items'[c]]
        && Child(items'[c], Key("name")) == Child(items[c], Key("name"))
        && Child(items[c], Key("env")).Some? && Child(items[c], Key("env")).value.Arr?
        && Child(items'[c], Key("env")).Some? && Child(items'[c], Key("env")).value.Arr?
        && var env, env' := Child(items[c], Key("env")).value.items, Child(items'[c], Key("env")).value.items;
          && |env'| == |env|
          && (forall k | 0 <= k < |env| :: Child(env'[k], Key("name")) == Child(env[k], Key("name")))
  {
    var rest: Path := [Key("env"), At(v), Key("value")];
    var inner := [At(c)] + rest;
    assert ValuePath(list, c, v) == ListPath(list) + inner;
    GetThrough(d, ListPath(list), inner);
    var xs := Get(d, ListPath(list)).value;
    assert inner[1..] == rest;
    assert Child(xs, At(c)).Some? && Get(xs.items[c], rest).Some?;
    PutThrough(d, ListPath(list), inner, x);
    assert Put(xs, inner, x) == Arr(xs.items[c := Put(xs.items[c], rest, x)]);
    GetPut(d, ListPath(list), Put(xs, inner, x));
    ValueInContainer(xs.items[c], v, x);
  }

  /** All the operations go to values of variables. */
  ghost predicate OnValues(ops: seq<Op>) {
    forall k | 0 <= k < |ops| :: ops[k].Replace? && exists list, c, v :: ops[k].path == ValuePath(list, c, v)
  }

  lemma {:induction false} RunKeepsFind(d: Json, ops: seq<Op>, target: Target)
    requires OnValues(ops) && ApplyAll(d, ops).Some?
    ensures Find(ApplyAll(d, ops).value, target) == Find(d, target)
    decreases |ops|
  {
    hide Find, ValuePath;
    if ops != [] {
      var op := ops[0];
      ReplaceIsPut(d, op.path, op.value);
      var list, c, v :| op.path == ValuePath(list, c, v);
      PutKeepsFind(d, list, c, v, op.value, target);
      assert forall k | 0 <= k < |ops[1..]| :: ops[1..][k] == ops[k + 1];
      RunKeepsFind(Put(d, op.path, op.value), ops[1..], target);
    }
  }

  lemma PatchesOnValues(d: Json, targets: seq<Target>)
    requires DistinctTargets(targets)
    ensures OnValues(PatchesFor(d, targets))
  {
    PatchesIndependent(d, targets);
    var ops := PatchesFor(d, targets);
    forall i | 0 <= i < |ops|
      ensures ops[i].Replace? && exists list, c, v :: ops[i].path == ValuePath(list, c, v)
    {
      assert ops[i] in ops;
      var k :| 0 <= k < |targets| && OpFor(d, targets[k], ops[i]);
      var indices := Indices(d, targets[k]);
    }
  }

  lemma {:induction false} PatchesByFind(d: Json, d': Json, targets: seq<Target>)
    requires forall k | 0 <= k < |targets| :: Find(d', targets[k]) == Find(d, targets[k])
    ensures PatchesFor(d', targets) == PatchesFor(d, targets)
  {
    hide Find;
    if targets != [] {
      var n := |targets| - 1;
      assert forall k | 0 <= k < n :: targets[..n][k] == targets[k];
      PatchesByFind(d, d', targets[..n]);
    }
  }

  lemma {:induction false} ReplacesAgain(d: Json, ops: seq<Op>)
    requires Replaces(ops) && forall k | 0 <= k < |ops| :: Get(d, ops[k].path) == Some(ops[k].value)
    ensures ApplyAll(d, ops) == Some(d)
    decreases |ops|
  {
    if ops != [] {
      ReplaceIsPut(d, ops[0].path, ops[0].value);
      PutSame(d, ops[0].path);
      ReplacesAgain(d, ops[1..]);
    }
  }

  /** Generating the operations again from the result gives the same ones, and they change nothing more. */
  lemma RenewalIsIdempotent(d: Json, t: RenkuTokens, ops: seq<Op>, d': Json)
    requires Patches(d, t) == Ok(ops) && ApplyAll(d, ops) == Some(d')
    ensures Patches(d', t) == Ok(ops) && ApplyAll(d', ops) == Some(d')
  {
    hide Find;
    var targets := Targets(t);
    PatchesIndependent(d, targets);
    PatchesOnValues(d, targets);
    forall k | 0 <= k < |targets|
      ensures Find(d', targets[k]) == Find(d, targets[k])
    {
      RunKeepsFind(d, ops, targets[k]);
    }
    PatchesByFind(d, d', targets);
    ReplacesSucceedIff(d, ops);
    ReplacesSet(d, ops);
    ReplacesAgain(d', ops);
  }

  // --------------------------------------------------------- nothing old stays

  /** The variable v of container c has the names that the target asks for. */
  ghost predicate Means(d: Json, target: Target, c: nat, v: nat) {
    var items := ItemsOf(d, ListPath(target.list));
    && items.Some? && c < |items.value| && Named(items.value[c], target.container)
    && var env := Child(items.value[c], Key("env"));
       env.Some? && env.value.Arr? && v < |env.value.items| && Named(env.value.items[v], target.variable)
  }

  /** No variable but the one that is found has these names. */
  ghost predicate Sole(d: Json, target: Target) {
    forall c: nat, v: nat | Means(d, target, c, v) :: Find(d, target) == Ok(Some(ValuePath(target.list, c, v)))
  }

  // ------------------------------------------------------- variables by their places

  function ContainerName(d: Json, list: string, c: nat): Option<Json> {
    Get(d, [Key("spec"), Key("template"), Key("spec"), Key(list), At(c), Key("name")])
  }

  /** The name or the value of a variable. */
  function Variable(d: Json, list: string, c: nat, v: nat, field: string): Option<Json> {
    Get(d, [Key("spec"), Key("template"), Key("spec"), Key(list), At(c), Key("env"), At(v), Key(field)])
  }

  ghost predicate IsVariable(d: Json, list: string, container: string, variable: string, c: nat, v: nat) {
    ContainerName(d, list, c) == Some(Str(container)) && Variable(d, list, c, v, "name") == Some(Str(variable))
  }

  /** The first variable of the name, in the first container of the name. */
  ghost predicate IsFirst(d: Json, list: string, container: string, variable: string, c: nat, v: nat) {
    && IsVariable(d, list, container, variable, c, v)
    && (forall j: nat | j < c :: ContainerName(d, list, j) != Some(Str(container)))
    && (forall j: nat | j < v :: Variable(d, list, c, j, "name") != Some(Str(variable)))
  }

  ghost predicate AllHold(d: Json, list: string, container: string, variable: string, token: string) {
    forall c: nat, v: nat | IsVariable(d, list, container, variable, c, v) ::
      Variable(d, list, c, v, "value") == Some(Str(token))
  }

  /** Every variable with the name of a token, in a container of its name, holds the new token. */
  ghost predicate AllNew(d: Json, t: RenkuTokens) {
    && AllHold(d, "containers", "git-proxy", "GIT_PROXY_RENKU_ACCESS_TOKEN", t.access)
    && AllHold(d, "containers", "git-proxy", "GIT_PROXY_RENKU_REFRESH_TOKEN", t.refresh)
    && AllHold(d, "initContainers", "git-clone", "GIT_CLONE_USER__RENKU_TOKEN", t.access)
    && AllHold(d, "initContainers", "init-user-secrets", "RENKU_ACCESS_TOKEN", t.access)
  }

  lemma ItemAt(d: Json, list: string, c: nat)
    ensures Get(d, ListPath(list) + [At(c)]) ==
      if ItemsOf(d, ListPath(list)).Some? && c < |ItemsOf(d, ListPath(list)).value|
      then Some(ItemsOf(d, ListPath(list)).value[c]) else None
  {
    GetThrough(d, ListPath(list), [At(c)]);
    if Get(d, ListPath(list)).Some? {
      OneToken(Get(d, ListPath(list)).value, At(c), Null);
    }
  }

  lemma MeansIs(d: Json, target: Target, c: nat, v: nat)
    ensures Means(d, target, c, v) <==> IsVariable(d, target.list, target.container, target.variable, c, v)
    ensures Variable(d, target.list, c, v, "value") == Get(d, ValuePath(target.list, c, v))
  {
    var list := ListPath(target.list);
    var item := list + [At(c)];
    ItemAt(d, target.list, c);
    assert item + [Key("name")]
      == [Key("spec"), Key("template"), Key("spec"), Key(target.list), At(c), Key("name")];
    assert item + [Key("env"), At(v), Key("name")]
      == [Key("spec"), Key("template"), Key("spec"), Key(target.list), At(c), Key("env"), At(v), Key("name")];
    assert ValuePath(target.list, c, v)
      == [Key("spec"), Key("template"), Key("spec"), Key(target.list), At(c), Key("env"), At(v), Key("value")];
    GetThrough(d, item, [Key("name")]);
    GetThrough(d, item, [Key("env"), At(v), Key("name")]);
    if Get(d, item).Some? {
      OneToken(Get(d, item).value, Key("name"), Null);
      ThreeTokens(Get(d, item).value, [Key("env"), At(v), Key("name")]);
    }
  }

  /** The search finds the first variable of the name in the first container of the name. */
  lemma FirstIsFound(d: Json, target: Target, c: nat, v: nat)
    requires IsFirst(d, target.list, target.container, target.variable, c, v)
    ensures Find(d, target) == Ok(Some(ValuePath(target.list, c, v)))
  {
    MeansIs(d, target, c, v);
    var items := ItemsOf(d, ListPath(target.list)).value;
    forall j: nat | j < c
      ensures !Named(items[j], target.container)
    {
      ItemNameIs(d, target.list, j);
    }
    var env := Child(items[c], Key("env")).value.items;
    forall j: nat | j < v
      ensures !Named(env[j], target.variable)
    {
      MeansIs(d, target, c, j);
    }
    assert FirstNamed(items, target.container, 0) == Some(c);
    assert FirstNamed(env, target.variable, 0) == Some(v);
  }

  lemma ItemNameIs(d: Json, list: string, c: nat)
    requires ItemsOf(d, ListPath(list)).Some? && c < |ItemsOf(d, ListPath(list)).value|
    ensures ContainerName(d, list, c) == Child(ItemsOf(d, ListPath(list)).value[c], Key("name"))
  {
    ItemAt(d, list, c);
    var item := ListPath(list) + [At(c)];
    assert item + [Key("name")] == [Key("spec"), Key("template"), Key("spec"), Key(list), At(c), Key("name")];
    GetThrough(d, item, [Key("name")]);
    OneToken(Get(d, item).value, Key("name"), Null);
  }

  /** The first variable of each name, in the first container of its name, gets its new token. */
  lemma FirstIsRenewed(d: Json, t: RenkuTokens, ops: seq<Op>, d': Json, c: nat, v: nat)
    requires Patches(d, t) == Ok(ops) && ApplyAll(d, ops) == Some(d')
    ensures IsFirst(d, "containers", "git-proxy", "GIT_PROXY_RENKU_ACCESS_TOKEN", c, v) ==>
              Variable(d', "containers", c, v, "value") == Some(Str(t.access))
    ensures IsFirst(d, "containers", "git-proxy", "GIT_PROXY_RENKU_REFRESH_TOKEN", c, v) ==>
              Variable(d', "containers", c, v, "value") == Some(Str(t.refresh))
    ensures IsFirst(d, "initContainers", "git-clone", "GIT_CLONE_USER__RENKU_TOKEN", c, v) ==>
              Variable(d', "initContainers", c, v, "value") == Some(Str(t.access))
    ensures IsFirst(d, "initContainers", "init-user-secrets", "RENKU_ACCESS_TOKEN", c, v) ==>
              Variable(d', "initContainers", c, v, "value") == Some(Str(t.access))
  {
    hide Find, ValuePath, IsFirst, Variable, HoldLiterals, Patches;
    TokensAreRenewed(d, t, ops);
    forall k | 0 <= k < 4 && IsFirst(d, Targets(t)[k].list, Targets(t)[k].container, Targets(t)[k].variable, c, v)
      ensures Variable(d', Targets(t)[k].list, c, v, "value") == Some(Str(Targets(t)[k].value))
    {
      FirstIsFound(d, Targets(t)[k], c, v);
      MeansIs(d', Targets(t)[k], c, v);
    }
    TargetsAre(t);
  }

  lemma TargetsAre(t: RenkuTokens)
    ensures Targets(t)[0] == Target("containers", "git-proxy", "GIT_PROXY_RENKU_ACCESS_TOKEN", t.access)
    ensures Targets(t)[1] == Target("containers", "git-proxy", "GIT_PROXY_RENKU_REFRESH_TOKEN", t.refresh)
    ensures Targets(t)[2] == Target("initContainers", "git-clone", "GIT_CLONE_USER__RENKU_TOKEN", t.access)
    ensures Targets(t)[3] == Target("initContainers", "init-user-secrets", "RENKU_ACCESS_TOKEN", t.access)
  {
  }

  lemma PutKeepsMeans(d: Json, list: string, c: nat, v: nat, x: Json, target: Target, c': nat, v': nat)
    requires Get(d, ValuePath(list, c, v)).Some?
    ensures Means(Put(d, ValuePath(list, c, v), x), target, c', v') <==> Means(d, target, c', v')
  {
    var path := ValuePath(list, c, v);
    if target.list != list {
      var inner: Path := [Key(list), At(c), Key("env"), At(v), Key("value")];
      assert path == POD_SPEC + inner;
      ApartAfter(POD_SPEC, inner, [Key(target.list)]);
      GetElsewhere(d, path, ListPath(target.list), x);
    } else {
      ListWithValue(d, list, c, v, x);
    }
  }

  lemma {:induction false} RunKeepsMeans(d: Json, ops: seq<Op>, target: Target, c: nat, v: nat)
    requires OnValues(ops) && ApplyAll(d, ops).Some?
    ensures Means(ApplyAll(d, ops).value, target, c, v) <==> Means(d, target, c, v)
    decreases |ops|
  {
    hide Means, ValuePath;
    if ops != [] {
      var op := ops[0];
      ReplaceIsPut(d, op.path, op.value);
      var list, c', v' :| op.path == ValuePath(list, c', v');
      PutKeepsMeans(d, list, c', v', op.value, target, c, v);
      assert forall k | 0 <= k < |ops[1..]| :: ops[1..][k] == ops[k + 1];
      RunKeepsMeans(Put(d, op.path, op.value), ops[1..], target, c, v);
    }
  }

  /** Where the variables that are found are the only ones of their names, none of them keeps an old token. */
  lemma NothingOldStays(d: Json, t: RenkuTokens, ops: seq<Op>, d': Json)
    requires Patches(d, t) == Ok(ops) && ApplyAll(d, ops) == Some(d')
    requires forall k | 0 <= k < 4 :: Sole(d, Targets(t)[k])
    ensures AllNew(d', t)
  {
    hide Find, Means, ValuePath, Independent;
    var targets := Targets(t);
    PatchesOnValues(d, targets);
    TokensAreRenewed(d, t, ops);
    forall k, c: nat, v: nat
      | 0 <= k < 4 && IsVariable(d', targets[k].list, targets[k].container, targets[k].variable, c, v)
      ensures Variable(d', targets[k].list, c, v, "value") == Some(Str(targets[k].value))
    {
      MeansIs(d', targets[k], c, v);
      RunKeepsMeans(d, ops, targets[k], c, v);
      assert Sole(d, targets[k]);
    }
    TargetsAre(t);
  }

  /** The operations, one append after the other. */
  method GetStatefulsetTokenPatches(sts: Json, t: RenkuTokens) returns (r: Result<seq<Op>, string>)
    ensures r == Patches(sts, t)
  {
    hide Find, Targets;
    var targets := Targets(t);
    var found: seq<Option<Path>> := [];
    for k := 0 to |targets|
      invariant |found| == k
      invariant forall j | 0 <= j < k :: Find(sts, targets[j]) == Ok(found[j])
    {
      var place := Find(sts, targets[k]);
      if place.Err? {
        assert !Readable(sts, targets);
        return Err("TypeError");
      }
      found := found + [place.value];
    }
    var patches: seq<Op> := [];
    for k := 0 to |targets|
      invariant patches == PatchesFor(sts, targets[..k])
    {
      assert targets[..k + 1][..k] == targets[..k];
      if found[k].Some? {
        patches := patches + [Replace(found[k].value, Str(targets[k].value))];
      }
    }
    assert targets[..|targets|] == targets;
    r := Ok(patches);
  }

  /** No list has two containers of one name, and no environment two variables of one name. */
  ghost predicate NoDoubles(d: Json) {
    && (forall list, c: nat, c': nat ::
          ContainerName(d, list, c).Some? && ContainerName(d, list, c) == ContainerName(d, list, c') ==> c == c')
    && (forall list, c: nat, v: nat, v': nat ::
          Variable(d, list, c, v, "name").Some? && Variable(d, list, c, v, "name") == Variable(d, list, c, v', "name")
          ==> v == v')
  }

  /** Where no names occur twice, no variable of these names keeps an old token. */
  lemma DistinctNamesSuffice(d: Json, t: RenkuTokens, ops: seq<Op>, d': Json)
    requires Patches(d, t) == Ok(ops) && ApplyAll(d, ops) == Some(d') && NoDoubles(d)
    ensures AllNew(d', t)
  {
    hide Find, ValuePath, Variable, ContainerName, AllNew, Means;
    forall k, c: nat, v: nat | 0 <= k < 4 && Means(d, Targets(t)[k], c, v)
      ensures Find(d, Targets(t)[k]) == Ok(Some(ValuePath(Targets(t)[k].list, c, v)))
    {
      MeansIs(d, Targets(t)[k], c, v);
      FirstIsFound(d, Targets(t)[k], c, v);
    }
    NothingOldStays(d, t, ops, d');
  }
}
