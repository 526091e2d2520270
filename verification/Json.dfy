/**
 JSON documents, and the part of JSON Patch (RFC 6902) that the service uses: add, remove, replace
 and test, sections 4.1, 4.2, 4.3 and 4.6.  A JSON pointer is a sequence of tokens that are already split
 into member names, array indices and the "-" that stands for the end of an array.
 */
module Json {
  import opened Prelude

  datatype Json =
    | Null
    | Bool(flag: bool)
    | Num(number: int)
    | Str(text: string)
    | Arr(items: seq<Json>)
    | Obj(members: map<string, Json>)

  datatype Token = Key(name: string) | At(index: nat) | End

  type Path = seq<Token>

  datatype Op =
    | Add(path: Path, value: Json)
    | Remove(path: Path)
    | Replace(path: Path, value: Json)
    | Test(path: Path, value: Json)

  // ---------------------------------------------------------------- reading

  function Child(d: Json, token: Token): Option<Json> {
    match token
    case Key(name) => if d.Obj? && name in d.members then Some(d.members[name]) else None
    case At(index) => if d.Arr? && index < |d.items| then Some(d.items[index]) else None
    case End => None
  }

  function Get(d: Json, path: Path): Option<Json>
    decreases |path|
  {
    if path == [] then Some(d)
    else
      match Child(d, path[0])
      case None => None
      case Some(x) => Get(x, path[1..])
  }

  // ---------------------------------------------------------------- editing

  function WithChild(d: Json, token: Token, x: Json): Json
    requires Child(d, token).Some?
  {
    match token
    case Key(name) => Obj(d.members[name := x])
    case At(index) => Arr(d.items[index := x])
  }

  /** Add at a location inside d: a member is set, an array element is inserted or appended. */
  function AddHere(d: Json, token: Token, x: Json): Option<Json> {
    match token
    case Key(name) => if d.Obj? then Some(Obj(d.members[name := x])) else None
    case At(index) =>
      if d.Arr? && index <= |d.items| then Some(Arr(d.items[..index] + [x] + d.items[index..])) else None
    case End => if d.Arr? then Some(Arr(d.items + [x])) else None
  }

  function ApplyAdd(d: Json, path: Path, x: Json): Option<Json>
    decreases |path|
  {
    if path == [] then Some(x)
    else if |path| == 1 then AddHere(d, path[0], x)
    else
      match Child(d, path[0])
      case None => None
      case Some(inner) =>
        match ApplyAdd(inner, path[1..], x)
        case None => None
        case Some(inner') => Some(WithChild(d, path[0], inner'))
  }

  /** Remove at a location inside d, which must exist. */
  function RemoveHere(d: Json, token: Token): Json
    requires Child(d, token).Some?
  {
    match token
    case Key(name) => Obj(d.members - {name})
    case At(index) => Arr(d.items[..index] + d.items[index + 1..])
  }

  function ApplyRemove(d: Json, path: Path): Option<Json>
    decreases |path|
  {
    if path == [] then None
    else
      match Child(d, path[0])
      case None => None
      case Some(inner) =>
        if |path| == 1 then Some(RemoveHere(d, path[0]))
        else
          match ApplyRemove(inner, path[1..])
          case None => None
          case Some(inner') => Some(WithChild(d, path[0], inner'))
  }

  function ApplyReplace(d: Json, path: Path, x: Json): Option<Json>
    decreases |path|
  {
    if path == [] then Some(x)
    else
      match Child(d, path[0])
      case None => None
      case Some(inner) =>
        match ApplyReplace(inner, path[1..], x)
        case None => None
        case Some(inner') => Some(WithChild(d, path[0], inner'))
  }

  function Apply(d: Json, op: Op): Option<Json> {
    match op
    case Add(path, x) => ApplyAdd(d, path, x)
    case Remove(path) => ApplyRemove(d, path)
    case Replace(path, x) => ApplyReplace(d, path, x)
    case Test(path, x) => if Get(d, path) == Some(x) then Some(d) else None
  }

  /** Operations apply in order; the first failure fails the whole patch. */
  function ApplyAll(d: Json, ops: seq<Op>): Option<Json>
    decreases |ops|
  {
    if ops == [] then Some(d)
    else
      match Apply(d, ops[0])
      case None => None
      case Some(d') => ApplyAll(d', ops[1..])
  }

  lemma {:induction false} ApplyAllThen(d: Json, a: seq<Op>, b: seq<Op>)
    ensures ApplyAll(d, a + b) == match ApplyAll(d, a) case None => None case Some(d') => ApplyAll(d', b)
    decreases |a|
  {
    if a == [] {
      assert a + b == b;
    } else {
      assert (a + b)[1..] == a[1..] + b;
      match Apply(d, a[0])
      case None =>
      case Some(d') => ApplyAllThen(d', a[1..], b);
    }
  }

  // ------------------------------------------------------------------- laws

  /** The document with the value at an existing location exchanged. */
  function Put(d: Json, path: Path, x: Json): Json
    requires Get(d, path).Some?
    decreases |path|
  {
    if path == [] then x
    else WithChild(d, path[0], Put(Child(d, path[0]).value, path[1..], x))
  }

  lemma OneToken(d: Json, t: Token, x: Json)
    ensures Get(d, [t]) == Child(d, t)
    ensures Child(d, t).Some? ==> Put(d, [t], x) == WithChild(d, t, x)
  {
    assert [t][1..] == [];
  }

  lemma TwoTokens(d: Json, s: Token, t: Token, x: Json)
    ensures Get(d, [s, t]) == if Child(d, s).Some? then Child(Child(d, s).value, t) else None
    ensures Get(d, [s, t]).Some? ==> Put(d, [s, t], x) == WithChild(d, s, WithChild(Child(d, s).value, t, x))
  {
    assert [s, t][1..] == [t];
    if Child(d, s).Some? {
      OneToken(Child(d, s).value, t, x);
    }
  }

  lemma ThreeTokens(d: Json, path: Path)
    requires |path| == 3
    ensures Get(d, path) ==
      if Child(d, path[0]).Some? && Child(Child(d, path[0]).value, path[1]).Some?
      then Child(Child(Child(d, path[0]).value, path[1]).value, path[2]) else None
  {
    if Child(d, path[0]).Some? {
      assert path[1..] == [path[1], path[2]];
      TwoTokens(Child(d, path[0]).value, path[1], path[2], Null);
    }
  }

  lemma {:induction false} GetPut(d: Json, path: Path, x: Json)
    requires Get(d, path).Some?
    ensures Get(Put(d, path, x), path) == Some(x)
    decreases |path|
  {
    if path != [] {
      GetPut(Child(d, path[0]).value, path[1..], x);
    }
  }

  lemma {:induction false} PutPut(d: Json, path: Path, x: Json, y: Json)
    requires Get(d, path).Some? && Get(Put(d, path, x), path).Some?
    ensures Put(Put(d, path, x), path, y) == Put(d, path, y)
    decreases |path|
  {
    if path != [] {
      var inner := Child(d, path[0]).value;
      PutPut(inner, path[1..], x, y);
      WithChildTwice(d, path[0], Put(inner, path[1..], x), Put(inner, path[1..], y));
    }
  }

  lemma WithChildTwice(d: Json, token: Token, x: Json, y: Json)
    requires Child(d, token).Some?
    ensures Child(WithChild(d, token, x), token) == Some(x)
    ensures WithChild(WithChild(d, token, x), token, y) == WithChild(d, token, y)
  {
    match token
    case Key(name) => assert d.members[name := x][name := y] == d.members[name := y];
    case At(index) => assert d.items[index := x][index := y] == d.items[index := y];
  }

  lemma {:induction false} GetThrough(d: Json, p: Path, q: Path)
    ensures Get(d, p + q) == match Get(d, p) case None => None case Some(x) => Get(x, q)
    decreases |p|
  {
    if p == [] {
      assert p + q == q;
    } else {
      assert (p + q)[1..] == p[1..] + q;
      match Child(d, p[0])
      case None =>
      case Some(x) => GetThrough(x, p[1..], q);
    }
  }

  lemma {:induction false} PutThrough(d: Json, p: Path, q: Path, x: Json)
    requires Get(d, p).Some? && Get(Get(d, p).value, q).Some?
    ensures Get(d, p + q).Some? && Put(d, p + q, x) == Put(d, p, Put(Get(d, p).value, q, x))
    decreases |p|
  {
    GetThrough(d, p, q);
    if p == [] {
      assert p + q == q;
    } else {
      assert (p + q)[1..] == p[1..] + q;
      PutThrough(Child(d, p[0]).value, p[1..], q, x);
    }
  }

  /** Two locations neither of which lies inside the other. */
  predicate Apart(p: Path, q: Path)
    decreases |p|
  {
    p != [] && q != [] && (p[0] != q[0] || Apart(p[1..], q[1..]))
  }

  lemma {:induction false} ApartSymmetric(p: Path, q: Path)
    requires Apart(p, q)
    ensures Apart(q, p)
    decreases |p|
  {
    if p[0] == q[0] {
      ApartSymmetric(p[1..], q[1..]);
    }
  }

  lemma {:induction false} ApartAfter(prefix: Path, p: Path, q: Path)
    requires Apart(p, q)
    ensures Apart(prefix + p, prefix + q)
    decreases |prefix|
  {
    if prefix == [] {
      assert prefix + p == p && prefix + q == q;
    } else {
      assert (prefix + p)[1..] == prefix[1..] + p && (prefix + q)[1..] == prefix[1..] + q;
      ApartAfter(prefix[1..], p, q);
    }
  }

  /** Changing one location leaves every location apart from it as it was. */
  lemma {:induction false} GetElsewhere(d: Json, p: Path, q: Path, x: Json)
    requires Get(d, p).Some? && Apart(p, q)
    ensures Get(Put(d, p, x), q) == Get(d, q)
    decreases |p|
  {
    if p[0] == q[0] {
      GetElsewhere(Child(d, p[0]).value, p[1..], q[1..], x);
    }
  }

  /** Changes to two locations that are apart commute. */
  lemma {:induction false} PutsCommute(d: Json, p: Path, q: Path, x: Json, y: Json)
    requires Get(d, p).Some? && Get(d, q).Some? && Apart(p, q)
    ensures Get(Put(d, p, x), q).Some? && Get(Put(d, q, y), p).Some?
    ensures Put(Put(d, p, x), q, y) == Put(Put(d, q, y), p, x)
    decreases |p|
  {
    ApartSymmetric(p, q);
    GetElsewhere(d, p, q, x);
    GetElsewhere(d, q, p, y);
    if p[0] == q[0] {
      var inner := Child(d, p[0]).value;
      PutsCommute(inner, p[1..], q[1..], x, y);
      var xy := Put(Put(inner, p[1..], x), q[1..], y);
      WithChildTwice(d, p[0], Put(inner, p[1..], x), xy);
      WithChildTwice(d, p[0], Put(inner, q[1..], y), xy);
    } else {
      WithChildrenCommute(d, p[0], q[0], Put(Child(d, p[0]).value, p[1..], x), Put(Child(d, q[0]).value, q[1..], y));
    }
  }

  lemma WithChildrenCommute(d: Json, s: Token, t: Token, x: Json, y: Json)
    requires s != t && Child(d, s).Some? && Child(d, t).Some?
    ensures Child(WithChild(d, s, x), t) == Child(d, t) && Child(WithChild(d, t, y), s) == Child(d, s)
    ensures WithChild(WithChild(d, s, x), t, y) == WithChild(WithChild(d, t, y), s, x)
  {
    if s.Key? && t.Key? {
      assert d.members[s.name := x][t.name := y] == d.members[t.name := y][s.name := x];
    } else if s.At? && t.At? {
      assert d.items[s.index := x][t.index := y] == d.items[t.index := y][s.index := x];
    }
  }

  /** Replace succeeds exactly on an existing location, and changes that location alone. */
  lemma {:induction false} ReplaceIsPut(d: Json, path: Path, x: Json)
    ensures ApplyReplace(d, path, x) == if Get(d, path).Some? then Some(Put(d, path, x)) else None
    decreases |path|
  {
    if path != [] && Child(d, path[0]).Some? {
      ReplaceIsPut(Child(d, path[0]).value, path[1..], x);
    }
  }

  /** Add works inside the value at the parent location, and changes that value alone. */
  lemma {:induction false} AddIsPut(d: Json, parent: Path, token: Token, x: Json)
    ensures ApplyAdd(d, parent + [token], x) ==
      match Get(d, parent)
      case None => None
      case Some(inner) =>
        match AddHere(inner, token, x) case None => None case Some(inner') => Some(Put(d, parent, inner'))
    decreases |parent|
  {
    if parent == [] {
      assert parent + [token] == [token];
    } else {
      assert (parent + [token])[1..] == parent[1..] + [token];
      match Child(d, parent[0])
      case None =>
      case Some(inner) => AddIsPut(inner, parent[1..], token, x);
    }
  }

  /** Removing a member leaves every location apart from it as it was. */
  lemma {:induction false} RemoveElsewhere(d: Json, p: Path, q: Path)
    requires ApplyRemove(d, p).Some? && p[|p| - 1].Key? && Apart(p, q)
    ensures Get(ApplyRemove(d, p).value, q) == Get(d, q)
    decreases |p|
  {
    if |p| > 1 && p[0] == q[0] {
      RemoveElsewhere(Child(d, p[0]).value, p[1..], q[1..]);
    }
  }

  /** A member can be removed exactly where it is, and then it is there no more. */
  lemma {:induction false} RemovedIsGone(d: Json, p: Path)
    requires p != [] && p[|p| - 1].Key?
    ensures ApplyRemove(d, p).Some? <==> Get(d, p).Some?
    ensures ApplyRemove(d, p).Some? ==> Get(ApplyRemove(d, p).value, p).None?
    decreases |p|
  {
    if Child(d, p[0]).Some? {
      if |p| == 1 {
        OneToken(d, p[0], Null);
        assert p == [p[0]];
      } else {
        RemovedIsGone(Child(d, p[0]).value, p[1..]);
      }
    }
  }

  /** One append operation for each value. */
  function Appends(path: Path, values: seq<Json>): (ops: seq<Op>)
    ensures |ops| == |values|
  {
    if values == [] then [] else [Add(path + [End], values[0])] + Appends(path, values[1..])
  }

  /** A run of appends extends the array by the values, in order; it needs an array to be there. */
  lemma {:induction false} AppendsExtend(d: Json, path: Path, values: seq<Json>)
    requires Get(d, path).Some? && Get(d, path).value.Arr?
    ensures ApplyAll(d, Appends(path, values)) == Some(Put(d, path, Arr(Get(d, path).value.items + values)))
    decreases |values|
  {
    var items := Get(d, path).value.items;
    if values == [] {
      assert items + values == items;
      PutSame(d, path);
    } else {
      AddIsPut(d, path, End, values[0]);
      var d' := Put(d, path, Arr(items + [values[0]]));
      GetPut(d, path, Arr(items + [values[0]]));
      AppendsExtend(d', path, values[1..]);
      PutPut(d, path, Arr(items + [values[0]]), Arr(items + [values[0]] + values[1..]));
      assert items + [values[0]] + values[1..] == items + values;
      assert Appends(path, values)[1..] == Appends(path, values[1..]);
    }
  }

  lemma {:induction false} PutSame(d: Json, path: Path)
    requires Get(d, path).Some?
    ensures Put(d, path, Get(d, path).value) == d
    decreases |path|
  {
    if path != [] {
      PutSame(Child(d, path[0]).value, path[1..]);
      match path[0]
      case Key(name) => assert d.members[name := d.members[name]] == d.members;
      case At(index) => assert d.items[index := d.items[index]] == d.items;
    }
  }

  /** Without an array at the location the first append fails. */
  lemma AppendNeedsArray(d: Json, path: Path, x: Json)
    requires !(Get(d, path).Some? && Get(d, path).value.Arr?)
    ensures Apply(d, Add(path + [End], x)) == None
  {
    AddIsPut(d, path, End, x);
  }
}
