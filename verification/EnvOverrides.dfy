/**
 The check that no two patches set the same environment variable to different values, and what
 its acceptance is worth: the variables do not depend on the order of the patches.
 */
module EnvOverrides {
  import opened Prelude
  import opened Json
  import opened Text
  import opened SessionPatches

  function LowerToken(t: Token): Token {
    if t.Key? then Key(Lower(t.name)) else t
  }

  function LowerPath(path: Path): (r: Path)
    ensures |r| == |path|
  {
    seq(|path|, k requires 0 <= k < |path| => LowerToken(path[k]))
  }

  /** The lower-cased path ends with "/env/-". */
  predicate AppendsEnv(op: Op) {
    var n := |op.path|;
    n >= 2 && op.path[n - 1] == End && LowerToken(op.path[n - 2]) == Key("env")
  }

  /** The operation has a value with the two members that the check reads. */
  predicate HasNameAndValue(op: Op) {
    !op.Remove? && Child(op.value, Key("name")).Some? && Child(op.value, Key("value")).Some?
  }

  function VarName(op: Op): Json
    requires HasNameAndValue(op)
  {
    Child(op.value, Key("name")).value
  }

  function VarValue(op: Op): Json
    requires HasNameAndValue(op)
  {
    Child(op.value, Key("value")).value
  }

  /** Two operations append the same variable, but for the case of the path, with different values. */
  predicate Clash(a: Op, b: Op) {
    && AppendsEnv(a) && AppendsEnv(b) && HasNameAndValue(a) && HasNameAndValue(b)
    && LowerPath(a.path) == LowerPath(b.path)
    && VarName(a) == VarName(b)
    && VarValue(a) != VarValue(b)
  }

  ghost predicate Clashes(ops: seq<Op>) {
    exists i, j | 0 <= i < |ops| && 0 <= j < |ops| :: Clash(ops[i], ops[j])
  }

  ghost predicate Unreadable(op: Op) {
    AppendsEnv(op) && !HasNameAndValue(op)
  }

  ghost predicate AllReadable(ops: seq<Op>) {
    forall k | 0 <= k < |ops| :: !Unreadable(ops[k])
  }

  // ------------------------------------------------------- the same in characters

  predicate SameLetter(a: char, b: char) {
    a == b || ('A' <= a <= 'Z' && b as int == a as int + 32) || ('A' <= b <= 'Z' && a as int == b as int + 32)
  }

  /** Equal but for the case of ASCII letters. */
  predicate SameText(s: string, t: string) {
    |s| == |t| && forall k | 0 <= k < |s| :: SameLetter(s[k], t[k])
  }

  predicate SameToken(s: Token, t: Token) {
    s == t || (s.Key? && t.Key? && SameText(s.name, t.name))
  }

  predicate SamePath(p: Path, q: Path) {
    |p| == |q| && forall k | 0 <= k < |p| :: SameToken(p[k], q[k])
  }

  /** A variable at the end of an environment, whatever the case of "env". */
  predicate IsEnvAppend(path: Path) {
    var n := |path|;
    n >= 2 && path[n - 1].End? && path[n - 2].Key? && SameText(path[n - 2].name, "env")
  }

  predicate NamesVariable(op: Op, name: Json, value: Json) {
    !op.Remove? && Child(op.value, Key("name")) == Some(name) && Child(op.value, Key("value")) == Some(value)
  }

  /** Two operations give one variable of one environment two values. */
  ghost predicate Conflict(a: Op, b: Op) {
    && IsEnvAppend(a.path) && SamePath(a.path, b.path)
    && exists name, x, y :: NamesVariable(a, name, x) && NamesVariable(b, name, y) && x != y
  }

  lemma LowerSame(s: string, t: string)
    ensures Lower(s) == Lower(t) <==> SameText(s, t)
  {
    if SameText(s, t) {
      assert forall k | 0 <= k < |s| :: SameLetter(s[k], t[k]) && Lower(s)[k] == Lower(t)[k];
    }
    if Lower(s) == Lower(t) {
      forall k | 0 <= k < |s|
        ensures SameLetter(s[k], t[k])
      {
        assert Lower(s)[k] == Lower(t)[k];
        assert Lower(s)[k] == LowerChar(s[k]) && Lower(t)[k] == LowerChar(t[k]);
      }
    }
  }

  lemma LowerTokenSame(s: Token, t: Token)
    ensures LowerToken(s) == LowerToken(t) <==> SameToken(s, t)
  {
    hide Lower, SameText;
    if s.Key? && t.Key? {
      LowerSame(s.name, t.name);
      LowerSame(s.name, s.name);
    }
  }

  lemma LowerPathSame(p: Path, q: Path)
    ensures LowerPath(p) == LowerPath(q) <==> SamePath(p, q)
  {
    hide LowerToken, SameToken;
    forall k | 0 <= k < |p| && k < |q|
      ensures LowerPath(p)[k] == LowerPath(q)[k] <==> SameToken(p[k], q[k])
    {
      LowerTokenSame(p[k], q[k]);
    }
  }

  lemma AppendsEnvIff(op: Op)
    ensures AppendsEnv(op) <==> IsEnvAppend(op.path)
  {
    hide Lower, SameText;
    LowerIsEnv();
    if |op.path| >= 2 && op.path[|op.path| - 2].Key? {
      LowerSame(op.path[|op.path| - 2].name, "env");
    }
  }

  lemma LowerIsEnv()
    ensures Lower("env") == "env"
  {
  }

  lemma ClashIff(a: Op, b: Op)
    ensures Clash(a, b) <==> Conflict(a, b)
  {
    hide IsEnvAppend, AppendsEnv, LowerPath, SamePath;
    AppendsEnvIff(a);
    AppendsEnvIff(b);
    LowerPathSame(a.path, b.path);
    if Clash(a, b) {
      assert NamesVariable(a, VarName(a), VarValue(a)) && NamesVariable(b, VarName(a), VarValue(b));
    }
    if Conflict(a, b) {
      SameAppends(a.path, b.path);
    }
  }

  /** Every variable that is appended to an environment has a name and a value. */
  ghost predicate AllNamed(ops: seq<Op>) {
    forall op | op in ops && IsEnvAppend(op.path) :: exists name, value :: NamesVariable(op, name, value)
  }

  ghost predicate Conflicting(ops: seq<Op>) {
    exists a, b :: a in ops && b in ops && Conflict(a, b)
  }

  lemma UnreadableIff(op: Op)
    ensures Unreadable(op) <==> IsEnvAppend(op.path) && !exists name, value :: NamesVariable(op, name, value)
  {
    hide IsEnvAppend, AppendsEnv;
    AppendsEnvIff(op);
    if HasNameAndValue(op) {
      assert NamesVariable(op, VarName(op), VarValue(op));
    }
  }

  lemma AllNamedIff(ops: seq<Op>)
    ensures AllReadable(ops) <==> AllNamed(ops)
  {
    hide Unreadable, IsEnvAppend, NamesVariable;
    forall k | 0 <= k < |ops|
      ensures Unreadable(ops[k])
         <==> IsEnvAppend(ops[k].path) && !exists name, value :: NamesVariable(ops[k], name, value)
    {
      UnreadableIff(ops[k]);
    }
  }

  lemma ConflictingIff(ops: seq<Op>)
    ensures Clashes(ops) <==> Conflicting(ops)
  {
    hide Clash, Conflict;
    forall a, b
      ensures Clash(a, b) <==> Conflict(a, b)
    {
      ClashIff(a, b);
    }
    if Conflicting(ops) {
      var a, b :| a in ops && b in ops && Conflict(a, b);
      var i :| 0 <= i < |ops| && ops[i] == a;
      var j :| 0 <= j < |ops| && ops[j] == b;
      assert Clash(ops[i], ops[j]);
    }
    if Clashes(ops) {
      var i, j :| 0 <= i < |ops| && 0 <= j < |ops| && Clash(ops[i], ops[j]);
      assert ops[i] in ops && ops[j] in ops && Conflict(ops[i], ops[j]);
    }
  }

  lemma SameAppends(p: Path, q: Path)
    requires IsEnvAppend(p) && SamePath(p, q)
    ensures IsEnvAppend(q)
  {
    var n := |p|;
    assert SameToken(p[n - 1], q[n - 1]) && SameToken(p[n - 2], q[n - 2]);
    SameTextThrough(p[n - 2].name, q[n - 2].name, "env");
  }

  lemma SameTextThrough(s: string, t: string, u: string)
    requires SameText(s, u) && SameText(s, t)
    ensures SameText(t, u)
  {
    hide Lower;
    LowerSame(s, t);
    LowerSame(s, u);
    LowerSame(t, u);
  }

  datatype Verdict = Accepted | Duplicate | MissingKey

  /** What the dictionary of the check holds: for each variable the value of the operations so far. */
  ghost predicate Tracks(vars: map<(Path, Json), Json>, ops: seq<Op>) {
    && (forall k | 0 <= k < |ops| && AppendsEnv(ops[k]) && HasNameAndValue(ops[k]) ::
          var key := (LowerPath(ops[k].path), VarName(ops[k])); key in vars && vars[key] == VarValue(ops[k]))
    && (forall key | key in vars ::
          exists k | 0 <= k < |ops| :: AppendsEnv(ops[k]) && HasNameAndValue(ops[k])
            && key == (LowerPath(ops[k].path), VarName(ops[k])))
    && AllReadable(ops)
  }

  lemma TracksNothing()
    ensures Tracks(map[], [])
  {
  }

  lemma TracksNext(vars: map<(Path, Json), Json>, ops: seq<Op>, op: Op)
    requires Tracks(vars, ops) && AppendsEnv(op) && HasNameAndValue(op)
    requires var key := (LowerPath(op.path), VarName(op)); key in vars ==> vars[key] == VarValue(op)
    ensures Tracks(vars[(LowerPath(op.path), VarName(op)) := VarValue(op)], ops + [op])
  {
    hide LowerPath, AppendsEnv;
    var all := ops + [op];
    var vars' := vars[(LowerPath(op.path), VarName(op)) := VarValue(op)];
    assert all[|ops|] == op;
    forall key | key in vars'
      ensures exists k | 0 <= k < |all| ::
        AppendsEnv(all[k]) && HasNameAndValue(all[k]) && key == (LowerPath(all[k].path), VarName(all[k]))
    {
      if key in vars {
        var k :| 0 <= k < |ops| && AppendsEnv(ops[k]) && HasNameAndValue(ops[k])
          && key == (LowerPath(ops[k].path), VarName(ops[k]));
        assert all[k] == ops[k];
      }
    }
  }

  lemma TracksSkips(vars: map<(Path, Json), Json>, ops: seq<Op>, op: Op)
    requires Tracks(vars, ops) && !AppendsEnv(op)
    ensures Tracks(vars, ops + [op])
  {
    var all := ops + [op];
    forall key | key in vars
      ensures exists k | 0 <= k < |all| ::
        AppendsEnv(all[k]) && HasNameAndValue(all[k]) && key == (LowerPath(all[k].path), VarName(all[k]))
    {
      var k :| 0 <= k < |ops| && AppendsEnv(ops[k]) && HasNameAndValue(ops[k])
        && key == (LowerPath(ops[k].path), VarName(ops[k]));
      assert all[k] == ops[k];
    }
  }

  lemma TracksAccepted(vars: map<(Path, Json), Json>, ops: seq<Op>)
    requires Tracks(vars, ops)
    ensures AllReadable(ops) && !Clashes(ops)
  {
  }

  lemma FoundClash(vars: map<(Path, Json), Json>, done: seq<Op>, op: Op, all: seq<Op>)
    requires Tracks(vars, done) && AppendsEnv(op) && HasNameAndValue(op)
    requires |done| < |all| && all[..|done|] == done && all[|done|] == op
    requires var key := (LowerPath(op.path), VarName(op)); key in vars && vars[key] != VarValue(op)
    ensures Clashes(all)
  {
    var key := (LowerPath(op.path), VarName(op));
    var j :| 0 <= j < |done| && AppendsEnv(done[j]) && HasNameAndValue(done[j])
      && key == (LowerPath(done[j].path), VarName(done[j]));
    assert all[j] == done[j];
    assert Clash(all[j], all[|done|]);
  }

  /**
   The check.  It accepts exactly the patches whose environment operations can all be read and
   never clash; it reports a duplicate only for a clash, and a missing key only for an operation
   without name or value.
   */
  method CheckEnvironmentVariablesOverrides(patches: seq<Patch>) returns (verdict: Verdict)
    ensures verdict.Accepted? <==> AllReadable(Operations(patches)) && !Clashes(Operations(patches))
    ensures verdict.Duplicate? ==> Clashes(Operations(patches))
    ensures verdict.MissingKey? ==> !AllReadable(Operations(patches))
    ensures AllReadable(Operations(patches)) <==> AllNamed(Operations(patches))
    ensures Clashes(Operations(patches)) <==> Conflicting(Operations(patches))
  {
    AllNamedIff(Operations(patches));
    ConflictingIff(Operations(patches));
    hide AppendsEnv, HasNameAndValue, LowerPath, Clashes, VarName, VarValue, Tracks, AllNamed, Conflicting;
    TracksNothing();
    var envVars: map<(Path, Json), Json> := map[];
    for p := 0 to |patches|
      invariant Tracks(envVars, Operations(patches[..p]))
    {
      var patch := patches[p];
      ghost var before := Operations(patches[..p]);
      assert before + patch[..0] == before;
      for k := 0 to |patch|
        invariant Tracks(envVars, before + patch[..k])
      {
        var op := patch[k];
        ghost var done := before + patch[..k];
        OperationAt(patches, p, k);
        if AppendsEnv(op) {
          if !HasNameAndValue(op) {
            return MissingKey;
          }
          var key := (LowerPath(op.path), VarName(op));
          if key in envVars && envVars[key] != VarValue(op) {
            FoundClash(envVars, done, op, Operations(patches));
            return Duplicate;
          }
          TracksNext(envVars, done, op);
          envVars := envVars[key := VarValue(op)];
        } else {
          TracksSkips(envVars, done, op);
        }
        assert done + [op] == before + patch[..k + 1];
      }
      OperationsSnoc(patches, p);
    }
    assert patches[..|patches|] == patches;
    TracksAccepted(envVars, Operations(patches));
    verdict := Accepted;
  }

  lemma OperationsSnoc(patches: seq<Patch>, p: nat)
    requires p < |patches|
    ensures Operations(patches[..p + 1]) == Operations(patches[..p]) + patches[p][..|patches[p]|]
  {
    assert patches[..p + 1] == patches[..p] + [patches[p]];
    OperationsThen(patches[..p], [patches[p]]);
    assert [patches[p]][1..] == [];
  }

  /** The place of an operation among all of them. */
  lemma OperationAt(patches: seq<Patch>, p: nat, k: nat)
    requires p < |patches| && k < |patches[p]|
    ensures var done, all := Operations(patches[..p]) + patches[p][..k], Operations(patches);
      |done| < |all| && all[..|done|] == done && all[|done|] == patches[p][k]
  {
    assert patches == patches[..p] + patches[p..];
    OperationsThen(patches[..p], patches[p..]);
  }

  // ------------------------------------------------------- what acceptance gives

  predicate Sets(op: Op, path: Path, name: Json) {
    AppendsEnv(op) && op.path == path && HasNameAndValue(op) && VarName(op) == name
  }

  /** The value of a variable after all the appends to one environment: the last entry wins. */
  function Effective(ops: seq<Op>, path: Path, name: Json): Option<Json> {
    if ops == [] then None
    else
      var op := ops[|ops| - 1];
      if Sets(op, path, name) then Some(VarValue(op))
      else Effective(ops[..|ops| - 1], path, name)
  }

  lemma {:induction false} EffectiveIsSet(ops: seq<Op>, path: Path, name: Json)
    ensures match Effective(ops, path, name)
      case Some(v) => exists op :: op in ops && Sets(op, path, name) && VarValue(op) == v
      case None => forall op | op in ops :: !Sets(op, path, name)
  {
    if ops != [] {
      var n := |ops| - 1;
      EffectiveIsSet(ops[..n], path, name);
      assert ops == ops[..n] + [ops[n]];
    }
  }

  lemma OneValue(ops: seq<Op>, a: Op, b: Op, path: Path, name: Json)
    requires !Clashes(ops) && a in ops && b in ops && Sets(a, path, name) && Sets(b, path, name)
    ensures VarValue(a) == VarValue(b)
  {
    var i :| 0 <= i < |ops| && ops[i] == a;
    var j :| 0 <= j < |ops| && ops[j] == b;
    assert !Clash(ops[i], ops[j]);
  }

  /** Without clashes, the effective environment is the same for every order of the operations. */
  lemma OrderDoesNotMatter(ops: seq<Op>, ops': seq<Op>, path: Path, name: Json)
    requires multiset(ops) == multiset(ops') && !Clashes(ops)
    ensures Effective(ops', path, name) == Effective(ops, path, name)
  {
    hide AppendsEnv, HasNameAndValue, Clashes, Effective;
    EffectiveIsSet(ops, path, name);
    EffectiveIsSet(ops', path, name);
    assert forall op :: op in ops <==> op in multiset(ops);
    assert forall op :: op in ops' <==> op in multiset(ops');
    if Effective(ops', path, name).Some? && Effective(ops, path, name).Some? {
      var a :| a in ops' && Sets(a, path, name) && VarValue(a) == Effective(ops', path, name).value;
      var b :| b in ops && Sets(b, path, name) && VarValue(b) == Effective(ops, path, name).value;
      OneValue(ops, a, b, path, name);
    }
  }

  /** Patches that the check accepts set the same variables in whatever order the patches come. */
  lemma AcceptedPatchesCommute(patches: seq<Patch>, patches': seq<Patch>, path: Path, name: Json)
    requires AllReadable(Operations(patches)) && !Clashes(Operations(patches))
    requires multiset(patches) == multiset(patches')
    ensures Effective(Operations(patches'), path, name) == Effective(Operations(patches), path, name)
  {
    PermutedOperations(patches, patches');
    OrderDoesNotMatter(Operations(patches), Operations(patches'), path, name);
  }

  lemma {:induction false} PermutedOperations(patches: seq<Patch>, patches': seq<Patch>)
    requires multiset(patches) == multiset(patches')
    ensures multiset(Operations(patches)) == multiset(Operations(patches'))
  {
    if patches == [] {
      assert |patches'| == |multiset(patches')| == |multiset(patches)| == 0;
    } else {
      var p := patches[0];
      var k := Position(patches, patches', p);
      var rest := patches'[..k] + patches'[k + 1..];
      assert patches' == patches'[..k] + [p] + patches'[k + 1..];
      PermutedOperations(patches[1..], rest);
      OperationsSplit(patches'[..k], p, patches'[k + 1..]);
    }
  }

  lemma Position(patches: seq<Patch>, patches': seq<Patch>, p: Patch) returns (k: nat)
    requires patches != [] && patches[0] == p && multiset(patches) == multiset(patches')
    ensures k < |patches'| && patches'[k] == p
    ensures multiset(patches'[..k] + patches'[k + 1..]) == multiset(patches[1..])
  {
    assert p in multiset(patches');
    k :| 0 <= k < |patches'| && patches'[k] == p;
    var rest := patches'[..k] + patches'[k + 1..];
    assert patches == [p] + patches[1..];
    assert patches' == patches'[..k] + ([p] + patches'[k + 1..]);
    assert multiset(patches) == multiset{p} + multiset(patches[1..]);
    assert multiset(patches') == multiset{p} + multiset(rest);
    assert multiset(rest) == multiset(patches') - multiset{p};
  }

  lemma {:induction false} OperationsSplit(a: seq<Patch>, p: Patch, b: seq<Patch>)
    ensures multiset(Operations(a + [p] + b)) == multiset(p) + multiset(Operations(a + b))
  {
    if a == [] {
      assert a + [p] + b == [p] + b && a + b == b;
      assert ([p] + b)[1..] == b;
    } else {
      assert (a + [p] + b)[1..] == a[1..] + [p] + b && (a + b)[1..] == a[1..] + b;
      OperationsSplit(a[1..], p, b);
    }
  }
}
