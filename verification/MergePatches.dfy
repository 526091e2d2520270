/** Merge patches as section 2 of RFC 7386 defines them, and what they leave alone. */
module MergePatches {
  import opened Prelude
  import opened Json

  function MembersOf(d: Json): map<string, Json> {
    if d.Obj? then d.members else map[]
  }

  /** A member that is null in the patch is removed, another one is merged; what is no object replaces. */
  function Merged(target: Json, patch: Json): Json
    decreases patch
  {
    if !patch.Obj? then patch
    else
      var was := MembersOf(target);
      Obj(map name | name in was.Keys + patch.members.Keys && !(name in patch.members && patch.members[name].Null?)
            :: if name !in patch.members then was[name]
               else Merged(if name in was then was[name] else Null, patch.members[name]))
  }

  /** Merging the same patch again changes nothing. */
  lemma {:induction false} MergeTwice(target: Json, patch: Json)
    ensures Merged(Merged(target, patch), patch) == Merged(target, patch)
    decreases patch
  {
    if patch.Obj? {
      var once := Merged(target, patch);
      var twice := Merged(once, patch);
      var was := MembersOf(target);
      forall name | name in patch.members && !patch.members[name].Null?
        ensures name in once.members && name in twice.members && twice.members[name] == once.members[name]
      {
        MergeTwice(if name in was then was[name] else Null, patch.members[name]);
      }
      assert twice.members == once.members;
    }
  }

  /** A value that the patch holds, neither an object nor null, ends up in its place. */
  lemma {:induction false} MergeSets(target: Json, patch: Json, path: Path)
    requires Get(patch, path).Some? && !Get(patch, path).value.Obj? && !Get(patch, path).value.Null?
    ensures Get(Merged(target, patch), path) == Get(patch, path)
    decreases |path|
  {
    if patch.Obj? {
      var name := path[0].name;
      var was := MembersOf(target);
      assert !patch.members[name].Null?;
      MergeSets(if name in was then was[name] else Null, patch.members[name], path[1..]);
    }
  }

  /** What is null in the patch is not there afterwards. */
  lemma {:induction false} MergeRemoves(target: Json, patch: Json, path: Path)
    requires path != [] && (forall token | token in path :: token.Key?) && Get(patch, path) == Some(Null)
    ensures Get(Merged(target, patch), path) == None
    decreases |path|
  {
    var name := path[0].name;
    var was := MembersOf(target);
    if |path| == 1 {
      OneToken(patch, path[0], Null);
      assert path == [path[0]];
    } else {
      MergeRemoves(if name in was then was[name] else Null, patch.members[name], path[1..]);
    }
  }

  /** The path leads to, through or below a place that the patch names. */
  predicate Touches(patch: Json, path: Path)
    decreases |path|
  {
    if path == [] || !path[0].Key? || !patch.Obj? then true
    else path[0].name in patch.members && Touches(patch.members[path[0].name], path[1..])
  }

  /** A merge patch changes nothing elsewhere. */
  lemma {:induction false} MergeElsewhere(target: Json, patch: Json, path: Path)
    requires !Touches(patch, path)
    ensures Get(Merged(target, patch), path) == Get(target, path)
    decreases |path|
  {
    var name := path[0].name;
    if name in patch.members {
      var was := MembersOf(target);
      var inner := patch.members[name];
      MergeElsewhere(if name in was then was[name] else Null, inner, path[1..]);
      if !inner.Null? && name !in was {
        assert Get(Null, path[1..]).None?;
      }
    }
  }
}
