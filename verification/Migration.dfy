/**
 The migration that labels every server with a schema version and puts two of its annotations in
 lower case: page by page, one merge patch for each server, with crashes anywhere and restarts.
 */
module Migration {
  import opened Prelude
  import opened Json
  import opened Text
  import opened MergePatches

  const LIMIT: nat := 50

  type Servers = map<string, Json>

  function SchemaLabel(prefix: string): string {
    prefix + "schemaVersion"
  }

  function LabelPath(prefix: string): Path {
    [Key("metadata"), Key("labels"), Key(SchemaLabel(prefix))]
  }

  function AnnotationPath(name: string): Path {
    [Key("metadata"), Key("annotations"), Key(name)]
  }

  /** The annotations that are put in lower case. */
  function Names(prefix: string): seq<string> {
    [prefix + "projectName", prefix + "namespace"]
  }

  predicate Labelled(prefix: string, d: Json) {
    Get(d, LabelPath(prefix)).Some?
  }

  function Annotations(d: Json): Option<Json> {
    Get(d, [Key("metadata"), Key("annotations")])
  }

  /** Reading the annotations raises no error: they are there, and those that are read are text. */
  predicate Readable(prefix: string, d: Json) {
    && Annotations(d).Some? && Annotations(d).value.Obj?
    && var members := Annotations(d).value.members;
       forall k | 0 <= k < 2 :: Names(prefix)[k] in members ==> members[Names(prefix)[k]].Str?
  }

  /** The entry that one annotation adds to the patch. */
  function Lowered(members: map<string, Json>, name: string): map<string, Json> {
    if name in members && members[name].Str? && members[name].text != Lower(members[name].text)
    then map[name := Str(Lower(members[name].text))] else map[]
  }

  function LoweredAll(prefix: string, d: Json): map<string, Json>
    requires Readable(prefix, d)
  {
    var members := Annotations(d).value.members;
    Lowered(members, Names(prefix)[0]) + Lowered(members, Names(prefix)[1])
  }

  function Body(prefix: string, lowered: map<string, Json>): Json {
    var labels := map["labels" := Obj(map[SchemaLabel(prefix) := Str("1")])];
    Obj(map["metadata" := Obj(if lowered == map[] then labels else labels["annotations" := Obj(lowered)])])
  }

  function PatchFor(prefix: string, d: Json): Json
    requires Readable(prefix, d)
  {
    Body(prefix, LoweredAll(prefix, d))
  }

  /** What becomes of a server; one that cannot be read stays as it is, and so does the rest behind it. */
  function Target(prefix: string, d: Json): Json {
    if Labelled(prefix, d) || !Readable(prefix, d) then d else Merged(d, PatchFor(prefix, d))
  }

  /** The servers when these have been patched. */
  function After(prefix: string, servers: Servers, done: set<string>): Servers {
    map name | name in servers :: if name in done then Target(prefix, servers[name]) else servers[name]
  }

  function Full(prefix: string, servers: Servers): Servers {
    After(prefix, servers, servers.Keys)
  }

  /** A run gets to its end unless there is a server that it would have to patch but cannot read. */
  predicate CanFinish(prefix: string, servers: Servers) {
    forall name | name in servers :: Labelled(prefix, servers[name]) || Readable(prefix, servers[name])
  }

  // -------------------------------------------------------------- what a patch does

  lemma MergedChild(target: Json, patch: Json, name: string)
    requires patch.Obj? && name in patch.members && !patch.members[name].Null?
    ensures Child(Merged(target, patch), Key(name))
         == Some(Merged(if name in MembersOf(target) then MembersOf(target)[name] else Null, patch.members[name]))
  {
  }

  lemma LabelledAfter(prefix: string, d: Json)
    requires !Labelled(prefix, d) && Readable(prefix, d)
    ensures Get(Target(prefix, d), [Key("metadata"), Key("labels"), Key(prefix + "schemaVersion")]) == Some(Str("1"))
    ensures Labelled(prefix, Target(prefix, d))
  {
    hide LoweredAll;
    ThreeTokens(Target(prefix, d), [Key("metadata"), Key("labels"), Key(SchemaLabel(prefix))]);
    var lowered := LoweredAll(prefix, d);
    var body := Body(prefix, lowered);
    BodyIs(prefix, lowered);
    var metadata := body.members["metadata"];
    var inner := if "metadata" in MembersOf(d) then MembersOf(d)["metadata"] else Null;
    MergedChild(d, body, "metadata");
    MergedChild(inner, metadata, "labels");
    MergedChild(if "labels" in MembersOf(inner) then MembersOf(inner)["labels"] else Null, metadata.members["labels"],
                SchemaLabel(prefix));
  }

  lemma BodyIs(prefix: string, lowered: map<string, Json>)
    ensures var body := Body(prefix, lowered);
      body.Obj? && "metadata" in body.members && body.members["metadata"].Obj?
      && var m := body.members["metadata"].members;
         "labels" in m && m["labels"] == Obj(map[SchemaLabel(prefix) := Str("1")])
         && ("annotations" in m <==> lowered != map[]) && ("annotations" in m ==> m["annotations"] == Obj(lowered))
  {
    hide SchemaLabel;
    assert "labels" != "annotations";
  }

  lemma AnnotationAt(d: Json, name: string)
    requires Annotations(d).Some? && Annotations(d).value.Obj?
    ensures Get(d, AnnotationPath(name)) == Child(Annotations(d).value, Key(name))
  {
    ThreeTokens(d, [Key("metadata"), Key("annotations"), Key(name)]);
    var p: Path := [Key("metadata"), Key("annotations")];
    assert p[1..] == [Key("annotations")] && p[1..][1..] == [];
  }

  /** The two annotations are in lower case afterwards, where they are there at all. */
  lemma LoweredAfter(prefix: string, d: Json, name: string)
    requires !Labelled(prefix, d) && Readable(prefix, d)
    requires name == prefix + "projectName" || name == prefix + "namespace"
    ensures Get(Target(prefix, d), [Key("metadata"), Key("annotations"), Key(name)]) ==
      match Get(d, [Key("metadata"), Key("annotations"), Key(name)])
      case None => None
      case Some(x) => Some(if x.Str? then Str(Lower(x.text)) else x)
    ensures Get(d, AnnotationPath(name)).Some? ==> Get(d, AnnotationPath(name)).value.Str?
  {
    hide SchemaLabel, Lower, Labelled, Merged, Body;
    var k := if name == prefix + "projectName" then 0 else 1;
    assert Names(prefix)[k] == name;
    var lowered := LoweredAll(prefix, d);
    AnnotationAt(d, name);
    BodyIs(prefix, lowered);
    if name in lowered {
      LoweredOne(d, Body(prefix, lowered), lowered, name);
    } else {
      UntouchedAnnotation(prefix, lowered, name);
      MergeElsewhere(d, Body(prefix, lowered), AnnotationPath(name));
    }
  }

  /** A migrated server has nothing left to be put in lower case. */
  lemma NothingLeftToLower(prefix: string, d: Json, name: string)
    requires !Labelled(prefix, d) && Readable(prefix, d)
    requires name == prefix + "projectName" || name == prefix + "namespace"
    ensures var x := Get(Target(prefix, d), [Key("metadata"), Key("annotations"), Key(name)]);
      x.Some? ==> x.value.Str? && forall k | 0 <= k < |x.value.text| :: !('A' <= x.value.text[k] <= 'Z')
  {
    hide Target, Lower;
    LoweredAfter(prefix, d, name);
    var before := Get(d, AnnotationPath(name));
    if before.Some? {
      LowerIsLower(before.value.text);
    }
  }

  lemma LoweredOne(d: Json, body: Json, lowered: map<string, Json>, name: string)
    requires body.Obj? && "metadata" in body.members && body.members["metadata"].Obj?
    requires "annotations" in body.members["metadata"].members
      && body.members["metadata"].members["annotations"] == Obj(lowered)
    requires name in lowered && lowered[name].Str?
    ensures Get(Merged(d, body), AnnotationPath(name)) == Some(lowered[name])
  {
    ThreeTokens(Merged(d, body), [Key("metadata"), Key("annotations"), Key(name)]);
    var metadata := body.members["metadata"];
    var inner := if "metadata" in MembersOf(d) then MembersOf(d)["metadata"] else Null;
    MergedChild(d, body, "metadata");
    MergedChild(inner, metadata, "annotations");
    MergedChild(if "annotations" in MembersOf(inner) then MembersOf(inner)["annotations"] else Null, Obj(lowered),
                name);
  }

  lemma UntouchedAnnotation(prefix: string, lowered: map<string, Json>, name: string)
    requires name !in lowered
    ensures !Touches(Body(prefix, lowered), AnnotationPath(name))
  {
    hide SchemaLabel;
    BodyIs(prefix, lowered);
    var p := AnnotationPath(name);
    assert p[1..] == [Key("annotations"), Key(name)] && p[1..][1..] == [Key(name)];
    if lowered != map[] {
      assert !Touches(Obj(lowered), [Key(name)]);
    }
    assert !Touches(Body(prefix, lowered).members["metadata"], p[1..]);
  }

  /** A path to none of the label and the two annotations, nor to what is around them. */
  predicate Elsewhere(prefix: string, path: Path) {
    && path != [] && path[0].Key?
    && (path[0].name == "metadata" ==>
          && |path| > 1 && path[1].Key?
          && (path[1].name == "labels" ==> |path| > 2 && path[2].Key? && path[2].name != prefix + "schemaVersion")
          && (path[1].name == "annotations" ==>
                && |path| > 2 && path[2].Key?
                && path[2].name != prefix + "projectName" && path[2].name != prefix + "namespace"))
  }

  lemma SameElsewhere(prefix: string, d: Json, path: Path)
    requires Elsewhere(prefix, path)
    ensures Get(Target(prefix, d), path) == Get(d, path)
  {
    hide Lower, Merged, Body;
    if !Labelled(prefix, d) && Readable(prefix, d) {
      var lowered := LoweredAll(prefix, d);
      NotTouched(prefix, lowered, path);
      MergeElsewhere(d, Body(prefix, lowered), path);
    }
  }

  lemma NotTouched(prefix: string, lowered: map<string, Json>, path: Path)
    requires Elsewhere(prefix, path) && forall name | name in lowered :: name in Names(prefix)
    ensures !Touches(Body(prefix, lowered), path)
  {
    BodyIs(prefix, lowered);
    if path[0].name == "metadata" {
      var metadata := Body(prefix, lowered).members["metadata"];
      if path[1].name in metadata.members {
        assert path[1..][0] == path[1] && path[1..][1..][0] == path[2];
        assert !Touches(metadata.members[path[1].name], path[1..][1..]);
      }
      assert !Touches(metadata, path[1..]);
    }
  }

  // ---------------------------------------------------------- crashes and restarts

  lemma TargetTwice(prefix: string, d: Json)
    ensures Target(prefix, Target(prefix, d)) == Target(prefix, d)
    ensures Labelled(prefix, Target(prefix, d)) <==> Labelled(prefix, d) || Readable(prefix, d)
  {
    hide PatchFor;
    if !Labelled(prefix, d) && Readable(prefix, d) {
      LabelledAfter(prefix, d);
    }
  }

  /** Continuing after a crash comes to what an undisturbed run would have come to. */
  lemma RestartIsFull(prefix: string, servers: Servers, done: set<string>)
    ensures Full(prefix, After(prefix, servers, done)) == Full(prefix, servers)
    ensures CanFinish(prefix, After(prefix, servers, done)) <==> CanFinish(prefix, servers)
  {
    hide Target, Readable;
    var after := After(prefix, servers, done);
    forall name | name in servers
      ensures Target(prefix, after[name]) == Target(prefix, servers[name])
    {
      TargetTwice(prefix, servers[name]);
    }
    if CanFinish(prefix, servers) {
      forall name | name in after
        ensures Labelled(prefix, after[name]) || Readable(prefix, after[name])
      {
        TargetTwice(prefix, servers[name]);
        assert name in servers;
      }
    }
    if CanFinish(prefix, after) {
      forall name | name in servers
        ensures Labelled(prefix, servers[name]) || Readable(prefix, servers[name])
      {
        TargetTwice(prefix, servers[name]);
        assert name in after;
        if !Labelled(prefix, servers[name]) && !Readable(prefix, servers[name]) {
          UnreadableStays(prefix, servers[name]);
        }
      }
    }
  }

  lemma UnreadableStays(prefix: string, d: Json)
    requires !Labelled(prefix, d) && !Readable(prefix, d)
    ensures Target(prefix, d) == d
  {
  }

  /**
   However often the migration crashes, and wherever, running it again comes to the same cluster as
   one full run; and it gets to its end exactly when the first run would have.  Each crash leaves the
   servers behind of which these were patched.
   */
  lemma {:induction false} CrashesDoNotMatter(prefix: string, states: seq<Servers>, crashes: seq<set<string>>)
    requires |states| == |crashes| + 1
    requires forall k | 0 <= k < |crashes| :: states[k + 1] == After(prefix, states[k], crashes[k])
    ensures Full(prefix, states[|crashes|]) == Full(prefix, states[0])
    ensures CanFinish(prefix, states[|crashes|]) <==> CanFinish(prefix, states[0])
    decreases |crashes|
  {
    hide Full, CanFinish, After;
    if crashes != [] {
      var n := |crashes| - 1;
      CrashesDoNotMatter(prefix, states[..n + 1], crashes[..n]);
      RestartIsFull(prefix, states[n], crashes[n]);
    }
  }

  /** After a full run there is nothing left to do, whatever a second run would get to. */
  lemma SecondRunChangesNothing(prefix: string, servers: Servers, done: set<string>)
    ensures After(prefix, Full(prefix, servers), done) == Full(prefix, servers)
    ensures CanFinish(prefix, servers) ==> forall name | name in Full(prefix, servers) ::
      Labelled(prefix, Full(prefix, servers)[name])
  {
    hide Target, Readable;
    forall name | name in servers
      ensures Target(prefix, Target(prefix, servers[name])) == Target(prefix, servers[name])
      ensures Labelled(prefix, Target(prefix, servers[name]))
        <==> Labelled(prefix, servers[name]) || Readable(prefix, servers[name])
    {
      TargetTwice(prefix, servers[name]);
    }
  }

  // ------------------------------------------------------------------- paging

  /** A list that stays as it was when its first page was read, and where the next page begins. */
  datatype Continue = Beginning | From(snapshot: seq<(string, Json)>, position: nat)

  ghost predicate IsSnapshot(snapshot: seq<(string, Json)>, servers: Servers) {
    && (forall i | 0 <= i < |snapshot| :: snapshot[i].0 in servers && servers[snapshot[i].0] == snapshot[i].1)
    && (forall name | name in servers :: (name, servers[name]) in snapshot)
    && (forall i, j | 0 <= i < j < |snapshot| :: snapshot[i].0 != snapshot[j].0)
  }

  /** The servers that the selector lets through. */
  function Selected(prefix: string, snapshot: seq<(string, Json)>): seq<(string, Json)> {
    if snapshot == [] then []
    else (if Labelled(prefix, snapshot[0].1) then [] else [snapshot[0]]) + Selected(prefix, snapshot[1..])
  }

  lemma {:induction false} SelectedAre(prefix: string, snapshot: seq<(string, Json)>)
    ensures forall x :: x in Selected(prefix, snapshot) <==> x in snapshot && !Labelled(prefix, x.1)
    ensures (forall i, j | 0 <= i < j < |snapshot| :: snapshot[i].0 != snapshot[j].0) ==>
              forall i, j | 0 <= i < j < |Selected(prefix, snapshot)| ::
                Selected(prefix, snapshot)[i].0 != Selected(prefix, snapshot)[j].0
  {
    hide Labelled;
    if snapshot != [] {
      SelectedAre(prefix, snapshot[1..]);
      assert snapshot == [snapshot[0]] + snapshot[1..];
      var rest := Selected(prefix, snapshot[1..]);
      assert forall i | 0 <= i < |rest| :: rest[i] in snapshot[1..];
    }
  }

  /** Where a page ends that begins here: behind the last server that still fits, or at the end of the list. */
  function PageEnd(prefix: string, snapshot: seq<(string, Json)>, position: nat, limit: nat): (end: nat)
    requires position <= |snapshot|
    ensures position <= end <= |snapshot|
    ensures position < |snapshot| && limit > 0 ==> position < end
    ensures |Selected(prefix, snapshot[position..end])| <= limit
    ensures end < |snapshot| ==> |Selected(prefix, snapshot[position..end])| == limit
    decreases |snapshot| - position
  {
    if position == |snapshot| || limit == 0 then position
    else
      var end := PageEnd(prefix, snapshot, position + 1,
                         if Labelled(prefix, snapshot[position].1) then limit else limit - 1);
      assert snapshot[position..end][1..] == snapshot[position + 1..end];
      end
  }

  class K8sApi {
    var servers: Servers

    constructor (servers: Servers)
      ensures this.servers == servers
    {
      this.servers := servers;
    }

    method TakeSnapshot() returns (snapshot: seq<(string, Json)>)
      ensures IsSnapshot(snapshot, servers)
    {
      snapshot := [];
      var rest := servers.Keys;
      while rest != {}
        invariant rest <= servers.Keys
        invariant forall i | 0 <= i < |snapshot| ::
          snapshot[i].0 in servers.Keys - rest && servers[snapshot[i].0] == snapshot[i].1
        invariant forall name | name in servers && name !in rest :: (name, servers[name]) in snapshot
        invariant forall i, j | 0 <= i < j < |snapshot| :: snapshot[i].0 != snapshot[j].0
      {
        var name :| name in rest;
        snapshot := snapshot + [(name, servers[name])];
        rest := rest - {name};
      }
    }

    /** One page of the unlabelled servers, and how to go on when the list is not at its end. */
    method ListServers(prefix: string, token: Continue)
      returns (items: seq<(string, Json)>, next: Option<Continue>, snapshot: seq<(string, Json)>)
      requires token.From? ==> token.position <= |token.snapshot|
      ensures token.Beginning? ==> IsSnapshot(snapshot, servers)
      ensures token.From? ==> snapshot == token.snapshot
      ensures var position := if token.From? then token.position else 0;
        var end := PageEnd(prefix, snapshot, position, LIMIT);
        && items == Selected(prefix, snapshot[position..end])
        && |items| <= 50 && (next.Some? ==> |items| == 50)
        && next == if end == |snapshot| then None else Some(From(snapshot, end))
    {
      var position := 0;
      if token.From? {
        snapshot, position := token.snapshot, token.position;
      } else {
        snapshot := TakeSnapshot();
      }
      var end := PageEnd(prefix, snapshot, position, LIMIT);
      items := Selected(prefix, snapshot[position..end]);
      next := if end == |snapshot| then None else Some(From(snapshot, end));
    }

    method PatchServer(name: string, patch: Json)
      requires name in servers
      modifies this
      ensures servers == old(servers)[name := Merged(old(servers)[name], patch)]
    {
      servers := servers[name := Merged(servers[name], patch)];
    }
  }

  datatype Outcome = Completed | Crashed

  /** The patch as the loop over the two annotations builds it. */
  method BuildPatch(prefix: string, d: Json) returns (patch: Option<Json>)
    ensures patch == if Readable(prefix, d) then Some(PatchFor(prefix, d)) else None
  {
    hide Lower, SchemaLabel;
    var names := Names(prefix);
    var lowered: map<string, Json> := map[];
    for k := 0 to 2
      invariant k > 0 ==> Annotations(d).Some? && Annotations(d).value.Obj?
      invariant lowered == if k == 0 then map[]
                           else if k == 1 then Lowered(Annotations(d).value.members, names[0])
                           else Lowered(Annotations(d).value.members, names[0])
                                + Lowered(Annotations(d).value.members, names[1])
      invariant k > 0 ==> forall i | 0 <= i < k ::
        names[i] in Annotations(d).value.members ==> Annotations(d).value.members[names[i]].Str?
    {
      var annotations := Annotations(d);
      if annotations.None? || !annotations.value.Obj? {
        return None;
      }
      if names[k] !in annotations.value.members {
        continue;
      }
      var value := annotations.value.members[names[k]];
      if !value.Str? {
        return None;
      }
      if value.text != Lower(value.text) {
        lowered := lowered[names[k] := Str(Lower(value.text))];
      }
    }
    return Some(Body(prefix, lowered));
  }

  // --------------------------------------------------------------- the whole run

  lemma AfterOne(prefix: string, servers: Servers, done: set<string>, name: string)
    requires name in servers && name !in done && !Labelled(prefix, servers[name]) && Readable(prefix, servers[name])
    ensures name in After(prefix, servers, done) && After(prefix, servers, done)[name] == servers[name]
    ensures After(prefix, servers, done)[name := Merged(servers[name], PatchFor(prefix, servers[name]))]
      == After(prefix, servers, done + {name})
  {
    hide Labelled, Readable, Merged, PatchFor;
  }

  lemma AfterNone(prefix: string, servers: Servers)
    ensures After(prefix, servers, {}) == servers
  {
    hide Target;
  }

  /** Everything that is not labelled has been patched: that is a full run. */
  lemma AllDone(prefix: string, servers: Servers, done: set<string>)
    requires forall name | name in servers :: name in done || Labelled(prefix, servers[name])
    ensures After(prefix, servers, done) == Full(prefix, servers)
  {
    hide Labelled, Readable, Merged, PatchFor;
  }

  /** The servers of a page are the unlabelled ones of its stretch of the list. */
  lemma PageIs(prefix: string, servers: Servers, snapshot: seq<(string, Json)>, position: nat, end: nat,
               items: seq<(string, Json)>)
    requires IsSnapshot(snapshot, servers) && position <= end <= |snapshot|
      && items == Selected(prefix, snapshot[position..end])
    ensures forall k | 0 <= k < |items| ::
      items[k].0 in servers && servers[items[k].0] == items[k].1 && !Labelled(prefix, items[k].1)
    ensures forall i | position <= i < end :: Labelled(prefix, snapshot[i].1) || snapshot[i] in items
    ensures forall i, k | 0 <= i < k < |items| :: items[i].0 != items[k].0
    ensures forall i, k | end <= i < |snapshot| && 0 <= k < |items| :: items[k].0 != snapshot[i].0
  {
    hide Labelled, Selected;
    var stretch := snapshot[position..end];
    assert forall i, j | 0 <= i < j < |stretch| :: stretch[i].0 != stretch[j].0;
    SelectedAre(prefix, stretch);
    assert forall k | 0 <= k < |items| :: items[k] in items && items[k] in stretch;
    forall i | position <= i < end
      ensures Labelled(prefix, snapshot[i].1) || snapshot[i] in items
    {
      assert stretch[i - position] == snapshot[i];
    }
  }

  /** How far the run has got: the servers before the position need nothing more, those behind it are as they were. */
  ghost predicate Reached(prefix: string, servers: Servers, done: set<string>, dryRun: bool,
                          snapshot: seq<(string, Json)>, position: nat)
    requires position <= |snapshot|
  {
    && (forall i | 0 <= i < position ::
          Labelled(prefix, snapshot[i].1) || (Readable(prefix, snapshot[i].1) && (dryRun || snapshot[i].0 in done)))
    && (forall i | position <= i < |snapshot| :: snapshot[i].0 !in done)
  }

  lemma PageDone(prefix: string, servers: Servers, done: set<string>, done': set<string>, dryRun: bool,
                 snapshot: seq<(string, Json)>, position: nat, end: nat, items: seq<(string, Json)>)
    requires IsSnapshot(snapshot, servers) && position <= end <= |snapshot|
      && items == Selected(prefix, snapshot[position..end])
    requires Reached(prefix, servers, done, dryRun, snapshot, position) && done <= done'
    requires forall k | 0 <= k < |items| :: Readable(prefix, items[k].1) && (dryRun || items[k].0 in done')
    requires forall i | end <= i < |snapshot| :: snapshot[i].0 !in done'
    ensures Reached(prefix, servers, done', dryRun, snapshot, end)
  {
    hide Labelled, Readable, Selected;
    PageIs(prefix, servers, snapshot, position, end, items);
  }

  lemma EndReached(prefix: string, servers: Servers, done: set<string>, dryRun: bool, snapshot: seq<(string, Json)>)
    requires IsSnapshot(snapshot, servers) && Reached(prefix, servers, done, dryRun, snapshot, |snapshot|)
    ensures CanFinish(prefix, servers)
    ensures !dryRun ==> After(prefix, servers, done) == Full(prefix, servers)
  {
    hide Labelled, Readable, After, Full;
    forall name | name in servers
      ensures Labelled(prefix, servers[name]) || (Readable(prefix, servers[name]) && (dryRun || name in done))
    {
      var i :| 0 <= i < |snapshot| && snapshot[i] == (name, servers[name]);
    }
    if !dryRun {
      AllDone(prefix, servers, done);
    }
  }

  /**
   adjust_annotations.  The program may be stopped before any of its patches (crashAfter), and an
   annotation that cannot be read stops it too.  Whenever it stops, the servers it has patched are
   as they should be and the others are as they were.
   */
  method AdjustAnnotations(api: K8sApi, prefix: string, dryRun: bool, crashAfter: Option<nat>)
    returns (outcome: Outcome, ghost done: set<string>)
    modifies api
    ensures done <= old(api.servers).Keys && (dryRun ==> done == {})
    ensures api.servers == After(prefix, old(api.servers), done)
    ensures outcome.Completed? ==> CanFinish(prefix, old(api.servers))
    ensures outcome.Completed? && !dryRun ==> api.servers == Full(prefix, old(api.servers))
    ensures CanFinish(prefix, old(api.servers)) && (dryRun || crashAfter.None?) ==> outcome.Completed?
  {
    hide Labelled, Readable, Target, PatchFor, Selected, IsSnapshot, Reached, Merged, After, Full;
    ghost var servers := api.servers;
    done := {};
    AfterNone(prefix, servers);
    var left := crashAfter;
    var nextPage := Beginning;
    while true
      invariant done <= servers.Keys && (dryRun ==> done == {}) && (crashAfter.None? ==> left.None?)
      invariant api.servers == After(prefix, servers, done)
      invariant nextPage.Beginning? ==> done == {}
      invariant nextPage.From? ==>
        && IsSnapshot(nextPage.snapshot, servers) && nextPage.position < |nextPage.snapshot|
        && Reached(prefix, servers, done, dryRun, nextPage.snapshot, nextPage.position)
      decreases nextPage.Beginning?, if nextPage.From? then |nextPage.snapshot| - nextPage.position else 0
    {
      var items, next, snapshot := api.ListServers(prefix, nextPage);
      ghost var position := if nextPage.From? then nextPage.position else 0;
      ghost var end := PageEnd(prefix, snapshot, position, LIMIT);
      ghost var before := done;
      if nextPage.Beginning? {
        NothingReached(prefix, servers, dryRun, snapshot);
      }
      PageIs(prefix, servers, snapshot, position, end, items);
      NotYetDone(prefix, servers, done, dryRun, snapshot, position, end, items);
      for k := 0 to |items|
        invariant before <= done <= servers.Keys && (dryRun ==> done == {}) && (crashAfter.None? ==> left.None?)
        invariant api.servers == After(prefix, servers, done)
        invariant forall i | 0 <= i < k :: Readable(prefix, items[i].1) && (dryRun || items[i].0 in done)
        invariant forall i | k <= i < |items| :: items[i].0 !in done
        invariant forall i | end <= i < |snapshot| :: snapshot[i].0 !in done
      {
        var (name, js) := items[k];
        var patch := BuildPatch(prefix, js);
        if patch.None? {
          CannotFinish(prefix, servers, name);
          return Crashed, done;
        }
        if !dryRun {
          if left == Some(0) {
            return Crashed, done;
          }
          left := if left.Some? then Some(left.value - 1) else None;
          AfterOne(prefix, servers, done, name);
          api.PatchServer(name, patch.value);
          done := done + {name};
        }
      }
      PageDone(prefix, servers, before, done, dryRun, snapshot, position, end, items);
      if next.None? {
        EndReached(prefix, servers, done, dryRun, snapshot);
        return Completed, done;
      }
      nextPage := next.value;
    }
  }

  lemma NothingReached(prefix: string, servers: Servers, dryRun: bool, snapshot: seq<(string, Json)>)
    ensures Reached(prefix, servers, {}, dryRun, snapshot, 0)
  {
  }

  lemma NotYetDone(prefix: string, servers: Servers, done: set<string>, dryRun: bool,
                   snapshot: seq<(string, Json)>, position: nat, end: nat, items: seq<(string, Json)>)
    requires IsSnapshot(snapshot, servers) && position <= end <= |snapshot|
      && items == Selected(prefix, snapshot[position..end])
    requires Reached(prefix, servers, done, dryRun, snapshot, position)
    ensures forall k | 0 <= k < |items| :: items[k].0 !in done
    ensures forall i | end <= i < |snapshot| :: snapshot[i].0 !in done
  {
    hide Labelled, Readable, Selected;
    SelectedAre(prefix, snapshot[position..end]);
    forall k | 0 <= k < |items|
      ensures items[k].0 !in done
    {
      assert items[k] in snapshot[position..end];
    }
  }

  lemma CannotFinish(prefix: string, servers: Servers, name: string)
    requires name in servers && !Labelled(prefix, servers[name]) && !Readable(prefix, servers[name])
    ensures !CanFinish(prefix, servers)
  {
  }
}
