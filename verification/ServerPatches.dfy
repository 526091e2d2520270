/**
 The patches that the service sends for its sessions: a merge patch to hibernate or resume a
 session, and a JSON Patch to change its resource class.  None of them changes whose session it is.
 */
module ServerPatches {
  import opened Prelude
  import opened Json
  import opened MergePatches
  import GitStatus
  import Sessions

  /** A list is a JSON Patch (RFC 6902), anything else a merge patch (RFC 7386). */
  datatype ServerPatch = Merge(patch: Json) | Edits(ops: seq<Op>)

  /** The object after the patch; None when the API refuses it since an operation does not apply. */
  function Patched(doc: Json, p: ServerPatch): Option<Json> {
    match p
    case Merge(patch) => Some(Merged(doc, patch))
    case Edits(ops) => ApplyAll(doc, ops)
  }

  /** Whatever object it is sent for, the patch leaves this label as it is. */
  ghost predicate KeepsLabel(key: string, p: ServerPatch) {
    forall doc | Patched(doc, p).Some? :: Sessions.LabelIn(Patched(doc, p).value, key) == Sessions.LabelIn(doc, key)
  }

  /** This operation changes one location, apart from the path. */
  predicate Spares(op: Op, path: Path) {
    Apart(op.path, path) && (op.Replace? || (op.Remove? && op.path[|op.path| - 1].Key?))
  }

  lemma {:induction false} SparedStays(doc: Json, ops: seq<Op>, path: Path)
    requires ApplyAll(doc, ops).Some? && forall op | op in ops :: Spares(op, path)
    ensures Get(ApplyAll(doc, ops).value, path) == Get(doc, path)
    decreases |ops|
  {
    if ops != [] {
      var op := ops[0];
      assert Spares(op, path);
      if op.Replace? {
        ReplaceIsPut(doc, op.path, op.value);
        GetElsewhere(doc, op.path, path, op.value);
      } else {
        RemoveElsewhere(doc, op.path, path);
      }
      SparedStays(Apply(doc, op).value, ops[1..], path);
    }
  }

  // ----------------------------------------------------- hibernating, resuming

  const HIBERNATED: Path := [Key("spec"), Key("jupyterServer"), Key("hibernated")]

  function AnnotationPath(key: string): Path {
    [Key("metadata"), Key("annotations"), Key(key)]
  }

  /** What is written down about the repository of a session that is hibernated. */
  datatype Hibernation = Hibernation(branch: string, commit: string, dirty: string, synchronized: string)

  function Flag(b: bool): string {
    if b then "true" else "false"
  }

  /** Nothing is known without a sidecar, or when it does not answer. */
  function HibernationOf(status: Option<GitStatus.Report>): Hibernation {
    match status
    case None => Hibernation("", "", "", "")
    case Some(r) => Hibernation(r.branch, r.commit, Flag(!r.clean), Flag(r.ahead == 0 && r.behind == 0))
  }

  /**
   What the sidecar's answer comes to: dirty for any entry but an unmerged or ignored one, and
   synchronized when nothing is ahead or behind, also without an upstream.
   */
  lemma HibernationSays(repo: GitStatus.Repository)
    requires GitStatus.Clean(repo) && GitStatus.OneLine(repo.branch)
    ensures var status := GitStatus.ReadLines(GitStatus.START, GitStatus.SplitLines(GitStatus.Render(repo)));
      var h := HibernationOf(status);
      var quiet := forall k | 0 <= k < |repo.entries| ::
        repo.entries[k].kind.Unmerged? || repo.entries[k].kind.Ignored?;
      var level := repo.upstream.None? || repo.upstream.value.counts.None?
        || repo.upstream.value.counts.value == (0, 0);
      && h.branch == repo.branch && h.commit == repo.commit
      && h.dirty == (if quiet then "false" else "true")
      && h.synchronized == (if level then "true" else "false")
    ensures HibernationOf(None) == Hibernation("", "", "", "")
  {
    hide GitStatus.ReadLines, GitStatus.SplitLines, GitStatus.Render, GitStatus.AnyNoticed, GitStatus.CountsOf;
    GitStatus.RoundTrip(repo);
  }

  function SetHibernated(hibernated: bool): Json {
    Obj(map["jupyterServer" := Obj(map["hibernated" := Bool(hibernated)])])
  }

  /** The summary is the JSON text of the same facts. */
  function HibernationAnnotations(h: Hibernation, summary: string, date: string): map<string, Json> {
    map["renku.io/hibernation" := Str(summary),
        "renku.io/hibernationBranch" := Str(h.branch),
        "renku.io/hibernationCommitSha" := Str(h.commit),
        "renku.io/hibernationDirty" := Str(h.dirty),
        "renku.io/hibernationSynchronized" := Str(h.synchronized),
        "renku.io/hibernationDate" := Str(date)]
  }

  /** A merge patch for some annotations and the flag. */
  function FlagPatch(annotations: map<string, Json>, hibernated: bool): Json {
    Obj(map["metadata" := Obj(map["annotations" := Obj(annotations)]), "spec" := SetHibernated(hibernated)])
  }

  function HibernatePatch(h: Hibernation, summary: string, date: string): ServerPatch {
    Merge(FlagPatch(HibernationAnnotations(h, summary, date), true))
  }

  function ResumePatch(): ServerPatch {
    Merge(Obj(map["spec" := SetHibernated(false)]))
  }

  lemma AnnotationsAreText(h: Hibernation, summary: string, date: string)
    ensures forall key | key in HibernationAnnotations(h, summary, date) ::
      HibernationAnnotations(h, summary, date)[key].Str?
  {
  }

  lemma FlagPatchSets(doc: Json, annotations: map<string, Json>, hibernated: bool)
    requires forall key | key in annotations :: annotations[key].Str?
    ensures Get(Merged(doc, FlagPatch(annotations, hibernated)), HIBERNATED) == Some(Bool(hibernated))
    ensures forall key | key in annotations ::
      Get(Merged(doc, FlagPatch(annotations, hibernated)), AnnotationPath(key)) == Some(annotations[key])
  {
    var patch := FlagPatch(annotations, hibernated);
    ThreeTokens(patch, HIBERNATED);
    MergeSets(doc, patch, HIBERNATED);
    forall key | key in annotations
      ensures Get(Merged(doc, patch), AnnotationPath(key)) == Some(annotations[key])
    {
      ThreeTokens(patch, AnnotationPath(key));
      MergeSets(doc, patch, AnnotationPath(key));
    }
  }

  /** An annotation, by its place in the object. */
  function Annotation(doc: Json, key: string): Option<Json> {
    Get(doc, [Key("metadata"), Key("annotations"), Key(key)])
  }

  /** The six facts that are written down about a session that is hibernated. */
  ghost predicate Noted(doc: Json, h: Hibernation, summary: string, date: string) {
    && Annotation(doc, "renku.io/hibernation") == Some(Str(summary))
    && Annotation(doc, "renku.io/hibernationBranch") == Some(Str(h.branch))
    && Annotation(doc, "renku.io/hibernationCommitSha") == Some(Str(h.commit))
    && Annotation(doc, "renku.io/hibernationDirty") == Some(Str(h.dirty))
    && Annotation(doc, "renku.io/hibernationSynchronized") == Some(Str(h.synchronized))
    && Annotation(doc, "renku.io/hibernationDate") == Some(Str(date))
  }

  lemma SixAnnotations(h: Hibernation, summary: string, date: string)
    ensures var a := HibernationAnnotations(h, summary, date);
      && "renku.io/hibernation" in a && a["renku.io/hibernation"] == Str(summary)
      && "renku.io/hibernationBranch" in a && a["renku.io/hibernationBranch"] == Str(h.branch)
      && "renku.io/hibernationCommitSha" in a && a["renku.io/hibernationCommitSha"] == Str(h.commit)
      && "renku.io/hibernationDirty" in a && a["renku.io/hibernationDirty"] == Str(h.dirty)
      && "renku.io/hibernationSynchronized" in a && a["renku.io/hibernationSynchronized"] == Str(h.synchronized)
      && "renku.io/hibernationDate" in a && a["renku.io/hibernationDate"] == Str(date)
  {
    assert |"renku.io/hibernation"| == 20 && |"renku.io/hibernationBranch"| == 26;
    assert |"renku.io/hibernationCommitSha"| == 29 && |"renku.io/hibernationDirty"| == 25;
    assert |"renku.io/hibernationSynchronized"| == 32 && |"renku.io/hibernationDate"| == 24;
  }

  /** Hibernating applies to every object, sets the flag and the annotations, and keeps whose session it is. */
  lemma Hibernates(doc: Json, h: Hibernation, summary: string, date: string, userLabel: string)
    ensures var d := Patched(doc, HibernatePatch(h, summary, date));
      && d.Some?
      && Get(d.value, [Key("spec"), Key("jupyterServer"), Key("hibernated")]) == Some(Bool(true))
      && Noted(d.value, h, summary, date)
    ensures KeepsLabel(userLabel, HibernatePatch(h, summary, date))
  {
    hide HibernationAnnotations;
    AnnotationsAreText(h, summary, date);
    FlagPatchSets(doc, HibernationAnnotations(h, summary, date), true);
    SixAnnotations(h, summary, date);
    forall other: Json
      ensures Get(Merged(other, HibernatePatch(h, summary, date).patch), Sessions.LabelPath(userLabel))
        == Get(other, Sessions.LabelPath(userLabel))
    {
      assert Sessions.LabelPath(userLabel)[1..] == [Key("labels"), Key(userLabel)];
      MergeElsewhere(other, HibernatePatch(h, summary, date).patch, Sessions.LabelPath(userLabel));
    }
  }

  /** Resuming a hibernated session clears the flag and nothing else: the annotations stay. */
  lemma Resumes(doc: Json, path: Path, userLabel: string)
    ensures var d := Patched(doc, ResumePatch());
      && d.Some?
      && Get(d.value, [Key("spec"), Key("jupyterServer"), Key("hibernated")]) == Some(Bool(false))
      && (path != [] && path[0].Key? && path[0] != Key("spec") ==> Get(d.value, path) == Get(doc, path))
    ensures KeepsLabel(userLabel, ResumePatch())
  {
    var patch := ResumePatch().patch;
    ThreeTokens(patch, HIBERNATED);
    MergeSets(doc, patch, HIBERNATED);
    if path != [] && path[0].Key? && path[0] != Key("spec") {
      MergeElsewhere(doc, patch, path);
    }
    forall other: Json
      ensures Get(Merged(other, patch), Sessions.LabelPath(userLabel)) == Get(other, Sessions.LabelPath(userLabel))
    {
      MergeElsewhere(other, patch, Sessions.LabelPath(userLabel));
    }
  }

  // ----------------------------------------------------- the resource class

  const RESOURCES: Path := [Key("spec"), Key("jupyterServer"), Key("resources")]
  const CLASS_ID: Path := AnnotationPath("renku.io/resourceClassId")
  const QUOTA_LABEL := "renku.io/quota"
  const QUOTA: Path := Sessions.LabelPath(QUOTA_LABEL)

  predicate HasText(x: Option<string>) {
    x.Some? && x.value != ""
  }

  /** The label of the quota is replaced, or removed when the server that was looked up has one. */
  function QuotaEdits(seen: Json, priority: Option<string>): seq<Op> {
    if HasText(priority) then [Replace(QUOTA, Str(priority.value))]
    else if HasText(Sessions.LabelIn(seen, QUOTA_LABEL)) then [Remove(QUOTA)]
    else []
  }

  function ClassEdits(seen: Json, resources: Json, classId: string, priority: Option<string>): seq<Op> {
    [Replace(RESOURCES, resources), Replace(CLASS_ID, Str(classId))] + QuotaEdits(seen, priority)
  }

  lemma PlacesAreApart()
    ensures Apart(RESOURCES, CLASS_ID) && Apart(RESOURCES, QUOTA) && Apart(CLASS_ID, QUOTA)
    ensures Apart(CLASS_ID, RESOURCES) && Apart(QUOTA, RESOURCES) && Apart(QUOTA, CLASS_ID)
  {
    assert CLASS_ID[1..] == [Key("annotations"), Key("renku.io/resourceClassId")]
      && QUOTA[1..] == [Key("labels"), Key(QUOTA_LABEL)];
  }

  /** The label that this leaves. */
  function QuotaAfter(doc: Json, seen: Json, priority: Option<string>): Option<Json> {
    if HasText(priority) then Some(Str(priority.value))
    else if HasText(Sessions.LabelIn(seen, QUOTA_LABEL)) then None
    else Get(doc, QUOTA)
  }

  lemma QuotaEdited(doc: Json, seen: Json, priority: Option<string>)
    ensures ApplyAll(doc, QuotaEdits(seen, priority)).Some?
      <==> (QuotaEdits(seen, priority) != [] ==> Get(doc, QUOTA).Some?)
    ensures ApplyAll(doc, QuotaEdits(seen, priority)).Some? ==>
      Get(ApplyAll(doc, QuotaEdits(seen, priority)).value, QUOTA) == QuotaAfter(doc, seen, priority)
  {
    var ops := QuotaEdits(seen, priority);
    if HasText(priority) {
      var x := Str(priority.value);
      ReplaceIsPut(doc, QUOTA, x);
      assert ApplyAll(doc, ops) == ApplyReplace(doc, QUOTA, x);
      if Get(doc, QUOTA).Some? {
        GetPut(doc, QUOTA, x);
      }
    } else if HasText(Sessions.LabelIn(seen, QUOTA_LABEL)) {
      RemovedIsGone(doc, QUOTA);
      assert ApplyAll(doc, ops) == ApplyRemove(doc, QUOTA);
    }
  }

  lemma ApplyAllOfThree(doc: Json, a: Op, b: Op, rest: seq<Op>)
    ensures ApplyAll(doc, [a, b] + rest) ==
      if Apply(doc, a).None? || Apply(Apply(doc, a).value, b).None? then None
      else ApplyAll(Apply(Apply(doc, a).value, b).value, rest)
  {
    hide Apply;
    assert ([a, b] + rest)[1..] == [b] + rest && ([b] + rest)[1..] == rest;
  }

  /**
   Changing the class succeeds exactly when resources and class are there and, if the quota is to be
   replaced or removed, its label is too: a server without that label cannot be moved to a class
   with a priority.
   */
  lemma ClassChangesIff(doc: Json, seen: Json, resources: Json, classId: string, priority: Option<string>)
    ensures Patched(doc, Edits(ClassEdits(seen, resources, classId, priority))).Some? <==>
      && Get(doc, RESOURCES).Some? && Get(doc, CLASS_ID).Some?
      && (QuotaEdits(seen, priority) != [] ==> Get(doc, QUOTA).Some?)
  {
    hide Get, Put, QuotaEdits, ApplyReplace, Apart;
    PlacesAreApart();
    ApplyAllOfThree(doc, Replace(RESOURCES, resources), Replace(CLASS_ID, Str(classId)), QuotaEdits(seen, priority));
    ReplaceIsPut(doc, RESOURCES, resources);
    if Get(doc, RESOURCES).Some? {
      var d1 := Put(doc, RESOURCES, resources);
      GetElsewhere(doc, RESOURCES, CLASS_ID, resources);
      GetElsewhere(doc, RESOURCES, QUOTA, resources);
      ReplaceIsPut(d1, CLASS_ID, Str(classId));
      if Get(doc, CLASS_ID).Some? {
        GetElsewhere(d1, CLASS_ID, QUOTA, Str(classId));
        QuotaEdited(Put(d1, CLASS_ID, Str(classId)), seen, priority);
      }
    }
  }

  const UNQUOTED := Obj(map[
    "metadata" := Obj(map["labels" := Obj(map[]), "annotations" := Obj(map["renku.io/resourceClassId" := Str("1")])]),
    "spec" := Obj(map["jupyterServer" := Obj(map["resources" := Null])])])

  /** A server without the label can get a class without a priority, but none with one. */
  lemma PriorityNeedsLabel()
    ensures Patched(UNQUOTED, Edits(ClassEdits(UNQUOTED, Null, "2", Some("high")))) == None
    ensures Patched(UNQUOTED, Edits(ClassEdits(UNQUOTED, Null, "2", None))).Some?
  {
    hide ApplyAll;
    ThreeTokens(UNQUOTED, RESOURCES);
    ThreeTokens(UNQUOTED, CLASS_ID);
    ThreeTokens(UNQUOTED, QUOTA);
    ClassChangesIff(UNQUOTED, UNQUOTED, Null, "2", Some("high"));
    ClassChangesIff(UNQUOTED, UNQUOTED, Null, "2", None);
  }

  /** The label of the quota, by its place in the object. */
  function QuotaLabel(doc: Json): Option<Json> {
    Get(doc, [Key("metadata"), Key("labels"), Key("renku.io/quota")])
  }

  lemma QuotaLabelAfter(doc: Json, seen: Json, priority: Option<string>, after: Json)
    requires Get(after, QUOTA) == QuotaAfter(doc, seen, priority)
    ensures match priority
      case Some(p) => p != "" ==> QuotaLabel(after) == Some(Str(p))
      case None => true
    ensures priority.None? || priority.value == "" ==>
              QuotaLabel(after) == if QuotaLabel(seen).Some? && QuotaLabel(seen).value.Str?
                                      && QuotaLabel(seen).value.text != ""
                                   then None else QuotaLabel(doc)
  {
    hide Get;
  }

  /** It changes resources, class and quota as asked, and keeps whose session it is. */
  lemma ClassChanges(doc: Json, seen: Json, resources: Json, classId: string, priority: Option<string>)
    requires Patched(doc, Edits(ClassEdits(seen, resources, classId, priority))).Some?
    ensures var d := Patched(doc, Edits(ClassEdits(seen, resources, classId, priority))).value;
      && Get(d, [Key("spec"), Key("jupyterServer"), Key("resources")]) == Some(resources)
      && Annotation(d, "renku.io/resourceClassId") == Some(Str(classId))
      && (match priority
          case Some(p) => p != "" ==> QuotaLabel(d) == Some(Str(p))
          case None => true)
      && (priority.None? || priority.value == "" ==>
            QuotaLabel(d) == if QuotaLabel(seen).Some? && QuotaLabel(seen).value.Str?
              && QuotaLabel(seen).value.text != ""
                             then None else QuotaLabel(doc))
      && forall path | Apart(RESOURCES, path) && Apart(CLASS_ID, path) && Apart(QUOTA, path) ::
         Get(d, path) == Get(doc, path)
  {
    hide Get, Put, QuotaEdits, ApplyReplace, Apart, HasText;
    PlacesAreApart();
    ClassChangesIff(doc, seen, resources, classId, priority);
    ApplyAllOfThree(doc, Replace(RESOURCES, resources), Replace(CLASS_ID, Str(classId)), QuotaEdits(seen, priority));
    ReplaceIsPut(doc, RESOURCES, resources);
    var d1 := Put(doc, RESOURCES, resources);
    GetPut(doc, RESOURCES, resources);
    GetElsewhere(doc, RESOURCES, CLASS_ID, resources);
    GetElsewhere(doc, RESOURCES, QUOTA, resources);
    ReplaceIsPut(d1, CLASS_ID, Str(classId));
    var d2 := Put(d1, CLASS_ID, Str(classId));
    GetPut(d1, CLASS_ID, Str(classId));
    GetElsewhere(d1, CLASS_ID, RESOURCES, Str(classId));
    GetElsewhere(d1, CLASS_ID, QUOTA, Str(classId));
    QuotaEdited(d2, seen, priority);
    QuotaLabelAfter(doc, seen, priority, ApplyAll(d2, QuotaEdits(seen, priority)).value);
    QuotaSpares(d2, seen, priority, RESOURCES);
    QuotaSpares(d2, seen, priority, CLASS_ID);
    forall path | Apart(RESOURCES, path) && Apart(CLASS_ID, path) && Apart(QUOTA, path)
      ensures Get(ApplyAll(d2, QuotaEdits(seen, priority)).value, path) == Get(doc, path)
    {
      GetElsewhere(doc, RESOURCES, path, resources);
      GetElsewhere(d1, CLASS_ID, path, Str(classId));
      QuotaSpares(d2, seen, priority, path);
    }
  }

  lemma QuotaSpares(doc: Json, seen: Json, priority: Option<string>, path: Path)
    requires ApplyAll(doc, QuotaEdits(seen, priority)).Some? && Apart(QUOTA, path)
    ensures Get(ApplyAll(doc, QuotaEdits(seen, priority)).value, path) == Get(doc, path)
  {
    hide ApplyAll, Apart, Get;
    SparedStays(doc, QuotaEdits(seen, priority), path);
  }

  /** The label of the user has another name than that of the quota, whatever the prefix. */
  lemma ClassKeepsUser(prefix: string, seen: Json, resources: Json, classId: string, priority: Option<string>)
    ensures KeepsLabel(prefix + "safe-username", Edits(ClassEdits(seen, resources, classId, priority)))
  {
    hide ClassEdits, Apart, ApplyAll;
    var userLabel := prefix + "safe-username";
    assert userLabel[|userLabel| - 1] != QUOTA_LABEL[|QUOTA_LABEL| - 1];
    LabelsAreApart(userLabel);
    var p := Edits(ClassEdits(seen, resources, classId, priority));
    forall doc | Patched(doc, p).Some?
      ensures Sessions.LabelIn(Patched(doc, p).value, userLabel) == Sessions.LabelIn(doc, userLabel)
    {
      ClassChanges(doc, seen, resources, classId, priority);
    }
  }

  lemma LabelsAreApart(userLabel: string)
    requires userLabel != QUOTA_LABEL
    ensures Apart(QUOTA, Sessions.LabelPath(userLabel)) && Apart(CLASS_ID, Sessions.LabelPath(userLabel))
    ensures Apart(RESOURCES, Sessions.LabelPath(userLabel))
  {
    var path := Sessions.LabelPath(userLabel);
    assert path[1..] == [Key("labels"), Key(userLabel)] && path[1..][1..] == [Key(userLabel)];
    assert QUOTA[1..] == [Key("labels"), Key(QUOTA_LABEL)] && QUOTA[1..][1..] == [Key(QUOTA_LABEL)];
    assert CLASS_ID[1..] == [Key("annotations"), Key("renku.io/resourceClassId")];
  }
}
