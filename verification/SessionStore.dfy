/**
 Requests that create, delete and patch sessions, interleaved with each other and with deletions from
 outside, over two namespaces and caches that may be stale.  Every answer of the watcher comes from
 some earlier state of each namespace, and not necessarily from the same one for both.
 */
module SessionStore {
  import opened Prelude
  import opened Json
  import opened Sessions
  import opened ServerPatches

  /** The configured namespaces, and the owner that the name of a server determines. */
  datatype Config = Config(renkuNs: string, sessionNs: string, userLabel: string, bypass: bool, owner: string -> string)

  datatype Goal = Create(manifest: Json) | Delete | Patch(patch: ServerPatch)

  /** How far a request has got. */
  datatype Phase =
    | Start
    | SessionRead(inSession: Option<Session>)   // the fallback has asked the session namespace
    | Looked(found: Option<Session>)            // the lookup is over, and the request goes on
    | Waiting(tries: nat)                       // the server is made, and was not seen this often
    | Finished(result: Result<Option<Session>, Failure>)

  datatype Request = Request(name: string, user: string, goal: Goal, phase: Phase)

  datatype Snapshot = Snapshot(renku: Contents, session: Contents)

  /** All that the cluster has been, the present last, and the requests. */
  datatype State = State(history: seq<Snapshot>, requests: seq<Request>)

  datatype Step =
    | Arrive(name: string, user: string, goal: Goal)
    | AskCaches(r: nat, renkuAt: nat, sessionAt: nat)
    | CachesFail(r: nat)
    | AskSession(r: nat, ok: bool)
    | AskRenku(r: nat, ok: bool)
    | Perform(r: nat, ok: bool)
    | Await(r: nat, ok: bool)
    | Vanish(fromRenku: bool, gone: string)

  function Now(s: State): Snapshot
    requires s.history != []
  {
    s.history[|s.history| - 1]
  }

  function ToPhase(s: State, r: nat, phase: Phase): State
    requires r < |s.requests|
  {
    s.(requests := s.requests[r := s.requests[r].(phase := phase)])
  }

  function Become(s: State, snapshot: Snapshot): State {
    s.(history := s.history + [snapshot])
  }

  /** What create_server, delete_server and patch_server do with the result of get_server. */
  function AfterLookup(goal: Goal, result: Result<Option<Session>, Failure>): Phase {
    match result
    case Err(e) => Finished(Err(e))
    case Ok(found) =>
      if goal.Create? then if found.Some? then Finished(Ok(found)) else Looked(None)
      else if found.None? then Finished(Err(MissingResourceError)) else Looked(found)
  }

  function Refusal(goal: Goal): Failure {
    match goal
    case Create(_) => CannotStartServerError
    case Delete => DeleteServerError
    case Patch(_) => PatchServerError
  }

  /** How often the creator of a server asks for it. */
  const TRIES: nat := 10

  function Made(c: Config, q: Request): Session
    requires q.goal.Create?
  {
    Session(q.name, c.sessionNs, q.goal.manifest)
  }

  function Without(contents: Contents, name: string): Contents {
    map n | n in contents && n != name :: contents[n]
  }

  /** The namespace that the found server says it is in. */
  function InRenku(c: Config, found: Option<Session>): bool {
    found.Some? && found.value.namespace == c.renkuNs
  }

  function Target(c: Config, now: Snapshot, q: Request): Contents
    requires q.phase.Looked?
  {
    if InRenku(c, q.phase.found) then now.renku else now.session
  }

  /** One server of a namespace after a patch, or None when there is none or the patch does not apply. */
  function PatchedServer(contents: Contents, name: string, p: ServerPatch): Option<Session> {
    if name !in contents then None
    else
      match Patched(contents[name].doc, p)
      case None => None
      case Some(doc) => Some(contents[name].(doc := doc))
  }

  /** The cluster after the request has been carried out, or None when the API refuses it. */
  function Performed(c: Config, now: Snapshot, q: Request): Option<Snapshot>
    requires q.phase.Looked?
  {
    var target := Target(c, now, q);
    match q.goal
    case Create(_) =>
      if q.name in now.session then None else Some(now.(session := now.session[q.name := Made(c, q)]))
    case Delete =>
      if q.name !in target then None
      else if InRenku(c, q.phase.found) then Some(now.(renku := Without(now.renku, q.name)))
      else Some(now.(session := Without(now.session, q.name)))
    case Patch(p) =>
      match PatchedServer(target, q.name, p)
      case None => None
      case Some(x) =>
        Some(if InRenku(c, q.phase.found) then now.(renku := now.renku[q.name := x])
             else now.(session := now.session[q.name := x]))
  }

  /**
   Where a request goes when it has been carried out: only a creator waits, and only a patch answers
   with the server.
   */
  function AfterPerform(c: Config, now: Snapshot, q: Request): Phase
    requires q.phase.Looked?
  {
    match q.goal
    case Create(_) => Waiting(0)
    case Delete => Finished(Ok(None))
    case Patch(p) => Finished(Ok(PatchedServer(Target(c, now, q), q.name, p)))
  }

  /** The creator has asked for the server once more. */
  function AfterRead(tries: nat, seen: Option<Session>): Phase {
    if seen.Some? then Finished(Ok(seen))
    else if tries + 1 < TRIES then Waiting(tries + 1)
    else Finished(Err(RetryTimeoutError))
  }

  ghost function CachesAt(c: Config, s: State, renkuAt: nat, sessionAt: nat): map<string, Contents>
    requires renkuAt < |s.history| && sessionAt < |s.history|
  {
    map[c.renkuNs := s.history[renkuAt].renku, c.sessionNs := s.history[sessionAt].session]
  }

  /**
   What the callers take care of: a server is created under a name of its own user and carries the
   user's label, and no patch changes that label.  Anybody may ask to delete or patch any server.
   */
  ghost predicate Proper(c: Config, name: string, user: string, goal: Goal) {
    match goal
    case Create(manifest) => user == c.owner(name) && LabelIn(manifest, c.userLabel) == Some(user)
    case Delete => true
    case Patch(p) => KeepsLabel(c.userLabel, p)
  }

  /** One step of one request, or of the world outside. */
  ghost function Apply(c: Config, s: State, step: Step): Option<State>
    requires s.history != []
  {
    match step
    case Arrive(name, user, goal) =>
      if Proper(c, name, user, goal) then Some(s.(requests := s.requests + [Request(name, user, goal, Start)]))
      else None
    case AskCaches(r, renkuAt, sessionAt) =>
      if r < |s.requests| && s.requests[r].phase.Start? && renkuAt < |s.history| && sessionAt < |s.history| then
        var q := s.requests[r];
        Some(ToPhase(s, r,
                     AfterLookup(q.goal,
                                 CachedLookup(CachesAt(c, s, renkuAt, sessionAt), c.userLabel, q.name, q.user))))
      else None
    case CachesFail(r) =>
      if r < |s.requests| && s.requests[r].phase.Start? && !c.bypass then
        Some(ToPhase(s, r, Finished(Err(JSCacheError))))
      else None
    case AskSession(r, ok) =>
      if r < |s.requests| && s.requests[r].phase.Start? && c.bypass then
        Some(ToPhase(s, r,
                     if ok then SessionRead(Hit(Now(s).session, s.requests[r].name))
                     else Finished(Err(IntermittentError))))
      else None
    case AskRenku(r, ok) =>
      if r < |s.requests| && s.requests[r].phase.SessionRead? then
        var q := s.requests[r];
        var answer := Combined(q.phase.inSession, Hit(Now(s).renku, q.name), c.userLabel, q.user);
        Some(ToPhase(s, r, if ok then AfterLookup(q.goal, answer) else Finished(Err(IntermittentError))))
      else None
    case Perform(r, ok) =>
      if r < |s.requests| && s.requests[r].phase.Looked? then
        var q := s.requests[r];
        var after := Performed(c, Now(s), q);
        if ok && after.Some? then
          Some(Become(ToPhase(s, r, AfterPerform(c, Now(s), q)), after.value))
        else Some(ToPhase(s, r, Finished(Err(Refusal(q.goal)))))
      else None
    case Await(r, ok) =>
      if r < |s.requests| && s.requests[r].phase.Waiting? then
        var q := s.requests[r];
        Some(ToPhase(s, r,
                     if ok then AfterRead(q.phase.tries, Hit(Now(s).session, q.name))
                     else Finished(Err(IntermittentError))))
      else None
    case Vanish(fromRenku, gone) =>
      var now := Now(s);
      Some(Become(s,
                  if fromRenku then now.(renku := Without(now.renku, gone))
                  else now.(session := Without(now.session, gone))))
  }

  /** Anybody may ask to delete any server, and to patch it in a way that keeps its label. */
  lemma AnybodyMayAsk(c: Config, s: State, name: string, user: string, goal: Goal)
    requires s.history != []
    requires match goal
      case Create(manifest) =>
        user == c.owner(name) && Get(manifest, [Key("metadata"), Key("labels"), Key(c.userLabel)]) == Some(Str(user))
      case Delete => true
      case Patch(p) => KeepsLabel(c.userLabel, p)
    ensures var s' := Apply(c, s, Arrive(name, user, goal));
      s'.Some? && s'.value.history == s.history && s'.value.requests == s.requests + [Request(name, user, goal, Start)]
  {
    if goal.Create? {
      assert NamesUser(goal.manifest, c.userLabel, user);
      LabelledIs(goal.manifest, c.userLabel, user);
    }
  }

  lemma LabelledIs(doc: Json, userLabel: string, user: string)
    ensures NamesUser(doc, userLabel, user) <==> LabelIn(doc, userLabel) == Some(user)
  {
    hide Get;
  }

  ghost function Run(c: Config, s: State, steps: seq<Step>): Option<State>
    requires s.history != []
    decreases |steps|
  {
    if steps == [] then Some(s)
    else
      match Apply(c, s, steps[0])
      case None => None
      case Some(s') => if s'.history == [] then None else Run(c, s', steps[1..])
  }

  // --------------------------------------------------------------- invariant

  ghost predicate Placed(c: Config, contents: Contents, ns: string) {
    forall name | name in contents ::
      var x := contents[name];
      x.name == name && x.namespace == ns && LabelOf(x, c.userLabel) == Some(c.owner(name))
  }

  ghost predicate OneOfEach(snapshot: Snapshot) {
    forall name | name in snapshot.session :: name !in snapshot.renku
  }

  ghost predicate GoodSnapshot(c: Config, snapshot: Snapshot) {
    Placed(c, snapshot.renku, c.renkuNs) && Placed(c, snapshot.session, c.sessionNs) && OneOfEach(snapshot)
  }

  ghost predicate RenkuShrinks(history: seq<Snapshot>) {
    forall i, j | 0 <= i <= j < |history| :: history[j].renku.Keys <= history[i].renku.Keys
  }

  /** What a request in flight may rely on, and what a finished one has answered. */
  ghost predicate Informed(c: Config, now: Snapshot, q: Request) {
    && Proper(c, q.name, q.user, q.goal)
    && match q.phase
       case Start => true
       case SessionRead(None) => true
       case SessionRead(Some(x)) =>
         q.name !in now.renku && x.name == q.name && x.namespace == c.sessionNs
           && LabelOf(x, c.userLabel) == Some(c.owner(q.name))
       case Looked(found) =>
         && q.user == c.owner(q.name)
         && (if q.goal.Create? then q.name !in now.renku && found.None? else found.Some? && Rightful(c, q, found.value))
       case Waiting(tries) => q.goal.Create? && tries < TRIES
       case Finished(Ok(None)) => q.user == c.owner(q.name)
       case Finished(Ok(Some(x))) => Rightful(c, q, x)
       case Finished(Err(e)) => q.user != c.owner(q.name) ==> e != Refusal(q.goal)
  }

  /** The server is the one that was asked for, and belongs to the user who asked. */
  ghost predicate Rightful(c: Config, q: Request, x: Session) {
    && x.name == q.name && q.user == c.owner(q.name) && LabelOf(x, c.userLabel) == Some(q.user)
    && (x.namespace == c.renkuNs || x.namespace == c.sessionNs)
  }

  /** At some moment the session namespace had this name. */
  ghost predicate WasThere(history: seq<Snapshot>, name: string) {
    exists k | 0 <= k < |history| :: name in history[k].session
  }

  ghost predicate WaitersHaveMade(s: State) {
    forall r | 0 <= r < |s.requests| && s.requests[r].phase.Waiting? :: WasThere(s.history, s.requests[r].name)
  }

  ghost predicate Inv(c: Config, s: State) {
    && s.history != []
    && c.renkuNs != c.sessionNs
    && (forall k | 0 <= k < |s.history| :: GoodSnapshot(c, s.history[k]))
    && RenkuShrinks(s.history)
    && (forall r | 0 <= r < |s.requests| :: Informed(c, Now(s), s.requests[r]))
    && WaitersHaveMade(s)
  }

  ghost predicate Init(c: Config, s: State) {
    c.renkuNs != c.sessionNs && |s.history| == 1 && GoodSnapshot(c, s.history[0]) && s.requests == []
  }

  /** A cached answer comes from good snapshots: when a creator finds nothing, the name has left the Renku namespace. */
  lemma CachedAnswer(c: Config, s: State, q: Request, renkuAt: nat, sessionAt: nat)
    requires Inv(c, s) && Proper(c, q.name, q.user, q.goal) && renkuAt < |s.history| && sessionAt < |s.history|
    ensures var result := CachedLookup(CachesAt(c, s, renkuAt, sessionAt), c.userLabel, q.name, q.user);
      && Informed(c, Now(s), q.(phase := AfterLookup(q.goal, result)))
  {
    GetServerAgrees(s.history[renkuAt].renku, s.history[sessionAt].session, c.renkuNs, c.sessionNs, c.userLabel, q.name,
                    q.user);
    assert GoodSnapshot(c, s.history[renkuAt]) && GoodSnapshot(c, s.history[sessionAt]);
    assert Now(s).renku.Keys <= s.history[renkuAt].renku.Keys;
  }

  /** Only one request changes, and the cluster does not. */
  lemma PhaseKeepsInv(c: Config, s: State, r: nat, phase: Phase)
    requires Inv(c, s) && r < |s.requests| && Informed(c, Now(s), s.requests[r].(phase := phase))
    requires phase.Waiting? ==> WasThere(s.history, s.requests[r].name)
    ensures Inv(c, ToPhase(s, r, phase))
  {
  }

  /** The cluster moves to a good state in which the Renku namespace has nothing new. */
  lemma BecomeKeepsInv(c: Config, s: State, snapshot: Snapshot)
    requires Inv(c, s) && GoodSnapshot(c, snapshot) && snapshot.renku.Keys <= Now(s).renku.Keys
    ensures Inv(c, Become(s, snapshot))
  {
    var s' := Become(s, snapshot);
    forall i, j | 0 <= i <= j < |s'.history|
      ensures s'.history[j].renku.Keys <= s'.history[i].renku.Keys
    {
      if j == |s.history| && i < j {
        assert Now(s).renku.Keys <= s.history[i].renku.Keys;
      }
    }
    forall r | 0 <= r < |s.requests| && s.requests[r].phase.Waiting?
      ensures WasThere(s'.history, s.requests[r].name)
    {
      var k :| 0 <= k < |s.history| && s.requests[r].name in s.history[k].session;
      assert s'.history[k] == s.history[k];
    }
  }

  lemma PerformedIsGood(c: Config, s: State, q: Request)
    requires Inv(c, s) && q.phase.Looked? && Informed(c, Now(s), q) && Performed(c, Now(s), q).Some?
    ensures GoodSnapshot(c, Performed(c, Now(s), q).value)
    ensures Performed(c, Now(s), q).value.renku.Keys <= Now(s).renku.Keys
  {
    hide Patched, LabelIn;
    assert GoodSnapshot(c, Now(s));
    if q.goal.Patch? {
      PatchIsRightful(c, s, q);
    }
  }

  /** A patch changes the document of the server that was asked for, which stays with its user. */
  lemma PatchIsRightful(c: Config, s: State, q: Request)
    requires Inv(c, s) && q.phase.Looked? && q.goal.Patch? && Informed(c, Now(s), q)
    requires PatchedServer(Target(c, Now(s), q), q.name, q.goal.patch).Some?
    ensures var was := Target(c, Now(s), q)[q.name];
      var x := PatchedServer(Target(c, Now(s), q), q.name, q.goal.patch).value;
      && x == was.(doc := x.doc) && LabelOf(x, c.userLabel) == LabelOf(was, c.userLabel)
      && Rightful(c, q, x)
  {
    hide Patched, LabelIn;
    assert GoodSnapshot(c, Now(s));
    assert KeepsLabel(c.userLabel, q.goal.patch);
    var was := Target(c, Now(s), q)[q.name];
    assert Patched(was.doc, q.goal.patch).Some?;
  }

  lemma PerformKeepsInv(c: Config, s: State, r: nat)
    requires Inv(c, s) && r < |s.requests| && s.requests[r].phase.Looked? && Performed(c, Now(s), s.requests[r]).Some?
    ensures var q := s.requests[r];
      Inv(c, Become(ToPhase(s, r, AfterPerform(c, Now(s), q)), Performed(c, Now(s), q).value))
  {
    hide GoodSnapshot, Performed, PatchedServer, Target, Proper, RenkuShrinks;
    var q := s.requests[r];
    var after := Performed(c, Now(s), q).value;
    var phase := AfterPerform(c, Now(s), q);
    PerformedIsGood(c, s, q);
    BecomeKeepsInv(c, s, after);
    if q.goal.Create? {
      CreatedIsThere(c, s, q);
      assert Become(s, after).history[|s.history|] == after;
      assert WasThere(Become(s, after).history, q.name);
    } else if q.goal.Patch? {
      PerformedIsPatched(c, s, q);
      PatchIsRightful(c, s, q);
    }
    PhaseKeepsInv(c, Become(s, after), r, phase);
    assert ToPhase(Become(s, after), r, phase) == Become(ToPhase(s, r, phase), after);
  }

  lemma CreatedIsThere(c: Config, s: State, q: Request)
    requires s.history != [] && q.phase.Looked? && q.goal.Create? && Performed(c, Now(s), q).Some?
    ensures q.name in Performed(c, Now(s), q).value.session
  {
  }

  lemma PerformedIsPatched(c: Config, s: State, q: Request)
    requires s.history != [] && q.phase.Looked? && q.goal.Patch? && Performed(c, Now(s), q).Some?
    ensures PatchedServer(Target(c, Now(s), q), q.name, q.goal.patch).Some?
  {
  }

  lemma InvStep(c: Config, s: State, step: Step)
    requires Inv(c, s) && Apply(c, s, step).Some?
    ensures Inv(c, Apply(c, s, step).value)
  {
    hide CachedLookup, Performed, GoodSnapshot, Proper, RenkuShrinks, AfterPerform, Rightful;
    match step
    case Arrive(name, user, goal) =>
    case AskCaches(r, renkuAt, sessionAt) =>
      var q := s.requests[r];
      CachedAnswer(c, s, q, renkuAt, sessionAt);
      PhaseKeepsInv(c, s, r,
                    AfterLookup(q.goal, CachedLookup(CachesAt(c, s, renkuAt, sessionAt), c.userLabel, q.name, q.user)));
    case CachesFail(r) => PhaseKeepsInv(c, s, r, Finished(Err(JSCacheError)));
    case AskSession(r, ok) => AskSessionKeepsInv(c, s, r, ok);
    case AskRenku(r, ok) => AskRenkuKeepsInv(c, s, r, ok);
    case Perform(r, ok) =>
      var q := s.requests[r];
      if ok && Performed(c, Now(s), q).Some? {
        PerformKeepsInv(c, s, r);
      } else {
        PhaseKeepsInv(c, s, r, Finished(Err(Refusal(q.goal))));
      }
    case Await(r, ok) => AwaitKeepsInv(c, s, r, ok);
    case Vanish(fromRenku, gone) => VanishKeepsInv(c, s, fromRenku, gone);
  }

  lemma AskSessionKeepsInv(c: Config, s: State, r: nat, ok: bool)
    requires Inv(c, s) && r < |s.requests| && s.requests[r].phase.Start?
    ensures Inv(c, ToPhase(s, r,
                           if ok then SessionRead(Hit(Now(s).session, s.requests[r].name))
                           else Finished(Err(IntermittentError))))
  {
    hide Proper, RenkuShrinks;
    assert GoodSnapshot(c, Now(s));
    PhaseKeepsInv(c, s, r,
                  if ok then SessionRead(Hit(Now(s).session, s.requests[r].name))
                  else Finished(Err(IntermittentError)));
  }

  lemma AskRenkuKeepsInv(c: Config, s: State, r: nat, ok: bool)
    requires Inv(c, s) && r < |s.requests| && s.requests[r].phase.SessionRead?
    ensures var q := s.requests[r];
      var answer := Combined(q.phase.inSession, Hit(Now(s).renku, q.name), c.userLabel, q.user);
      Inv(c, ToPhase(s, r, if ok then AfterLookup(q.goal, answer) else Finished(Err(IntermittentError))))
  {
    hide RenkuShrinks;
    var q := s.requests[r];
    assert GoodSnapshot(c, Now(s));
    var answer := Combined(q.phase.inSession, Hit(Now(s).renku, q.name), c.userLabel, q.user);
    PhaseKeepsInv(c, s, r, if ok then AfterLookup(q.goal, answer) else Finished(Err(IntermittentError)));
  }

  lemma AwaitKeepsInv(c: Config, s: State, r: nat, ok: bool)
    requires Inv(c, s) && r < |s.requests| && s.requests[r].phase.Waiting?
    ensures var q := s.requests[r];
      Inv(c, ToPhase(s, r,
                     if ok then AfterRead(q.phase.tries, Hit(Now(s).session, q.name))
                     else Finished(Err(IntermittentError))))
  {
    hide RenkuShrinks;
    var q := s.requests[r];
    assert GoodSnapshot(c, Now(s));
    PhaseKeepsInv(c, s, r,
                  if ok then AfterRead(q.phase.tries, Hit(Now(s).session, q.name))
                  else Finished(Err(IntermittentError)));
  }

  lemma VanishKeepsInv(c: Config, s: State, fromRenku: bool, gone: string)
    requires Inv(c, s)
    ensures var now := Now(s);
      Inv(c, Become(s,
                    if fromRenku then now.(renku := Without(now.renku, gone))
                    else now.(session := Without(now.session, gone))))
  {
    var now := Now(s);
    assert GoodSnapshot(c, now);
    BecomeKeepsInv(c, s,
                   if fromRenku then now.(renku := Without(now.renku, gone))
                   else now.(session := Without(now.session, gone)));
  }

  lemma {:induction false} InvRun(c: Config, s: State, steps: seq<Step>)
    requires Inv(c, s) && Run(c, s, steps).Some?
    ensures Inv(c, Run(c, s, steps).value)
    decreases |steps|
  {
    if steps != [] {
      InvStep(c, s, steps[0]);
      InvRun(c, Apply(c, s, steps[0]).value, steps[1..]);
    }
  }

  // ------------------------------------------------------------------ results

  /** In every reachable state, now and at every moment before, no name is in both namespaces. */
  lemma OneServerPerName(c: Config, s0: State, steps: seq<Step>, s: State)
    requires Init(c, s0) && Run(c, s0, steps) == Some(s)
    ensures forall k, name | 0 <= k < |s.history| && name in s.history[k].session :: name !in s.history[k].renku
  {
    InvRun(c, s0, steps);
    forall k, name | 0 <= k < |s.history| && name in s.history[k].session
      ensures name !in s.history[k].renku
    {
      assert GoodSnapshot(c, s.history[k]);
    }
  }

  /** The fallback, which asks the session namespace first, never finds two servers. */
  lemma FallbackNeverFindsTwo(c: Config, s0: State, steps: seq<Step>, s: State, r: nat)
    requires Init(c, s0) && Run(c, s0, steps) == Some(s) && s.history != []
    requires r < |s.requests| && s.requests[r].phase.SessionRead?
    ensures var q := s.requests[r];
      && Combined(q.phase.inSession, Hit(Now(s).renku, q.name), c.userLabel, q.user).Ok?
      && Apply(c, s, AskRenku(r, true)).Some?
      && Apply(c, s, AskRenku(r, true)).value.requests[r].phase != Finished(Err(ProgrammingError))
  {
    InvRun(c, s0, steps);
    assert Informed(c, Now(s), s.requests[r]);
  }

  /** A request that is carried out changes one server of its own user, or adds one whose name is nowhere yet. */
  lemma PerformTouchesOwnServer(c: Config, s0: State, steps: seq<Step>, s: State, r: nat)
    requires Init(c, s0) && Run(c, s0, steps) == Some(s) && s.history != []
    requires r < |s.requests| && s.requests[r].phase.Looked? && Performed(c, Now(s), s.requests[r]).Some?
    ensures var q := s.requests[r]; var now := Now(s); var after := Performed(c, now, q).value;
      if q.goal.Create? then
        && q.name !in now.renku && q.name !in now.session
        && after == now.(session := now.session[q.name := Made(c, q)])
        && LabelOf(Made(c, q), c.userLabel) == Some(q.user)
      else
        && (forall name | name != q.name ::
            Hit(after.renku, name) == Hit(now.renku, name) && Hit(after.session, name) == Hit(now.session, name))
        && (q.name in now.renku <==> q.name !in now.session)
        && var x := if q.name in now.renku then now.renku[q.name] else now.session[q.name];
           && LabelOf(x, c.userLabel) == Some(q.user)
           && (q.goal.Delete? ==> q.name !in after.renku && q.name !in after.session)
           && (q.goal.Patch? ==>
                 && Patched(x.doc, q.goal.patch).Some?
                 && var x' := x.(doc := Patched(x.doc, q.goal.patch).value);
                    && (if q.name in now.renku then after.renku else after.session)
                       == (if q.name in now.renku then now.renku else now.session)[q.name := x']
                    && LabelOf(x', c.userLabel) == Some(q.user))
  {
    hide Patched, LabelIn;
    InvRun(c, s0, steps);
    assert GoodSnapshot(c, Now(s)) && Informed(c, Now(s), s.requests[r]);
    var q := s.requests[r];
    if q.goal.Patch? {
      PatchIsRightful(c, s, q);
    }
  }

  /** Whatever server a request answers with is the one that was asked for, and belongs to the user who asked. */
  lemma AnswersAreOwn(c: Config, s0: State, steps: seq<Step>, s: State, r: nat)
    requires Init(c, s0) && Run(c, s0, steps) == Some(s)
    requires r < |s.requests| && s.requests[r].phase.Finished? && s.requests[r].phase.result.Ok?
    ensures var q := s.requests[r];
      && q.user == c.owner(q.name)
      && (q.phase.result.value.Some? ==>
          q.phase.result.value.value.name == q.name && LabelOf(q.phase.result.value.value, c.userLabel) == Some(q.user))
  {
    InvRun(c, s0, steps);
    assert Informed(c, Now(s), s.requests[r]);
  }

  /** The step is taken by this request. */
  predicate IsOf(step: Step, r: nat) {
    match step
    case Arrive(_, _, _) => false
    case AskCaches(i, _, _) => i == r
    case CachesFail(i) => i == r
    case AskSession(i, _) => i == r
    case AskRenku(i, _) => i == r
    case Perform(i, _) => i == r
    case Await(i, _) => i == r
    case Vanish(_, _) => false
  }

  /**
   A request to delete or patch somebody else's server fails before the API is asked to do it, and
   none of its steps changes anything.
   */
  lemma StrangersChangeNothing(c: Config, s0: State, steps: seq<Step>, s: State, r: nat, step: Step)
    requires Init(c, s0) && Run(c, s0, steps) == Some(s) && s.history != []
    requires r < |s.requests| && s.requests[r].user != c.owner(s.requests[r].name)
    ensures var phase := s.requests[r].phase;
      phase.Start? || phase.SessionRead?
        || (phase.Finished? && phase.result.Err? && phase.result.error != Refusal(s.requests[r].goal))
    ensures IsOf(step, r) && Apply(c, s, step).Some? ==> Apply(c, s, step).value.history == s.history
  {
    hide CachedLookup, Performed;
    InvRun(c, s0, steps);
    assert Informed(c, Now(s), s.requests[r]);
  }

  /**
   A creator that reads the session namespace and does not get its server has lost it: it was there
   at some moment.  If it is there, the read ends the wait, and the server is the creator's.
   */
  lemma WaitEnds(c: Config, s0: State, steps: seq<Step>, s: State, r: nat)
    requires Init(c, s0) && Run(c, s0, steps) == Some(s) && s.history != []
    requires r < |s.requests| && s.requests[r].phase.Waiting?
    ensures var q := s.requests[r];
      && WasThere(s.history, q.name) && q.phase.tries < TRIES
      && Apply(c, s, Await(r, true)).Some?
      && var phase := Apply(c, s, Await(r, true)).value.requests[r].phase;
         if q.name in Now(s).session then
           phase == Finished(Ok(Some(Now(s).session[q.name])))
             && LabelOf(Now(s).session[q.name], c.userLabel) == Some(q.user)
         else
           phase == if q.phase.tries + 1 < TRIES then Waiting(q.phase.tries + 1) else Finished(Err(RetryTimeoutError))
  {
    InvRun(c, s0, steps);
    assert GoodSnapshot(c, Now(s)) && Informed(c, Now(s), s.requests[r]);
  }

  // ------------------------------------------------ requests that go through

  /** The name is in one namespace, and its server is labelled with the user. */
  ghost predicate Owns(c: Config, now: Snapshot, name: string, user: string) {
    && (name in now.renku <==> name !in now.session)
    && var x := if name in now.renku then now.renku[name] else now.session[name];
       Get(x.doc, [Key("metadata"), Key("labels"), Key(c.userLabel)]) == Some(Str(user))
  }

  /** A lookup in caches that show the present. */
  lemma LookupSeesPresent(c: Config, s: State, name: string, user: string)
    requires s.history != [] && c.renkuNs != c.sessionNs
    ensures CachedLookup(CachesAt(c, s, |s.history| - 1, |s.history| - 1), c.userLabel, name, user)
         == Combined(Hit(Now(s).session, name), Hit(Now(s).renku, name), c.userLabel, user)
  {
    GetServerAgrees(Now(s).renku, Now(s).session, c.renkuNs, c.sessionNs, c.userLabel, name, user);
  }

  /** The server of the name, wherever it is. */
  function ServerOf(now: Snapshot, name: string): Session
    requires name in now.renku || name in now.session
  {
    if name in now.renku then now.renku[name] else now.session[name]
  }

  lemma GoodNow(c: Config, s0: State, steps: seq<Step>, s: State)
    requires Init(c, s0) && Run(c, s0, steps) == Some(s) && s.history != []
    ensures c.renkuNs != c.sessionNs && Placed(c, Now(s).renku, c.renkuNs) && Placed(c, Now(s).session, c.sessionNs)
  {
    hide Run;
    InvRun(c, s0, steps);
    assert GoodSnapshot(c, Now(s));
  }

  lemma OwnerIsLookedUp(c: Config, s0: State, steps: seq<Step>, s: State, r: nat) returns (s1: State)
    requires Init(c, s0) && Run(c, s0, steps) == Some(s) && s.history != []
    requires r < |s.requests| && s.requests[r].phase.Start? && !s.requests[r].goal.Create?
    requires Owns(c, Now(s), s.requests[r].name, s.requests[r].user)
    ensures Apply(c, s, AskCaches(r, |s.history| - 1, |s.history| - 1)) == Some(s1)
    ensures s1 == ToPhase(s, r, Looked(Some(ServerOf(Now(s), s.requests[r].name))))
    ensures InRenku(c, Some(ServerOf(Now(s), s.requests[r].name))) <==> s.requests[r].name in Now(s).renku
  {
    hide CachedLookup, Run, Init, Performed, PatchedServer, Without, Proper;
    GoodNow(c, s0, steps, s);
    LookupSeesPresent(c, s, s.requests[r].name, s.requests[r].user);
    s1 := Apply(c, s, AskCaches(r, |s.history| - 1, |s.history| - 1)).value;
  }

  /** An owner's delete, looked up in caches that show the present and then carried out, removes just this server. */
  lemma OwnerDeletes(c: Config, s0: State, steps: seq<Step>, s: State, r: nat) returns (s1: State, s2: State)
    requires Init(c, s0) && Run(c, s0, steps) == Some(s) && s.history != []
    requires r < |s.requests| && s.requests[r].phase.Start? && s.requests[r].goal.Delete?
    requires Owns(c, Now(s), s.requests[r].name, s.requests[r].user)
    ensures Apply(c, s, AskCaches(r, |s.history| - 1, |s.history| - 1)) == Some(s1) && s1.history == s.history
    ensures Apply(c, s1, Perform(r, true)) == Some(s2) && |s2.requests| == |s.requests|
    ensures var name := s.requests[r].name;
      s2.history == s.history + [Snapshot(Now(s).renku - {name}, Now(s).session - {name})]
    ensures s2.requests[r].phase == Finished(Ok(None))
  {
    hide CachedLookup, Run, Init;
    s1 := OwnerIsLookedUp(c, s0, steps, s, r);
    s2 := Apply(c, s1, Perform(r, true)).value;
    var now, name := Now(s), s.requests[r].name;
    assert Without(now.renku, name) == now.renku - {name} && Without(now.session, name) == now.session - {name};
    assert name !in now.renku ==> now.renku - {name} == now.renku;
    assert name !in now.session ==> now.session - {name} == now.session;
  }

  /** An owner's patch that applies changes the document of just this server, and answers with it. */
  lemma OwnerPatches(c: Config, s0: State, steps: seq<Step>, s: State, r: nat) returns (s1: State, s2: State)
    requires Init(c, s0) && Run(c, s0, steps) == Some(s) && s.history != []
    requires r < |s.requests| && s.requests[r].phase.Start? && s.requests[r].goal.Patch?
    requires var q := s.requests[r]; var now := Now(s);
      && Owns(c, now, q.name, q.user)
      && Patched(ServerOf(now, q.name).doc, q.goal.patch).Some?
    ensures Apply(c, s, AskCaches(r, |s.history| - 1, |s.history| - 1)) == Some(s1) && s1.history == s.history
    ensures Apply(c, s1, Perform(r, true)) == Some(s2) && |s2.requests| == |s.requests|
    ensures var q := s.requests[r]; var now := Now(s);
      var x := ServerOf(now, q.name);
      var x' := Session(x.name, x.namespace, Patched(x.doc, q.goal.patch).value);
      && s2.requests[r].phase == Finished(Ok(Some(x')))
      && s2.history == s.history + [if q.name in now.renku then Snapshot(now.renku[q.name := x'], now.session)
                                    else Snapshot(now.renku, now.session[q.name := x'])]
  {
    hide CachedLookup, Patched, Run, Init;
    s1 := OwnerIsLookedUp(c, s0, steps, s, r);
    s2 := Apply(c, s1, Perform(r, true)).value;
  }

  /** A create of a name that is nowhere makes the server in the session namespace, and sees it at its first read. */
  lemma CreatorCreates(c: Config, s0: State, steps: seq<Step>, s: State, r: nat)
    returns (s1: State, s2: State, s3: State)
    requires Init(c, s0) && Run(c, s0, steps) == Some(s) && s.history != []
    requires r < |s.requests| && s.requests[r].phase.Start? && s.requests[r].goal.Create?
    requires s.requests[r].name !in Now(s).renku && s.requests[r].name !in Now(s).session
    ensures Apply(c, s, AskCaches(r, |s.history| - 1, |s.history| - 1)) == Some(s1) && s1.history == s.history
    ensures Apply(c, s1, Perform(r, true)) == Some(s2) && s2.history != []
    ensures Apply(c, s2, Await(r, true)) == Some(s3) && s3.history == s2.history && |s3.requests| == |s.requests|
    ensures var q := s.requests[r]; var x := Session(q.name, c.sessionNs, q.goal.manifest);
      && s2.history == s.history + [Snapshot(Now(s).renku, Now(s).session[q.name := x])]
      && s3.requests[r].phase == Finished(Ok(Some(x)))
  {
    hide CachedLookup, Run, Init, Placed, PatchedServer, Without, Proper, LabelIn;
    GoodNow(c, s0, steps, s);
    var q := s.requests[r];
    LookupSeesPresent(c, s, q.name, q.user);
    s1 := Apply(c, s, AskCaches(r, |s.history| - 1, |s.history| - 1)).value;
    s2 := Apply(c, s1, Perform(r, true)).value;
    s3 := Apply(c, s2, Await(r, true)).value;
  }

  /** A create of a name that the creator's own server already has is answered with that server. */
  lemma CreatorFinds(c: Config, s0: State, steps: seq<Step>, s: State, r: nat) returns (s1: State)
    requires Init(c, s0) && Run(c, s0, steps) == Some(s) && s.history != []
    requires r < |s.requests| && s.requests[r].phase.Start? && s.requests[r].goal.Create?
    requires Owns(c, Now(s), s.requests[r].name, s.requests[r].user)
    ensures Apply(c, s, AskCaches(r, |s.history| - 1, |s.history| - 1)) == Some(s1) && s1.history == s.history
    ensures |s1.requests| == |s.requests|
    ensures var name := s.requests[r].name;
      s1.requests[r].phase
        == Finished(Ok(Some(if name in Now(s).renku then Now(s).renku[name] else Now(s).session[name])))
  {
    hide CachedLookup, Run, Init, Placed, PatchedServer, Without, Proper, Performed;
    GoodNow(c, s0, steps, s);
    LookupSeesPresent(c, s, s.requests[r].name, s.requests[r].user);
    s1 := Apply(c, s, AskCaches(r, |s.history| - 1, |s.history| - 1)).value;
  }

  /** The fallback sees the same, when nothing comes between its two reads. */
  lemma FallbackSeesPresent(c: Config, s: State, r: nat) returns (s1: State, s2: State)
    requires s.history != [] && c.renkuNs != c.sessionNs && c.bypass
    requires r < |s.requests| && s.requests[r].phase.Start?
    ensures Apply(c, s, AskSession(r, true)) == Some(s1) && s1.history == s.history
    ensures Apply(c, s1, AskRenku(r, true)) == Some(s2)
    ensures Apply(c, s, AskCaches(r, |s.history| - 1, |s.history| - 1)) == Some(s2)
  {
    hide CachedLookup;
    var q := s.requests[r];
    LookupSeesPresent(c, s, q.name, q.user);
    s1 := Apply(c, s, AskSession(r, true)).value;
    s2 := Apply(c, s1, AskRenku(r, true)).value;
    var caches := AskCaches(r, |s.history| - 1, |s.history| - 1);
    assert s2.requests == Apply(c, s, caches).value.requests;
  }

  /** The order in which the fallback asks is the one that is safe. */
  lemma SessionFirstIsSafe(c: Config, s0: State, steps: seq<Step>, s: State, i: nat, j: nat, name: string)
    requires Init(c, s0) && Run(c, s0, steps) == Some(s)
    requires i <= j < |s.history| && name in s.history[i].session
    ensures name !in s.history[j].renku
  {
    InvRun(c, s0, steps);
    assert GoodSnapshot(c, s.history[i]);
  }

  /** A server leaves the Renku namespace and comes back, in the session namespace. */
  function Moving(c: Config, name: string): seq<Step> {
    [Vanish(true, name), Arrive(name, c.owner(name), Create(WithLabel(c.userLabel, c.owner(name)))), AskCaches(0, 1, 1),
     Perform(0, true)]
  }

  lemma MovingRuns(c: Config, s0: State, name: string) returns (s: State)
    requires Init(c, s0) && name in s0.history[0].renku
    ensures Run(c, s0, Moving(c, name)) == Some(s) && |s.history| == 3 && |s.requests| == 1
    ensures s.history[0] == s0.history[0] && name in s.history[2].session
  {
    hide LabelIn, WithLabel;
    var now := s0.history[0];
    var goal := Create(WithLabel(c.userLabel, c.owner(name)));
    WithLabelHasIt(c.userLabel, c.owner(name));
    var s1 := Become(s0, now.(renku := Without(now.renku, name)));
    var q := Request(name, c.owner(name), goal, Start);
    var s2 := s1.(requests := [q]);
    GetServerAgrees(s2.history[1].renku, s2.history[1].session, c.renkuNs, c.sessionNs, c.userLabel, name, q.user);
    assert GoodSnapshot(c, now) && name !in now.session;
    assert s1.requests + [q] == [q];
    assert Apply(c, s1, Arrive(name, c.owner(name), goal)) == Some(s2);
    var s3 := ToPhase(s2, 0, Looked(None));
    assert Apply(c, s2, AskCaches(0, 1, 1)) == Some(s3);
    s := Become(ToPhase(s3, 0, Waiting(0)), Performed(c, Now(s3), s3.requests[0]).value);
    assert Apply(c, s3, Perform(0, true)) == Some(s);
    RunFour(c, s0, Moving(c, name), s1, s2, s3, s);
  }

  lemma RunFour(c: Config, s0: State, steps: seq<Step>, s1: State, s2: State, s3: State, s4: State)
    requires |steps| == 4 && s0.history != [] && s1.history != [] && s2.history != [] && s3.history != []
      && s4.history != []
    requires Apply(c, s0, steps[0]) == Some(s1) && Apply(c, s1, steps[1]) == Some(s2)
    requires Apply(c, s2, steps[2]) == Some(s3) && Apply(c, s3, steps[3]) == Some(s4)
    ensures Run(c, s0, steps) == Some(s4)
  {
    hide Apply;
    assert Run(c, s4, steps[4..]) == Some(s4);
    assert steps[3..][1..] == steps[4..] && steps[2..][1..] == steps[3..] && steps[1..][1..] == steps[2..];
    assert Run(c, s3, steps[3..]) == Some(s4);
    assert Run(c, s2, steps[2..]) == Some(s4);
    assert Run(c, s1, steps[1..]) == Some(s4);
  }

  ghost predicate CacheCanFindTwo(c: Config, s0: State)
    requires Init(c, s0)
  {
    exists steps, renkuAt, sessionAt, name :: CacheFindsTwo(c, s0, steps, renkuAt, sessionAt, name)
  }

  /** After these steps the caches could answer with two servers of this name. */
  ghost predicate CacheFindsTwo(c: Config, s0: State, steps: seq<Step>, renkuAt: nat, sessionAt: nat, name: string)
    requires Init(c, s0)
  {
    && Run(c, s0, steps).Some?
    && renkuAt < |Run(c, s0, steps).value.history| && sessionAt < |Run(c, s0, steps).value.history|
    && CachedLookup(CachesAt(c, Run(c, s0, steps).value, renkuAt, sessionAt), c.userLabel, name, c.owner(name))
       == Err(ProgrammingError)
  }

  lemma StaleCachesFindTwo(c: Config, s0: State, name: string)
    requires Init(c, s0) && name in s0.history[0].renku
    ensures CacheFindsTwo(c, s0, Moving(c, name), 0, 2, name)
  {
    hide CachedLookup, Apply, Run;
    var s := MovingRuns(c, s0, name);
    GetServerAgrees(s.history[0].renku, s.history[2].session, c.renkuNs, c.sessionNs, c.userLabel, name, c.owner(name));
  }

  lemma TwoNeedRenku(c: Config, s0: State, steps: seq<Step>, renkuAt: nat, sessionAt: nat, name: string)
    requires Init(c, s0) && CacheFindsTwo(c, s0, steps, renkuAt, sessionAt, name)
    ensures s0.history[0].renku != map[]
  {
    hide CachedLookup, Apply, Run;
    var s := Run(c, s0, steps).value;
    GetServerAgrees(s.history[renkuAt].renku, s.history[sessionAt].session, c.renkuNs, c.sessionNs, c.userLabel, name,
                    c.owner(name));
    InvRun(c, s0, steps);
    HistoryStarts(c, s0, steps);
    assert s.history[renkuAt].renku.Keys <= s.history[0].renku.Keys;
  }

  /**
   With caches that are stale by different amounts, a lookup can find two servers where the cluster
   never had two: this can happen if and only if there is a server in the Renku namespace at first.
   */
  lemma CacheCanFindTwoIff(c: Config, s0: State)
    requires Init(c, s0)
    ensures CacheCanFindTwo(c, s0) <==> s0.history[0].renku != map[]
  {
    hide CacheFindsTwo;
    if s0.history[0].renku != map[] {
      var name :| name in s0.history[0].renku;
      StaleCachesFindTwo(c, s0, name);
    }
    if CacheCanFindTwo(c, s0) {
      var steps: seq<Step>, renkuAt: nat, sessionAt: nat,
        name: string :| CacheFindsTwo(c, s0, steps, renkuAt, sessionAt, name);
      TwoNeedRenku(c, s0, steps, renkuAt, sessionAt, name);
    }
  }

  lemma {:induction false} HistoryStarts(c: Config, s: State, steps: seq<Step>)
    requires s.history != [] && Run(c, s, steps).Some?
    ensures s.history <= Run(c, s, steps).value.history
    decreases |steps|
  {
    if steps != [] {
      HistoryGrows(c, s, steps[0]);
      HistoryStarts(c, Apply(c, s, steps[0]).value, steps[1..]);
    }
  }

  lemma HistoryGrows(c: Config, s: State, step: Step)
    requires s.history != [] && Apply(c, s, step).Some?
    ensures s.history <= Apply(c, s, step).value.history
  {
    hide CachedLookup, Performed;
  }

  /** Asking the Renku namespace first would not do: it can find two. */
  lemma RenkuFirstIsUnsafe(c: Config, s0: State, name: string) returns (s: State)
    requires Init(c, s0) && name in s0.history[0].renku
    ensures Run(c, s0, Moving(c, name)) == Some(s)
    ensures |s.history| == 3
    ensures Combined(Hit(s.history[2].session, name), Hit(s.history[0].renku, name), c.userLabel, c.owner(name))
      == Err(ProgrammingError)
  {
    s := MovingRuns(c, s0, name);
  }
}
