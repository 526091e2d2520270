/**
 The start of the watcher: a goroutine for each namespace waits for its informer and reports over a
 channel, a timer may cut the wait short, and one loop counts the reports.  A send and its receive
 are one step, since the channels have no buffer.
 */
module CacheSync {
  import opened Prelude

  /** What the loop receives. */
  datatype Event = Report(sender: nat, ok: bool) | TimedOut

  /** How far the loop has got; log.Fatalf ends the whole program. */
  datatype Loop = Counting(synced: nat) | Returned | Fatal

  /** The loop of CacheCollection.synchronize, over what it receives. */
  function Received(n: nat, synced: nat, events: seq<Event>): Loop
    decreases |events|
  {
    if synced == n then Returned
    else if events == [] then Counting(synced)
    else
      match events[0]
      case Report(_, true) => Received(n, synced + 1, events[1..])
      case _ => Fatal
  }

  /** The loop itself; it stops at the end of the events when it would wait for more. */
  method Synchronize(n: nat, events: seq<Event>) returns (loop: Loop)
    ensures loop == Received(n, 0, events)
  {
    var synced := 0;
    var next := 0;
    while true
      invariant 0 <= next <= |events|
      invariant Received(n, 0, events) == Received(n, synced, events[next..])
      decreases |events| - next
    {
      if synced == n {
        return Returned;
      }
      if next == |events| {
        return Counting(synced);
      }
      match events[next] {
        case Report(_, ok) =>
          if !ok {
            return Fatal;
          }
          synced := synced + 1;
        case TimedOut =>
          return Fatal;
      }
      next := next + 1;
    }
  }

  // ------------------------------------------------------------- the program

  datatype Place = Waiting | SendsFalse | SendsTrue | Ended

  /** A goroutine of Cache.synchronize, and how its WaitForCacheSync came out. */
  datatype Worker = Worker(place: Place, outcome: Option<bool>)

  datatype Timer = Running | Sends | Stopped

  datatype State = State(workers: seq<Worker>, timer: Timer, events: seq<Event>)

  datatype Step = WaitEnds(w: nat, ok: bool) | Deliver(worker: nat) | Fire | DeliverTimeout

  function LoopOf(s: State): Loop {
    Received(|s.workers|, 0, s.events)
  }

  function SetWorker(s: State, w: nat, worker: Worker): State
    requires w < |s.workers|
  {
    s.(workers := s.workers[w := worker])
  }

  /** After a failure the goroutine sends false and then, without a return, true. */
  function Apply(s: State, step: Step): Option<State> {
    if LoopOf(s).Fatal? then None
    else
      match step
      case WaitEnds(w, ok) =>
        if w < |s.workers| && s.workers[w].place.Waiting? then
          Some(SetWorker(s, w, Worker(if ok then SendsTrue else SendsFalse, Some(ok))))
        else None
      case Deliver(w) =>
        if w < |s.workers| && LoopOf(s).Counting?
          && (s.workers[w].place.SendsFalse? || s.workers[w].place.SendsTrue?) then
          var ok := s.workers[w].place.SendsTrue?;
          var reported := SetWorker(s, w, s.workers[w].(place := if ok then Ended else SendsTrue));
          Some(reported.(events := s.events + [Report(w, ok)]))
        else None
      case Fire => if s.timer.Running? then Some(s.(timer := Sends)) else None
      case DeliverTimeout =>
        if s.timer.Sends? && LoopOf(s).Counting? then Some(s.(timer := Stopped, events := s.events + [TimedOut]))
        else None
  }

  function Run(s: State, steps: seq<Step>): Option<State>
    decreases |steps|
  {
    if steps == [] then Some(s)
    else
      match Apply(s, steps[0])
      case None => None
      case Some(s') => Run(s', steps[1..])
  }

  ghost predicate Init(s: State) {
    s.timer.Running? && s.events == [] && forall w | 0 <= w < |s.workers| :: s.workers[w] == Worker(Waiting, None)
  }

  // --------------------------------------------------------------- invariant

  function EndedWorkers(s: State): set<nat> {
    set w: nat | w < |s.workers| && s.workers[w].place.Ended?
  }

  ghost predicate AllTrue(events: seq<Event>) {
    forall k | 0 <= k < |events| :: events[k].Report? && events[k].ok
  }

  /** The outcome fits the place as long as nothing but true has been received. */
  ghost predicate Honest(w: Worker) {
    match w.place
    case Waiting => w.outcome == None
    case SendsFalse => w.outcome == Some(false)
    case _ => w.outcome == Some(true)
  }

  ghost predicate Inv(s: State) {
    if AllTrue(s.events) then
      && |s.events| == |EndedWorkers(s)| <= |s.workers|
      && LoopOf(s) == (if |s.events| == |s.workers| then Returned else Counting(|s.events|))
      && (forall w | 0 <= w < |s.workers| :: Honest(s.workers[w]))
      && (forall k | 0 <= k < |s.events| :: s.events[k].sender in EndedWorkers(s))
      && (forall i, j | 0 <= i < j < |s.events| :: s.events[i].sender != s.events[j].sender)
    else LoopOf(s).Fatal? && s.events != [] && AllTrue(s.events[..|s.events| - 1])
  }

  lemma {:induction false} ReceivedTrues(n: nat, synced: nat, events: seq<Event>, last: Option<Event>)
    requires AllTrue(events) && synced + |events| <= n && (last.Some? ==> synced + |events| < n)
    ensures Received(n, synced, if last.Some? then events + [last.value] else events)
         == if last.None? || (last.value.Report? && last.value.ok) then
              var count := synced + |events| + (if last.Some? then 1 else 0);
              if count == n then Returned else Counting(count)
            else Fatal
    decreases |events|
  {
    var all := if last.Some? then events + [last.value] else events;
    if events == [] {
      if last.Some? {
        assert all == [last.value] && all[1..] == [];
      }
    } else {
      assert all[1..] == if last.Some? then events[1..] + [last.value] else events[1..];
      ReceivedTrues(n, synced + 1, events[1..], last);
    }
  }

  function Below(n: nat): (all: set<nat>)
    ensures |all| == n && forall w: nat :: w in all <==> w < n
  {
    if n == 0 then {} else Below(n - 1) + {n - 1}
  }

  lemma EndedAtMostAll(s: State)
    ensures |EndedWorkers(s)| <= |s.workers|
    ensures |EndedWorkers(s)| == |s.workers| ==> forall w: nat | w < |s.workers| :: w in EndedWorkers(s)
  {
    Subset(EndedWorkers(s), Below(|s.workers|));
  }

  lemma {:induction false} Subset(a: set<nat>, b: set<nat>)
    requires a <= b
    ensures |a| <= |b| && (|a| == |b| ==> a == b)
  {
    if a != {} {
      var x :| x in a;
      Subset(a - {x}, b - {x});
    }
  }

  lemma DeliverCounts(s: State, w: nat)
    requires Inv(s) && Apply(s, Deliver(w)).Some?
    ensures AllTrue(s.events)
    ensures var s' := Apply(s, Deliver(w)).value;
      if s.workers[w].place.SendsTrue? then
        && w !in EndedWorkers(s) && EndedWorkers(s') == EndedWorkers(s) + {w}
           && |EndedWorkers(s')| == |EndedWorkers(s)| + 1
        && LoopOf(s') == if |s'.events| == |s.workers| then Returned else Counting(|s'.events|)
      else LoopOf(s').Fatal?
  {
    var s' := Apply(s, Deliver(w)).value;
    ReceivedTrues(|s.workers|, 0, s.events, Some(Report(w, s.workers[w].place.SendsTrue?)));
  }

  lemma InvDeliver(s: State, w: nat)
    requires Inv(s) && Apply(s, Deliver(w)).Some?
    ensures Inv(Apply(s, Deliver(w)).value)
  {
    hide LoopOf, Received, EndedWorkers;
    var s' := Apply(s, Deliver(w)).value;
    DeliverCounts(s, w);
    EndedAtMostAll(s');
    assert s'.events[..|s.events|] == s.events;
    if !s.workers[w].place.SendsTrue? {
      assert s'.events[|s.events|] == Report(w, false);
    }
  }

  lemma InvStep(s: State, step: Step)
    requires Inv(s) && Apply(s, step).Some?
    ensures Inv(Apply(s, step).value)
  {
    var s' := Apply(s, step).value;
    assert AllTrue(s.events);
    match step
    case WaitEnds(w, ok) =>
      assert EndedWorkers(s') == EndedWorkers(s);
    case Deliver(w) =>
      InvDeliver(s, w);
    case Fire =>
      assert EndedWorkers(s') == EndedWorkers(s);
    case DeliverTimeout =>
      ReceivedTrues(|s.workers|, 0, s.events, Some(TimedOut));
      assert s'.events[..|s.events|] == s.events;
      assert s'.events[|s.events|] == TimedOut;
  }

  lemma {:induction false} InvRun(s: State, steps: seq<Step>)
    requires Inv(s) && Run(s, steps).Some?
    ensures Inv(Run(s, steps).value) && |Run(s, steps).value.workers| == |s.workers|
    decreases |steps|
  {
    if steps != [] {
      InvStep(s, steps[0]);
      InvRun(Apply(s, steps[0]).value, steps[1..]);
    }
  }

  // ------------------------------------------------------------------ results

  /** A report tells how the wait of its sender came out, or that it had failed before. */
  ghost predicate Faithful(s: State) {
    forall k | 0 <= k < |s.events| && s.events[k].Report? && !s.events[k].ok ::
      s.events[k].sender < |s.workers| && s.workers[s.events[k].sender].outcome == Some(false)
  }

  lemma {:induction false} StaysFaithful(s: State, steps: seq<Step>)
    requires Inv(s) && Faithful(s) && Run(s, steps).Some?
    ensures Faithful(Run(s, steps).value)
    decreases |steps|
  {
    hide LoopOf, EndedWorkers;
    if steps != [] {
      var s' := Apply(s, steps[0]).value;
      InvStep(s, steps[0]);
      NoFalseYet(s, steps[0]);
      assert forall k | 0 <= k < |s.events| :: s'.events[k] == s.events[k];
      StaysFaithful(s', steps[1..]);
    }
  }

  lemma NoFalseYet(s: State, step: Step)
    requires Inv(s) && Apply(s, step).Some?
    ensures AllTrue(s.events) && forall w | 0 <= w < |s.workers| :: Honest(s.workers[w])
  {
  }

  /** False is reported only by a goroutine whose wait has failed. */
  lemma FalseMeansFailed(s0: State, steps: seq<Step>, s: State)
    requires Init(s0) && Run(s0, steps) == Some(s)
    ensures forall k | 0 <= k < |s.events| && s.events[k].Report? && !s.events[k].ok ::
      s.events[k].sender < |s.workers| && s.workers[s.events[k].sender].outcome == Some(false)
  {
    hide Run;
    assert Inv(s0) by {
      assert EndedWorkers(s0) == {};
    }
    StaysFaithful(s0, steps);
  }

  /** While reports are missing the timer can fire, and then the program ends. */
  lemma TimerCanEnd(s0: State, steps: seq<Step>, s: State) returns (s1: State, s2: State)
    requires Init(s0) && Run(s0, steps) == Some(s) && LoopOf(s).Counting? && s.timer.Running?
    ensures Apply(s, Fire) == Some(s1) && Apply(s1, DeliverTimeout) == Some(s2)
    ensures LoopOf(s2) == Fatal && s2.events == s.events + [TimedOut]
  {
    hide Run;
    assert Inv(s0) by {
      assert EndedWorkers(s0) == {};
    }
    InvRun(s0, steps);
    s1 := Apply(s, Fire).value;
    s2 := Apply(s1, DeliverTimeout).value;
    ReceivedTrues(|s.workers|, 0, s.events, Some(TimedOut));
  }

  /** synchronize returns only after every wait has succeeded. */
  lemma ReturnsOnlyWhenAllSynced(s0: State, steps: seq<Step>, s: State)
    requires Init(s0) && Run(s0, steps) == Some(s) && LoopOf(s).Returned?
    ensures forall w | 0 <= w < |s.workers| :: s.workers[w].outcome == Some(true)
  {
    InvRun(s0, steps);
    EndedAtMostAll(s);
    forall w: nat | w < |s.workers|
      ensures s.workers[w].outcome == Some(true)
    {
      assert w in EndedWorkers(s) && Honest(s.workers[w]);
    }
  }

  /** A false report or the timeout is the last thing that the program receives, and nothing runs after it. */
  lemma AnythingElseIsFatal(s0: State, steps: seq<Step>, s: State, k: nat, step: Step)
    requires Init(s0) && Run(s0, steps) == Some(s)
    requires k < |s.events| && !(s.events[k].Report? && s.events[k].ok)
    ensures LoopOf(s).Fatal? && k == |s.events| - 1 && Apply(s, step).None?
  {
    InvRun(s0, steps);
    var before := s.events[..|s.events| - 1];
    assert forall j | 0 <= j < |before| :: before[j] == s.events[j];
  }

  /** No goroutine is counted twice, although one that failed would go on to send true. */
  lemma NobodyCountsTwice(s0: State, steps: seq<Step>, s: State, i: nat, j: nat)
    requires Init(s0) && Run(s0, steps) == Some(s) && i < j < |s.events|
    requires s.events[i].Report? && s.events[j].Report? && s.events[j].ok
    ensures s.events[i].ok && s.events[i].sender != s.events[j].sender
  {
    InvRun(s0, steps);
    if !AllTrue(s.events) {
      var n := |s.events|;
      assert AllTrue(s.events[..n - 1]);
      assert forall k | 0 <= k < n - 1 :: s.events[..n - 1][k] == s.events[k];
      assert j < n - 1;
      EarlierInv(s0, steps, s, i, j);
    }
  }

  /** The senders of the true reports differ, also when a fatal event came last. */
  lemma {:induction false} EarlierInv(s0: State, steps: seq<Step>, s: State, i: nat, j: nat)
    requires Inv(s0) && Run(s0, steps) == Some(s) && AllTrue(s0.events)
    requires i < j < |s.events| - 1
    requires forall k | 0 <= k < |s.events| - 1 :: s.events[k].Report? && s.events[k].ok
    requires !AllTrue(s.events)
    ensures s.events[i].sender != s.events[j].sender
    decreases |steps|
  {
    var s1 := Apply(s0, steps[0]).value;
    InvStep(s0, steps[0]);
    if AllTrue(s1.events) {
      EarlierInv(s1, steps[1..], s, i, j);
    } else {
      assert s == s1 && s.events[..|s.events| - 1] == s0.events;
    }
  }

  /** Whether the loop still can return. */
  ghost predicate CanReturn(s: State) {
    exists steps :: Returns(s, steps)
  }

  ghost predicate Returns(s: State, steps: seq<Step>) {
    Run(s, steps).Some? && LoopOf(Run(s, steps).value).Returned?
  }

  ghost predicate NoneFailed(s: State) {
    forall w | 0 <= w < |s.workers| :: s.workers[w].outcome != Some(false)
  }

  lemma {:induction false} OutcomesStay(s: State, steps: seq<Step>, w: nat)
    requires Run(s, steps).Some? && w < |s.workers| && s.workers[w].outcome.Some?
    requires Inv(s)
    ensures w < |Run(s, steps).value.workers|
    ensures !LoopOf(Run(s, steps).value).Fatal? ==> Run(s, steps).value.workers[w].outcome == s.workers[w].outcome
    decreases |steps|
  {
    if steps != [] {
      InvStep(s, steps[0]);
      OutcomesStay(Apply(s, steps[0]).value, steps[1..], w);
    }
  }

  /** A worker that has not ended yet. */
  lemma SomeoneIsLeft(s: State) returns (w: nat)
    requires Inv(s) && LoopOf(s).Counting?
    ensures w < |s.workers| && !s.workers[w].place.Ended?
  {
    var all := Below(|s.workers|);
    assert all != EndedWorkers(s);
    assert EndedWorkers(s) <= all;
    w :| w in all && w !in EndedWorkers(s);
  }

  lemma {:induction false} ReturnSteps(s: State) returns (steps: seq<Step>)
    requires Inv(s) && NoneFailed(s) && AllTrue(s.events)
    ensures Returns(s, steps)
    decreases |s.workers| - |EndedWorkers(s)|
  {
    if LoopOf(s).Returned? {
      steps := [];
    } else {
      var w := SomeoneIsLeft(s);
      assert Honest(s.workers[w]);
      var wait := if s.workers[w].place.Waiting? then [WaitEnds(w, true)] else [];
      var s1 := if s.workers[w].place.Waiting? then Apply(s, WaitEnds(w, true)).value else s;
      if s.workers[w].place.Waiting? {
        InvStep(s, WaitEnds(w, true));
      }
      var s2 := Delivered(s1, w);
      assert EndedWorkers(s1) == EndedWorkers(s);
      var rest := ReturnSteps(s2);
      steps := wait + ([Deliver(w)] + rest);
      assert ([Deliver(w)] + rest)[1..] == rest;
      assert Run(s1, [Deliver(w)] + rest) == Run(s2, rest);
      if s.workers[w].place.Waiting? {
        assert steps[0] == WaitEnds(w, true) && steps[1..] == [Deliver(w)] + rest;
      } else {
        assert steps == [Deliver(w)] + rest;
      }
    }
  }

  lemma Delivered(s: State, w: nat) returns (s': State)
    requires Inv(s) && NoneFailed(s) && AllTrue(s.events) && LoopOf(s).Counting?
    requires w < |s.workers| && s.workers[w].place.SendsTrue?
    ensures Apply(s, Deliver(w)) == Some(s') && Inv(s') && NoneFailed(s') && AllTrue(s'.events)
    ensures |s'.workers| == |s.workers| && |EndedWorkers(s')| == |EndedWorkers(s)| + 1 <= |s.workers|
  {
    hide LoopOf, Received, EndedWorkers;
    s' := Apply(s, Deliver(w)).value;
    DeliverCounts(s, w);
    InvDeliver(s, w);
    EndedAtMostAll(s');
  }

  /** As long as the program runs, the loop can still return exactly when no wait has failed. */
  lemma CanReturnIff(s0: State, steps: seq<Step>, s: State)
    requires Init(s0) && Run(s0, steps) == Some(s) && !LoopOf(s).Fatal?
    ensures CanReturn(s) <==> NoneFailed(s)
  {
    InvRun(s0, steps);
    if NoneFailed(s) {
      var more := ReturnSteps(s);
    }
    if CanReturn(s) {
      var more :| Returns(s, more);
      InvRun(s, more);
      var end := Run(s, more).value;
      EndedAtMostAll(end);
      forall w: nat | w < |s.workers|
        ensures s.workers[w].outcome != Some(false)
      {
        assert w in EndedWorkers(end) && Honest(end.workers[w]);
        if s.workers[w].outcome.Some? {
          OutcomesStay(s, more, w);
        }
      }
    }
  }
}
