/** The writer's half of crash recovery: a tool call is logged as requested,
    durably logged as started, executed, and logged with a result, by many
    goroutines at once and with a crash possible after any step. */
module ToolProtocol {
  import opened Wrappers
  import opened RunTypes
  import opened Recovery

  datatype Call = Call(id: string, name: string)
  {
    function Key(): string {
      CallKey(id, name)
    }
  }

  /** One execution of a call; `since` is the length of the log when the call
      was requested, `at` when it was executed. */
  datatype Effect = Effect(call: Call, since: nat, at: nat)

  /** `log` survives a crash, `pending` and `marked` do not. `effects` is the
      history of what the tools did outside the process. */
  datatype World = World(
    log: seq<Event>,
    pending: map<Call, nat>,
    marked: set<Call>,
    effects: set<Effect>)

  /** `stored` says whether the append of the step reached the disk. */
  datatype Step =
    | Request(call: Call, round: int, stored: bool)
    | Mark(call: Call, round: int, stored: bool)
    | Execute(call: Call)
    | Report(call: Call, round: int, kind: EventType, stored: bool)
    | Quiet(event: Event)
    | Crash

  const Start := World([], map[], {}, {})

  function ToolEvent(log: seq<Event>, typ: EventType, state: RunState, round: int, c: Call): Event {
    Event(MaxSeq(log) + 1, typ, state, round, "session", c.id, c.name)
  }

  /** A goroutine can take a step only where the engine lets it: a call is
      marked or reported after it was requested, marked only if it has an id,
      and executed only after its marker was stored. */
  predicate Enabled(w: World, s: Step) {
    match s
    case Request(c, _, stored) => stored
    case Mark(c, _, stored) => stored && c in w.pending && c.id != ""
    case Execute(c) => c in w.marked && c in w.pending
    case Report(c, _, kind, stored) =>
      stored && c in w.pending && kind in {ToolCompleted, ToolFailed, ToolCancelled}
    case Quiet(e) => !IsCall(e)
    case Crash => true
  }

  /** A step that is not enabled, or whose append failed, changes nothing. */
  function Apply(w: World, s: Step): World {
    if !Enabled(w, s) then w
    else match s
      case Request(c, round, _) =>
        w.(log := w.log + [ToolEvent(w.log, ToolCallRequested, NoState, round, c)],
           pending := w.pending[c := |w.log|],
           marked := w.marked - {c})
      case Mark(c, round, _) =>
        w.(log := w.log + [ToolEvent(w.log, ToolStarted, Executing, round, c)],
           marked := w.marked + {c})
      case Execute(c) =>
        w.(effects := w.effects + {Effect(c, w.pending[c], |w.log|)}, marked := w.marked - {c})
      case Report(c, round, kind, _) =>
        w.(log := w.log + [ToolEvent(w.log, kind, NoState, round, c)])
      case Quiet(e) =>
        w.(log := w.log + [e.(seqNo := MaxSeq(w.log) + 1)])
      case Crash =>
        w.(pending := map[], marked := {})
  }

  function After(steps: seq<Step>): World {
    if steps == [] then Start
    else Apply(After(steps[..|steps| - 1]), steps[|steps| - 1])
  }

  /** The execution has no result: nothing was logged for its call since it was
      requested. */
  ghost predicate Unresolved(w: World, f: Effect) {
    f.since <= |w.log| && !HasResult(w.log[f.since..], f.call.Key())
  }

  /** No result had been logged under the call's key when it was requested. */
  ghost predicate FreshRequest(w: World, f: Effect) {
    f.since <= |w.log| && !HasResult(w.log[..f.since], f.call.Key())
  }

  // ---------------------------------------------------------------- invariant

  ghost predicate Inv(w: World) {
    && Contiguous(w.log)
    && (forall c :: c in w.pending ==> w.pending[c] <= |w.log|)
    && (forall c :: c in w.marked ==> c.id != "" && HasStarted(w.log, c.Key()))
    && (forall f :: f in w.effects ==>
          f.since <= f.at <= |w.log| && f.call.id != "" && HasStarted(w.log, f.call.Key())
          && HasStarted(w.log[..f.at], f.call.Key()))
  }

  lemma ApplyKeepsInv(w: World, s: Step)
    requires Inv(w)
    ensures Inv(Apply(w, s))
    ensures w.log <= Apply(w, s).log
  {
    var w' := Apply(w, s);
    if w'.log != w.log {
      var e := w'.log[|w.log|];
      assert w'.log == w.log + [e];
      NumberedSnoc(w.log, e);
      forall key ensures HasStarted(w'.log, key) <==> HasStarted(w.log, key) || (e.typ == ToolStarted && KeyOf(e) == key) {
        RecordSnoc(w.log, e, key);
      }
      assert forall f :: f in w.effects ==> w'.log[..f.at] == w.log[..f.at];
    } else {
      assert w.log[..|w.log|] == w.log;
    }
  }

  lemma {:induction false} ReachableInv(steps: seq<Step>)
    ensures Inv(After(steps))
  {
    if steps != [] {
      ReachableInv(steps[..|steps| - 1]);
      ApplyKeepsInv(After(steps[..|steps| - 1]), steps[|steps| - 1]);
    }
  }

  lemma {:induction false} ResultSplits(log: seq<Event>, n: nat, key: string)
    requires n <= |log|
    ensures HasResult(log, key) <==> HasResult(log[..n], key) || HasResult(log[n..], key)
  {
    HasResultIff(log, key);
    HasResultIff(log[..n], key);
    HasResultIff(log[n..], key);
    if HasResult(log, key) {
      var i :| 0 <= i < |log| && IsResult(log[i]) && KeyOf(log[i]) == key;
      if i < n {
        assert log[..n][i] == log[i];
      } else {
        assert log[n..][i - n] == log[i];
      }
    }
  }

  // ---------------------------------------------------------------- safety

  /** For every interleaving with crashes anywhere: an execution without a
      result is listed as incomplete exactly when its key had no logged result
      at request time. Reusing a call id after its result is what hides one. */
  lemma UnresolvedListedIff(steps: seq<Step>, f: Effect)
    requires f in After(steps).effects && Unresolved(After(steps), f)
    ensures var log := After(steps).log;
      CallRecord(log, f.call.Key()) in Incomplete(log) <==> FreshRequest(After(steps), f)
    ensures CallRecord(After(steps).log, f.call.Key()).started
  {
    var w := After(steps);
    ReachableInv(steps);
    ResultSplits(w.log, f.since, f.call.Key());
    AbsentKey(w.log, f.call.Key());
    IncompleteExact(w.log);
  }

  /** An execution without a result and with a class that is not safe to replay
      is never offered for replay, whatever the ids. */
  lemma NeverReplayed(steps: seq<Step>, f: Effect, store: IdempotencyStore, budget: Budget)
    requires f in After(steps).effects
    requires !Classify(store, CallRecord(After(steps).log, f.call.Key())).SafeToReplay()
    ensures f.call.Key() !in InspectPlan(After(steps).log, store, budget).replayable
  {
    var log := After(steps).log;
    ReachableInv(steps);
    PlanLists(log, store, budget);
    var calls := InspectPlan(log, store, budget).incomplete;
    SplitMembers(store, calls);
    IncompleteExact(log);
  }

  /** The crash-safety theorem: such an execution, freshly requested, is
      uncertain and blocks automatic resumption. */
  lemma CrashSafety(steps: seq<Step>, f: Effect, store: IdempotencyStore, budget: Budget)
    requires f in After(steps).effects
    requires Unresolved(After(steps), f) && FreshRequest(After(steps), f)
    requires !Classify(store, CallRecord(After(steps).log, f.call.Key())).SafeToReplay()
    ensures var plan := InspectPlan(After(steps).log, store, budget);
      && plan.decision != ResumeAuto
      && plan.sequenceOK
      && (plan.resumeState.Resumable() <==> f.call.Key() in plan.uncertain)
      && (plan.resumeState.Terminal() ==> plan.decision == Skip)
  {
    var log := After(steps).log;
    var key := f.call.Key();
    ReachableInv(steps);
    UnresolvedListedIff(steps, f);
    SplitMembers(store, Incomplete(log));
    assert key in UncertainIds(store, Incomplete(log));
    ResumeAutoIff(log, store, budget);
    FoldIsDeclared(log);
    TerminalIffNotResumable(Fold(log).state);
    assert log != [];
  }

  /** A marker is good for one execution, and a request takes an earlier one away:
      either way the call cannot be executed before it is marked again. */
  lemma MarkersAreSpent(w: World, c: Call, round: int)
    ensures !Enabled(Apply(w, Execute(c)), Execute(c))
    ensures var w' := Apply(w, Request(c, round, true));
      !Enabled(w', Execute(c)) && (c.id != "" ==> Enabled(Apply(w', Mark(c, round, true)), Execute(c)))
  {
  }

  /** A stored result of any of the three kinds closes the key of a requested
      call. */
  lemma ReportCloses(w: World, c: Call, round: int, kind: EventType)
    requires c in w.pending && kind in {ToolCompleted, ToolFailed, ToolCancelled}
    ensures HasResult(Apply(w, Report(c, round, kind, true)).log, c.Key())
  {
    RecordSnoc(w.log, ToolEvent(w.log, kind, NoState, round, c), c.Key());
  }

  /** Every execution has its started event on disk before it happens. */
  lemma StartedBefore(steps: seq<Step>, f: Effect)
    requires f in After(steps).effects
    ensures var log := After(steps).log;
      exists i :: 0 <= i < f.at <= |log| && log[i].typ == ToolStarted && log[i].callId == f.call.id
  {
    ReachableInv(steps);
    var log := After(steps).log;
    HasResultIff(log[..f.at], f.call.Key());
    var i :| 0 <= i < f.at && log[..f.at][i].typ == ToolStarted && KeyOf(log[..f.at][i]) == f.call.Key();
    StartedHasId(steps, i);
  }

  /** A marker is only written for a call with an id. */
  lemma {:induction false} StartedHasId(steps: seq<Step>, i: nat)
    requires i < |After(steps).log| && After(steps).log[i].typ == ToolStarted
    ensures After(steps).log[i].callId != ""
  {
    if steps != [] {
      var before := After(steps[..|steps| - 1]);
      if i < |before.log| {
        ApplyKeepsLog(before, steps[|steps| - 1]);
        StartedHasId(steps[..|steps| - 1], i);
      }
    }
  }

  lemma ApplyKeepsLog(w: World, s: Step)
    ensures w.log <= Apply(w, s).log
  {
  }

  /** The theorem on the events and the store alone: an executed call that no
      result under its id closes is uncertain in a live run, and keeps any run
      from being resumed without asking, unless its id is pinned as idempotent
      or, not being pinned, its first name is. */
  lemma CrashSafetyByFacts(steps: seq<Step>, f: Effect, store: IdempotencyStore, budget: Budget, name: string, s: RunState)
    requires f in After(steps).effects
    requires !LoggedResult(After(steps).log, f.call.id) && FirstNamed(After(steps).log, f.call.id, name)
    requires LatestState(After(steps).log, s)
    ensures var id := f.call.id;
      var plan := InspectPlan(After(steps).log, store, budget);
      var repeatable := store.byId(id) == Some(Idempotent)
        || (store.byId(id) == None && name != "" && store.byName(name) == Some(Idempotent));
      && (!repeatable ==> plan.decision != ResumeAuto)
      && (s !in {Completed, Cancelled, Failed} ==>
            (id in plan.uncertain <==> !repeatable) && (id in plan.replayable <==> repeatable))
  {
    var log, id := After(steps).log, f.call.id;
    ReachableInv(steps);
    FoldedCall(log, id);
    FoldedName(log, id);
    FirstNameUnique(log, id, name, NameOf(log, id));
    InDoubtIff(log, store, id);
    if InDoubt(log, store, id) {
      DoubtBlocks(log, store, budget, id);
    }
    if s !in {Completed, Cancelled, Failed} {
      ListsByFacts(log, store, budget, s, id);
    }
    forall n | FirstNamed(log, id, n) ensures n == name {
      FirstNameUnique(log, id, n, name);
    }
    StartedIsCalled(log, id);
  }

  /** No result was logged for the execution after it happened. */
  ghost predicate Unconfirmed(w: World, f: Effect) {
    f.at <= |w.log| && !HasResult(w.log[f.at..], f.call.Key())
  }

  /** A result was logged between the request and the execution: the wait for the
      tool was given up and its failure reported while it was still to run. */
  ghost predicate AnsweredEarly(w: World, f: Effect) {
    f.since <= f.at <= |w.log| && HasResult(w.log[f.since..f.at], f.call.Key())
  }

  /** An execution that nothing confirms afterwards is listed as incomplete, as a
      started call, exactly when its key had no result at request time and none
      came before the execution. The other ones are lost to recovery. */
  lemma UnconfirmedListedIff(steps: seq<Step>, f: Effect)
    requires f in After(steps).effects && Unconfirmed(After(steps), f)
    ensures var w := After(steps);
      CallRecord(w.log, f.call.Key()) in Incomplete(w.log) <==> FreshRequest(w, f) && !AnsweredEarly(w, f)
    ensures CallRecord(After(steps).log, f.call.Key()).started
  {
    var w, key := After(steps), f.call.Key();
    ReachableInv(steps);
    ResultSplits(w.log, f.at, key);
    ResultSplits(w.log[..f.at], f.since, key);
    assert w.log[..f.at][..f.since] == w.log[..f.since] && w.log[..f.at][f.since..] == w.log[f.since..f.at];
    AbsentKey(w.log, key);
    IncompleteExact(w.log);
  }

  /** Every request names a key the log has not mentioned before. */
  ghost predicate DistinctIds(steps: seq<Step>) {
    forall i :: 0 <= i < |steps| && steps[i].Request? ==>
      !Called(After(steps[..i]).log, steps[i].call.Key())
  }

  ghost predicate FreshInv(w: World) {
    && (forall c :: c in w.pending ==> w.pending[c] <= |w.log| && !HasResult(w.log[..w.pending[c]], c.Key()))
    && (forall f :: f in w.effects ==> FreshRequest(w, f))
  }

  lemma ApplyKeepsFresh(w: World, s: Step)
    requires Inv(w) && FreshInv(w)
    requires s.Request? ==> !Called(w.log, s.call.Key())
    ensures FreshInv(Apply(w, s))
  {
    ApplyKeepsInv(w, s);
    var w' := Apply(w, s);
    forall c | c in w'.pending
      ensures w'.pending[c] <= |w'.log| && !HasResult(w'.log[..w'.pending[c]], c.Key())
    {
      if c in w.pending && w'.pending[c] == w.pending[c] {
        assert w'.log[..w.pending[c]] == w.log[..w.pending[c]];
      } else {
        AbsentKey(w.log, c.Key());
        assert w'.log[..|w.log|] == w.log;
      }
    }
    forall f | f in w'.effects ensures FreshRequest(w', f) {
      assert w'.log[..f.since] == w.log[..f.since];
    }
  }

  lemma {:induction false} DistinctIdsAreFresh(steps: seq<Step>)
    requires DistinctIds(steps)
    ensures FreshInv(After(steps))
  {
    if steps != [] {
      var n := |steps| - 1;
      assert forall i :: 0 <= i < n ==> steps[..n][..i] == steps[..i];
      DistinctIdsAreFresh(steps[..n]);
      ReachableInv(steps[..n]);
      ApplyKeepsFresh(After(steps[..n]), steps[n]);
    }
  }

  /** With distinct ids every executed call is either reported, or replayable
      by class, or uncertain, as long as the run is still live. */
  lemma DistinctIdsAccounted(steps: seq<Step>, f: Effect, store: IdempotencyStore, budget: Budget)
    requires DistinctIds(steps) && f in After(steps).effects
    requires Fold(After(steps).log).state.Resumable()
    ensures var plan := InspectPlan(After(steps).log, store, budget);
      var key := f.call.Key();
      if HasResult(After(steps).log, key) then key !in plan.uncertain && key !in plan.replayable
      else if Classify(store, CallRecord(After(steps).log, key)).SafeToReplay() then key in plan.replayable
      else key in plan.uncertain
  {
    ReachableInv(steps);
    StartedIsAccounted(After(steps).log, f.call.Key(), store, budget);
  }

  lemma StartedIsAccounted(log: seq<Event>, key: string, store: IdempotencyStore, budget: Budget)
    requires Contiguous(log) && HasStarted(log, key) && Fold(log).state.Resumable()
    ensures var plan := InspectPlan(log, store, budget);
      if HasResult(log, key) then key !in plan.uncertain && key !in plan.replayable
      else if Classify(store, CallRecord(log, key)).SafeToReplay() then key in plan.replayable
      else key in plan.uncertain
  {
    TerminalIffNotResumable(Fold(log).state);
    var inc := Incomplete(log);
    var plan := InspectPlan(log, store, budget);
    assert log != [];
    assert plan.uncertain == UncertainIds(store, inc) && plan.replayable == ReplayableIds(store, inc);
    AbsentKey(log, key);
    IncompleteExact(log);
    SplitMembers(store, inc);
    if !HasResult(log, key) {
      assert CallRecord(log, key) in inc;
    }
  }

  /** A call that runs to its result and is then requested again under the
      same id, marked, executed and lost to a crash. */
  function ReuseRun(): seq<Step> {
    var c := Call("a", "send");
    [Request(c, 0, true), Mark(c, 0, true), Execute(c), Report(c, 0, ToolCompleted, true),
     Request(c, 1, true), Mark(c, 1, true), Execute(c), Crash]
  }

  function ReuseLog(): seq<Event> {
    [Event(1, ToolCallRequested, NoState, 0, "session", "a", "send"),
     Event(2, ToolStarted, Executing, 0, "session", "a", "send"),
     Event(3, ToolCompleted, NoState, 0, "session", "a", "send"),
     Event(4, ToolCallRequested, NoState, 1, "session", "a", "send"),
     Event(5, ToolStarted, Executing, 1, "session", "a", "send")]
  }

  lemma AfterSnoc(steps: seq<Step>, s: Step)
    ensures After(steps + [s]) == Apply(After(steps), s)
  {
    assert (steps + [s])[..|steps|] == steps;
  }

  lemma NextNumber(log: seq<Event>, n: nat)
    requires n <= |ReuseLog()| && log == ReuseLog()[..n]
    ensures MaxSeq(log) == n
  {
    ContiguousMax(log);
  }

  lemma ReuseFirstHalf()
    ensures var c := Call("a", "send");
      After(ReuseRun()[..4]) == World(ReuseLog()[..3], map[c := 0], {}, {Effect(c, 0, 2)})
  {
    var c := Call("a", "send");
    var s := ReuseRun();
    AfterSnoc([], s[0]);
    NextNumber([], 0);
    var w1 := World(ReuseLog()[..1], map[c := 0], {}, {});
    assert After(s[..1]) == w1 by { assert s[..1] == [] + [s[0]]; }
    AfterSnoc(s[..1], s[1]);
    NextNumber(w1.log, 1);
    var w2 := World(ReuseLog()[..2], map[c := 0], {c}, {});
    assert After(s[..2]) == w2 by { assert s[..2] == s[..1] + [s[1]]; }
    AfterSnoc(s[..2], s[2]);
    var w3 := World(ReuseLog()[..2], map[c := 0], {}, {Effect(c, 0, 2)});
    assert After(s[..3]) == w3 by { assert s[..3] == s[..2] + [s[2]]; }
    AfterSnoc(s[..3], s[3]);
    NextNumber(w3.log, 2);
    assert s[..4] == s[..3] + [s[3]];
  }

  lemma ReuseSecondHalf()
    ensures var c := Call("a", "send");
      After(ReuseRun()) == World(ReuseLog(), map[], {}, {Effect(c, 0, 2), Effect(c, 3, 5)})
  {
    var c := Call("a", "send");
    var s := ReuseRun();
    ReuseAgain();
    var w6 := World(ReuseLog(), map[c := 3], {c}, {Effect(c, 0, 2)});
    AfterSnoc(s[..6], s[6]);
    assert s[..7] == s[..6] + [s[6]];
    assert After(s[..7]) == World(ReuseLog(), map[c := 3], {}, {Effect(c, 0, 2), Effect(c, 3, 5)});
    AfterSnoc(s[..7], s[7]);
    assert s == s[..7] + [s[7]];
  }

  lemma ReuseAgain()
    ensures var c := Call("a", "send");
      After(ReuseRun()[..6]) == World(ReuseLog(), map[c := 3], {c}, {Effect(c, 0, 2)})
  {
    var c := Call("a", "send");
    var s := ReuseRun();
    ReuseFirstHalf();
    AfterSnoc(s[..4], s[4]);
    NextNumber(ReuseLog()[..3], 3);
    var w5 := World(ReuseLog()[..4], map[c := 3], {}, {Effect(c, 0, 2)});
    assert After(s[..5]) == w5 by { assert s[..5] == s[..4] + [s[4]]; }
    AfterSnoc(s[..5], s[5]);
    NextNumber(w5.log, 4);
    assert s[..6] == s[..5] + [s[5]];
  }

  /** That run defeats the report: the second execution has no result and is
      not safe to replay, yet recovery resumes without asking. */
  lemma ReusedIdIsMissed()
    ensures var w := After(ReuseRun());
      var store := IdempotencyStore(_ => Some(NonIdempotent), _ => Some(NonIdempotent));
      var plan := InspectPlan(w.log, store, Budget(0, None));
      && Effect(Call("a", "send"), 3, 5) in w.effects && Unresolved(w, Effect(Call("a", "send"), 3, 5))
      && plan.decision == ResumeAuto && plan.uncertain == []
  {
    ReuseSecondHalf();
    assert After(ReuseRun()).log == ReuseLog();
    ReachableInv(ReuseRun());
    ReuseHasNoOpenCall();
    ReuseStillRuns();
    var store := IdempotencyStore(_ => Some(NonIdempotent), _ => Some(NonIdempotent));
    ResumeAutoIff(ReuseLog(), store, Budget(0, None));
    NothingUncertainIff(ReuseLog(), store);
  }

  /** The first result closes the key, though none follows the second request. */
  lemma ReuseHasNoOpenCall()
    ensures !HasResult(ReuseLog()[3..], "a")
    ensures forall k :: HasStarted(ReuseLog(), k) ==> HasResult(ReuseLog(), k)
  {
    var log := ReuseLog();
    HasResultIff(log[3..], "a");
    assert IsResult(log[2]);
    forall k | HasStarted(log, k) ensures HasResult(log, k) {
      HasResultIff(log, k);
    }
  }

  lemma ReuseStillRuns()
    ensures Fold(ReuseLog()).state == Executing
    ensures Fold(ReuseLog()).recoveryAttempts == 0
  {
    FoldKeepsState(ReuseLog(), 4);
    assert ReuseLog()[4].state == Executing;
    FoldAttemptsOnly(ReuseLog());
  }

  lemma {:induction false} FoldAttemptsOnly(log: seq<Event>)
    requires forall i :: 0 <= i < |log| ==> log[i].typ != RunRecovering && log[i].typ != RunResumed
    ensures Fold(log).recoveryAttempts == 0
  {
    if log != [] {
      FoldAttemptsOnly(log[..|log| - 1]);
    }
  }

  /** A call whose wait is given up: it is marked, its failure is logged, then
      the tool takes effect after all, and the process dies. */
  function AbandonedRun(): seq<Step> {
    var c := Call("a", "send");
    [Request(c, 0, true), Mark(c, 0, true), Report(c, 0, ToolFailed, true), Execute(c), Crash]
  }

  function AbandonedLog(): seq<Event> {
    ReuseLog()[..2] + [Event(3, ToolFailed, NoState, 0, "session", "a", "send")]
  }

  lemma AbandonedHalf()
    ensures var c := Call("a", "send");
      After(AbandonedRun()[..3]) == World(AbandonedLog(), map[c := 0], {c}, {})
  {
    var c, s := Call("a", "send"), AbandonedRun();
    AfterSnoc([], s[0]);
    NextNumber([], 0);
    var w1 := World(ReuseLog()[..1], map[c := 0], {}, {});
    assert After(s[..1]) == w1 by { assert s[..1] == [] + [s[0]]; }
    AfterSnoc(s[..1], s[1]);
    NextNumber(w1.log, 1);
    var w2 := World(ReuseLog()[..2], map[c := 0], {c}, {});
    assert After(s[..2]) == w2 by { assert s[..2] == s[..1] + [s[1]]; }
    AfterSnoc(s[..2], s[2]);
    NextNumber(w2.log, 2);
    assert s[..3] == s[..2] + [s[2]];
  }

  lemma AbandonedEnd()
    ensures After(AbandonedRun()) == World(AbandonedLog(), map[], {}, {Effect(Call("a", "send"), 0, 3)})
  {
    var c, s := Call("a", "send"), AbandonedRun();
    AbandonedHalf();
    AfterSnoc(s[..3], s[3]);
    assert s[..4] == s[..3] + [s[3]];
    assert After(s[..4]) == World(AbandonedLog(), map[c := 0], {}, {Effect(c, 0, 3)});
    AfterSnoc(s[..4], s[4]);
    assert s == s[..4] + [s[4]];
  }

  lemma AbandonedLogIsClosed()
    ensures forall k :: HasStarted(AbandonedLog(), k) ==> HasResult(AbandonedLog(), k)
    ensures Fold(AbandonedLog()).state == Executing && Fold(AbandonedLog()).recoveryAttempts == 0
  {
    var log := AbandonedLog();
    assert IsResult(log[2]);
    forall k | HasStarted(log, k) ensures HasResult(log, k) {
      HasResultIff(log, k);
    }
    FoldKeepsState(log, 1);
    FoldAttemptsOnly(log);
  }

  /** The effect came after its result: recovery sees a finished call and resumes
      without asking, though the call is not safe to replay and its failure was
      all that was ever reported. */
  lemma AbandonedIsMissed()
    ensures var w, f := After(AbandonedRun()), Effect(Call("a", "send"), 0, 3);
      var store := IdempotencyStore(_ => Some(NonIdempotent), _ => Some(NonIdempotent));
      var plan := InspectPlan(w.log, store, Budget(0, None));
      && f in w.effects && Unconfirmed(w, f) && FreshRequest(w, f) && AnsweredEarly(w, f)
      && plan.decision == ResumeAuto && plan.uncertain == []
  {
    AbandonedEnd();
    ReachableInv(AbandonedRun());
    AbandonedLogIsClosed();
    var log := AbandonedLog();
    assert log[3..] == [] && log[..0] == [] && log[0..3] == log;
    HasResultIff(log, "a");
    assert IsResult(log[2]) && KeyOf(log[2]) == "a";
    var store := IdempotencyStore(_ => Some(NonIdempotent), _ => Some(NonIdempotent));
    ResumeAutoIff(log, store, Budget(0, None));
    NothingUncertainIff(log, store);
  }

  // ---------------------------------------------------------------- the engine's methods

  /** How far the executor of a call is when the wait for it is given up, if it
      is: not begun, begun, or past its marker. */
  datatype Wait = WaitsToTheEnd | GivesUpUnstarted | GivesUpBeforeMark | GivesUpAfterMark

  /** The engine's side of one run: the two methods that write a tool call's
      start and run it, tied to the steps above. `stored` is the answer of the
      event store. */
  class ToolRunner {
    var log: seq<Event>
    var pending: map<Call, nat>
    var marked: set<Call>
    /** The ids of the calls whose executors are registered. */
    var inFlight: set<string>
    /** The executors that run on although nobody waits for them. */
    var detached: set<Call>
    ghost var effects: set<Effect>

    ghost function View(): World
      reads this
    {
      World(log, pending, marked, effects)
    }

    constructor ()
      ensures View() == Start && inFlight == {} && detached == {}
    {
      log, pending, marked, inFlight, detached, effects := [], map[], {}, {}, {}, {};
    }

    method Append(e: Event, stored: bool) returns (ok: bool)
      modifies this`log
      ensures ok == stored
      ensures log == if stored then old(log) + [e.(seqNo := MaxSeq(old(log)) + 1)] else old(log)
    {
      ok := stored;
      if stored {
        var next := HighestSeq();
        log := log + [e.(seqNo := next + 1)];
      }
    }

    method HighestSeq() returns (last: nat)
      ensures last == MaxSeq(log)
    {
      var _, m := VerifySequence(log);
      last := m;
    }

    method RequestCall(c: Call, round: int, stored: bool) returns (ok: bool)
      modifies this
      ensures ok == stored && inFlight == old(inFlight) && detached == old(detached)
      ensures View() == Apply(old(View()), Request(c, round, stored))
    {
      var position := |log|;
      ok := Append(Event(0, ToolCallRequested, NoState, round, "session", c.id, c.name), stored);
      if ok {
        pending := pending[c := position];
        marked := marked - {c};
      }
    }

    /** Synchronous and before the tool runs; a failed append is an error. */
    method MarkToolStarted(c: Call, round: int, stored: bool) returns (ok: bool)
      requires c in pending && c.id != ""
      modifies this
      ensures ok == stored && inFlight == old(inFlight) && detached == old(detached)
      ensures View() == Apply(old(View()), Mark(c, round, stored))
    {
      ok := Append(Event(0, ToolStarted, Executing, round, "session", c.id, c.name), stored);
      if ok {
        marked := marked + {c};
      }
    }

    /** The executor closure: mark, then execute only if the marker is on
        disk. */
    method RunTool(c: Call, round: int, stored: bool) returns (ran: bool)
      requires c in pending && c.id != ""
      modifies this
      ensures ran == stored && inFlight == old(inFlight) && detached == old(detached)
      ensures View() == if ran then Apply(Apply(old(View()), Mark(c, round, true)), Execute(c)) else old(View())
    {
      ran := MarkToolStarted(c, round, stored);
      if ran {
        effects := effects + {Effect(c, pending[c], |log|)};
        marked := marked - {c};
      }
    }

    /** A call without an id, or with the id of one in flight, is refused; the
        scheduler's gates may refuse it as well. Only then comes the executor. A
        wait that is given up leaves an executor that has begun to itself; the
        registration goes on every exit. */
    method DispatchToolCall(c: Call, round: int, admitted: bool, wait: Wait, stored: bool) returns (ran: bool)
      requires c in pending
      modifies this
      ensures var accepted := c.id != "" && c.id !in old(inFlight) && admitted;
        && (ran <==> accepted && wait == WaitsToTheEnd && stored)
        && detached == (if accepted && (wait == GivesUpBeforeMark || (wait == GivesUpAfterMark && stored))
                        then old(detached) + {c} else old(detached))
        && View() == if ran then Apply(Apply(old(View()), Mark(c, round, true)), Execute(c))
                     else if accepted && wait == GivesUpAfterMark then Apply(old(View()), Mark(c, round, stored))
                     else old(View())
      ensures inFlight == old(inFlight)
    {
      ran := false;
      if c.id == "" || c.id in inFlight {
        return;
      }
      inFlight := inFlight + {c.id};
      if admitted {
        match wait {
          case WaitsToTheEnd => ran := RunTool(c, round, stored);
          case GivesUpUnstarted =>
          case GivesUpBeforeMark => detached := detached + {c};
          case GivesUpAfterMark =>
            var ok := MarkToolStarted(c, round, stored);
            if ok {
              detached := detached + {c};
            }
        }
      }
      inFlight := inFlight - {c.id};
    }

    /** An executor that nobody waits for any more goes on from where it was. */
    method FinishDetached(c: Call, round: int, stored: bool) returns (ran: bool)
      requires c in detached && c in pending && c.id != ""
      modifies this
      ensures ran <==> c in old(marked) || stored
      ensures detached == old(detached) - {c} && inFlight == old(inFlight)
      ensures View() == if c in old(marked) then Apply(old(View()), Execute(c))
        else if stored then Apply(Apply(old(View()), Mark(c, round, true)), Execute(c)) else old(View())
    {
      detached := detached - {c};
      if c in marked {
        effects := effects + {Effect(c, pending[c], |log|)};
        marked := marked - {c};
        return true;
      }
      ran := RunTool(c, round, stored);
    }
  }
}
