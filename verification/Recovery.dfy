/** Crash recovery: folding a run's durable log and deciding what to do with
    the tool calls whose completion the log does not confirm. */
module Recovery {
  import opened Wrappers
  import opened RunTypes

  // ---------------------------------------------------------------- data

  datatype Decision = ResumeAuto | ResumeAfterConfirm | MarkFailed | Skip

  datatype IncompleteCall = IncompleteCall(
    id: string,
    name: string,
    hasResult: bool,
    started: bool)

  datatype RecoveredState = RecoveredState(
    sessionId: string,
    state: RunState,
    round: int,
    recoveryAttempts: nat)

  datatype Plan = Plan(
    sessionId: string,
    decision: Decision,
    resumeState: RunState,
    lastSeq: nat,
    round: int,
    incomplete: seq<IncompleteCall>,
    uncertain: seq<string>,
    replayable: seq<string>,
    sequenceOK: bool)

  /** The idempotency store; `None` is a lookup error or a class outside the
      three declared ones. */
  datatype IdempotencyStore = IdempotencyStore(
    byId: string -> Option<IdempotencyClass>,
    byName: string -> Option<IdempotencyClass>)

  /** The attempt budget: `max == 0` disables it; `counted` is the engine's own
      counter when it supplies one. */
  datatype Budget = Budget(max: nat, counted: Option<nat>)

  // ---------------------------------------------------------------- sequence check

  ghost predicate Contiguous(events: seq<Event>) {
    && (|events| > 0 ==> events[0].seqNo > 0)
    && forall i, j :: 0 <= i < j < |events| && j == i + 1 ==> events[j].seqNo == events[i].seqNo + 1
  }

  function MaxSeq(events: seq<Event>): nat {
    if events == [] then 0
    else
      var rest := MaxSeq(events[..|events| - 1]);
      var s := events[|events| - 1].seqNo;
      if s > rest then s else rest
  }

  method VerifySequence(events: seq<Event>) returns (ok: bool, last: nat)
    ensures ok <==> Contiguous(events)
    ensures last == MaxSeq(events)
  {
    last := 0;
    ok := true;
    for i := 0 to |events|
      invariant last == MaxSeq(events[..i])
      invariant ok <==> Contiguous(events[..i])
      invariant ok && i > 0 ==> last == events[i - 1].seqNo
    {
      var e := events[i];
      assert events[..i + 1][..i] == events[..i];
      assert Contiguous(events[..i + 1]) <==>
        Contiguous(events[..i]) &&
        (if i == 0 then e.seqNo > 0 else e.seqNo == events[i - 1].seqNo + 1) by {
        ContiguousSnoc(events[..i], e);
        assert events[..i] + [e] == events[..i + 1];
      }
      if e.seqNo == 0 {
        ok := false;
      } else {
        if i > 0 {
          if e.seqNo <= last {
            ok := false;
          } else if e.seqNo != last + 1 {
            ok := false;
          }
        }
        if e.seqNo > last {
          last := e.seqNo;
        }
      }
    }
    assert events[..|events|] == events;
  }

  lemma ContiguousSnoc(events: seq<Event>, e: Event)
    ensures Contiguous(events + [e]) <==>
      Contiguous(events) &&
      (if events == [] then e.seqNo > 0 else e.seqNo == events[|events| - 1].seqNo + 1)
  {
    var longer := events + [e];
    if Contiguous(longer) {
      forall i | 0 <= i < |events| - 1
        ensures events[i + 1].seqNo == events[i].seqNo + 1
      {
        assert longer[i + 1].seqNo == longer[i].seqNo + 1;
      }
      if events != [] {
        assert longer[|events|] == e && longer[|events| - 1] == events[|events| - 1];
      }
    }
  }

  /** In a contiguous log the highest number is the last one. */
  lemma {:induction false} ContiguousMax(events: seq<Event>)
    requires Contiguous(events)
    ensures events != [] ==> MaxSeq(events) == events[|events| - 1].seqNo
  {
    if |events| > 1 {
      var prefix := events[..|events| - 1];
      assert prefix + [events[|events| - 1]] == events;
      ContiguousSnoc(prefix, events[|events| - 1]);
      ContiguousMax(prefix);
    }
  }

  // ---------------------------------------------------------------- state fold

  function FoldOne(st: RecoveredState, e: Event): RecoveredState {
    RecoveredState(
      if e.sessionId != "" then e.sessionId else st.sessionId,
      if e.state.Valid() then e.state else st.state,
      if e.round > st.round then e.round else st.round,
      if e.typ == RunRecovering || e.typ == RunResumed then st.recoveryAttempts + 1
      else st.recoveryAttempts)
  }

  function FoldRaw(events: seq<Event>): RecoveredState {
    if events == [] then RecoveredState("", Created, 0, 0)
    else FoldOne(FoldRaw(events[..|events| - 1]), events[|events| - 1])
  }

  /** A run that died while recovering re-enters the normal path as queued. */
  function Settle(s: RunState): RunState {
    if s == Recovering then Queued else s
  }

  function Fold(events: seq<Event>): RecoveredState {
    var raw := FoldRaw(events);
    raw.(state := Settle(raw.state))
  }

  method FoldEvents(events: seq<Event>) returns (st: RecoveredState)
    ensures st == Fold(events)
  {
    st := RecoveredState("", Created, 0, 0);
    for i := 0 to |events|
      invariant st == FoldRaw(events[..i])
    {
      var e := events[i];
      assert events[..i + 1][..i] == events[..i];
      if e.sessionId != "" {
        st := st.(sessionId := e.sessionId);
      }
      if e.state != NoState && e.state.Valid() {
        st := st.(state := e.state);
      }
      if e.round > st.round {
        st := st.(round := e.round);
      }
      if e.typ == RunRecovering || e.typ == RunResumed {
        st := st.(recoveryAttempts := st.recoveryAttempts + 1);
      }
    }
    assert events[..|events|] == events;
    if st.state == Recovering {
      st := st.(state := Queued);
    }
  }

  lemma FoldRawSnoc(events: seq<Event>, e: Event)
    ensures FoldRaw(events + [e]) == FoldOne(FoldRaw(events), e)
  {
    assert (events + [e])[..|events|] == events;
  }

  /** The folded state is the one stamped on the newest event that carries a
      declared state. */
  lemma {:induction false} FoldKeepsState(events: seq<Event>, i: nat)
    requires i < |events| && events[i].state.Valid()
    requires forall j :: i < j < |events| ==> !events[j].state.Valid()
    ensures FoldRaw(events).state == events[i].state
  {
    if i < |events| - 1 {
      FoldKeepsState(events[..|events| - 1], i);
    }
  }

  /** And `Created` when no event carries one. */
  lemma {:induction false} FoldWithoutStates(events: seq<Event>)
    requires forall i :: 0 <= i < |events| ==> !events[i].state.Valid()
    ensures FoldRaw(events).state == Created
  {
    if events != [] {
      FoldWithoutStates(events[..|events| - 1]);
    }
  }

  lemma {:induction false} FoldIsDeclared(events: seq<Event>)
    ensures FoldRaw(events).state.Valid()
  {
    if events != [] {
      FoldIsDeclared(events[..|events| - 1]);
    }
  }

  // ---------------------------------------------------------------- incomplete calls

  predicate IsResult(e: Event) {
    e.typ == ToolCompleted || e.typ == ToolFailed || e.typ == ToolCancelled
  }

  predicate IsCall(e: Event) {
    e.typ == ToolCallRequested || e.typ == ToolStarted || IsResult(e)
  }

  /** The bucket an event is counted under. */
  function CallKey(callId: string, toolName: string): string {
    if callId == "" then "__unknown__:" + toolName else callId
  }

  function KeyOf(e: Event): string {
    CallKey(e.callId, e.toolName)
  }

  predicate Called(events: seq<Event>, key: string) {
    events != [] &&
    (Called(events[..|events| - 1], key) ||
     (IsCall(events[|events| - 1]) && KeyOf(events[|events| - 1]) == key))
  }

  predicate HasStarted(events: seq<Event>, key: string) {
    events != [] &&
    (HasStarted(events[..|events| - 1], key) ||
     (events[|events| - 1].typ == ToolStarted && KeyOf(events[|events| - 1]) == key))
  }

  predicate HasResult(events: seq<Event>, key: string) {
    events != [] &&
    (HasResult(events[..|events| - 1], key) ||
     (IsResult(events[|events| - 1]) && KeyOf(events[|events| - 1]) == key))
  }

  /** The first tool name the log gives for a key. */
  function NameOf(events: seq<Event>, key: string): string {
    if events == [] then ""
    else
      var earlier := NameOf(events[..|events| - 1], key);
      var e := events[|events| - 1];
      if earlier == "" && IsCall(e) && KeyOf(e) == key then e.toolName else earlier
  }

  /** The keys of the log's tool events, each once, in first-seen order. */
  function FirstSeen(events: seq<Event>): seq<string> {
    if events == [] then []
    else
      var earlier := FirstSeen(events[..|events| - 1]);
      var e := events[|events| - 1];
      if IsCall(e) && KeyOf(e) !in earlier then earlier + [KeyOf(e)] else earlier
  }

  function CallRecord(events: seq<Event>, key: string): IncompleteCall {
    IncompleteCall(key, NameOf(events, key), HasResult(events, key), HasStarted(events, key))
  }

  function Unfinished(events: seq<Event>, order: seq<string>): seq<IncompleteCall> {
    if order == [] then []
    else
      var earlier := Unfinished(events, order[..|order| - 1]);
      var c := CallRecord(events, order[|order| - 1]);
      if c.hasResult then earlier else earlier + [c]
  }

  function Incomplete(events: seq<Event>): seq<IncompleteCall> {
    Unfinished(events, FirstSeen(events))
  }

  /** The calls seen in the log so far, and their keys in first-seen order. */
  ghost predicate Collected(events: seq<Event>, calls: map<string, IncompleteCall>, order: seq<string>) {
    && order == FirstSeen(events)
    && (forall k :: k in calls <==> k in order)
    && (forall k :: k in calls ==> calls[k] == CallRecord(events, k))
  }

  /** A call's record after one of its events. */
  function Noted(c: IncompleteCall, e: Event): IncompleteCall {
    IncompleteCall(
      c.id,
      if c.name == "" then e.toolName else c.name,
      c.hasResult || IsResult(e),
      c.started || e.typ == ToolStarted)
  }

  method NoteEvent(ghost events: seq<Event>, e: Event, seen: map<string, IncompleteCall>, keys: seq<string>)
    returns (calls: map<string, IncompleteCall>, order: seq<string>)
    requires Collected(events, seen, keys)
    ensures Collected(events + [e], calls, order)
  {
    if !IsCall(e) {
      QuietCollected(events, e, seen, keys);
      return seen, keys;
    }
    var key := KeyOf(e);
    order := keys;
    var c := IncompleteCall(key, e.toolName, false, false);
    if key in seen {
      c := seen[key];
      if c.name == "" {
        c := c.(name := e.toolName);
      }
    } else {
      order := order + [key];
    }
    match e.typ {
      case ToolStarted => c := c.(started := true);
      case ToolCompleted | ToolFailed | ToolCancelled => c := c.(hasResult := true);
      case _ =>
    }
    calls := seen[key := c];
    CallCollected(events, e, seen, keys);
  }

  lemma QuietCollected(events: seq<Event>, e: Event, seen: map<string, IncompleteCall>, keys: seq<string>)
    requires Collected(events, seen, keys) && !IsCall(e)
    ensures Collected(events + [e], seen, keys)
  {
    FirstSeenSnoc(events, e);
    forall k | k in seen ensures seen[k] == CallRecord(events + [e], k) {
      RecordSnoc(events, e, k);
    }
  }

  lemma CallCollected(events: seq<Event>, e: Event, seen: map<string, IncompleteCall>, keys: seq<string>)
    requires Collected(events, seen, keys) && IsCall(e)
    ensures var key := KeyOf(e);
      var c := if key in seen then seen[key] else IncompleteCall(key, "", false, false);
      Collected(events + [e], seen[key := Noted(c, e)], if key in seen then keys else keys + [key])
  {
    var key := KeyOf(e);
    FirstSeenSnoc(events, e);
    AbsentKey(events, key);
    RecordSnoc(events, e, key);
    forall k | k in seen && k != key ensures seen[k] == CallRecord(events + [e], k) {
      RecordSnoc(events, e, k);
    }
  }

  lemma FirstSeenSnoc(events: seq<Event>, e: Event)
    ensures FirstSeen(events + [e]) ==
      if IsCall(e) && KeyOf(e) !in FirstSeen(events) then FirstSeen(events) + [KeyOf(e)] else FirstSeen(events)
  {
    assert (events + [e])[..|events|] == events;
  }

  /** What one more event adds to a call's record. */
  lemma RecordSnoc(events: seq<Event>, e: Event, k: string)
    ensures var hit := IsCall(e) && KeyOf(e) == k;
      CallRecord(events + [e], k) == IncompleteCall(
        k,
        if hit && NameOf(events, k) == "" then e.toolName else NameOf(events, k),
        HasResult(events, k) || (hit && IsResult(e)),
        HasStarted(events, k) || (hit && e.typ == ToolStarted))
  {
    assert (events + [e])[..|events|] == events;
  }

  method CollectCalls(events: seq<Event>) returns (calls: map<string, IncompleteCall>, order: seq<string>)
    ensures Collected(events, calls, order)
  {
    calls, order := map[], [];
    for i := 0 to |events|
      invariant Collected(events[..i], calls, order)
    {
      calls, order := NoteEvent(events[..i], events[i], calls, order);
      assert events[..i] + [events[i]] == events[..i + 1];
    }
    assert events[..|events|] == events;
  }

  method IncompleteCalls(events: seq<Event>) returns (out: seq<IncompleteCall>)
    ensures out == Incomplete(events)
  {
    var calls, order := CollectCalls(events);
    out := [];
    for i := 0 to |order|
      invariant out == Unfinished(events, order[..i])
    {
      assert order[..i + 1][..i] == order[..i];
      assert order[i] in order;
      if !calls[order[i]].hasResult {
        out := out + [calls[order[i]]];
      }
    }
    assert order[..|order|] == order;
  }

  /** A key is listed exactly when some tool event carries it; before that the
      log says nothing about it. */
  lemma {:induction false} AbsentKey(events: seq<Event>, key: string)
    ensures key in FirstSeen(events) <==> Called(events, key)
    ensures !Called(events, key) ==>
      !HasResult(events, key) && !HasStarted(events, key) && NameOf(events, key) == ""
  {
    if events != [] {
      AbsentKey(events[..|events| - 1], key);
    }
  }

  // Positions of the first occurrence, the measure behind "first-seen order".

  function FirstIndex(events: seq<Event>, key: string): (i: nat)
    requires Called(events, key)
    ensures i < |events| && IsCall(events[i]) && KeyOf(events[i]) == key
    ensures forall j :: 0 <= j < i && IsCall(events[j]) ==> KeyOf(events[j]) != key
  {
    var n := |events| - 1;
    if Called(events[..n], key) then FirstIndex(events[..n], key)
    else
      CalledIff(events[..n], key);
      n
  }

  lemma {:induction false} CalledIff(events: seq<Event>, key: string)
    ensures Called(events, key) <==>
      exists i :: 0 <= i < |events| && IsCall(events[i]) && KeyOf(events[i]) == key
  {
    if events != [] {
      var prefix := events[..|events| - 1];
      CalledIff(prefix, key);
      assert forall i :: 0 <= i < |prefix| ==> prefix[i] == events[i];
    }
  }

  /** `HasResult` is the existential one expects, so the folded facts mean what
      the log shows. */
  lemma {:induction false} HasResultIff(events: seq<Event>, key: string)
    ensures HasResult(events, key) <==>
      exists i :: 0 <= i < |events| && IsResult(events[i]) && KeyOf(events[i]) == key
    ensures HasStarted(events, key) <==>
      exists i :: 0 <= i < |events| && events[i].typ == ToolStarted && KeyOf(events[i]) == key
  {
    if events != [] {
      var prefix := events[..|events| - 1];
      HasResultIff(prefix, key);
      assert forall i :: 0 <= i < |prefix| ==> prefix[i] == events[i];
    }
  }

  /** Where a key first appears; keys the log never mentions come last. */
  function Rank(events: seq<Event>, key: string): nat {
    if Called(events, key) then FirstIndex(events, key) else |events|
  }

  ghost predicate Increasing(rank: string -> nat, keys: seq<string>) {
    forall i, j :: 0 <= i < j < |keys| ==> rank(keys[i]) < rank(keys[j])
  }

  /** The keys are listed by the position of the first event that mentions
      them, so in particular each is listed once. */
  ghost predicate InFirstSeenOrder(events: seq<Event>, keys: seq<string>) {
    Increasing(k => Rank(events, k), keys)
  }

  lemma {:induction false} FirstSeenOrdered(events: seq<Event>)
    ensures InFirstSeenOrder(events, FirstSeen(events))
  {
    if events != [] {
      var prefix := events[..|events| - 1];
      FirstSeenOrdered(prefix);
      forall k | k in FirstSeen(prefix)
        ensures Called(prefix, k) && Rank(events, k) == Rank(prefix, k) < |prefix|
      {
        AbsentKey(prefix, k);
      }
      var e := events[|events| - 1];
      if IsCall(e) && KeyOf(e) !in FirstSeen(prefix) {
        AbsentKey(prefix, KeyOf(e));
        assert Rank(events, KeyOf(e)) == |prefix|;
      }
    }
  }

  function Ids(calls: seq<IncompleteCall>): (ids: seq<string>)
    ensures |ids| == |calls|
    ensures forall i :: 0 <= i < |calls| ==> ids[i] == calls[i].id
  {
    if calls == [] then [] else Ids(calls[..|calls| - 1]) + [calls[|calls| - 1].id]
  }

  lemma {:induction false} UnfinishedMembers(events: seq<Event>, order: seq<string>)
    ensures forall c :: c in Unfinished(events, order) <==>
              c == CallRecord(events, c.id) && c.id in order && !HasResult(events, c.id)
  {
    if order != [] {
      UnfinishedMembers(events, order[..|order| - 1]);
      assert order == order[..|order| - 1] + [order[|order| - 1]];
    }
  }

  lemma {:induction false} UnfinishedIds(events: seq<Event>, order: seq<string>)
    ensures forall k <- Ids(Unfinished(events, order)) :: k in order
  {
    if order != [] {
      var init := order[..|order| - 1];
      UnfinishedIds(events, init);
      IdsSnoc(Unfinished(events, init), CallRecord(events, order[|init|]));
    }
  }

  lemma LastIsHighest(rank: string -> nat, keys: seq<string>)
    requires Increasing(rank, keys) && keys != []
    ensures var n := |keys| - 1;
      Increasing(rank, keys[..n]) && forall k <- keys[..n] :: rank(k) < rank(keys[n])
  {
    var n := |keys| - 1;
    forall k | k in keys[..n] ensures rank(k) < rank(keys[n]) {
      var p :| 0 <= p < n && keys[..n][p] == k;
      assert keys[p] == k;
    }
  }

  lemma {:induction false} UnfinishedOrdered(rank: string -> nat, events: seq<Event>, order: seq<string>)
    requires Increasing(rank, order)
    ensures Increasing(rank, Ids(Unfinished(events, order)))
  {
    if order != [] {
      var init, key := order[..|order| - 1], order[|order| - 1];
      LastIsHighest(rank, order);
      UnfinishedOrdered(rank, events, init);
      UnfinishedIds(events, init);
      var earlier := Unfinished(events, init);
      IdsSnoc(earlier, CallRecord(events, key));
      IncreasingSnoc(rank, Ids(earlier), key);
    }
  }

  lemma IncreasingSnoc(rank: string -> nat, keys: seq<string>, key: string)
    requires Increasing(rank, keys)
    requires forall k :: k in keys ==> rank(k) < rank(key)
    ensures Increasing(rank, keys + [key])
  {
    forall i, j | 0 <= i < j < |keys + [key]|
      ensures rank((keys + [key])[i]) < rank((keys + [key])[j])
    {
      assert keys[i] in keys;
    }
  }

  lemma IdsSnoc(calls: seq<IncompleteCall>, c: IncompleteCall)
    ensures Ids(calls + [c]) == Ids(calls) + [c.id]
  {
    assert (calls + [c])[..|calls|] == calls;
  }

  /** The list of incomplete calls holds exactly the keys that some tool event
      mentions and no result event closes, in first-seen order. */
  lemma IncompleteExact(events: seq<Event>)
    ensures forall c :: c in Incomplete(events) <==>
              c == CallRecord(events, c.id) && Called(events, c.id) && !HasResult(events, c.id)
    ensures InFirstSeenOrder(events, Ids(Incomplete(events)))
  {
    FirstSeenOrdered(events);
    UnfinishedMembers(events, FirstSeen(events));
    UnfinishedOrdered(k => Rank(events, k), events, FirstSeen(events));
    forall k ensures k in FirstSeen(events) <==> Called(events, k) {
      AbsentKey(events, k);
    }
  }

  // ---------------------------------------------------------------- classification

  /** The class recovery acts on: the pinned class, else the class of the tool
      name, else non-idempotent. */
  function Classify(store: IdempotencyStore, c: IncompleteCall): IdempotencyClass {
    if c.id != "" && store.byId(c.id).Some? then store.byId(c.id).value
    else if c.name != "" && store.byName(c.name).Some? then store.byName(c.name).value
    else NonIdempotent
  }

  predicate MayReplay(store: IdempotencyStore, c: IncompleteCall) {
    !c.started || Classify(store, c).SafeToReplay()
  }

  function UncertainIds(store: IdempotencyStore, calls: seq<IncompleteCall>): seq<string> {
    if calls == [] then []
    else
      var earlier := UncertainIds(store, calls[..|calls| - 1]);
      var c := calls[|calls| - 1];
      if MayReplay(store, c) then earlier else earlier + [c.id]
  }

  function ReplayableIds(store: IdempotencyStore, calls: seq<IncompleteCall>): seq<string> {
    if calls == [] then []
    else
      var earlier := ReplayableIds(store, calls[..|calls| - 1]);
      var c := calls[|calls| - 1];
      if MayReplay(store, c) then earlier + [c.id] else earlier
  }

  // ---------------------------------------------------------------- inspection

  function BlankPlan(): Plan {
    Plan("", MarkFailed, NoState, 0, 0, [], [], [], false)
  }

  predicate OverBudget(budget: Budget, recorded: nat) {
    var attempts := if budget.counted.Some? then budget.counted.value else recorded;
    budget.max > 0 && attempts >= budget.max
  }

  ghost function InspectPlan(events: seq<Event>, store: IdempotencyStore, budget: Budget): Plan {
    if events == [] then BlankPlan()
    else if !Contiguous(events) then BlankPlan().(lastSeq := MaxSeq(events))
    else PlanFrom(Fold(events), MaxSeq(events), Incomplete(events), store, budget)
  }

  /** The plan for a sound log that folds to `st` and has these calls open. */
  function PlanFrom(st: RecoveredState, last: nat, inc: seq<IncompleteCall>, store: IdempotencyStore, budget: Budget): Plan {
    var base := BlankPlan().(sessionId := st.sessionId, resumeState := st.state, round := st.round,
                             lastSeq := last, sequenceOK := true);
    if st.state.Terminal() then base.(decision := Skip)
    else if !st.state.Resumable() then base
    else
      var split := base.(incomplete := inc, uncertain := UncertainIds(store, inc),
                         replayable := ReplayableIds(store, inc));
      if OverBudget(budget, st.recoveryAttempts) then split
      else if split.uncertain != [] then split.(decision := ResumeAfterConfirm)
      else split.(decision := ResumeAuto)
  }

  method SplitCalls(store: IdempotencyStore, calls: seq<IncompleteCall>)
    returns (uncertain: seq<string>, replayable: seq<string>)
    requires forall c :: c in calls ==> !c.hasResult
    ensures uncertain == UncertainIds(store, calls)
    ensures replayable == ReplayableIds(store, calls)
  {
    uncertain, replayable := [], [];
    for i := 0 to |calls|
      invariant uncertain == UncertainIds(store, calls[..i])
      invariant replayable == ReplayableIds(store, calls[..i])
    {
      var c := calls[i];
      assert calls[..i + 1][..i] == calls[..i];
      var cls := Classify(store, c);
      if c.hasResult {
        assert false;
      } else if !c.started {
        replayable := replayable + [c.id];
      } else if cls.SafeToReplay() {
        replayable := replayable + [c.id];
      } else {
        uncertain := uncertain + [c.id];
      }
    }
    assert calls[..|calls|] == calls;
  }

  method Inspect(events: seq<Event>, store: IdempotencyStore, budget: Budget) returns (plan: Plan)
    ensures plan == InspectPlan(events, store, budget)
  {
    plan := BlankPlan();
    if |events| == 0 {
      return;
    }
    var ok, last := VerifySequence(events);
    plan := plan.(sequenceOK := ok, lastSeq := last);
    if !ok {
      return;
    }
    var st := FoldEvents(events);
    plan := plan.(sessionId := st.sessionId, resumeState := st.state, round := st.round);
    if st.state.Terminal() {
      plan := plan.(decision := Skip);
      return;
    }
    if !st.state.Resumable() {
      return;
    }
    var calls := IncompleteCalls(events);
    plan := plan.(incomplete := calls);
    IncompleteExact(events);
    assert forall c :: c in calls ==> !c.hasResult;
    var uncertain, replayable := SplitCalls(store, calls);
    plan := plan.(uncertain := uncertain, replayable := replayable);
    var attempts := 0;
    if budget.counted.Some? {
      attempts := budget.counted.value;
    } else if st.recoveryAttempts > 0 {
      attempts := st.recoveryAttempts;
    }
    if budget.max > 0 && attempts >= budget.max {
      return;
    }
    if |plan.uncertain| > 0 {
      plan := plan.(decision := ResumeAfterConfirm);
    } else {
      plan := plan.(decision := ResumeAuto);
    }
  }

  // ---------------------------------------------------------------- the split

  lemma {:induction false} SplitMembers(store: IdempotencyStore, calls: seq<IncompleteCall>)
    ensures forall id :: id in UncertainIds(store, calls) <==>
              exists c :: c in calls && c.id == id && !MayReplay(store, c)
    ensures forall id :: id in ReplayableIds(store, calls) <==>
              exists c :: c in calls && c.id == id && MayReplay(store, c)
    ensures |UncertainIds(store, calls)| + |ReplayableIds(store, calls)| == |calls|
  {
    if calls != [] {
      var init := calls[..|calls| - 1];
      SplitMembers(store, init);
      assert calls == init + [calls[|calls| - 1]];
    }
  }

  lemma {:induction false} SplitOrdered(rank: string -> nat, store: IdempotencyStore, calls: seq<IncompleteCall>)
    requires Increasing(rank, Ids(calls))
    ensures Increasing(rank, UncertainIds(store, calls))
    ensures Increasing(rank, ReplayableIds(store, calls))
  {
    if calls != [] {
      var init := calls[..|calls| - 1];
      var c := calls[|calls| - 1];
      assert calls == init + [c];
      IdsSnoc(init, c);
      assert forall i :: 0 <= i < |init| ==> Ids(init)[i] == Ids(calls)[i];
      SplitOrdered(rank, store, init);
      SplitMembers(store, init);
      forall id | id in UncertainIds(store, init) || id in ReplayableIds(store, init)
        ensures rank(id) < rank(c.id)
      {
        var d :| d in init && d.id == id;
        var i :| 0 <= i < |init| && init[i] == d;
        assert Ids(calls)[i] == id && Ids(calls)[|init|] == c.id;
      }
      IncreasingSnoc(rank, if MayReplay(store, c) then ReplayableIds(store, init) else UncertainIds(store, init), c.id);
    }
  }

  /** The plan's lists are those of the log's incomplete calls, or all empty
      when the inspection stopped earlier. */
  lemma PlanLists(events: seq<Event>, store: IdempotencyStore, budget: Budget)
    ensures var p := InspectPlan(events, store, budget);
      && (p.incomplete == [] || p.incomplete == Incomplete(events))
      && (p.decision in {ResumeAuto, ResumeAfterConfirm} ==> p.incomplete == Incomplete(events))
      && p.uncertain == UncertainIds(store, p.incomplete)
      && p.replayable == ReplayableIds(store, p.incomplete)
  {
  }

  /** The uncertain and the replayable calls partition the incomplete ones, and
      all three lists are in first-seen order. */
  lemma SplitPartitions(events: seq<Event>, store: IdempotencyStore, budget: Budget)
    ensures var p := InspectPlan(events, store, budget);
      && (forall id :: id in p.uncertain || id in p.replayable <==> exists c :: c in p.incomplete && c.id == id)
      && (forall id :: id in p.uncertain ==> id !in p.replayable)
      && |p.uncertain| + |p.replayable| == |p.incomplete|
      && InFirstSeenOrder(events, Ids(p.incomplete))
      && InFirstSeenOrder(events, p.uncertain)
      && InFirstSeenOrder(events, p.replayable)
  {
    PlanLists(events, store, budget);
    var calls := InspectPlan(events, store, budget).incomplete;
    IncompleteExact(events);
    SplitMembers(store, calls);
    SplitOrdered(k => Rank(events, k), store, calls);
    forall id | id in UncertainIds(store, calls) ensures id !in ReplayableIds(store, calls) {
      SplitDisjoint(events, store, id);
    }
  }

  lemma SplitDisjoint(events: seq<Event>, store: IdempotencyStore, id: string)
    requires id in UncertainIds(store, Incomplete(events))
    ensures id !in ReplayableIds(store, Incomplete(events))
  {
    var calls := Incomplete(events);
    SplitMembers(store, calls);
    IncompleteExact(events);
  }

  /** Nothing is uncertain exactly when every started call without a result is
      safe to replay. */
  lemma NothingUncertainIff(events: seq<Event>, store: IdempotencyStore)
    ensures UncertainIds(store, Incomplete(events)) == [] <==>
      forall k :: HasStarted(events, k) && !HasResult(events, k) ==>
        Classify(store, CallRecord(events, k)).SafeToReplay()
  {
    var inc := Incomplete(events);
    IncompleteExact(events);
    SplitMembers(store, inc);
    if UncertainIds(store, inc) != [] {
      var id := UncertainIds(store, inc)[0];
      assert id in UncertainIds(store, inc);
      var c :| c in inc && c.id == id && !MayReplay(store, c);
      assert HasStarted(events, c.id) && !HasResult(events, c.id);
    } else {
      forall k | HasStarted(events, k) && !HasResult(events, k)
        ensures Classify(store, CallRecord(events, k)).SafeToReplay()
      {
        AbsentKey(events, k);
        assert CallRecord(events, k) in inc;
        assert k !in UncertainIds(store, inc);
      }
    }
  }

  /** A run resumes without asking only from a contiguous log of a live run in
      which every started call without a result is safe to replay. */
  lemma ResumeAutoIff(events: seq<Event>, store: IdempotencyStore, budget: Budget)
    ensures InspectPlan(events, store, budget).decision == ResumeAuto <==>
      && events != [] && Contiguous(events)
      && Fold(events).state.Resumable()
      && !OverBudget(budget, Fold(events).recoveryAttempts)
      && forall k :: HasStarted(events, k) && !HasResult(events, k) ==>
           Classify(store, CallRecord(events, k)).SafeToReplay()
  {
    FoldIsDeclared(events);
    TerminalIffNotResumable(Fold(events).state);
    NothingUncertainIff(events, store);
  }

  // ---------------------------------------------------------------- what the log alone decides

  /** A tool event that counts for `key`: by its call id, or, without one, by its
      tool name. */
  ghost predicate Bears(e: Event, key: string) {
    && e.typ in {ToolCallRequested, ToolStarted, ToolCompleted, ToolFailed, ToolCancelled}
    && key == if e.callId != "" then e.callId else "__unknown__:" + e.toolName
  }

  ghost predicate LoggedStart(events: seq<Event>, key: string) {
    exists i :: 0 <= i < |events| && Bears(events[i], key) && events[i].typ == ToolStarted
  }

  ghost predicate LoggedResult(events: seq<Event>, key: string) {
    exists i :: 0 <= i < |events| && Bears(events[i], key) && events[i].typ in {ToolCompleted, ToolFailed, ToolCancelled}
  }

  ghost predicate Logged(events: seq<Event>, key: string) {
    exists i :: 0 <= i < |events| && Bears(events[i], key)
  }

  /** `name` is the first tool name the log gives for `key`, if it gives any. */
  ghost predicate FirstNamed(events: seq<Event>, key: string, name: string) {
    if name == "" then forall i :: 0 <= i < |events| && Bears(events[i], key) ==> events[i].toolName == ""
    else
      exists i :: 0 <= i < |events| && Bears(events[i], key) && events[i].toolName == name
        && forall j :: 0 <= j < i && Bears(events[j], key) ==> events[j].toolName == ""
  }

  /** `s` is the newest declared state of the log, if it has any. */
  ghost predicate LatestState(events: seq<Event>, s: RunState) {
    if forall i :: 0 <= i < |events| ==> events[i].state.Unknown? then s == Created
    else
      exists i :: 0 <= i < |events| && events[i].state == s && !s.Unknown?
        && forall j :: i < j < |events| ==> events[j].state.Unknown?
  }

  /** `id` is the newest session the log names, if it names any. */
  ghost predicate LatestSession(events: seq<Event>, id: string) {
    if forall i :: 0 <= i < |events| ==> events[i].sessionId == "" then id == ""
    else
      exists i :: 0 <= i < |events| && events[i].sessionId == id && id != ""
        && forall j :: i < j < |events| ==> events[j].sessionId == ""
  }

  ghost predicate HighestRound(events: seq<Event>, round: int) {
    && round >= 0
    && (forall i :: 0 <= i < |events| ==> events[i].round <= round)
    && (round > 0 ==> exists i :: 0 <= i < |events| && events[i].round == round)
  }

  ghost function Resumptions(events: seq<Event>): set<nat> {
    set i | 0 <= i < |events| && events[i].typ in {RunRecovering, RunResumed}
  }

  lemma {:induction false} FoldedState(events: seq<Event>)
    ensures LatestState(events, FoldRaw(events).state)
  {
    if events != [] {
      var n := |events| - 1;
      FoldedState(events[..n]);
      if events[n].state.Unknown? {
        assert forall i :: 0 <= i < n ==> events[..n][i] == events[i];
      }
    }
  }

  lemma {:induction false} FoldedSession(events: seq<Event>)
    ensures LatestSession(events, FoldRaw(events).sessionId)
  {
    if events != [] {
      var n := |events| - 1;
      FoldedSession(events[..n]);
      if events[n].sessionId == "" {
        assert forall i :: 0 <= i < n ==> events[..n][i] == events[i];
      }
    }
  }

  lemma {:induction false} FoldedRound(events: seq<Event>)
    ensures HighestRound(events, FoldRaw(events).round)
  {
    if events != [] {
      var n := |events| - 1;
      FoldedRound(events[..n]);
      assert forall i :: 0 <= i < n ==> events[..n][i] == events[i];
    }
  }

  lemma {:induction false} FoldedAttempts(events: seq<Event>)
    ensures FoldRaw(events).recoveryAttempts == |Resumptions(events)|
  {
    if events != [] {
      var n := |events| - 1;
      FoldedAttempts(events[..n]);
      assert Resumptions(events) ==
        Resumptions(events[..n]) + if events[n].typ in {RunRecovering, RunResumed} then {n} else {};
    }
  }

  lemma {:induction false} HighestNumber(events: seq<Event>)
    ensures forall i :: 0 <= i < |events| ==> events[i].seqNo <= MaxSeq(events)
    ensures MaxSeq(events) > 0 ==> exists i :: 0 <= i < |events| && events[i].seqNo == MaxSeq(events)
  {
    if events != [] {
      var n := |events| - 1;
      HighestNumber(events[..n]);
      assert forall i :: 0 <= i < n ==> events[..n][i] == events[i];
    }
  }

  lemma {:induction false} FoldedName(events: seq<Event>, key: string)
    ensures FirstNamed(events, key, NameOf(events, key))
  {
    if events != [] {
      var n := |events| - 1;
      FoldedName(events[..n], key);
      assert forall i :: 0 <= i < n ==> events[..n][i] == events[i];
      assert IsCall(events[n]) && KeyOf(events[n]) == key <==> Bears(events[n], key);
    }
  }

  lemma FirstNameUnique(events: seq<Event>, key: string, a: string, b: string)
    requires FirstNamed(events, key, a) && FirstNamed(events, key, b)
    ensures a == b
  {
  }

  lemma FoldedCall(events: seq<Event>, key: string)
    ensures Called(events, key) <==> Logged(events, key)
    ensures HasStarted(events, key) <==> LoggedStart(events, key)
    ensures HasResult(events, key) <==> LoggedResult(events, key)
  {
    forall e ensures IsCall(e) && KeyOf(e) == key <==> Bears(e, key) {
      BearsIff(e, key);
    }
    CalledIff(events, key);
    HasResultIff(events, key);
  }

  lemma BearsIff(e: Event, key: string)
    ensures IsCall(e) && KeyOf(e) == key <==> Bears(e, key)
  {
  }

  /** A call may be repeated when its id is pinned as idempotent, or when nothing
      is pinned and the tool it was first logged under is idempotent. */
  ghost predicate Repeatable(store: IdempotencyStore, key: string, name: string) {
    || store.byId(key) == Some(Idempotent)
    || (store.byId(key) == None && name != "" && store.byName(name) == Some(Idempotent))
  }

  /** A started call that no result closes and that must not be repeated. */
  ghost predicate InDoubt(events: seq<Event>, store: IdempotencyStore, key: string) {
    && LoggedStart(events, key) && !LoggedResult(events, key)
    && exists name :: FirstNamed(events, key, name) && !Repeatable(store, key, name)
  }

  lemma InDoubtIff(events: seq<Event>, store: IdempotencyStore, key: string)
    ensures InDoubt(events, store, key) <==>
      HasStarted(events, key) && !HasResult(events, key) && !MayReplay(store, CallRecord(events, key))
  {
    FoldedCall(events, key);
    FoldedName(events, key);
    forall name | FirstNamed(events, key, name) ensures name == NameOf(events, key) {
      FirstNameUnique(events, key, name, NameOf(events, key));
    }
    KeyIsNamed(events, key);
    StartedIsCalled(events, key);
  }

  lemma KeyIsNamed(events: seq<Event>, key: string)
    ensures Logged(events, key) ==> key != ""
  {
    if Logged(events, key) {
      var i :| 0 <= i < |events| && Bears(events[i], key);
      assert |"__unknown__:" + events[i].toolName| > 0;
    }
  }

  /** In the plan of a live run with a sound log, a key is uncertain exactly when
      the call is in doubt; every other logged call without a result, started
      and repeatable or never started, is replayable; and nothing else is. */
  lemma ListsByFacts(events: seq<Event>, store: IdempotencyStore, budget: Budget, s: RunState, key: string)
    requires events != [] && Contiguous(events) && LatestState(events, s) && s !in {Completed, Cancelled, Failed}
    ensures var p := InspectPlan(events, store, budget);
      && (key in p.uncertain <==> InDoubt(events, store, key))
      && (key in p.replayable <==>
            Logged(events, key) && !LoggedResult(events, key) && !InDoubt(events, store, key))
  {
    FoldedState(events);
    LatestStateUnique(events, s, FoldRaw(events).state);
    LivePlan(events, store, budget);
    InDoubtIff(events, store, key);
    FoldedCall(events, key);
    StartedIsCalled(events, key);
    SplitMembers(store, Incomplete(events));
    IncompleteExact(events);
    var c := CallRecord(events, key);
    if Logged(events, key) && !LoggedResult(events, key) {
      assert c in Incomplete(events) && c.id == key;
    }
  }

  lemma StartedIsCalled(events: seq<Event>, key: string)
    ensures LoggedStart(events, key) || LoggedResult(events, key) ==> Logged(events, key)
  {
  }

  lemma LatestStateUnique(events: seq<Event>, s: RunState, t: RunState)
    requires LatestState(events, s) && LatestState(events, t)
    ensures s == t
  {
  }

  lemma LivePlan(events: seq<Event>, store: IdempotencyStore, budget: Budget)
    requires events != [] && Contiguous(events) && FoldRaw(events).state !in {Completed, Cancelled, Failed}
    ensures var p := InspectPlan(events, store, budget);
      p.uncertain == UncertainIds(store, Incomplete(events)) && p.replayable == ReplayableIds(store, Incomplete(events))
  {
    FoldIsDeclared(events);
    TerminalIffNotResumable(Fold(events).state);
  }

  /** A call in doubt keeps its run from being resumed without asking, whatever
      else the log says. */
  lemma DoubtBlocks(events: seq<Event>, store: IdempotencyStore, budget: Budget, key: string)
    requires InDoubt(events, store, key)
    ensures InspectPlan(events, store, budget).decision != ResumeAuto
  {
    InDoubtIff(events, store, key);
    ResumeAutoIff(events, store, budget);
  }

  /** The attempts a run has used up, by the engine's counter or by its log. */
  ghost predicate Exhausted(events: seq<Event>, budget: Budget) {
    && budget.max > 0
    && budget.max <= match budget.counted { case Some(n) => n case None => |Resumptions(events)| }
  }

  /** The decision for every log, store and budget, on the events alone. */
  lemma DecisionByFacts(events: seq<Event>, store: IdempotencyStore, budget: Budget, s: RunState)
    requires LatestState(events, s)
    ensures var p := InspectPlan(events, store, budget);
      var decision := p.decision;
      var sound := events != [] && Contiguous(events);
      var over := s in {Completed, Cancelled, Failed};
      && (p.sequenceOK <==> sound)
      && (!sound ==> p.incomplete == [] && p.uncertain == [] && p.replayable == [])
      && (decision == Skip <==> sound && over)
      && (decision == MarkFailed <==> !sound || (!over && Exhausted(events, budget)))
      && (decision == ResumeAfterConfirm <==>
            sound && !over && !Exhausted(events, budget) && exists k :: InDoubt(events, store, k))
      && (decision == ResumeAuto <==>
            sound && !over && !Exhausted(events, budget) && forall k :: !InDoubt(events, store, k))
  {
    FoldedState(events);
    LatestStateUnique(events, s, FoldRaw(events).state);
    FoldIsDeclared(events);
    TerminalIffNotResumable(Fold(events).state);
    FoldedAttempts(events);
    assert Exhausted(events, budget) <==> OverBudget(budget, Fold(events).recoveryAttempts);
    NothingUncertainIff(events, store);
    DoubtsListed(events, store);
  }

  lemma DoubtsListed(events: seq<Event>, store: IdempotencyStore)
    ensures (exists k :: InDoubt(events, store, k)) <==> UncertainIds(store, Incomplete(events)) != []
  {
    NothingUncertainIff(events, store);
    forall k
      ensures InDoubt(events, store, k) <==>
        HasStarted(events, k) && !HasResult(events, k) && !Classify(store, CallRecord(events, k)).SafeToReplay()
    {
      InDoubtIff(events, store, k);
    }
  }

  /** What the plan of a sound log says besides the decision. */
  lemma PlanFields(events: seq<Event>, store: IdempotencyStore, budget: Budget, s: RunState)
    requires events != [] && Contiguous(events) && LatestState(events, s)
    ensures var p := InspectPlan(events, store, budget);
      && p.sequenceOK && p.lastSeq == events[|events| - 1].seqNo
      && LatestSession(events, p.sessionId)
      && HighestRound(events, p.round)
      && p.resumeState == if s == Recovering then Queued else s
  {
    FoldedState(events);
    LatestStateUnique(events, s, FoldRaw(events).state);
    FoldedSession(events);
    FoldedRound(events);
    ContiguousMax(events);
    PlanKeepsFold(events, store, budget);
  }

  lemma PlanKeepsFold(events: seq<Event>, store: IdempotencyStore, budget: Budget)
    requires events != [] && Contiguous(events)
    ensures var p, raw := InspectPlan(events, store, budget), FoldRaw(events);
      && p.sequenceOK && p.lastSeq == MaxSeq(events) && p.sessionId == raw.sessionId && p.round == raw.round
      && p.resumeState == Settle(raw.state)
  {
    PlanBase(Fold(events), MaxSeq(events), Incomplete(events), store, budget);
  }

  lemma PlanBase(st: RecoveredState, last: nat, inc: seq<IncompleteCall>, store: IdempotencyStore, budget: Budget)
    ensures var p := PlanFrom(st, last, inc, store, budget);
      p.sequenceOK && p.lastSeq == last && p.sessionId == st.sessionId && p.round == st.round && p.resumeState == st.state
  {
  }

  // ---------------------------------------------------------------- acting on a plan

  /** What the engine appends for a plan. A run already parked is only
      re-recorded, which writes no event; a state with no edge to
      `WaitingUser` makes the transition fail before anything is written. */
  function ParkEvent(events: seq<Event>, plan: Plan, session: string): Event {
    Event(MaxSeq(events) + 1, UserInputRequired, WaitingUser, plan.round, session, "", "")
  }

  function FailEvent(events: seq<Event>, plan: Plan): Event {
    Event(MaxSeq(events) + 1, RunFailed, Failed, 0, plan.sessionId, "", "")
  }

  function ApplyPlan(events: seq<Event>, plan: Plan, session: string): seq<Event> {
    match plan.decision
    case Skip => events
    case MarkFailed => events + [FailEvent(events, plan)]
    case ResumeAuto | ResumeAfterConfirm =>
      if plan.resumeState == WaitingUser || !CanTransitionTo(plan.resumeState, WaitingUser) then events
      else events + [ParkEvent(events, plan, session)]
  }

  lemma NumberedSnoc(events: seq<Event>, e: Event)
    requires e.seqNo == MaxSeq(events) + 1
    ensures Contiguous(events + [e]) <==> Contiguous(events)
  {
    ContiguousSnoc(events, e);
    if Contiguous(events) {
      ContiguousMax(events);
    }
  }

  lemma {:induction false} UnfinishedDependsOnRecords(es: seq<Event>, fs: seq<Event>, order: seq<string>)
    requires forall k :: CallRecord(es, k) == CallRecord(fs, k)
    ensures Unfinished(es, order) == Unfinished(fs, order)
  {
    if order != [] {
      UnfinishedDependsOnRecords(es, fs, order[..|order| - 1]);
    }
  }

  /** An event that is not about a tool call leaves the incomplete calls alone. */
  lemma QuietEvent(events: seq<Event>, e: Event)
    requires !IsCall(e)
    ensures Incomplete(events + [e]) == Incomplete(events)
  {
    FirstSeenSnoc(events, e);
    forall k ensures CallRecord(events + [e], k) == CallRecord(events, k) {
      RecordSnoc(events, e, k);
    }
    UnfinishedDependsOnRecords(events + [e], events, FirstSeen(events));
  }

  ghost predicate SameLists(p: Plan, q: Plan) {
    q.round == p.round && q.incomplete == p.incomplete && q.uncertain == p.uncertain && q.replayable == p.replayable
  }

  /** Parking a run leaves round and lists of its plan as they are. The decision
      stays too unless the counter has reached the maximum by then; and while it
      stays, a later pass appends nothing. */
  lemma ParkIsStable(events: seq<Event>, store: IdempotencyStore, budget: Budget, later: Budget, session: string)
    requires InspectPlan(events, store, budget).decision in {ResumeAuto, ResumeAfterConfirm}
    ensures var p := InspectPlan(events, store, budget);
      var parked := ApplyPlan(events, p, session);
      var q := InspectPlan(parked, store, later);
      && SameLists(p, q)
      && q.decision == (if OverBudget(later, Fold(events).recoveryAttempts) then MarkFailed else p.decision)
      && (q.decision != MarkFailed ==> ApplyPlan(parked, q, session) == parked)
  {
    var p := InspectPlan(events, store, budget);
    if p.resumeState == WaitingUser || !CanTransitionTo(p.resumeState, WaitingUser) {
      SamePlan(events, store, budget, later);
    } else {
      ParkedPlan(events, store, budget, later, ParkEvent(events, p, session));
    }
  }

  lemma SamePlan(events: seq<Event>, store: IdempotencyStore, budget: Budget, later: Budget)
    requires InspectPlan(events, store, budget).decision in {ResumeAuto, ResumeAfterConfirm}
    ensures var p, q := InspectPlan(events, store, budget), InspectPlan(events, store, later);
      && SameLists(p, q) && q.resumeState == p.resumeState
      && q.decision == if OverBudget(later, Fold(events).recoveryAttempts) then MarkFailed else p.decision
  {
    var st := Fold(events);
    SameStateSameLists(st, st, MaxSeq(events), MaxSeq(events), Incomplete(events), store, budget, later);
  }

  lemma ParkedPlan(events: seq<Event>, store: IdempotencyStore, budget: Budget, later: Budget, e: Event)
    requires InspectPlan(events, store, budget).decision in {ResumeAuto, ResumeAfterConfirm}
    requires e.seqNo == MaxSeq(events) + 1 && e.typ == UserInputRequired && e.state == WaitingUser
    requires e.round == Fold(events).round
    ensures SameLists(InspectPlan(events, store, budget), InspectPlan(events + [e], store, later))
    ensures InspectPlan(events + [e], store, later).resumeState == WaitingUser
    ensures InspectPlan(events + [e], store, later).decision ==
      if OverBudget(later, Fold(events).recoveryAttempts) then MarkFailed else InspectPlan(events, store, budget).decision
  {
    NumberedSnoc(events, e);
    ParkedState(events, e);
    QuietEvent(events, e);
    SameStateSameLists(Fold(events), Fold(events + [e]), MaxSeq(events), MaxSeq(events + [e]), Incomplete(events),
                       store, budget, later);
  }

  /** Two live states with the same calls open get the same lists; only the
      budget can set their decisions apart. */
  lemma SameStateSameLists(st: RecoveredState, st': RecoveredState, last: nat, last': nat, inc: seq<IncompleteCall>,
                           store: IdempotencyStore, budget: Budget, later: Budget)
    requires PlanFrom(st, last, inc, store, budget).decision in {ResumeAuto, ResumeAfterConfirm}
    requires st'.state in {st.state, WaitingUser} && st'.round == st.round && st'.recoveryAttempts == st.recoveryAttempts
    ensures var p := PlanFrom(st, last, inc, store, budget);
      var q := PlanFrom(st', last', inc, store, later);
      && SameLists(p, q) && q.resumeState == st'.state
      && q.decision == if OverBudget(later, st.recoveryAttempts) then MarkFailed else p.decision
  {
  }

  lemma ParkedState(events: seq<Event>, e: Event)
    requires e.typ == UserInputRequired && e.state == WaitingUser && e.round == Fold(events).round
    ensures Fold(events + [e]).state == WaitingUser
    ensures Fold(events + [e]).round == Fold(events).round
    ensures Fold(events + [e]).recoveryAttempts == Fold(events).recoveryAttempts
  {
    FoldRawSnoc(events, e);
  }

  /** Failing a run stops recovery from touching it again exactly when its log
      was contiguous (an empty log counts). On a log with a gap the failure
      record leaves the gap in place, so the next pass fails the run once more
      and appends another record. The counter plays no part. */
  lemma FailureSettlesIffContiguous(events: seq<Event>, store: IdempotencyStore, budget: Budget, later: Budget, session: string)
    requires InspectPlan(events, store, budget).decision == MarkFailed
    ensures var p := InspectPlan(events, store, budget);
      var failed := ApplyPlan(events, p, session);
      var q := InspectPlan(failed, store, later);
      && q.decision == (if Contiguous(events) then Skip else MarkFailed)
      && |ApplyPlan(failed, q, session)| == |failed| + if Contiguous(events) then 0 else 1
  {
    var e := FailEvent(events, InspectPlan(events, store, budget));
    NumberedSnoc(events, e);
    FailedPlan(events, e, store, later);
  }

  lemma FailedPlan(events: seq<Event>, e: Event, store: IdempotencyStore, budget: Budget)
    requires e.state == Failed
    ensures InspectPlan(events + [e], store, budget).decision == if Contiguous(events + [e]) then Skip else MarkFailed
  {
    FoldRawSnoc(events, e);
    assert Fold(events + [e]).state == Failed;
    TerminalSkips(Fold(events + [e]), MaxSeq(events + [e]), Incomplete(events + [e]), store, budget);
  }

  lemma TerminalSkips(st: RecoveredState, last: nat, inc: seq<IncompleteCall>, store: IdempotencyStore, budget: Budget)
    requires st.state == Failed
    ensures PlanFrom(st, last, inc, store, budget).decision == Skip
  {
    TerminalIffNotResumable(Failed);
  }

  // ---------------------------------------------------------------- whole passes

  /** One run as an engine process holds it: its durable log, and how often this
      process has resumed it automatically. */
  datatype Ledger = Ledger(events: seq<Event>, attempts: nat)

  /** The engine supplies its own counter, so the one on the log is not used. */
  ghost function PlanOf(l: Ledger, store: IdempotencyStore, max: nat): Plan {
    InspectPlan(l.events, store, Budget(max, Some(l.attempts)))
  }

  /** What acting on a plan leaves. The run may fail to be registered again, and
      the append may fail; an automatic resumption is counted in between. */
  function Applied(l: Ledger, plan: Plan, session: string, registered: bool, stored: bool): Ledger {
    var after := if stored then ApplyPlan(l.events, plan, session) else l.events;
    match plan.decision
    case Skip => l
    case MarkFailed => l.(events := after)
    case ResumeAuto => if registered then Ledger(after, l.attempts + 1) else l
    case ResumeAfterConfirm => if registered then l.(events := after) else l
  }

  /** The one event that acting on a plan may append: the failure under the
      session of the log, or the parking under the session of the caller. */
  ghost predicate OneMore(before: seq<Event>, after: seq<Event>, plan: Plan, session: string) {
    && |after| == |before| + 1 && after[..|before|] == before
    && after[|before|].seqNo == MaxSeq(before) + 1
    && after[|before|].callId == "" && after[|before|].toolName == ""
    && if plan.decision == MarkFailed then
         && after[|before|].typ == RunFailed && after[|before|].state == Failed
         && after[|before|].sessionId == plan.sessionId && after[|before|].round == 0
       else
         && after[|before|].typ == UserInputRequired && after[|before|].state == WaitingUser
         && after[|before|].sessionId == session && after[|before|].round == plan.round
  }

  /** A live run is parked unless it waits already or was never queued; only an
      automatic resumption of a registered run is counted. */
  lemma AppliedByFacts(l: Ledger, plan: Plan, session: string, registered: bool, stored: bool)
    requires plan.decision in {ResumeAuto, ResumeAfterConfirm} ==> plan.resumeState.Resumable() && plan.resumeState != Recovering
    ensures var after := Applied(l, plan, session, registered, stored);
      && after.attempts == l.attempts + (if plan.decision == ResumeAuto && registered then 1 else 0)
      && (after.events == l.events || (stored && OneMore(l.events, after.events, plan, session)))
      && (after.events != l.events <==>
            stored && (plan.decision == MarkFailed ||
                       (plan.decision in {ResumeAuto, ResumeAfterConfirm} && registered
                        && plan.resumeState !in {WaitingUser, Created})))
  {
  }

  ghost function Pass(l: Ledger, store: IdempotencyStore, max: nat, session: string): Ledger {
    Applied(l, PlanOf(l, store, max), session, true, true)
  }

  ghost function Passes(l: Ledger, store: IdempotencyStore, max: nat, session: string, n: nat): Ledger {
    Iterate(Passing(store, max, session), l, n)
  }

  ghost function Passing(store: IdempotencyStore, max: nat, session: string): Ledger -> Ledger {
    l => Pass(l, store, max, session)
  }

  function Iterate<T>(f: T -> T, x: T, n: nat): T {
    if n == 0 then x else f(Iterate(f, x, n - 1))
  }

  /** A second pass appends nothing exactly when the log has no gap and the first
      pass was not the automatic resumption that used up the maximum. */
  lemma RecoverIdempotentIff(l: Ledger, store: IdempotencyStore, max: nat, session: string)
    ensures var once := Pass(l, store, max, session);
      Pass(once, store, max, session).events == once.events <==>
        && Contiguous(l.events)
        && !(PlanOf(l, store, max).decision == ResumeAuto && max > 0 && l.attempts + 1 >= max)
  {
    var budget, p := Budget(max, Some(l.attempts)), PlanOf(l, store, max);
    var later := Budget(max, Some(Pass(l, store, max, session).attempts));
    if p.decision == MarkFailed {
      FailureSettlesIffContiguous(l.events, store, budget, later, session);
    } else if p.decision != Skip {
      ParkIsStable(l.events, store, budget, later, session);
    }
  }

  /** A parked run, failed for having used up its attempts. */
  ghost function GivenUp(parked: seq<Event>, store: IdempotencyStore, max: nat): Ledger {
    Ledger(parked + [FailEvent(parked, PlanOf(Ledger(parked, max), store, max))], max)
  }

  lemma PassOverParked(l: Ledger, store: IdempotencyStore, max: nat, session: string, attempts: nat)
    requires PlanOf(l, store, max).decision == ResumeAuto
    requires max > 0 ==> attempts <= max
    ensures var parked := Pass(l, store, max, session).events;
      Pass(Ledger(parked, attempts), store, max, session) ==
        if max > 0 && attempts == max then GivenUp(parked, store, max) else Ledger(parked, attempts + 1)
  {
    ParkIsStable(l.events, store, Budget(max, Some(l.attempts)), Budget(max, Some(attempts)), session);
  }

  lemma PassOverGivenUp(l: Ledger, store: IdempotencyStore, max: nat, session: string)
    requires max > 0 && PlanOf(l, store, max).decision == ResumeAuto
    ensures var given := GivenUp(Pass(l, store, max, session).events, store, max);
      Pass(given, store, max, session) == given
  {
    var parked := Pass(l, store, max, session).events;
    ContiguousAfterPark(l, store, max, session);
    var e := FailEvent(parked, PlanOf(Ledger(parked, max), store, max));
    NumberedSnoc(parked, e);
    FailedPlan(parked, e, store, Budget(max, Some(max)));
    PassSkips(Ledger(parked + [e], max), store, max, session);
  }

  lemma PassSkips(l: Ledger, store: IdempotencyStore, max: nat, session: string)
    requires PlanOf(l, store, max).decision == Skip
    ensures Pass(l, store, max, session) == l
  {
  }

  /** How repeated passes of one process end for a run that is resumed
      automatically: it is parked once, stays as it is while the counter is below
      the maximum, and the pass that finds the maximum reached fails it, healthy
      as it is; after that nothing changes any more. */
  lemma {:induction false} PassesUntilFailed(l: Ledger, store: IdempotencyStore, max: nat, session: string, n: nat)
    requires PlanOf(l, store, max).decision == ResumeAuto && n >= 1
    ensures var parked := Pass(l, store, max, session).events;
      Passes(l, store, max, session, n) ==
        if max == 0 || l.attempts + n <= max then Ledger(parked, l.attempts + n) else GivenUp(parked, store, max)
  {
    PassIsCounter(l, store, max, session);
    var parked := Pass(l, store, max, session).events;
    CountUp(Passing(store, max, session), l, parked, max, GivenUp(parked, store, max), n);
  }

  /** A step that goes from `l` to `parked`, counts up there to a maximum, and
      then stays at `last`. */
  ghost predicate Counter(f: Ledger -> Ledger, l: Ledger, parked: seq<Event>, max: nat, last: Ledger) {
    && f(l) == Ledger(parked, l.attempts + 1)
    && (max > 0 ==> l.attempts < max && f(last) == last)
    && forall a :: CountsAt(f, parked, max, last, a)
  }

  lemma PassIsCounter(l: Ledger, store: IdempotencyStore, max: nat, session: string)
    requires PlanOf(l, store, max).decision == ResumeAuto
    ensures var parked := Pass(l, store, max, session).events;
      Counter(Passing(store, max, session), l, parked, max, GivenUp(parked, store, max))
  {
    forall a
      ensures var parked := Pass(l, store, max, session).events;
        CountsAt(Passing(store, max, session), parked, max, GivenUp(parked, store, max), a)
    {
      PassingCounts(l, store, max, session, a);
    }
    PassingStarts(l, store, max, session);
    if max > 0 {
      PassingEnds(l, store, max, session);
    }
  }

  lemma PassingApplied(l: Ledger, store: IdempotencyStore, max: nat, session: string)
    ensures Passing(store, max, session)(l) == Pass(l, store, max, session)
  {
  }

  lemma PassingStarts(l: Ledger, store: IdempotencyStore, max: nat, session: string)
    requires PlanOf(l, store, max).decision == ResumeAuto
    ensures Passing(store, max, session)(l) == Ledger(Pass(l, store, max, session).events, l.attempts + 1)
    ensures max > 0 ==> l.attempts < max
  {
    PassingApplied(l, store, max, session);
  }

  lemma PassingEnds(l: Ledger, store: IdempotencyStore, max: nat, session: string)
    requires max > 0 && PlanOf(l, store, max).decision == ResumeAuto
    ensures var last := GivenUp(Pass(l, store, max, session).events, store, max);
      Passing(store, max, session)(last) == last
  {
    var last := GivenUp(Pass(l, store, max, session).events, store, max);
    PassOverGivenUp(l, store, max, session);
    PassingApplied(last, store, max, session);
  }

  /** One application of a step that counts up to a maximum. */
  ghost predicate CountsAt(f: Ledger -> Ledger, parked: seq<Event>, max: nat, last: Ledger, a: nat) {
    max == 0 || a <= max ==>
      f(Ledger(parked, a)) == if max > 0 && a == max then last else Ledger(parked, a + 1)
  }

  lemma PassingCounts(l: Ledger, store: IdempotencyStore, max: nat, session: string, a: nat)
    requires PlanOf(l, store, max).decision == ResumeAuto
    ensures var parked := Pass(l, store, max, session).events;
      CountsAt(Passing(store, max, session), parked, max, GivenUp(parked, store, max), a)
  {
    if max == 0 || a <= max {
      PassOverParked(l, store, max, session, a);
    }
  }

  lemma {:induction false} CountUp(f: Ledger -> Ledger, l: Ledger, parked: seq<Event>, max: nat, last: Ledger, n: nat)
    requires n >= 1 && Counter(f, l, parked, max, last)
    ensures Iterate(f, l, n) == if max == 0 || l.attempts + n <= max then Ledger(parked, l.attempts + n) else last
  {
    if n == 1 {
      assert Iterate(f, l, 0) == l;
    } else {
      CountUp(f, l, parked, max, last, n - 1);
      if max == 0 || l.attempts + n - 1 <= max {
        assert CountsAt(f, parked, max, last, l.attempts + n - 1);
      }
    }
  }

  lemma ContiguousAfterPark(l: Ledger, store: IdempotencyStore, max: nat, session: string)
    requires PlanOf(l, store, max).decision == ResumeAuto
    ensures Contiguous(Pass(l, store, max, session).events)
  {
    NumberedSnoc(l.events, ParkEvent(l.events, PlanOf(l, store, max), session));
  }

  /** A run in the middle of a round, with nothing open. */
  function HealthyLog(): seq<Event> {
    [Event(1, RunStateChanged, Thinking, 0, "session", "", "")]
  }

  lemma HealthyIsResumed(store: IdempotencyStore)
    ensures Incomplete(HealthyLog()) == [] && FoldRaw(HealthyLog()).state == Thinking
  {
    var e := HealthyLog()[0];
    assert [] + [e] == HealthyLog();
    FirstSeenSnoc([], e);
    FoldRawSnoc([], e);
  }

  /** With a maximum of one, the second pass of one process fails it. */
  lemma SecondPassFails(store: IdempotencyStore)
    ensures var l := Ledger(HealthyLog(), 0);
      var parked := Pass(l, store, 1, "session").events;
      && Contiguous(l.events) && PlanOf(l, store, 1).decision == ResumeAuto
      && parked == l.events + [ParkEvent(l.events, PlanOf(l, store, 1), "session")]
      && Passes(l, store, 1, "session", 2) == GivenUp(parked, store, 1)
  {
    HealthyIsResumed(store);
    var l := Ledger(HealthyLog(), 0);
    assert PlanOf(l, store, 1).decision == ResumeAuto;
    PassesUntilFailed(l, store, 1, "session", 2);
  }

  /** The counter dies with the process: the first pass after a restart never
      fails a run for its attempts, however often it crashed before. */
  lemma RestartForgetsAttempts(events: seq<Event>, store: IdempotencyStore, max: nat)
    ensures PlanOf(Ledger(events, 0), store, max).decision == MarkFailed <==> events == [] || !Contiguous(events)
  {
    FoldIsDeclared(events);
    TerminalIffNotResumable(Fold(events).state);
  }

  /** The run that a second pass of the same process would fail is resumed again
      by the first pass after a restart. */
  lemma RestartResumesAgain(store: IdempotencyStore)
    ensures var parked := Pass(Ledger(HealthyLog(), 0), store, 1, "session").events;
      && PlanOf(Ledger(parked, 1), store, 1).decision == MarkFailed
      && PlanOf(Ledger(parked, 0), store, 1).decision == ResumeAuto
  {
    SecondPassFails(store);
    ParkIsStable(HealthyLog(), store, Budget(1, Some(0)), Budget(1, Some(1)), "session");
    ParkIsStable(HealthyLog(), store, Budget(1, Some(0)), Budget(1, Some(0)), "session");
  }

  // ---------------------------------------------------------------- the engine's methods

  /** One run in the engine's recovery pass. */
  class RunRecord {
    var events: seq<Event>
    var attempts: nat

    ghost function View(): Ledger
      reads this
    {
      Ledger(events, attempts)
    }

    /** A process starts with the log and no count. */
    constructor (events: seq<Event>)
      ensures View() == Ledger(events, 0)
    {
      this.events, this.attempts := events, 0;
    }

    method Append(e: Event, stored: bool) returns (ok: bool)
      modifies this`events
      ensures ok == stored
      ensures events == if stored then old(events) + [e.(seqNo := MaxSeq(old(events)) + 1)] else old(events)
    {
      ok := stored;
      if stored {
        var _, last := VerifySequence(events);
        events := events + [e.(seqNo := last + 1)];
      }
    }

    /** Moves a run that is not parked yet to waiting, if the table lets it. */
    method Park(plan: Plan, session: string, stored: bool) returns (ok: bool)
      requires plan.decision in {ResumeAuto, ResumeAfterConfirm}
      modifies this`events
      ensures events == if stored then ApplyPlan(old(events), plan, session) else old(events)
      ensures ok <==> plan.resumeState == WaitingUser || (CanTransitionTo(plan.resumeState, WaitingUser) && stored)
    {
      ok := true;
      if plan.resumeState != WaitingUser {
        if !CanTransitionTo(plan.resumeState, WaitingUser) {
          return false;
        }
        ok := Append(Event(0, UserInputRequired, WaitingUser, plan.round, session, "", ""), stored);
      }
    }

    /** Parks a resumable run and fails one that is not. */
    method ApplyRecoveryPlan(plan: Plan, session: string, registered: bool, stored: bool) returns (ok: bool)
      modifies this
      ensures View() == Applied(old(View()), plan, session, registered, stored)
      ensures plan.decision == MarkFailed ==> (ok <==> stored)
      ensures plan.decision in {ResumeAuto, ResumeAfterConfirm} && !registered ==> !ok
    {
      match plan.decision {
        case Skip => ok := true;
        case MarkFailed =>
          ok := Append(Event(0, RunFailed, Failed, 0, plan.sessionId, "", ""), stored);
        case ResumeAfterConfirm =>
          if !registered {
            return false;
          }
          ok := Park(plan, session, stored);
        case ResumeAuto =>
          if !registered {
            return false;
          }
          attempts := attempts + 1;
          ok := Park(plan, session, stored);
      }
    }

    /** One pass over the run. */
    method Recover(store: IdempotencyStore, max: nat, session: string, registered: bool, stored: bool) returns (plan: Plan)
      modifies this
      ensures plan == PlanOf(old(View()), store, max)
      ensures View() == Applied(old(View()), plan, session, registered, stored)
      ensures registered && stored ==> View() == Pass(old(View()), store, max, session)
      ensures attempts == old(attempts) + if plan.decision == ResumeAuto && registered then 1 else 0
      ensures events == old(events) || (stored && OneMore(old(events), events, plan, session))
      ensures events != old(events) <==>
        stored && (plan.decision == MarkFailed ||
                   (plan.decision in {ResumeAuto, ResumeAfterConfirm} && registered
                    && plan.resumeState !in {WaitingUser, Created}))
    {
      plan := Inspect(events, store, Budget(max, Some(attempts)));
      var _ := ApplyRecoveryPlan(plan, session, registered, stored);
      AppliedByFacts(old(View()), plan, session, registered, stored);
    }
  }
}
