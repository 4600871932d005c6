/** The session actor: one goroutine applies requests to the materialised runs,
    appending to the durable log before it changes memory. */
module SessionActor {
  import opened Wrappers
  import opened RunTypes
  import opened Recovery

  // ---------------------------------------------------------------- data

  datatype Run = Run(
    state: RunState,
    round: int,
    lastSeq: nat,
    version: nat,
    answer: string,
    err: Option<string>,
    waitingReason: string,
    uncertain: seq<string>,
    completed: bool)

  datatype Request =
    | Transition(runId: string, to: RunState, round: int, waitingReason: string, uncertain: seq<string>)
    | Message(runId: string, role: string, content: string)
    | Update(runId: string, mutate: Run -> Run)
    | Close(runId: string, state: RunState, answer: string, err: Option<string>,
            waitingReason: string, uncertain: seq<string>)
    | Snapshot

  datatype Outcome = Done | NotFound | IllegalTransition | StoreFailed

  /** `log` is the durable event log, one sequence per run; the rest is memory. */
  datatype State = State(
    runs: map<string, Run>,
    order: seq<string>,
    version: nat,
    log: map<string, seq<Event>>)

  function LogOf(log: map<string, seq<Event>>, run: string): seq<Event> {
    if run in log then log[run] else []
  }

  function EventTypeFor(to: RunState): EventType {
    match to
    case Created => RunCreated
    case Queued => RunQueued
    case Recovering => RunRecovering
    case Completed => RunCompleted
    case Cancelled => RunCancelled
    case Failed => RunFailed
    case WaitingUser => UserInputRequired
    case _ => RunStateChanged
  }

  function FreshRun(): Run {
    Run(Created, 0, 0, 0, "", None, "", [], false)
  }

  function WithOutcome(r: Run, c: Request): Run
    requires c.Close?
  {
    r.(answer := if c.answer != "" then c.answer else r.answer,
       err := if c.err.Some? then c.err else r.err,
       waitingReason := if c.waitingReason != "" then c.waitingReason else r.waitingReason,
       uncertain := if c.uncertain != [] then c.uncertain else r.uncertain,
       completed := r.completed || c.state.Terminal())
  }

  // ---------------------------------------------------------------- specification

  /** A request that is not about the log: the run exists, and the close
      repeats an outcome the run already has. */
  predicate Redundant(r: Run, c: Request)
    requires c.Close?
  {
    (r.state.Terminal() && c.state.Terminal()) || (r.state == c.state && c.state == WaitingUser)
  }

  function Verdict(s: State, req: Request, stored: bool): Outcome {
    if req.Snapshot? then Done
    else if req.Update? then Done
    else if req.runId !in s.runs then NotFound
    else
      var r := s.runs[req.runId];
      match req
      case Transition(_, to, _, _, _) =>
        if !CanTransitionTo(r.state, to) then IllegalTransition else if stored then Done else StoreFailed
      case Message(_, _, _) => if stored then Done else StoreFailed
      case Close(_, state, _, _, _, _) =>
        if !r.state.Terminal() && !Redundant(r, req) && !CanTransitionTo(r.state, state) then IllegalTransition
        else if Redundant(r, req) || stored then Done
        else StoreFailed
      case _ => Done
  }

  /** The event a request appends, if it appends one. */
  function EventFor(s: State, req: Request): Option<Event> {
    if req.Snapshot? || req.Update? || Verdict(s, req, true) != Done then None
    else
      var r := s.runs[req.runId];
      var n := MaxSeq(LogOf(s.log, req.runId)) + 1;
      match req
      case Transition(_, to, round, reason, _) =>
        Some(Event(n, if reason != "" then UserInputRequired else EventTypeFor(to), to, round, "session", "", ""))
      case Message(_, _, _) =>
        Some(Event(n, OtherType("progress"), NoState, r.round, "session", "", ""))
      case Close(_, state, _, _, _, _) =>
        if Redundant(r, req) then None
        else Some(Event(n, EventTypeFor(state), state, r.round, "session", "", ""))
      case _ => None
  }

  /** What memory holds for the run once the request is served. */
  function Absorb(s: State, req: Request): State
    requires !req.Snapshot? && (req.Update? || req.runId in s.runs)
  {
    match req
    case Transition(id, to, round, reason, uncertain) =>
      var r := s.runs[id];
      var r' := r.(state := to, round := round, lastSeq := MaxSeq(LogOf(s.log, id)) + 1, version := r.version + 1,
                   waitingReason := if reason != "" then reason else r.waitingReason,
                   uncertain := if uncertain != [] then uncertain else r.uncertain);
      s.(runs := s.runs[id := r'], version := s.version + 1)
    case Message(id, _, _) =>
      var r := s.runs[id];
      s.(runs := s.runs[id := r.(lastSeq := MaxSeq(LogOf(s.log, id)) + 1, version := r.version + 1)])
    case Update(id, mutate) =>
      if id !in s.runs then
        s.(runs := s.runs[id := mutate(FreshRun())], order := s.order + [id], version := s.version + 1)
      else
        var r := mutate(s.runs[id]);
        s.(runs := s.runs[id := r.(version := r.version + 1)], version := s.version + 1)
    case Close(id, state, _, _, _, _) =>
      var r := s.runs[id];
      var r' := if Redundant(r, req) then r
                else r.(state := state, lastSeq := MaxSeq(LogOf(s.log, id)) + 1);
      s.(runs := s.runs[id := WithOutcome(r', req).(version := r.version + 1)], version := s.version + 1)
  }

  function Appended(s: State, req: Request): map<string, seq<Event>> {
    var e := EventFor(s, req);
    if e.Some? then s.log[req.runId := LogOf(s.log, req.runId) + [e.value]] else s.log
  }

  function Serve(s: State, req: Request, stored: bool): State {
    if req.Snapshot? || Verdict(s, req, stored) != Done then s
    else Absorb(s, req).(log := Appended(s, req))
  }

  // ---------------------------------------------------------------- the actor

  class Actor {
    var runs: map<string, Run>
    var order: seq<string>
    var version: nat
    var log: map<string, seq<Event>>

    ghost function View(): State
      reads this
    {
      State(runs, order, version, log)
    }

    constructor (log: map<string, seq<Event>>)
      ensures View() == State(map[], [], 0, log)
    {
      this.runs, this.order, this.version, this.log := map[], [], 0, log;
    }

    /** The event store: assigns the next number, or fails and writes nothing. */
    method AppendEvent(run: string, e: Event, stored: bool) returns (ok: bool, number: nat)
      modifies this`log
      ensures ok == stored
      ensures ok ==> number == MaxSeq(LogOf(old(log), run)) + 1
      ensures ok ==> log == old(log)[run := LogOf(old(log), run) + [e.(seqNo := number)]]
      ensures !ok ==> log == old(log)
    {
      ok, number := stored, 0;
      if stored {
        var _, last := VerifySequence(LogOf(log, run));
        number := last + 1;
        log := log[run := LogOf(log, run) + [e.(seqNo := number)]];
      }
    }

    method Handle(req: Request, stored: bool) returns (outcome: Outcome)
      modifies this
      ensures outcome == Verdict(old(View()), req, stored)
      ensures View() == Serve(old(View()), req, stored)
    {
      match req {
        case Transition(_, _, _, _, _) => outcome := ApplyTransition(req, stored);
        case Message(_, _, _) => outcome := ApplyMessage(req, stored);
        case Update(_, _) => outcome := ApplyRunUpdate(req);
        case Close(_, _, _, _, _, _) => outcome := ApplyTerminal(req, stored);
        case Snapshot => outcome := Done;
      }
    }

    method ApplyTransition(t: Request, stored: bool) returns (outcome: Outcome)
      requires t.Transition?
      modifies this
      ensures outcome == Verdict(old(View()), t, stored)
      ensures View() == Serve(old(View()), t, stored)
    {
      if t.runId !in runs {
        return NotFound;
      }
      var r := runs[t.runId];
      if !CanTransitionTo(r.state, t.to) {
        return IllegalTransition;
      }
      var typ := EventTypeFor(t.to);
      if t.waitingReason != "" {
        typ := UserInputRequired;
      }
      var ok, number := AppendEvent(t.runId, Event(0, typ, t.to, t.round, "session", "", ""), stored);
      if !ok {
        return StoreFailed;
      }
      r := r.(state := t.to, round := t.round, lastSeq := number, version := r.version + 1);
      if t.waitingReason != "" {
        r := r.(waitingReason := t.waitingReason);
      }
      if |t.uncertain| > 0 {
        r := r.(uncertain := t.uncertain);
      }
      runs := runs[t.runId := r];
      version := version + 1;
      outcome := Done;
    }

    method ApplyMessage(m: Request, stored: bool) returns (outcome: Outcome)
      requires m.Message?
      modifies this
      ensures outcome == Verdict(old(View()), m, stored)
      ensures View() == Serve(old(View()), m, stored)
    {
      if m.runId !in runs {
        return NotFound;
      }
      var r := runs[m.runId];
      var ok, number := AppendEvent(m.runId, Event(0, OtherType("progress"), NoState, r.round, "session", "", ""), stored);
      if !ok {
        return StoreFailed;
      }
      runs := runs[m.runId := r.(lastSeq := number, version := r.version + 1)];
      outcome := Done;
    }

    method ApplyRunUpdate(u: Request) returns (outcome: Outcome)
      requires u.Update?
      modifies this
      ensures outcome == Done
      ensures View() == Serve(old(View()), u, true)
    {
      outcome := Done;
      if u.runId !in runs {
        runs := runs[u.runId := u.mutate(FreshRun())];
        order := order + [u.runId];
        version := version + 1;
        return;
      }
      var r := u.mutate(runs[u.runId]);
      runs := runs[u.runId := r.(version := r.version + 1)];
      version := version + 1;
    }

    method ApplyTerminal(t: Request, stored: bool) returns (outcome: Outcome)
      requires t.Close?
      modifies this
      ensures outcome == Verdict(old(View()), t, stored)
      ensures View() == Serve(old(View()), t, stored)
    {
      if t.runId !in runs {
        return NotFound;
      }
      var r := runs[t.runId];
      var alreadyTerminal := r.state.Terminal() && t.state.Terminal();
      var redundantPark := r.state == t.state && t.state == WaitingUser;
      if !r.state.Terminal() && !redundantPark && !CanTransitionTo(r.state, t.state) {
        return IllegalTransition;
      }
      if alreadyTerminal || redundantPark {
        runs := runs[t.runId := WithOutcome(r, t).(version := r.version + 1)];
        version := version + 1;
        return Done;
      }
      var ok, number := AppendEvent(t.runId, Event(0, EventTypeFor(t.state), t.state, r.round, "session", "", ""), stored);
      if !ok {
        return StoreFailed;
      }
      r := r.(state := t.state, lastSeq := number, version := r.version + 1);
      runs := runs[t.runId := WithOutcome(r, t)];
      version := version + 1;
      outcome := Done;
    }
  }

  // ---------------------------------------------------------------- what a request does, field by field

  /** The outcome, by the request and the state the run is in. */
  lemma VerdictByFields(s: State, req: Request, stored: bool)
    ensures var v := Verdict(s, req, stored);
      var about := req.Transition? || req.Message? || req.Close?;
      && (v == NotFound <==> about && req.runId !in s.runs)
      && (v == IllegalTransition <==> about && req.runId in s.runs && !Legal(s.runs[req.runId].state, req))
      && (v == StoreFailed <==>
            about && req.runId in s.runs && Legal(s.runs[req.runId].state, req) && Appends(s.runs[req.runId].state, req) && !stored)
  {
    TerminalStates();
  }

  /** A transition follows the table; so does a close, unless the run is terminal
      already or is parked a second time. */
  ghost predicate Legal(state: RunState, req: Request) {
    && (req.Transition? ==> req.to in Successors(state) && !req.to.Unknown?)
    && (req.Close? ==>
          || state in {Completed, Cancelled, Failed}
          || (state == WaitingUser && req.state == WaitingUser)
          || (req.state in Successors(state) && !req.state.Unknown?))
  }

  /** Only a repeated close is folded into memory alone. */
  ghost predicate Appends(state: RunState, req: Request) {
    req.Close? ==>
      && !(state in {Completed, Cancelled, Failed} && req.state in {Completed, Cancelled, Failed})
      && !(state == WaitingUser && req.state == WaitingUser)
  }

  lemma TerminalStates()
    ensures forall state: RunState :: state.Terminal() <==> state in {Completed, Cancelled, Failed}
  {
    forall state: RunState ensures state.Terminal() <==> state in {Completed, Cancelled, Failed} {
      if state.Valid() {
        TerminalIffNotResumable(state);
      }
    }
  }

  /** The type of a state's event tells that state, for every state that has a
      type of its own. */
  lemma TypeTellsState(to: RunState)
    ensures var typ := EventTypeFor(to);
      && (typ == RunCreated <==> to == Created) && (typ == RunQueued <==> to == Queued)
      && (typ == RunRecovering <==> to == Recovering) && (typ == UserInputRequired <==> to == WaitingUser)
      && (typ == RunCompleted <==> to == Completed) && (typ == RunCancelled <==> to == Cancelled)
      && (typ == RunFailed <==> to == Failed)
      && (typ == RunStateChanged <==> to in {Planning, Thinking, Executing, Compacting} || to.Unknown?)
  {
  }

  /** What is left alone: a refused request changes nothing, and any other only
      the run it names, that run's log and the version of the whole. */
  lemma ServeFrame(s: State, req: Request, stored: bool, id: string)
    requires req.Snapshot? || id != req.runId
    ensures var s' := Serve(s, req, stored);
      && (id in s'.runs <==> id in s.runs) && (id in s.runs ==> s'.runs[id] == s.runs[id])
      && LogOf(s'.log, id) == LogOf(s.log, id)
      && (Verdict(s, req, stored) != Done || req.Snapshot? ==> s' == s)
      && s'.order == s.order + (if req.Update? && req.runId !in s.runs then [req.runId] else [])
      && s'.version == s.version +
           if (req.Transition? || req.Close? || req.Update?) && Verdict(s, req, stored) == Done then 1 else 0
  {
  }

  /** The new value of a field that a request may leave empty. */
  ghost predicate KeptOr<T>(before: T, given: T, none: T, after: T) {
    (given == none ==> after == before) && (given != none ==> after == given)
  }

  /** What a served transition leaves of its run, and the event it appends. */
  lemma TransitionRecords(s: State, req: Request, stored: bool)
    requires req.Transition? && Verdict(s, req, stored) == Done
    ensures var s' := Serve(s, req, stored);
      var before, after := s.runs[req.runId], s'.runs[req.runId];
      var past, log := LogOf(s.log, req.runId), LogOf(s'.log, req.runId);
      && after.state == req.to && after.round == req.round && after.version == before.version + 1
      && KeptOr(before.waitingReason, req.waitingReason, "", after.waitingReason)
      && KeptOr(before.uncertain, req.uncertain, [], after.uncertain)
      && after.answer == before.answer && after.err == before.err && after.completed == before.completed
      && |log| == |past| + 1 && log[..|past|] == past
      && log[|past|].seqNo == after.lastSeq == MaxSeq(past) + 1
      && log[|past|].state == req.to && log[|past|].round == req.round
      && log[|past|].typ == if req.waitingReason != "" then UserInputRequired else EventTypeFor(req.to)
  {
  }

  /** What a served close leaves of its run, and the event it appends, if it is
      not a repeated one. */
  lemma CloseRecords(s: State, req: Request, stored: bool)
    requires req.Close? && Verdict(s, req, stored) == Done
    ensures var s' := Serve(s, req, stored);
      var before, after := s.runs[req.runId], s'.runs[req.runId];
      var past, log := LogOf(s.log, req.runId), LogOf(s'.log, req.runId);
      && after.version == before.version + 1 && after.round == before.round
      && KeptOr(before.answer, req.answer, "", after.answer)
      && KeptOr(before.err, req.err, None, after.err)
      && KeptOr(before.waitingReason, req.waitingReason, "", after.waitingReason)
      && KeptOr(before.uncertain, req.uncertain, [], after.uncertain)
      && (after.completed <==> before.completed || req.state in {Completed, Cancelled, Failed})
      && if Appends(before.state, req) then
           && |log| == |past| + 1 && log[..|past|] == past
           && log[|past|].seqNo == after.lastSeq == MaxSeq(past) + 1
           && log[|past|].state == req.state == after.state && log[|past|].typ == EventTypeFor(req.state)
           && log[|past|].round == before.round
         else log == past && after.state == before.state && after.lastSeq == before.lastSeq
  {
    TerminalStates();
  }

  /** A message is one more event without a state; only the run's number and
      version move. */
  lemma MessageRecords(s: State, req: Request, stored: bool)
    requires req.Message? && Verdict(s, req, stored) == Done
    ensures var s' := Serve(s, req, stored);
      var before, after := s.runs[req.runId], s'.runs[req.runId];
      var past, log := LogOf(s.log, req.runId), LogOf(s'.log, req.runId);
      && after == before.(lastSeq := after.lastSeq, version := before.version + 1)
      && |log| == |past| + 1 && log[..|past|] == past
      && log[|past|].seqNo == after.lastSeq == MaxSeq(past) + 1
      && log[|past|].state.Unknown? && log[|past|].round == before.round
      && FoldRaw(log).state == FoldRaw(past).state
  {
    FoldRawSnoc(LogOf(s.log, req.runId), EventFor(s, req).value);
  }

  /** Nothing is appended for an update, and a run that was there counts it. */
  lemma UpdateRecords(s: State, req: Request, stored: bool)
    requires req.Update?
    ensures var s' := Serve(s, req, stored);
      && Verdict(s, req, stored) == Done && s'.log == s.log && req.runId in s'.runs
      && if req.runId in s.runs then
           s'.runs[req.runId] == req.mutate(s.runs[req.runId]).(version := req.mutate(s.runs[req.runId]).version + 1)
         else s'.runs[req.runId] == req.mutate(Run(Created, 0, 0, 0, "", None, "", [], false))
  {
  }

  // ---------------------------------------------------------------- agreement with the log

  /** What memory says about a run is what a restart would fold from its log. */
  ghost predicate Agrees(s: State) {
    forall id :: id in s.runs ==>
      && s.runs[id].state.Valid()
      && Fold(LogOf(s.log, id)).state == Settle(s.runs[id].state)
      && s.runs[id].lastSeq <= MaxSeq(LogOf(s.log, id))
  }

  /** The updates this agreement is about: one that leaves a registered run's
      state and number alone, or registers a run as its log describes it. */
  ghost predicate Honest(s: State, req: Request) {
    req.Update? ==>
      if req.runId in s.runs then
        var r := s.runs[req.runId];
        req.mutate(r).state == r.state && req.mutate(r).lastSeq == r.lastSeq
      else
        var r := req.mutate(FreshRun());
        && r.state == Fold(LogOf(s.log, req.runId)).state
        && r.lastSeq <= MaxSeq(LogOf(s.log, req.runId))
  }

  /** A close names a declared state. */
  ghost predicate Declared(req: Request) {
    req.Close? ==> req.state.Valid()
  }

  lemma FoldedStateValid(events: seq<Event>)
    ensures Fold(events).state.Valid()
  {
    FoldIsDeclared(events);
  }

  lemma ServeAgrees(s: State, req: Request, stored: bool)
    requires Agrees(s) && Honest(s, req) && Declared(req)
    ensures Agrees(Serve(s, req, stored))
  {
    var s' := Serve(s, req, stored);
    forall id | id in s'.runs
      ensures s'.runs[id].state.Valid() &&
        Fold(LogOf(s'.log, id)).state == Settle(s'.runs[id].state) &&
        s'.runs[id].lastSeq <= MaxSeq(LogOf(s'.log, id))
    {
      FoldedStateValid(LogOf(s.log, id));
      var e := EventFor(s, req);
      if s' != s && e.Some? && id == req.runId {
        FoldRawSnoc(LogOf(s.log, id), e.value);
        MaxSnoc(LogOf(s.log, id), e.value);
      }
    }
  }

  lemma MaxSnoc(events: seq<Event>, e: Event)
    requires e.seqNo == MaxSeq(events) + 1
    ensures MaxSeq(events + [e]) == e.seqNo
  {
    assert (events + [e])[..|events|] == events;
  }

  /** What the process can do to a session: serve a request (its append may
      fail), die between the append and the change in memory, die idle, or
      register a run from its folded log after a restart. */
  datatype Action =
    | Serving(req: Request, stored: bool)
    | DyingMidRequest(req: Request)
    | Dying
    | Rehydrating(run: string)

  function Step(s: State, a: Action): State {
    match a
    case Serving(req, stored) => Serve(s, req, stored)
    case DyingMidRequest(req) => State(map[], [], 0, Appended(s, req))
    case Dying => State(map[], [], 0, s.log)
    case Rehydrating(run) => Serve(s, Rehydration(s.log, run), true)
  }

  function Rehydration(log: map<string, seq<Event>>, run: string): Request {
    var events := LogOf(log, run);
    Update(run, (r: Run) => r.(state := Fold(events).state, round := Fold(events).round, lastSeq := MaxSeq(events)))
  }

  function Play(s: State, actions: seq<Action>): State {
    if actions == [] then s else Step(Play(s, actions[..|actions| - 1]), actions[|actions| - 1])
  }

  /** A run registered again after a restart has the newest state, the highest
      round and the last number of its log. */
  lemma RehydratedAsLogged(s: State, run: string, state: RunState)
    requires run !in s.runs && LatestState(LogOf(s.log, run), state)
    ensures var s' := Step(s, Rehydrating(run));
      var events := LogOf(s.log, run);
      && run in s'.runs && s'.log == s.log
      && s'.runs[run].state == (if state == Recovering then Queued else state)
      && HighestRound(events, s'.runs[run].round)
      && (forall i :: 0 <= i < |events| ==> events[i].seqNo <= s'.runs[run].lastSeq)
      && (s'.runs[run].lastSeq > 0 ==> exists i :: 0 <= i < |events| && events[i].seqNo == s'.runs[run].lastSeq)
  {
    var events := LogOf(s.log, run);
    FoldedState(events);
    LatestStateUnique(events, state, FoldRaw(events).state);
    FoldedRound(events);
    HighestNumber(events);
  }

  /** Every request of the play is one the agreement covers, and a run is
      rehydrated only while it is not registered. */
  ghost predicate Covered(s: State, actions: seq<Action>) {
    forall i :: 0 <= i < |actions| ==>
      var before := Play(s, actions[..i]);
      match actions[i]
      case Serving(req, _) => Honest(before, req) && Declared(req)
      case DyingMidRequest(req) => Declared(req)
      case Dying => true
      case Rehydrating(run) => run !in before.runs
  }

  /** Over any sequence of requests, append failures, crashes and restarts,
      memory never differs from what the log folds to. */
  lemma {:induction false} AlwaysAgrees(log: map<string, seq<Event>>, actions: seq<Action>)
    requires Covered(State(map[], [], 0, log), actions)
    ensures Agrees(Play(State(map[], [], 0, log), actions))
  {
    var s := State(map[], [], 0, log);
    if actions != [] {
      var n := |actions| - 1;
      assert forall i :: 0 <= i < n ==> actions[..n][..i] == actions[..i] && actions[..n][i] == actions[i];
      AlwaysAgrees(log, actions[..n]);
      var before := Play(s, actions[..n]);
      match actions[n] {
        case Serving(req, stored) => ServeAgrees(before, req, stored);
        case Rehydrating(run) => ServeAgrees(before, Rehydration(before.log, run), true);
        case _ =>
      }
    }
  }

  /** A crash between the append and the change in memory leaves a log that
      folds, for every run, to the old state or to the state the request was
      moving that run to; and that is the state the request would have left. */
  lemma MidRequestCrash(s: State, req: Request, id: string)
    requires Agrees(s) && Declared(req) && id in s.runs
    ensures var folded := Fold(LogOf(Step(s, DyingMidRequest(req)).log, id)).state;
      if EventFor(s, req).Some? && id == req.runId
      then folded == Settle(Serve(s, req, true).runs[id].state)
      else folded == Settle(s.runs[id].state)
  {
    if EventFor(s, req).Some? && id == req.runId {
      CrashAfterAppend(s, req);
    } else {
      assert LogOf(Appended(s, req), id) == LogOf(s.log, id);
    }
  }

  lemma CrashAfterAppend(s: State, req: Request)
    requires Declared(req) && EventFor(s, req).Some?
    requires req.runId in s.runs && Fold(LogOf(s.log, req.runId)).state == Settle(s.runs[req.runId].state)
    ensures Fold(LogOf(Appended(s, req), req.runId)).state == Settle(Serve(s, req, true).runs[req.runId].state)
  {
    FoldRawSnoc(LogOf(s.log, req.runId), EventFor(s, req).value);
  }

  /** Memory is never ahead of the log: a run's state moves only together with
      an appended event that carries the new state, and a failed append moves
      nothing. */
  lemma NoChangeWithoutEvent(s: State, req: Request, stored: bool, id: string)
    requires id in s.runs && !req.Update?
    ensures Serve(s, req, stored).runs[id].state != s.runs[id].state ==>
      && stored && !req.Snapshot? && id == req.runId
      && Serve(s, req, stored).log[id] == LogOf(s.log, id) + [EventFor(s, req).value]
      && EventFor(s, req).value.state == Serve(s, req, stored).runs[id].state
    ensures !stored ==> Serve(s, req, stored).log == s.log
  {
  }

  /** States change along the transition table, with one exception: closing a
      terminal run with a state that is not terminal. That request is the only
      one that brings a terminal run back. */
  lemma TerminalLeftIff(s: State, req: Request, stored: bool, id: string)
    requires id in s.runs && !req.Update?
    ensures var before := s.runs[id].state; var after := Serve(s, req, stored).runs[id].state;
      && (before.Terminal() ==>
            (!after.Terminal() <==> req.Close? && req.runId == id && stored && !req.state.Terminal()))
      && (!before.Terminal() && after != before ==> CanTransitionTo(before, after))
      && (before.Terminal() && after.Terminal() ==> after == before)
  {
  }

  /** Parking a completed run: it waits again. */
  lemma ParkingReopens(r: Run)
    requires r.state == Completed
    ensures var s := State(map["run" := r], ["run"], 0, map["run" := []]);
      var after := Serve(s, Close("run", WaitingUser, "", None, "reason", []), true);
      after.runs["run"].state == WaitingUser && |after.log["run"]| == 1
  {
  }
}
