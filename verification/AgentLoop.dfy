/** The agent loop: segments of model rounds with retry budgets, ending in an
    answer, a park, a cancellation or a failure. */
module AgentLoop {
  import opened RunTypes

  /** What the loop's sink has accepted. The notes stand for every event that
      does not close a run. */
  datatype Ev = FinalAnswer | Closure | MovedTo(state: RunState) | Note(name: string)

  datatype Finish = FinishCancelled | FinishError | FinishStop | FinishLength | FinishToolCalls | FinishUnknown

  datatype Compaction = CompactFine | CompactCancelled | CompactBroken

  datatype Observation = KeepGoing | TodosDone | AwaitingUser | ObserveCancelled | ObserveBroken

  /** One provider round as the loop sees it: an error, or a reply, what
      compaction did after it, and what observing its calls led to. */
  datatype Reply =
    | Fails(isCancelled: bool)
    | Says(finish: Finish, blank: bool, calls: nat, compaction: Compaction, observation: Observation)

  datatype RoundOutcome = NextRound | Ended(state: RunState) | WrapUp

  datatype Config = Config(
    maxToolRounds: nat,
    roundsPerSegment: nat,
    maxContinuations: nat,
    maxLengthContinues: int,
    emptyAnswerRetries: int)

  const DEFAULT_LENGTH_CONTINUES := 3
  const DEFAULT_EMPTY_RETRIES := 1

  predicate Closing(e: Ev) {
    e == FinalAnswer || e == Closure || e == MovedTo(Completed)
  }

  /** The events of a trace that close a run. */
  function Marks(trace: seq<Ev>): seq<Ev> {
    if trace == [] then []
    else
      var earlier := Marks(trace[..|trace| - 1]);
      if Closing(trace[|trace| - 1]) then earlier + [trace[|trace| - 1]] else earlier
  }

  lemma MarksSnoc(trace: seq<Ev>, e: Ev)
    ensures Marks(trace + [e]) == if Closing(e) then Marks(trace) + [e] else Marks(trace)
  {
    assert (trace + [e])[..|trace|] == trace;
  }

  /** What an answer that could not be finished leaves. */
  predicate AnswerCut(before: seq<Ev>, after: seq<Ev>) {
    after == before || after == before + [FinalAnswer] || after == before + [FinalAnswer, Closure]
  }

  /** What a round that did not complete the run may have closed. */
  predicate PartlyClosed(before: seq<Ev>, after: seq<Ev>) {
    AnswerCut(before, after) || after == before + [Closure]
  }

  /** The wrap-up may add a second closure to an answer it could not finish. */
  predicate ClosedShort(before: seq<Ev>, after: seq<Ev>) {
    PartlyClosed(before, after) || after == before + [FinalAnswer, Closure, Closure]
  }

  function AnswerVerdict(blank: bool, emptyLeft: bool): RoundOutcome {
    if !blank then Ended(Completed) else if emptyLeft then NextRound else Ended(Failed)
  }

  /** Where a reply takes the run, given what is left of the two budgets, as
      long as the sink takes every event. */
  function RoundVerdict(r: Reply, lengthLeft: bool, emptyLeft: bool): RoundOutcome {
    match r
    case Fails(isCancelled) => Ended(if isCancelled then Cancelled else Failed)
    case Says(finish, blank, calls, compaction, observation) =>
      if compaction == CompactCancelled then Ended(Cancelled)
      else if compaction == CompactBroken then Ended(Failed)
      else match finish
        case FinishCancelled => Ended(Cancelled)
        case FinishError => Ended(Failed)
        case FinishUnknown => Ended(Failed)
        case FinishStop => AnswerVerdict(blank, emptyLeft)
        case FinishLength => if lengthLeft then NextRound else Ended(Completed)
        case FinishToolCalls =>
          if calls == 0 then AnswerVerdict(blank, emptyLeft)
          else match observation
            case KeepGoing => NextRound
            case TodosDone => WrapUp
            case AwaitingUser => Ended(WaitingUser)
            case ObserveCancelled => Ended(Cancelled)
            case ObserveBroken => Ended(Failed)
  }

  /** Where the reply of the last round, without tools, takes it. */
  function WrapVerdict(r: Reply): RunState {
    match r
    case Fails(isCancelled) => if isCancelled then Cancelled else Failed
    case Says(finish, _, _, _, _) =>
      if finish == FinishCancelled then Cancelled else if finish == FinishError then Failed else Completed
  }

  /** A provider call that the planning phase cannot use. */
  predicate Unusable(r: Reply) {
    r.Fails? || r.finish == FinishCancelled || r.finish == FinishError
  }

  predicate SaysCancelled(r: Reply) {
    if r.Fails? then r.isCancelled else r.finish == FinishCancelled
  }

  /** Where the reply to a request for a plan takes the run. */
  function ProposalVerdict(r: Reply): RunState {
    if SaysCancelled(r) then Cancelled else if Unusable(r) || r.blank then Failed else WaitingUser
  }

  // ---------------------------------------------------------------- replies, read field by field

  /** A reply that compaction let pass. */
  ghost predicate Usable(r: Reply) {
    r.Says? && r.compaction == CompactFine
  }

  ghost predicate CutShort(r: Reply) {
    Usable(r) && r.finish == FinishLength
  }

  /** A finish without text and without calls. */
  ghost predicate Empty(r: Reply) {
    Usable(r) && r.blank && (r.finish == FinishStop || (r.finish == FinishToolCalls && r.calls == 0))
  }

  ghost predicate CallsTools(r: Reply) {
    Usable(r) && r.finish == FinishToolCalls && r.calls > 0
  }

  /** A reply taken as the answer: text that the model stopped at, or a text cut
      short once the continuations are spent. */
  ghost predicate Answers(r: Reply, lengthLeft: bool) {
    || (Usable(r) && !r.blank && (r.finish == FinishStop || (r.finish == FinishToolCalls && r.calls == 0)))
    || (CutShort(r) && !lengthLeft)
  }

  ghost predicate SaysStop(r: Reply) {
    || r == Fails(true)
    || (r.Says? && r.compaction == CompactCancelled)
    || (Usable(r) && r.finish == FinishCancelled)
    || (CallsTools(r) && r.observation == ObserveCancelled)
  }

  /** A reply that no answer can come from: a provider error, an unknown finish,
      a compaction or an observation that broke. */
  ghost predicate Breaks(r: Reply) {
    || r == Fails(false)
    || (r.Says? && r.compaction == CompactBroken)
    || (Usable(r) && (r.finish == FinishError || r.finish == FinishUnknown))
    || (CallsTools(r) && r.observation == ObserveBroken)
  }

  /** A reply of an ordinary round ends the run in this state. */
  ghost predicate RoundEnds(r: Reply, lengthLeft: bool, emptyLeft: bool, state: RunState) {
    || (state == Completed && Answers(r, lengthLeft))
    || (state == WaitingUser && CallsTools(r) && r.observation == AwaitingUser)
    || (state == Cancelled && SaysStop(r))
    || (state == Failed && (Breaks(r) || (Empty(r) && !emptyLeft)))
  }

  /** A reply of an ordinary round leads to another one. */
  ghost predicate Continues(r: Reply, lengthLeft: bool, emptyLeft: bool) {
    || (CutShort(r) && lengthLeft)
    || (Empty(r) && emptyLeft)
    || (CallsTools(r) && r.observation == KeepGoing)
  }

  ghost predicate FinishesTodos(r: Reply) {
    CallsTools(r) && r.observation == TodosDone
  }

  /** The reply of the wrap-up round ends the run in this state; any text will
      do. */
  ghost predicate WrapUpEnds(r: Reply, state: RunState) {
    || (state == Completed && r.Says? && r.finish !in {FinishCancelled, FinishError})
    || (state == Cancelled && (r == Fails(true) || (r.Says? && r.finish == FinishCancelled)))
    || (state == Failed && (r == Fails(false) || (r.Says? && r.finish == FinishError)))
  }

  /** The reply to the request for a plan ends the run in this state. */
  ghost predicate ProposalEnds(r: Reply, state: RunState) {
    || (state == WaitingUser && r.Says? && !r.blank && r.finish !in {FinishCancelled, FinishError})
    || (state == Cancelled && (r == Fails(true) || (r.Says? && r.finish == FinishCancelled)))
    || (state == Failed && (r == Fails(false) || (r.Says? && (r.finish == FinishError || r.blank) && r.finish != FinishCancelled)))
  }

  /** The decisions are those the fields of the reply call for. */
  lemma VerdictByReply(r: Reply, lengthLeft: bool, emptyLeft: bool, state: RunState)
    ensures var v := RoundVerdict(r, lengthLeft, emptyLeft);
      && (v == NextRound <==> Continues(r, lengthLeft, emptyLeft))
      && (v == WrapUp <==> FinishesTodos(r))
      && (v == Ended(state) <==> RoundEnds(r, lengthLeft, emptyLeft, state))
    ensures WrapVerdict(r) == state <==> WrapUpEnds(r, state)
    ensures ProposalVerdict(r) == state <==> ProposalEnds(r, state)
  {
  }

  /** What may be closed when no answer was taken. */
  predicate NoAnswer(before: seq<Ev>, after: seq<Ev>) {
    after == before || after == before + [Closure]
  }

  /** What the run was asked for: whether its machine is still to be queued,
      whether the tools are narrowed first and whether that finds any, and
      whether a plan is to be shown to the user and has been approved. */
  datatype Demand = Demand(queued: bool, planning: bool, toolsChosen: bool, planMode: bool, planApproved: bool)

  /** Provider calls made, and what was used of the two budgets. */
  datatype Counters = Counters(calls: nat, length: nat, empty: nat)

  predicate EndState(s: RunState) {
    s == Completed || s == Failed || s == Cancelled || s == WaitingUser
  }

  const Completion := [FinalAnswer, Closure, MovedTo(Completed)]

  class Loop {
    const cfg: Config
    const longTask: bool
    /** A positive value overrides the flat round cap. */
    const requestedRounds: int
    const demand: Demand
    /** The environment: whether the sink takes the n-th event, what the n-th
        provider call returns, whether the n-th check finds a cancellation. */
    const sinkTakes: nat -> bool
    const reply: nat -> Reply
    const cancelled: nat -> bool
    /** Whether the refusal of the n-th event is a cancellation. */
    const refusalCancels: nat -> bool

    var trace: seq<Ev>
    var emits: nat
    var providerCalls: nat
    var checks: nat
    var continuations: nat
    var lengthContinues: nat
    var emptyRetries: nat

    function LengthCap(): nat {
      if cfg.maxLengthContinues <= 0 then DEFAULT_LENGTH_CONTINUES else cfg.maxLengthContinues
    }

    function EmptyCap(): int {
      if cfg.emptyAnswerRetries == 0 then DEFAULT_EMPTY_RETRIES else cfg.emptyAnswerRetries
    }

    function RoundsPerSegment(): nat {
      if longTask then cfg.roundsPerSegment
      else if requestedRounds > 0 then requestedRounds
      else cfg.maxToolRounds
    }

    function Continuations(): nat {
      if longTask then cfg.maxContinuations else 0
    }

    /** The last event taken is the completed transition. */
    ghost predicate EndsCompleted()
      reads this`trace
    {
      trace != [] && trace[|trace| - 1] == MovedTo(Completed)
    }

    /** What comes of the phases before the first round, and the calls made. */
    function Prepared(c: Counters): (RoundOutcome, Counters) {
      var planned := if demand.planning then c.(calls := c.calls + 1) else c;
      if demand.planning && SaysCancelled(reply(c.calls)) then (Ended(Cancelled), planned)
      else if !demand.planMode || demand.planApproved then (NextRound, planned)
      else (Ended(ProposalVerdict(reply(planned.calls))), planned.(calls := planned.calls + 1))
    }

    /** A whole run without segments: how it ends, and the provider calls made. */
    function Whole(c: Counters): (RunState, nat) {
      match Prepared(c).0
      case Ended(s) => (s, Prepared(c).1.calls)
      case _ => Flat(RoundBudget(Continuations() + 1), Prepared(c).1)
    }

    /** The rounds of `segments` segments. */
    function RoundBudget(segments: nat): nat {
      if segments == 0 then 0 else RoundsPerSegment() + RoundBudget(segments - 1)
    }

    lemma {:induction false} RoundBudgetIsProduct(segments: nat)
      ensures RoundBudget(segments) == RoundsPerSegment() * segments
    {
      if segments > 0 {
        RoundBudgetIsProduct(segments - 1);
      }
    }

    /** Nothing is refused and nobody cancels. */
    ghost predicate Smooth() {
      (forall n: nat :: sinkTakes(n)) && (forall n: nat :: !cancelled(n))
    }

    function Now(): Counters
      reads this
    {
      Counters(providerCalls, lengthContinues, emptyRetries)
    }

    function VerdictAt(c: Counters): RoundOutcome {
      RoundVerdict(reply(c.calls), c.length < LengthCap(), c.empty < EmptyCap())
    }

    /** The counters after a round that goes on. */
    function Tick(c: Counters): Counters {
      var r := reply(c.calls);
      if VerdictAt(c) != NextRound || !r.Says? || (r.finish == FinishToolCalls && r.calls != 0)
      then c.(calls := c.calls + 1)
      else if r.finish == FinishLength then Counters(c.calls + 1, c.length + 1, c.empty)
      else Counters(c.calls + 1, c.length, c.empty + 1)
    }

    /** The loop without segments: one round after another, then the wrap-up. */
    function Flat(left: nat, c: Counters): (RunState, nat) {
      if left == 0 then (WrapVerdict(reply(c.calls)), c.calls + 1)
      else match VerdictAt(c)
        case Ended(s) => (s, c.calls + 1)
        case WrapUp => (WrapVerdict(reply(c.calls + 1)), c.calls + 2)
        case NextRound => Flat(left - 1, Tick(c))
    }

    // The run, read off the replies.

    /** How many of the replies from `first` on, up to `n`, were cut short. */
    ghost function CutShorts(first: nat, n: nat): nat {
      if n <= first then 0 else CutShorts(first, n - 1) + if CutShort(reply(n - 1)) then 1 else 0
    }

    ghost function Empties(first: nat, n: nat): nat {
      if n <= first then 0 else Empties(first, n - 1) + if Empty(reply(n - 1)) then 1 else 0
    }

    ghost predicate LengthLeft(c: Counters, n: nat) {
      c.length + CutShorts(c.calls, n) < LengthCap()
    }

    ghost predicate EmptyLeft(c: Counters, n: nat) {
      c.empty + Empties(c.calls, n) < EmptyCap()
    }

    ghost predicate GoesOnAt(c: Counters, i: nat) {
      Continues(reply(i), LengthLeft(c, i), EmptyLeft(c, i))
    }

    /** From the counters `c` on, every reply up to the `n`-th led to another
        round, and that one did not, or there was no round left for it. */
    ghost predicate EndsAt(c: Counters, rounds: nat, n: nat, state: RunState, calls: nat) {
      && c.calls <= n <= c.calls + rounds
      && (forall i :: c.calls <= i < n ==> GoesOnAt(c, i))
      && if n == c.calls + rounds then WrapUpEnds(reply(n), state) && calls == n + 1
         else if FinishesTodos(reply(n)) then WrapUpEnds(reply(n + 1), state) && calls == n + 2
         else RoundEnds(reply(n), LengthLeft(c, n), EmptyLeft(c, n), state) && calls == n + 1
    }

    /** A whole run: how it ends, and after how many provider calls. */
    ghost predicate RunEnds(c: Counters, state: RunState, calls: nat) {
      var first := c.calls + if demand.planning then 1 else 0;
      if demand.planning && (reply(c.calls) == Fails(true) || (reply(c.calls).Says? && reply(c.calls).finish == FinishCancelled))
      then state == Cancelled && calls == first
      else if demand.planMode && !demand.planApproved then ProposalEnds(reply(first), state) && calls == first + 1
      else exists n :: EndsAt(c.(calls := first), AllRounds(), n, state, calls)
    }

    /** The flat loop has come to `c`, with `left` rounds to go. */
    ghost predicate Along(was: Counters, rounds: nat, left: nat, c: Counters) {
      && left <= rounds && c.calls == was.calls + (rounds - left)
      && c.length == was.length + CutShorts(was.calls, c.calls)
      && c.empty == was.empty + Empties(was.calls, c.calls)
      && forall i :: was.calls <= i < c.calls ==> GoesOnAt(was, i)
    }

    lemma LastRound(was: Counters, rounds: nat, left: nat, c: Counters)
      requires Along(was, rounds, left, c) && (left == 0 || VerdictAt(c) != NextRound)
      ensures EndsAt(was, rounds, c.calls, Flat(left, c).0, Flat(left, c).1)
    {
      var state := Flat(left, c).0;
      VerdictByReply(reply(c.calls), LengthLeft(was, c.calls), EmptyLeft(was, c.calls), state);
      VerdictByReply(reply(c.calls + 1), true, true, state);
    }

    lemma AnotherRound(was: Counters, rounds: nat, left: nat, c: Counters)
      requires Along(was, rounds, left, c) && left > 0 && VerdictAt(c) == NextRound
      ensures Along(was, rounds, left - 1, Tick(c))
    {
      TickByReply(c);
      assert GoesOnAt(was, c.calls);
    }

    lemma TickByReply(c: Counters)
      requires VerdictAt(c) == NextRound
      ensures var r := reply(c.calls);
        && Continues(r, c.length < LengthCap(), c.empty < EmptyCap())
        && Tick(c) == Counters(c.calls + 1, c.length + (if CutShort(r) then 1 else 0), c.empty + if Empty(r) then 1 else 0)
    {
      VerdictByReply(reply(c.calls), c.length < LengthCap(), c.empty < EmptyCap(), Failed);
    }

    /** The flat loop is the run that the replies describe. */
    lemma {:induction false} FlatEnds(was: Counters, rounds: nat, left: nat, c: Counters)
      requires Along(was, rounds, left, c)
      ensures exists n :: EndsAt(was, rounds, n, Flat(left, c).0, Flat(left, c).1)
    {
      if left == 0 || VerdictAt(c) != NextRound {
        LastRound(was, rounds, left, c);
      } else {
        AnotherRound(was, rounds, left, c);
        assert Flat(left, c) == Flat(left - 1, Tick(c));
        FlatEnds(was, rounds, left - 1, Tick(c));
      }
    }

    /** All the rounds that the settings of the run allow. */
    function AllRounds(): nat {
      if longTask then cfg.roundsPerSegment * (cfg.maxContinuations + 1)
      else if requestedRounds > 0 then requestedRounds
      else cfg.maxToolRounds
    }

    lemma RoundsBySettings()
      ensures RoundBudget(Continuations() + 1) == AllRounds()
    {
      RoundBudgetIsProduct(Continuations() + 1);
    }

    lemma WholeEnds(c: Counters)
      ensures RunEnds(c, Whole(c).0, Whole(c).1)
    {
      var p := Prepared(c);
      if p.0 == NextRound {
        RoundsBySettings();
        FlatEnds(p.1, AllRounds(), AllRounds(), p.1);
        assert p.1 == c.(calls := c.calls + if demand.planning then 1 else 0);
        assert Whole(c) == Flat(AllRounds(), p.1);
      } else {
        PreparedByReply(c);
      }
    }

    lemma PreparedByReply(c: Counters)
      requires Prepared(c).0 != NextRound
      ensures RunEnds(c, Whole(c).0, Whole(c).1)
    {
      VerdictByReply(reply(c.calls), true, true, Prepared(c).0.state);
      VerdictByReply(reply(c.calls + 1), true, true, Prepared(c).0.state);
    }

    /** With the default of continuations a model that never stops by itself is
        asked four times, and its fourth text is taken for the answer; with the
        default of retries one that never says anything fails at its second
        reply. */
    lemma DefaultCaps(c: Counters, r: Reply)
      requires cfg.maxLengthContinues == 0 && cfg.emptyAnswerRetries == 0
      requires forall n :: reply(n) == r
      requires c.length == c.empty == 0
      ensures CutShort(r) ==> Flat(10, c) == (Completed, c.calls + 4)
      ensures Empty(r) ==> Flat(10, c) == (Failed, c.calls + 2)
    {
      if CutShort(r) {
        var c1 := Tick(c);
        var c2 := Tick(c1);
        var c3 := Tick(c2);
        assert Flat(10, c) == Flat(9, c1) == Flat(8, c2) == Flat(7, c3);
      }
    }

    /** What an outcome says about the closing events since `before`: none when
        the run goes on, all of them when it completed, fewer when it ended
        otherwise. */
    ghost predicate Closes(before: seq<Ev>, outcome: RoundOutcome)
      reads this`trace
    {
      match outcome
      case Ended(s) =>
        if s == Completed then Marks(trace) == before + Completion && EndsCompleted()
        else EndState(s) && PartlyClosed(before, Marks(trace)) && (Smooth() ==> NoAnswer(before, Marks(trace)))
      case _ => Marks(trace) == before
    }

    /** A budget counter never passes its cap by going up. */
    predicate Bounded(was: nat, now: nat, cap: int) {
      now == was || (was <= now && now <= cap)
    }

    predicate Grows(was: Counters, now: Counters) {
      Bounded(was.length, now.length, LengthCap()) && Bounded(was.empty, now.empty, EmptyCap())
    }

    ghost predicate WithinCaps()
      reads this
    {
      lengthContinues <= LengthCap() && (emptyRetries == 0 || emptyRetries <= EmptyCap())
    }

    constructor (cfg: Config, longTask: bool, requestedRounds: int, demand: Demand,
                 sinkTakes: nat -> bool, reply: nat -> Reply, cancelled: nat -> bool, refusalCancels: nat -> bool)
      ensures trace == [] && providerCalls == 0 && WithinCaps() && continuations == 0
      ensures this.cfg == cfg && this.longTask == longTask && this.requestedRounds == requestedRounds
      ensures this.demand == demand
      ensures this.sinkTakes == sinkTakes && this.reply == reply && this.cancelled == cancelled
      ensures this.refusalCancels == refusalCancels
    {
      this.cfg, this.longTask, this.requestedRounds, this.demand := cfg, longTask, requestedRounds, demand;
      this.sinkTakes, this.reply, this.cancelled, this.refusalCancels := sinkTakes, reply, cancelled, refusalCancels;
      trace, emits, providerCalls, checks, continuations, lengthContinues, emptyRetries := [], 0, 0, 0, 0, 0, 0;
    }

    /** The sink takes the event as the next one, or refuses it. */
    method Offer(e: Ev) returns (ok: bool)
      modifies this`trace, this`emits
      ensures ok == sinkTakes(old(emits)) && emits == old(emits) + 1
      ensures trace == if ok then old(trace) + [e] else old(trace)
    {
      ok := sinkTakes(emits);
      emits := emits + 1;
      if ok {
        trace := trace + [e];
      }
    }

    method Emit(e: Ev) returns (ok: bool)
      modifies this`trace, this`emits
      ensures Smooth() ==> ok
      ensures ok ==> trace != [] && trace[|trace| - 1] == e
      ensures trace == if ok then old(trace) + [e] else old(trace)
      ensures Marks(trace) == if ok && Closing(e) then Marks(old(trace)) + [e] else Marks(old(trace))
    {
      MarksSnoc(trace, e);
      ok := Offer(e);
    }

    /** An event that closes nothing. */
    method Announce(e: Ev) returns (ok: bool)
      requires !Closing(e)
      modifies this`trace, this`emits
      ensures Smooth() ==> ok
      ensures Marks(trace) == Marks(old(trace))
    {
      ok := Emit(e);
    }

    /** The end of a provider round; refusing it counts as a failed round, or as a
        cancellation if that is why. */
    method EmitRoundCompleted() returns (ok: bool, asCancelled: bool)
      modifies this`trace, this`emits
      ensures Smooth() ==> ok
      ensures asCancelled ==> !ok
      ensures Marks(trace) == Marks(old(trace))
    {
      asCancelled := refusalCancels(emits);
      ok := Announce(Note("round.completed"));
      asCancelled := asCancelled && !ok;
    }

    method CheckCancelled() returns (yes: bool)
      modifies this`checks
      ensures yes == cancelled(old(checks)) && checks == old(checks) + 1
    {
      yes := cancelled(checks);
      checks := checks + 1;
    }

    method Complete() returns (r: Reply)
      modifies this`providerCalls
      ensures providerCalls == old(providerCalls) + 1 && r == reply(old(providerCalls))
    {
      r := reply(providerCalls);
      providerCalls := providerCalls + 1;
    }

    /** Answer, then closure, then the terminal transition. */
    method FinishWithAnswer() returns (outcome: RoundOutcome)
      modifies this`trace, this`emits
      ensures outcome == Ended(Completed) || outcome == Ended(Failed)
      ensures Smooth() ==> outcome == Ended(Completed)
      ensures outcome == Ended(Completed) ==>
        Marks(trace) == Marks(old(trace)) + Completion && EndsCompleted()
      ensures outcome == Ended(Failed) ==> AnswerCut(Marks(old(trace)), Marks(trace))
      ensures Smooth() ==> trace == old(trace) + [FinalAnswer, Closure, MovedTo(Completed)]
    {
      ghost var before := Marks(trace);
      var ok := Emit(FinalAnswer);
      if !ok {
        return Ended(Failed);
      }
      ok := Emit(Closure);
      if !ok {
        return Ended(Failed);
      }
      ok := Emit(MovedTo(Completed));
      if !ok {
        return Ended(Failed);
      }
      assert Marks(trace) == before + Completion;
      outcome := Ended(Completed);
    }

    /** One retry budget for empty answers, then an honest failure. */
    method HandleEmptyAnswer() returns (outcome: RoundOutcome)
      modifies this`trace, this`emits, this`emptyRetries
      ensures Grows(old(Now()), Now())
      ensures outcome == if old(emptyRetries) < EmptyCap() then NextRound else Ended(Failed)
      ensures outcome == NextRound ==> Marks(trace) == Marks(old(trace)) && emptyRetries == old(emptyRetries) + 1
      ensures outcome != NextRound ==> emptyRetries == old(emptyRetries)
      ensures outcome == Ended(Failed) ==> NoAnswer(Marks(old(trace)), Marks(trace))
      ensures Smooth() && outcome == Ended(Failed) ==> trace == old(trace) + [Note("error"), Closure, MovedTo(Failed)]
    {
      ghost var before := Marks(trace);
      if emptyRetries < EmptyCap() {
        emptyRetries := emptyRetries + 1;
        return NextRound;
      }
      outcome := Ended(Failed);
      var ok := Emit(Note("error"));
      if !ok {
        return;
      }
      ok := Emit(Closure);
      if !ok {
        return;
      }
      ok := Emit(MovedTo(Failed));
    }

    /** A text without calls is the answer, unless it is blank. */
    method TakeText(blank: bool) returns (outcome: RoundOutcome)
      modifies this`trace, this`emits, this`emptyRetries
      ensures Grows(old(Now()), Now())
      ensures emptyRetries == old(emptyRetries) + if outcome == NextRound then 1 else 0
      ensures outcome == NextRound <==> blank && old(emptyRetries) < EmptyCap()
      ensures outcome == Ended(Completed) || outcome == Ended(Failed) || outcome == NextRound
      ensures outcome == Ended(Completed) ==> !blank
      ensures Smooth() && !blank ==> outcome == Ended(Completed)
      ensures Closes(Marks(old(trace)), outcome)
    {
      if blank {
        outcome := HandleEmptyAnswer();
      } else {
        outcome := FinishWithAnswer();
      }
    }

    /** An error event first, then the failed transition: the stream closes at
        the terminal state. */
    method FailRound(withError: bool) returns (outcome: RoundOutcome)
      modifies this`trace, this`emits
      ensures outcome == Ended(Failed)
      ensures Marks(trace) == Marks(old(trace))
      ensures Smooth() ==> trace == old(trace) + (if withError then [Note("error")] else []) + [MovedTo(Failed)]
    {
      outcome := Ended(Failed);
      if withError {
        var ok := Emit(Note("error"));
        if !ok {
          return;
        }
      }
      var _ := Emit(MovedTo(Failed));
    }

    /** One Think, Tool calls, Observe cycle. */
    method RunRound() returns (outcome: RoundOutcome)
      modifies this`trace, this`emits, this`providerCalls, this`lengthContinues, this`emptyRetries
      ensures Grows(old(Now()), Now())
      ensures providerCalls <= old(providerCalls) + 1
      ensures outcome == old(VerdictAt(Now())) || (!Smooth() && (outcome == Ended(Failed) || outcome == Ended(Cancelled)))
      ensures Smooth() ==> providerCalls == old(providerCalls) + 1
      ensures Smooth() ==>
        var r, lengthLeft, emptyLeft :=
          reply(old(providerCalls)), old(lengthContinues) < LengthCap(), old(emptyRetries) < EmptyCap();
        match outcome
          case NextRound => Continues(r, lengthLeft, emptyLeft)
          case WrapUp => FinishesTodos(r)
          case Ended(s) => RoundEnds(r, lengthLeft, emptyLeft, s)
      ensures Breaks(reply(old(providerCalls))) ==>
        outcome in {Ended(Failed), Ended(Cancelled)} && Marks(trace) == Marks(old(trace))
      ensures !outcome.Ended? ==> Now() == old(Tick(Now()))
      ensures Closes(Marks(old(trace)), outcome)
    {
      ghost var before := Marks(trace);
      var ok := Announce(MovedTo(Thinking));
      if !ok {
        return Ended(Failed);
      }
      ok := Announce(Note("round.started"));
      if !ok {
        return Ended(Failed);
      }
      var r := Complete();
      if r.Fails? {
        if r.isCancelled {
          return Ended(Cancelled);
        }
        outcome := FailRound(true);
        return;
      }
      var asCancelled;
      ok, asCancelled := EmitRoundCompleted();
      if asCancelled {
        return Ended(Cancelled);
      }
      if !ok {
        outcome := FailRound(true);
        return;
      }
      outcome := FollowReply(r);
    }

    /** What a round does with the provider's reply. */
    method FollowReply(r: Reply) returns (outcome: RoundOutcome)
      requires r.Says?
      modifies this`trace, this`emits, this`lengthContinues, this`emptyRetries
      ensures Grows(old(Now()), Now())
      ensures var verdict := RoundVerdict(r, old(lengthContinues) < LengthCap(), old(emptyRetries) < EmptyCap());
        outcome == verdict || (!Smooth() && outcome == Ended(Failed))
      ensures Breaks(r) ==> outcome == Ended(Failed) && Marks(trace) == Marks(old(trace))
      ensures outcome == NextRound <==> Continues(r, old(lengthContinues) < LengthCap(), old(emptyRetries) < EmptyCap())
      ensures outcome == WrapUp <==> FinishesTodos(r)
      ensures outcome == Ended(WaitingUser) <==> CallsTools(r) && r.observation == AwaitingUser
      ensures outcome == Ended(Cancelled) <==> SaysStop(r)
      ensures outcome == Ended(Completed) ==> Answers(r, old(lengthContinues) < LengthCap())
      ensures Smooth() && Answers(r, old(lengthContinues) < LengthCap()) ==> outcome == Ended(Completed)
      ensures !outcome.Ended? ==>
        (lengthContinues, emptyRetries) ==
          if outcome == WrapUp || (r.finish == FinishToolCalls && r.calls != 0) then (old(lengthContinues), old(emptyRetries))
          else if r.finish == FinishLength then (old(lengthContinues) + 1, old(emptyRetries))
          else (old(lengthContinues), old(emptyRetries) + 1)
      ensures Closes(Marks(old(trace)), outcome)
    {
      match r.compaction {
        case CompactCancelled => return Ended(Cancelled);
        case CompactBroken =>
          outcome := FailRound(false);
          return;
        case CompactFine =>
      }
      match r.finish {
        case FinishCancelled => return Ended(Cancelled);
        case FinishError =>
          outcome := FailRound(true);
          return;
        case FinishStop =>
          outcome := TakeText(r.blank);
          return;
        case FinishLength =>
          if lengthContinues < LengthCap() {
            lengthContinues := lengthContinues + 1;
            return NextRound;
          }
          outcome := FinishWithAnswer();
          return;
        case FinishUnknown =>
          outcome := FailRound(false);
          return;
        case FinishToolCalls =>
      }
      if r.calls == 0 {
        outcome := TakeText(r.blank);
        return;
      }
      match r.observation {
        case KeepGoing => outcome := NextRound;
        case TodosDone => outcome := WrapUp;
        case AwaitingUser => outcome := Ended(WaitingUser);
        case ObserveCancelled => outcome := Ended(Cancelled);
        case ObserveBroken => outcome := Ended(Failed);
      }
    }

    method EndCancelled() returns (state: RunState)
      modifies this`trace, this`emits
      ensures state == Cancelled
      ensures Smooth() ==> trace == old(trace) + [Closure, MovedTo(Cancelled), Note("cancellation")]
      ensures Marks(trace) == Marks(old(trace)) || Marks(trace) == Marks(old(trace)) + [Closure]
    {
      var _ := Emit(Closure);
      var _ := Emit(MovedTo(Cancelled));
      var _ := Emit(Note("cancellation"));
      state := Cancelled;
    }

    method EndFailed() returns (state: RunState)
      modifies this`trace, this`emits
      ensures state == Failed
      ensures Smooth() ==> trace == old(trace) + [Note("error"), Closure, MovedTo(Failed)]
      ensures Marks(trace) == Marks(old(trace)) || Marks(trace) == Marks(old(trace)) + [Closure]
    {
      var _ := Emit(Note("error"));
      var _ := Emit(Closure);
      var _ := Emit(MovedTo(Failed));
      state := Failed;
    }

    /** One last round without tools. */
    method ForceWrapUp() returns (state: RunState)
      modifies this`trace, this`emits, this`providerCalls, this`checks
      ensures providerCalls <= old(providerCalls) + 1
      ensures state in {Completed, Cancelled, Failed}
      ensures Smooth() ==> providerCalls == old(providerCalls) + 1
      ensures Smooth() ==> WrapUpEnds(reply(old(providerCalls)), state)
      ensures state == Completed ==>
        Marks(trace) == Marks(old(trace)) + Completion && EndsCompleted()
      ensures state != Completed ==> ClosedShort(Marks(old(trace)), Marks(trace))
      ensures state != Completed && Smooth() ==> NoAnswer(Marks(old(trace)), Marks(trace))
    {
      ghost var before := Marks(trace);
      var stop := CheckCancelled();
      if stop {
        state := EndCancelled();
        return;
      }
      var ok := Announce(MovedTo(Thinking));
      if !ok {
        state := EndFailed();
        return;
      }
      var r := Complete();
      if r.Fails? {
        if r.isCancelled {
          state := EndCancelled();
        } else {
          state := EndFailed();
        }
        return;
      }
      if r.finish == FinishCancelled {
        state := EndCancelled();
        return;
      }
      if r.finish == FinishError {
        state := EndFailed();
        return;
      }
      var outcome := FinishWithAnswer();
      if outcome == Ended(Completed) {
        return Completed;
      }
      assert before + [FinalAnswer] + [Closure] == before + [FinalAnswer, Closure];
      assert before + [FinalAnswer, Closure] + [Closure] == before + [FinalAnswer, Closure, Closure];
      state := EndFailed();
    }

    /** A round, unless the run was cancelled before it. */
    method CheckedRound() returns (outcome: RoundOutcome)
      modifies this`trace, this`emits, this`providerCalls, this`checks, this`lengthContinues, this`emptyRetries
      ensures Grows(old(Now()), Now())
      ensures providerCalls <= old(providerCalls) + 1
      ensures Smooth() ==> outcome == old(VerdictAt(Now())) && providerCalls == old(providerCalls) + 1
      ensures !outcome.Ended? ==> Now() == old(Tick(Now()))
      ensures Closes(Marks(old(trace)), outcome)
    {
      var stop := CheckCancelled();
      if stop {
        var state := EndCancelled();
        return Ended(state);
      }
      outcome := RunRound();
    }

    /** The rounds of one segment; going on means they were used up. */
    method RunSegment(rounds: nat, ghost later: nat) returns (outcome: RoundOutcome)
      modifies this`trace, this`emits, this`providerCalls, this`checks, this`lengthContinues, this`emptyRetries
      ensures Grows(old(Now()), Now())
      ensures providerCalls <= old(providerCalls) + rounds
      ensures Smooth() ==>
        old(Flat(rounds + later, Now())) == match outcome
          case NextRound => Flat(later, Now())
          case WrapUp => (WrapVerdict(reply(providerCalls)), providerCalls + 1)
          case Ended(s) => (s, providerCalls)
      ensures Closes(Marks(old(trace)), outcome)
    {
      for round := 0 to rounds
        invariant Grows(old(Now()), Now()) && Marks(trace) == Marks(old(trace))
        invariant providerCalls <= old(providerCalls) + round
        invariant Smooth() ==> old(Flat(rounds + later, Now())) == Flat(rounds - round + later, Now())
      {
        outcome := CheckedRound();
        if outcome != NextRound {
          return;
        }
      }
      outcome := NextRound;
    }

    /** The step from one segment to the next. */
    method OpenSegment() returns (outcome: RoundOutcome)
      modifies this`trace, this`emits, this`checks, this`continuations
      ensures outcome == NextRound || outcome == Ended(Cancelled) || outcome == Ended(Failed)
      ensures Smooth() ==> outcome == NextRound
      ensures outcome == NextRound ==> continuations == old(continuations) + 1
      ensures old(continuations) <= continuations <= old(continuations) + 1
      ensures Closes(Marks(old(trace)), outcome)
    {
      var stop := CheckCancelled();
      if stop {
        var state := EndCancelled();
        return Ended(state);
      }
      continuations := continuations + 1;
      var ok := Announce(Note("continuation"));
      if !ok {
        var state := EndFailed();
        return Ended(state);
      }
      outcome := NextRound;
    }

    /** The rounds of a segment, and the step to the next one unless it is the
        last. */
    method OneSegment(last: bool, ghost later: nat) returns (outcome: RoundOutcome)
      modifies this
      ensures Grows(old(Now()), Now())
      ensures providerCalls <= old(providerCalls) + RoundsPerSegment()
      ensures continuations == old(continuations) || (!last && continuations == old(continuations) + 1)
      ensures outcome == NextRound && !last ==> continuations == old(continuations) + 1
      ensures Smooth() ==>
        old(Flat(RoundsPerSegment() + later, Now())) == match outcome
          case NextRound => Flat(later, Now())
          case WrapUp => (WrapVerdict(reply(providerCalls)), providerCalls + 1)
          case Ended(s) => (s, providerCalls)
      ensures Closes(Marks(old(trace)), outcome)
    {
      outcome := RunSegment(RoundsPerSegment(), later);
      if outcome == NextRound && !last {
        outcome := OpenSegment();
      }
    }

    /** The segments of a run; going on means all rounds were used up. */
    method RunSegments() returns (outcome: RoundOutcome)
      modifies this
      ensures Grows(old(Now()), Now()) && continuations <= old(continuations) + Continuations()
      ensures providerCalls <= old(providerCalls) + RoundBudget(Continuations() + 1)
      ensures Smooth() ==>
        old(Flat(RoundBudget(Continuations() + 1), Now())) == match outcome
          case Ended(s) => (s, providerCalls)
          case _ => (WrapVerdict(reply(providerCalls)), providerCalls + 1)
      ensures Closes(Marks(old(trace)), outcome)
    {
      ghost var was, before := Now(), Marks(trace);
      var segment := 0;
      var maxContinuations := Continuations();
      ghost var all := RoundBudget(maxContinuations + 1);
      ghost var goal := Flat(all, was);
      ghost var left := all;
      while true
        invariant 0 <= segment <= maxContinuations && continuations == old(continuations) + segment
        invariant left == RoundBudget(maxContinuations - segment + 1)
        invariant Grows(was, Now()) && Marks(trace) == before
        invariant providerCalls + left <= was.calls + all
        invariant Smooth() ==> goal == Flat(left, Now())
        decreases maxContinuations - segment
      {
        left := left - RoundsPerSegment();
        outcome := OneSegment(segment >= maxContinuations, left);
        if outcome != NextRound || segment >= maxContinuations {
          return;
        }
        segment := segment + 1;
      }
    }

    /** The planning phase narrows the tools; only a cancellation stops the run,
        any other failure leaves it with all of them. */
    method RunPlanning() returns (outcome: RoundOutcome)
      modifies this`trace, this`emits, this`providerCalls, this`checks
      ensures providerCalls == old(providerCalls) || (demand.planning && providerCalls == old(providerCalls) + 1)
      ensures outcome == NextRound || outcome == Ended(Cancelled) || outcome == Ended(Failed)
      ensures Smooth() ==>
        && providerCalls == old(providerCalls) + (if demand.planning then 1 else 0)
        && outcome == if demand.planning && SaysCancelled(reply(old(providerCalls))) then Ended(Cancelled) else NextRound
      ensures Closes(Marks(old(trace)), outcome)
    {
      var stop := CheckCancelled();
      if stop {
        outcome := Cancel();
        return;
      }
      if !demand.planning {
        return NextRound;
      }
      var ok := Announce(MovedTo(Planning));
      if !ok {
        outcome := Fail();
        return;
      }
      var _ := Announce(Note("planning.started"));
      var r := Complete();
      var failed := Unusable(r) || !demand.toolsChosen;
      if failed {
        stop := CheckCancelled();
        if stop || SaysCancelled(r) {
          outcome := Cancel();
          return;
        }
        var _ := Announce(Note("planning.skipped"));
        ok := Announce(MovedTo(Thinking));
        if !ok {
          outcome := Fail();
          return;
        }
      } else {
        var _ := Announce(Note("planning.completed"));
      }
      outcome := NextRound;
    }

    /** Plan mode asks for a plan, shows it and parks; an approved plan goes
        straight on. */
    method RunPlanMode() returns (outcome: RoundOutcome)
      modifies this`trace, this`emits, this`providerCalls, this`checks
      ensures providerCalls <= old(providerCalls) + 1
      ensures outcome == NextRound ==> providerCalls == old(providerCalls)
      ensures outcome == NextRound || (outcome.Ended? && outcome.state in {WaitingUser, Cancelled, Failed})
      ensures Smooth() ==>
        outcome == if demand.planApproved then NextRound else Ended(ProposalVerdict(reply(old(providerCalls))))
      ensures Smooth() && outcome.Ended? ==>
        providerCalls == old(providerCalls) + 1 && ProposalEnds(reply(old(providerCalls)), outcome.state)
      ensures Closes(Marks(old(trace)), outcome)
    {
      var stop := CheckCancelled();
      if stop {
        outcome := Cancel();
        return;
      }
      if demand.planApproved {
        return NextRound;
      }
      var r := Complete();
      if r.Fails? && !r.isCancelled {
        stop := CheckCancelled();
      }
      if stop || SaysCancelled(r) {
        outcome := Cancel();
        return;
      }
      if Unusable(r) || r.blank {
        outcome := Fail();
        return;
      }
      var ok := Announce(Note("plan.proposed"));
      if ok {
        ok := Announce(MovedTo(WaitingUser));
      }
      if !ok {
        outcome := Fail();
        return;
      }
      outcome := Ended(WaitingUser);
    }

    method Cancel() returns (outcome: RoundOutcome)
      modifies this`trace, this`emits
      ensures outcome == Ended(Cancelled) && Closes(Marks(old(trace)), outcome)
    {
      var state := EndCancelled();
      outcome := Ended(state);
    }

    method Fail() returns (outcome: RoundOutcome)
      modifies this`trace, this`emits
      ensures outcome == Ended(Failed) && Closes(Marks(old(trace)), outcome)
    {
      var state := EndFailed();
      outcome := Ended(state);
    }

    /** All that happens before the first round: queueing, planning, plan mode. */
    method Prepare() returns (outcome: RoundOutcome)
      modifies this`trace, this`emits, this`providerCalls, this`checks
      ensures providerCalls <= old(providerCalls) + if outcome == NextRound then 1 else 2
      ensures outcome == NextRound || (outcome.Ended? && outcome.state in {WaitingUser, Cancelled, Failed})
      ensures Smooth() ==> outcome == old(Prepared(Now())).0
      ensures Smooth() ==> providerCalls == old(Prepared(Now())).1.calls
      ensures Smooth() && outcome == NextRound ==> Now() == old(Prepared(Now())).1
      ensures Closes(Marks(old(trace)), outcome)
    {
      if !demand.queued {
        var ok := Announce(MovedTo(Queued));
        if !ok {
          outcome := Fail();
          return;
        }
      }
      outcome := RunPlanning();
      if outcome == NextRound && demand.planMode {
        outcome := RunPlanMode();
      }
    }

    /** A run, fresh or resumed with the counters of its conversation, makes a
        bounded number of provider calls, keeps both retry counters from passing
        their caps, and is completed exactly when the sink took
        the completed transition; then it took exactly one final answer, exactly
        one closure after it, and the transition last. When nothing is refused or
        cancelled the segments do not show: the run ends as one flat loop of all
        its rounds would. */
    method Run() returns (state: RunState)
      modifies this
      ensures Grows(old(Now()), Now()) && (old(WithinCaps()) ==> WithinCaps())
      ensures continuations <= old(continuations) + Continuations()
      ensures providerCalls <= old(providerCalls) + RoundBudget(Continuations() + 1) + 2
      ensures EndState(state)
      ensures state == Completed ==> Marks(trace) == Marks(old(trace)) + Completion && EndsCompleted()
      ensures state != Completed ==> ClosedShort(Marks(old(trace)), Marks(trace))
      ensures Smooth() ==> (state, providerCalls) == old(Whole(Now()))
      ensures Smooth() ==> RunEnds(old(Now()), state, providerCalls)
      ensures Smooth() && state != Completed ==> NoAnswer(Marks(old(trace)), Marks(trace))
    {
      WholeEnds(Now());
      var outcome := Prepare();
      if outcome.Ended? {
        return outcome.state;
      }
      outcome := RunSegments();
      if outcome.Ended? {
        return outcome.state;
      }
      state := ForceWrapUp();
    }
  }
}
