/** The run state machine of the agent loop: absorbing terminal states, a
    bounded history, and a sink that may fail after the state has moved. */
module Machine {
  import opened RunTypes
  import SessionActor

  datatype Move = Move(from: RunState, to: RunState, round: int)

  datatype Answer = Accepted | TerminalState | InvalidTransition | SinkFailed

  const MAX_HISTORY := 256

  function Tail<T>(s: seq<T>, n: nat): seq<T> {
    if |s| <= n then s else s[|s| - n..]
  }

  predicate Accepts(state: RunState, to: RunState) {
    !state.Terminal() && CanTransitionTo(state, to)
  }

  /** Appends to the bounded history, dropping the oldest moves. */
  function Remember(history: seq<Move>, t: Move): seq<Move> {
    var longer := history + [t];
    if |longer| > MAX_HISTORY then longer[|longer| - MAX_HISTORY..] else longer
  }

  /** The moves follow the table, each starts where the previous one ended, and
      the last one ends in `state`. */
  ghost predicate Walk(moves: seq<Move>, state: RunState) {
    moves != [] ==>
      var last := moves[|moves| - 1];
      last.to == state && Accepts(last.from, last.to) && Walk(moves[..|moves| - 1], last.from)
  }

  lemma WalkSnoc(moves: seq<Move>, m: Move)
    requires Walk(moves, m.from) && Accepts(m.from, m.to)
    ensures Walk(moves + [m], m.to)
  {
    assert (moves + [m])[..|moves|] == moves;
  }

  lemma SuccessorsAreDeclared(from: RunState, to: RunState)
    requires from.Valid() && Accepts(from, to)
    ensures to.Valid()
  {
  }

  /** The fields of a machine that has made the moves `accepted`. */
  ghost predicate Sound(state: RunState, closed: bool, history: seq<Move>, accepted: seq<Move>) {
    && state.Valid()
    && (closed <==> state.Terminal())
    && history == Tail(accepted, MAX_HISTORY)
    && Walk(accepted, state)
  }

  lemma MoveKeepsSound(history: seq<Move>, accepted: seq<Move>, m: Move)
    requires Sound(m.from, false, history, accepted) && Accepts(m.from, m.to)
    ensures Sound(m.to, m.to.Terminal(), Remember(history, m), accepted + [m])
  {
    SuccessorsAreDeclared(m.from, m.to);
    TailSnoc(accepted, m, MAX_HISTORY);
    WalkSnoc(accepted, m);
  }

  class Machine {
    var state: RunState
    var round: int
    var version: nat
    var history: seq<Move>
    var closed: bool
    /** Every accepted move since the machine was built. */
    ghost var accepted: seq<Move>
    ghost var startVersion: nat

    ghost predicate Valid()
      reads this
    {
      Sound(state, closed, history, accepted) && version == startVersion + |accepted|
    }

    constructor At(state: RunState, round: int, version: nat)
      requires state.Valid()
      ensures Valid() && this.state == state && this.round == round && accepted == [] && startVersion == version
    {
      this.state, this.round, this.version, this.history := state, round, version, [];
      this.closed := state.Terminal();
      this.accepted, this.startVersion := [], version;
    }

    method SetRound(r: int)
      requires Valid()
      modifies this`round
      ensures Valid() && round == r
    {
      round := r;
    }

    /** `sinkOk` is the sink's answer; it is asked once, and only after the
        state has moved. */
    method TransitionTo(to: RunState, sinkOk: bool) returns (answer: Answer)
      requires Valid()
      modifies this
      ensures Valid() && round == old(round) && startVersion == old(startVersion)
      ensures answer == (if old(state).Terminal() then TerminalState
                         else if !CanTransitionTo(old(state), to) then InvalidTransition
                         else if sinkOk then Accepted else SinkFailed)
      ensures if Accepts(old(state), to)
        then state == to && accepted == old(accepted) + [Move(old(state), to, round)]
        else state == old(state) && accepted == old(accepted) && version == old(version)
    {
      if closed {
        return TerminalState;
      }
      var legal := CanTransitionTo(state, to);
      if !to.Valid() {
        return InvalidTransition;
      }
      if state == to {
        if !legal {
          return InvalidTransition;
        }
      }
      if !legal {
        return InvalidTransition;
      }
      Advance(to);
      answer := if sinkOk then Accepted else SinkFailed;
    }

    method Advance(to: RunState)
      requires Valid() && Accepts(state, to)
      modifies this
      ensures Valid() && round == old(round) && startVersion == old(startVersion)
      ensures state == to && accepted == old(accepted) + [Move(old(state), to, round)]
    {
      var t := Move(state, to, round);
      MoveKeepsSound(history, accepted, t);
      state := to;
      version := version + 1;
      if to.Terminal() {
        closed := true;
      }
      history := Remember(history, t);
      accepted := accepted + [t];
    }
  }

  lemma TailSnoc<T>(s: seq<T>, x: T, n: nat)
    requires n > 0
    ensures Tail(s + [x], n) == Tail(Tail(s, n) + [x], n)
  {
  }

  // ---------------------------------------------------------------- over whole runs

  function Drive(state: RunState, targets: seq<RunState>): RunState
    decreases |targets|
  {
    if targets == [] then state
    else Drive(if Accepts(state, targets[0]) then targets[0] else state, targets[1..])
  }

  /** Terminal states absorb: no sequence of requests leaves one, while every
      live state can still be driven to cancelled. */
  lemma {:induction false} TerminalAbsorbs(state: RunState, targets: seq<RunState>)
    requires state.Valid()
    ensures state.Terminal() ==> Drive(state, targets) == state
    ensures !Drive(state, targets).Terminal() ==> Accepts(Drive(state, targets), Cancelled)
    decreases |targets|
  {
    if targets == [] {
      if !state.Terminal() {
        TerminalIffNotResumable(state);
        assert Cancelled in Successors(state);
      }
    } else {
      TerminalAbsorbs(if Accepts(state, targets[0]) then targets[0] else state, targets[1..]);
    }
  }

  // ---------------------------------------------------------------- the machine and the actor

  /** The machine moves first and its sink is the actor, so when the append
      fails the machine is one step ahead of the run the actor materialises:
      the two agree after a request exactly when the machine refused it, the
      event was stored, or the move was from a state to itself. */
  lemma MachineAheadOfActorIff(
      s: SessionActor.State, id: string, to: RunState, round: int, reason: string, calls: seq<string>, stored: bool)
    requires id in s.runs
    ensures var state := s.runs[id].state;
      var machine := if Accepts(state, to) then to else state;
      var req := SessionActor.Transition(id, to, round, reason, calls);
      var actor := (if Accepts(state, to) then SessionActor.Serve(s, req, stored) else s).runs[id].state;
      machine == actor <==> !Accepts(state, to) || stored || to == state
  {
  }
}
