/** The run state machine, the durable event envelope and the idempotency
    classes that the engine and the agent loop share. */
module RunTypes {

  /** `Unknown` stands for every string that is not one of the eleven declared
      states, the empty string included. */
  datatype RunState =
    | Created | Queued | Planning | Thinking | Executing | Compacting
    | WaitingUser | Completed | Cancelled | Failed | Recovering
    | Unknown(name: string)
  {
    predicate Valid() {
      !Unknown?
    }

    predicate Terminal() {
      Valid() && Successors(this) == {}
    }

    predicate Resumable() {
      match this
      case Created | Queued | Planning | Thinking | Executing
         | Compacting | WaitingUser | Recovering => true
      case _ => false
    }
  }

  /** The transition table; a state outside the table has no entry. */
  function Successors(s: RunState): set<RunState> {
    match s
    case Created => {Queued, Cancelled, Failed}
    case Queued => {Planning, Thinking, WaitingUser, Cancelled, Failed, Recovering}
    case Planning => {Thinking, WaitingUser, Cancelled, Failed, Compacting}
    case Thinking => {Executing, Compacting, WaitingUser, Completed, Cancelled, Failed, Thinking}
    case Executing => {Thinking, Compacting, WaitingUser, Completed, Cancelled, Failed}
    case Compacting => {Thinking, WaitingUser, Cancelled, Failed}
    case WaitingUser => {Executing, Thinking, Planning, Compacting, Cancelled, Failed, Completed}
    case Recovering => {Queued, Thinking, Executing, WaitingUser, Cancelled, Failed, Completed}
    case Completed | Cancelled | Failed | Unknown(_) => {}
  }

  predicate CanTransitionTo(from: RunState, to: RunState) {
    from.Valid() && to.Valid() && to in Successors(from)
  }

  /** The event types that recovery distinguishes; every other durable type is
      folded only for its state, session and round. */
  datatype EventType =
    | RunCreated | RunQueued | RunStateChanged | RunCompleted | RunFailed
    | RunCancelled | RunRecovering | RunResumed
    | ToolCallRequested | ToolStarted | ToolCompleted | ToolFailed | ToolCancelled
    | UserInputRequired
    | OtherType(name: string)

  datatype Event = Event(
    seqNo: nat,
    typ: EventType,
    state: RunState,
    round: int,
    sessionId: string,
    callId: string,
    toolName: string)

  const NoState := RunState.Unknown("")

  datatype IdempotencyClass = Idempotent | Detectable | NonIdempotent
  {
    predicate SafeToReplay() {
      this == Idempotent
    }
  }

  /** The table by its columns: from where each state can be reached. Every live
      state can be cancelled and failed; only a run that has thought can
      complete; and nothing leads back to the start. */
  lemma ReachedFrom(from: RunState, to: RunState)
    ensures CanTransitionTo(from, to) <==>
      match to
      case Created => false
      case Queued => from in {Created, Recovering}
      case Planning => from in {Queued, WaitingUser}
      case Thinking => from in {Queued, Planning, Thinking, Executing, Compacting, WaitingUser, Recovering}
      case Executing => from in {Thinking, WaitingUser, Recovering}
      case Compacting => from in {Planning, Thinking, Executing, WaitingUser}
      case WaitingUser => from in {Queued, Planning, Thinking, Executing, Compacting, Recovering}
      case Completed => from in {Thinking, Executing, WaitingUser, Recovering}
      case Cancelled => from in {Created, Queued, Planning, Thinking, Executing, Compacting, WaitingUser, Recovering}
      case Failed => from in {Created, Queued, Planning, Thinking, Executing, Compacting, WaitingUser, Recovering}
      case Recovering => from == Queued
      case Unknown(_) => false
  {
  }

  /** Terminal and resumable split the declared states: a declared state is
      terminal exactly when recovery would not offer it for resumption. */
  lemma TerminalIffNotResumable(s: RunState)
    requires s.Valid()
    ensures s.Terminal() <==> !s.Resumable()
    ensures s.Terminal() <==> s in {Completed, Cancelled, Failed}
  {
    if s == Created {
      assert Queued in Successors(s);
    } else if s.Resumable() {
      assert Failed in Successors(s);
    }
  }
}
