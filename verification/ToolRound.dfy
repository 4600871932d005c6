/** One observe phase of the agent loop: bounded parallel dispatch, the user's
    decisions, and the fold of the results into the conversation. */
module ToolRound {
  import opened Wrappers
  import opened Messages

  /** What a tool, or the permission layer in its place, returned. */
  datatype ToolResult = ToolResult(success: bool, error: string, content: string)

  /** How one call came back. */
  datatype Body =
    | Panicked(detail: string)
    | Errored(detail: string)
    | Denied
    | NeedsConfirmation(message: string, result: ToolResult)
    | Returned(result: ToolResult)

  datatype Outcome = Outcome(call: Call, body: Body)

  // ---------------------------------------------------------------- parallel dispatch

  /** `next` calls have been looked at in order; each was given to a goroutine
      that still runs, or has its slot filled. */
  datatype Dispatch = Dispatch(next: nat, running: set<nat>, slots: seq<Option<Outcome>>)

  datatype Step = Spawn | SkipCancelled | Finish(index: nat, body: Body)

  const CancelledBody := Errored("context cancelled")

  predicate Enabled(d: Dispatch, calls: seq<Call>, limit: nat, s: Step) {
    && |d.slots| == |calls|
    && match s
       case Spawn => d.next < |calls| && |d.running| < limit
       case SkipCancelled => d.next < |calls|
       case Finish(i, _) => i in d.running && i < |calls|
  }

  function Apply(d: Dispatch, calls: seq<Call>, limit: nat, s: Step): Dispatch {
    if !Enabled(d, calls, limit, s) then d
    else match s
      case Spawn => d.(next := d.next + 1, running := d.running + {d.next})
      case SkipCancelled =>
        d.(next := d.next + 1, slots := d.slots[d.next := Some(Outcome(calls[d.next], CancelledBody))])
      case Finish(i, body) =>
        d.(running := d.running - {i}, slots := d.slots[i := Some(Outcome(calls[i], body))])
  }

  ghost predicate Inv(d: Dispatch, calls: seq<Call>, limit: nat) {
    && |d.slots| == |calls| && d.next <= |calls|
    && |d.running| <= limit
    && (forall i :: i in d.running ==> i < d.next && d.slots[i].None?)
    && (forall i :: 0 <= i < |calls| ==> (d.slots[i].None? <==> i >= d.next || i in d.running))
    && (forall i :: 0 <= i < |calls| && d.slots[i].Some? ==> d.slots[i].value.call == calls[i])
  }

  function Begin(calls: seq<Call>): Dispatch {
    Dispatch(0, {}, seq(|calls|, _ => None))
  }

  lemma ApplyKeepsInv(d: Dispatch, calls: seq<Call>, limit: nat, s: Step)
    requires Inv(d, calls, limit)
    ensures Inv(Apply(d, calls, limit, s), calls, limit)
  {
    if Enabled(d, calls, limit, s) && s.Spawn? {
      assert d.next !in d.running;
      assert |d.running + {d.next}| == |d.running| + 1;
    }
  }

  /** The dispatch after a round's steps, in any order the scheduler chose. */
  function After(calls: seq<Call>, limit: nat, steps: seq<Step>): Dispatch {
    if steps == [] then Begin(calls)
    else Apply(After(calls, limit, steps[..|steps| - 1]), calls, limit, steps[|steps| - 1])
  }

  lemma {:induction false} ReachableInv(calls: seq<Call>, limit: nat, steps: seq<Step>)
    ensures Inv(After(calls, limit, steps), calls, limit)
  {
    if steps != [] {
      ReachableInv(calls, limit, steps[..|steps| - 1]);
      ApplyKeepsInv(After(calls, limit, steps[..|steps| - 1]), calls, limit, steps[|steps| - 1]);
    }
  }

  /** The wait group is released. */
  ghost predicate Joined(d: Dispatch, calls: seq<Call>) {
    d.next == |calls| && d.running == {}
  }

  /** The tools answer as `answers` says, and no call is skipped. */
  ghost predicate Answering(steps: seq<Step>, answers: nat -> Body) {
    forall i :: 0 <= i < |steps| ==>
      !steps[i].SkipCancelled? && (steps[i].Finish? ==> steps[i].body == answers(steps[i].index))
  }

  lemma {:induction false} SlotsAreAnswers(calls: seq<Call>, limit: nat, steps: seq<Step>, answers: nat -> Body)
    requires Answering(steps, answers)
    ensures var slots := After(calls, limit, steps).slots;
      |slots| == |calls| &&
      forall i :: 0 <= i < |calls| && slots[i].Some? ==> slots[i] == Some(Outcome(calls[i], answers(i)))
  {
    if steps != [] {
      var init := steps[..|steps| - 1];
      assert forall i :: 0 <= i < |init| ==> init[i] == steps[i];
      SlotsAreAnswers(calls, limit, init, answers);
    }
  }

  /** When all goroutines have been joined, every slot holds an outcome of its
      own call, and at no time did more than `limit` goroutines run. */
  lemma JoinedFillsEverySlot(calls: seq<Call>, limit: nat, steps: seq<Step>)
    ensures var d := After(calls, limit, steps);
      && |d.running| <= limit
      && |d.slots| == |calls|
      && (Joined(d, calls) <==> forall i :: 0 <= i < |calls| ==> d.slots[i].Some?)
      && (forall i :: 0 <= i < |calls| && d.slots[i].Some? ==> d.slots[i].value.call == calls[i])
  {
    ReachableInv(calls, limit, steps);
    var d := After(calls, limit, steps);
    if d.running != {} {
      var i :| i in d.running;
      assert d.slots[i].None?;
    } else if d.next < |calls| {
      assert d.slots[d.next].None?;
    }
  }

  /** The slots do not depend on the order in which the goroutines started and
      finished. */
  lemma OrderIndependent(calls: seq<Call>, limit: nat, steps: seq<Step>, steps': seq<Step>, answers: nat -> Body)
    requires Answering(steps, answers) && Answering(steps', answers)
    requires Joined(After(calls, limit, steps), calls) && Joined(After(calls, limit, steps'), calls)
    ensures After(calls, limit, steps).slots == After(calls, limit, steps').slots
  {
    SlotsAreAnswers(calls, limit, steps, answers);
    SlotsAreAnswers(calls, limit, steps', answers);
    JoinedFillsEverySlot(calls, limit, steps);
    JoinedFillsEverySlot(calls, limit, steps');
  }

  /** The outcomes of a joined dispatch, in request order. */
  function Outcomes(slots: seq<Option<Outcome>>): (outcomes: seq<Outcome>)
    requires forall i :: 0 <= i < |slots| ==> slots[i].Some?
    ensures |outcomes| == |slots|
    ensures forall i :: 0 <= i < |slots| ==> outcomes[i] == slots[i].value
  {
    seq(|slots|, i requires 0 <= i < |slots| => slots[i].value)
  }

  // ---------------------------------------------------------------- decisions

  function NameKey(name: string): string {
    "name:" + name
  }

  /** The user's answer for a call: by its id, else by its tool's name. */
  function Decision(decisions: map<string, bool>, c: Call): Option<bool> {
    if c.id != "" && c.id in decisions then Some(decisions[c.id])
    else if NameKey(c.name) in decisions then Some(decisions[NameKey(c.name)])
    else None
  }

  predicate Parks(decisions: map<string, bool>, oc: Outcome) {
    oc.body.NeedsConfirmation? && Decision(decisions, oc.call).None?
  }

  /** A refused call becomes a denial, an approved one keeps the result the
      permission layer returned. */
  function Resolve(decisions: map<string, bool>, oc: Outcome): Outcome {
    if !oc.body.NeedsConfirmation? || Parks(decisions, oc) then oc
    else if Decision(decisions, oc.call).value then oc.(body := Returned(oc.body.result))
    else oc.(body := Denied)
  }

  method ApplyToolDecisions(decisions: map<string, bool>, outcomes: seq<Outcome>)
    returns (resolved: seq<Outcome>, parked: seq<Outcome>)
    ensures parked == [] <==> forall i :: 0 <= i < |outcomes| ==> !Parks(decisions, outcomes[i])
    ensures forall oc :: oc in parked ==> oc in outcomes && Parks(decisions, oc)
    ensures parked == [] ==>
      |resolved| == |outcomes| && forall i :: 0 <= i < |outcomes| ==> resolved[i] == Resolve(decisions, outcomes[i])
    ensures |resolved| + |parked| == |outcomes|
    ensures parked == [] ==> forall i :: 0 <= i < |outcomes| ==>
      && resolved[i].call == outcomes[i].call && Told(decisions, outcomes[i], Observation(resolved[i]))
      && (resolved[i].body.Denied? <==>
            outcomes[i].body.Denied? ||
            (outcomes[i].body.NeedsConfirmation? && Answered(decisions, outcomes[i].call, false)))
  {
    forall i | 0 <= i < |outcomes|
      ensures Resolve(decisions, outcomes[i]).call == outcomes[i].call
      ensures Told(decisions, outcomes[i], Observation(Resolve(decisions, outcomes[i])))
      ensures Resolve(decisions, outcomes[i]).body.Denied? <==>
        outcomes[i].body.Denied? || (outcomes[i].body.NeedsConfirmation? && Answered(decisions, outcomes[i].call, false))
    {
      ToldByDecision(decisions, outcomes[i]);
    }

    resolved, parked := [], [];
    for i := 0 to |outcomes|
      invariant |resolved| + |parked| == i
      invariant parked == [] <==> forall j :: 0 <= j < i ==> !Parks(decisions, outcomes[j])
      invariant forall oc :: oc in parked ==> oc in outcomes && Parks(decisions, oc)
      invariant parked == [] ==> forall j :: 0 <= j < i ==> resolved[j] == Resolve(decisions, outcomes[j])
    {
      var oc := outcomes[i];
      if !oc.body.NeedsConfirmation? {
        resolved := resolved + [oc];
      } else {
        var answer := Decision(decisions, oc.call);
        if answer.None? {
          parked := parked + [oc];
        } else if !answer.value {
          resolved := resolved + [oc.(body := Denied)];
        } else {
          resolved := resolved + [oc.(body := Returned(oc.body.result))];
        }
      }
    }
  }

  // ---------------------------------------------------------------- folding into the conversation

  function FirstNonEmpty(a: string, b: string, c: string): string {
    if a != "" then a else if b != "" then b else c
  }

  function ResultText(r: ToolResult): string {
    if r.success then r.content else "Error: " + FirstNonEmpty(r.error, r.content, "工具执行失败")
  }

  function Observation(oc: Outcome): string {
    match oc.body
    case Panicked(d) => "Error: tool panicked: " + d
    case Errored(d) => "Error: " + d
    case Denied => "Error: 用户拒绝执行"
    case NeedsConfirmation(_, result) => ResultText(result)
    case Returned(result) => ResultText(result)
  }

  // What the model is told, read off the decisions and the tool's result.

  /** The user's answer for this very call, or else for every call of its tool. */
  ghost predicate Answered(decisions: map<string, bool>, c: Call, approve: bool) {
    if c.id != "" && c.id in decisions then decisions[c.id] == approve
    else "name:" + c.name in decisions && decisions["name:" + c.name] == approve
  }

  /** A success is told as it came, a failure by its error, or by its output when
      it gave no error. */
  ghost predicate Shows(text: string, r: ToolResult) {
    && (r.success ==> text == r.content)
    && (!r.success && r.error != "" ==> text == "Error: " + r.error)
    && (!r.success && r.error == "" && r.content != "" ==> text == "Error: " + r.content)
    && (!r.success && r.error == r.content == "" ==> text == "Error: 工具执行失败")
  }

  ghost predicate Told(decisions: map<string, bool>, oc: Outcome, text: string) {
    && (oc.body.Panicked? ==> text == "Error: tool panicked: " + oc.body.detail)
    && (oc.body.Errored? ==> text == "Error: " + oc.body.detail)
    && (oc.body.Returned? ==> Shows(text, oc.body.result))
    && (oc.body.Denied? || (oc.body.NeedsConfirmation? && Answered(decisions, oc.call, false)) ==>
          text == "Error: 用户拒绝执行")
    && (oc.body.NeedsConfirmation? && Answered(decisions, oc.call, true) ==> Shows(text, oc.body.result))
  }

  /** A confirmation parks exactly when the user has answered neither way; then
      nothing is resolved. Otherwise a refusal is told as one, and an approved
      call by what the permission layer returned. */
  lemma ToldByDecision(decisions: map<string, bool>, oc: Outcome)
    ensures Parks(decisions, oc) <==>
      oc.body.NeedsConfirmation? && !Answered(decisions, oc.call, true) && !Answered(decisions, oc.call, false)
    ensures Resolve(decisions, oc).body.Denied? <==>
      oc.body.Denied? || (oc.body.NeedsConfirmation? && Answered(decisions, oc.call, false))
    ensures Told(decisions, oc, Observation(Resolve(decisions, oc)))
    ensures Resolve(decisions, oc).call == oc.call
  {
  }

  ghost predicate Undecided(decisions: map<string, bool>, oc: Outcome) {
    oc.body.NeedsConfirmation? && !Answered(decisions, oc.call, true) && !Answered(decisions, oc.call, false)
  }

  /** The tool message for a call: its id, and what it came back with. */
  ghost predicate Reported(decisions: map<string, bool>, oc: Outcome, m: Message) {
    && m.role == Tool && m.toolCallId == oc.call.id && m.calls == Parsed([])
    && Told(decisions, oc, m.content)
  }

  /** The append-only message history of a run. */
  class Conversation {
    var messages: seq<Message>

    constructor (messages: seq<Message>)
      ensures this.messages == messages
    {
      this.messages := messages;
    }

    method AppendAssistant(content: string, calls: seq<Call>)
      modifies this
      ensures messages == old(messages) + [AssistantMessage(content, calls)]
    {
      messages := messages + [AssistantMessage(content, calls)];
    }

    method AppendSystem(content: string)
      modifies this
      ensures messages == old(messages) + [Message(System, content, NoCalls, "")]
    {
      messages := messages + [Message(System, content, NoCalls, "")];
    }

    method AppendToolResult(id: string, content: string)
      modifies this
      ensures messages == old(messages) + [ToolMessage(id, content)]
    {
      messages := messages + [ToolMessage(id, content)];
    }

    /** Folds the round's outcomes; a round with an undecided call parks and
        appends nothing. A correction from the review and the order to
        summarise follow the results. */
    method Observe(decisions: map<string, bool>, outcomes: seq<Outcome>, extra: seq<string>) returns (awaiting: bool)
      modifies this
      ensures awaiting <==> exists i :: 0 <= i < |outcomes| && Parks(decisions, outcomes[i])
      ensures awaiting ==> messages == old(messages)
      ensures !awaiting ==> messages == old(messages) + Results(decisions, outcomes) + Notes(extra)
    {
      var resolved, parked := ApplyToolDecisions(decisions, outcomes);
      if |parked| > 0 {
        return true;
      }
      ResultsMatchCalls(decisions, outcomes);
      AppendResults(resolved, Results(decisions, outcomes));
      AppendNotes(extra);
      awaiting := false;
    }

    method AppendResults(resolved: seq<Outcome>, ghost replies: seq<Message>)
      requires |replies| == |resolved|
      requires forall i :: 0 <= i < |resolved| ==> replies[i] == ToolMessage(resolved[i].call.id, Observation(resolved[i]))
      modifies this
      ensures messages == old(messages) + replies
    {
      for i := 0 to |resolved|
        invariant messages == old(messages) + replies[..i]
      {
        AppendToolResult(resolved[i].call.id, Observation(resolved[i]));
        assert replies[..i + 1] == replies[..i] + [replies[i]];
      }
      assert replies[..|replies|] == replies;
    }

    /** The whole round: whatever the goroutines did, in whatever order, once all
        are joined the conversation gains exactly one tool message per call, in
        request order and with its id, or nothing if the round parks. */
    method ObserveRound(decisions: map<string, bool>, calls: seq<Call>, d: Dispatch, extra: seq<string>,
                        ghost limit: nat, ghost steps: seq<Step>)
      returns (awaiting: bool)
      requires d == After(calls, limit, steps) && Joined(d, calls)
      modifies this
      ensures |d.slots| == |calls| && forall i :: 0 <= i < |calls| ==> d.slots[i].Some? && d.slots[i].value.call == calls[i]
      ensures awaiting <==> exists i :: 0 <= i < |calls| && Parks(decisions, d.slots[i].value)
      ensures awaiting ==> messages == old(messages)
      ensures !awaiting ==>
        messages == old(messages) + Results(decisions, Outcomes(d.slots)) + Notes(extra) &&
        forall i :: 0 <= i < |calls| ==>
          messages[|old(messages)| + i] == ToolMessage(calls[i].id, Observation(Resolve(decisions, d.slots[i].value)))
      ensures awaiting <==> exists i :: 0 <= i < |calls| && Undecided(decisions, d.slots[i].value)
      ensures !awaiting ==>
        forall i :: 0 <= i < |calls| ==> Reported(decisions, d.slots[i].value, messages[|old(messages)| + i])
    {
      forall oc: Outcome ensures Parks(decisions, oc) <==> Undecided(decisions, oc) {
        ToldByDecision(decisions, oc);
      }
      forall oc: Outcome
        ensures Reported(decisions, oc, ToolMessage(oc.call.id, Observation(Resolve(decisions, oc))))
      {
        ToldByDecision(decisions, oc);
      }
      JoinedFillsEverySlot(calls, limit, steps);
      var outcomes := Outcomes(d.slots);
      ResultsMatchCalls(decisions, outcomes);
      awaiting := Observe(decisions, outcomes, extra);
    }

    method AppendNotes(extra: seq<string>)
      modifies this
      ensures messages == old(messages) + Notes(extra)
    {
      for i := 0 to |extra|
        invariant messages == old(messages) + Notes(extra[..i])
      {
        AppendSystem(extra[i]);
        assert extra[..i + 1][..i] == extra[..i];
      }
      assert extra[..|extra|] == extra;
    }
  }

  function Results(decisions: map<string, bool>, outcomes: seq<Outcome>): (r: seq<Message>)
    ensures |r| == |outcomes|
  {
    if outcomes == [] then []
    else
      var oc := Resolve(decisions, outcomes[|outcomes| - 1]);
      Results(decisions, outcomes[..|outcomes| - 1]) + [ToolMessage(oc.call.id, Observation(oc))]
  }

  function Notes(extra: seq<string>): seq<Message> {
    if extra == [] then []
    else Notes(extra[..|extra| - 1]) + [Message(System, extra[|extra| - 1], NoCalls, "")]
  }

  // ---------------------------------------------------------------- what a round leaves behind

  /** A note is a system message with its text, in order. */
  lemma {:induction false} NotesAreSystem(extra: seq<string>)
    ensures |Notes(extra)| == |extra|
    ensures forall i :: 0 <= i < |extra| ==>
      var m := Notes(extra)[i]; m.role == System && m.content == extra[i] && m.toolCallId == ""
  {
    if extra != [] {
      NotesAreSystem(extra[..|extra| - 1]);
    }
  }

  /** One tool message per call, in request order, with its id. */
  lemma ResultsMatchCalls(decisions: map<string, bool>, outcomes: seq<Outcome>)
    ensures forall i :: 0 <= i < |outcomes| ==>
      var m := Results(decisions, outcomes)[i];
      m == ToolMessage(outcomes[i].call.id, Observation(Resolve(decisions, outcomes[i])))
  {
    forall i | 0 <= i < |outcomes|
      ensures Results(decisions, outcomes)[i] == ToolMessage(outcomes[i].call.id, Observation(Resolve(decisions, outcomes[i])))
    {
      ResultAt(decisions, outcomes, i);
    }
  }

  lemma {:induction false} ResultAt(decisions: map<string, bool>, outcomes: seq<Outcome>, i: nat)
    requires i < |outcomes|
    ensures Results(decisions, outcomes)[i] == ToolMessage(outcomes[i].call.id, Observation(Resolve(decisions, outcomes[i])))
  {
    if i < |outcomes| - 1 {
      ResultAt(decisions, outcomes[..|outcomes| - 1], i);
    }
  }

  /** Two rounds whose tools answer alike add the same messages, in whatever
      order their goroutines started and finished. */
  lemma RoundOrderIndependent(calls: seq<Call>, limit: nat, steps: seq<Step>, steps': seq<Step>, answers: nat -> Body,
                              decisions: map<string, bool>)
    requires Answering(steps, answers) && Answering(steps', answers)
    requires Joined(After(calls, limit, steps), calls) && Joined(After(calls, limit, steps'), calls)
    ensures var d, d' := After(calls, limit, steps), After(calls, limit, steps');
      && (forall i :: 0 <= i < |d.slots| ==> d.slots[i].Some?) && d.slots == d'.slots
      && Results(decisions, Outcomes(d.slots)) == Results(decisions, Outcomes(d'.slots))
      && |Results(decisions, Outcomes(d.slots))| == |calls|
      && forall i :: 0 <= i < |calls| ==>
           Results(decisions, Outcomes(d.slots))[i] ==
           ToolMessage(calls[i].id, Observation(Resolve(decisions, Outcome(calls[i], answers(i)))))
  {
    OrderIndependent(calls, limit, steps, steps', answers);
    JoinedFillsEverySlot(calls, limit, steps);
    SlotsAreAnswers(calls, limit, steps, answers);
    ResultsMatchCalls(decisions, Outcomes(After(calls, limit, steps).slots));
  }

  predicate UsableIds(calls: seq<Call>) {
    && (forall i :: 0 <= i < |calls| ==> calls[i].id != "")
    && (forall i, j :: 0 <= i < j < |calls| ==> calls[i].id != calls[j].id)
  }

  lemma ScanSnoc(messages: seq<Message>, m: Message)
    ensures ScanAll(messages + [m]) == ScanOne(ScanAll(messages), m)
  {
    assert (messages + [m])[..|messages|] == messages;
  }

  /** The replies carry the ids of the calls, in their order. */
  ghost predicate Carry(replies: seq<Message>, calls: seq<Call>) {
    |replies| == |calls| && forall i :: 0 <= i < |calls| ==> Replies(replies[i], calls[i].id)
  }

  /** What is pending after the first `n` replies to a round. */
  lemma {:induction false} RepliesScan(history: seq<Message>, open: set<string>, replies: seq<Message>, calls: seq<Call>, n: nat)
    requires ScanAll(history) == Pending(open) && CallIds(calls) <= open
    requires Carry(replies, calls) && n <= |calls|
    ensures ScanAll(history + replies[..n]) ==
      if UsableIds(calls[..n]) then Pending(open - CallIds(calls[..n])) else Broken
  {
    if n == 0 {
      assert history + replies[..0] == history;
      assert CallIds(calls[..0]) == {};
    } else {
      RepliesScan(history, open, replies, calls, n - 1);
      assert history + replies[..n] == (history + replies[..n - 1]) + [replies[n - 1]];
      ScanSnoc(history + replies[..n - 1], replies[n - 1]);
      UsableScan(open, calls, n - 1);
    }
  }

  lemma UsableScan(open: set<string>, calls: seq<Call>, n: nat)
    requires n < |calls| && CallIds(calls) <= open
    ensures UsableIds(calls[..n + 1]) <==>
      UsableIds(calls[..n]) && calls[n].id != "" && calls[n].id in open - CallIds(calls[..n])
    ensures open - CallIds(calls[..n + 1]) == open - CallIds(calls[..n]) - {calls[n].id}
  {
    CallIdsSnoc(calls, n);
    UsableSnoc(calls, n);
    assert calls[n].id in CallIds(calls);
  }

  lemma UsableSnoc(calls: seq<Call>, n: nat)
    requires n < |calls|
    ensures UsableIds(calls[..n + 1]) <==>
      UsableIds(calls[..n]) && calls[n].id != "" && calls[n].id !in CallIds(calls[..n])
  {
    var longer, shorter := calls[..n + 1], calls[..n];
    assert forall i :: 0 <= i < n ==> shorter[i] == longer[i];
    assert longer[n] == calls[n];
    if UsableIds(longer) {
      forall i | 0 <= i < n ensures shorter[i].id != calls[n].id {
        assert longer[i].id != longer[n].id;
      }
    } else if UsableIds(shorter) && calls[n].id != "" && calls[n].id !in CallIds(shorter) {
      forall i, j | 0 <= i < j < |longer| ensures longer[i].id != longer[j].id {
        assert j == n ==> shorter[i].id in CallIds(shorter);
      }
    }
  }

  /** A completed round keeps a well-paired conversation well paired exactly
      when the provider's ids are usable: none empty, none repeated. */
  lemma RoundPairingIff(history: seq<Message>, content: string, calls: seq<Call>, decisions: map<string, bool>, outcomes: seq<Outcome>)
    requires Paired(history)
    requires |outcomes| == |calls| && forall i :: 0 <= i < |calls| ==> outcomes[i].call == calls[i]
    ensures Paired(history + [AssistantMessage(content, calls)] + Results(decisions, outcomes)) <==> UsableIds(calls)
  {
    var asked := history + [AssistantMessage(content, calls)];
    ScanSnoc(history, AssistantMessage(content, calls));
    var replies := Results(decisions, outcomes);
    forall i | 0 <= i < |calls| ensures Replies(replies[i], calls[i].id) {
      ResultAt(decisions, outcomes, i);
    }
    RepliesScan(asked, ScanAll(asked).ids, replies, calls, |calls|);
    assert calls[..|calls|] == calls && replies[..|calls|] == replies;
  }
}
