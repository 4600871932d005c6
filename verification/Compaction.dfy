/** Context compaction: mechanical trimming of old messages in place, and the
    latch that decides when to ask for a summary. Texts are byte strings, one
    character per byte. */
module Compaction {
  import opened Messages

  const SEEN_SNIPPED := "[...\U{E5}\U{B7}\U{B2}\U{E8}\U{87}\U{AA}\U{E5}\U{8A}\U{A8}\U{E6}\U{88}\U{AA}\U{E6}\U{96}\U{AD}"
  const SEEN_PRUNED := "[...\U{E5}\U{B7}\U{B2}\U{E7}\U{9C}\U{81}\U{E7}\U{95}\U{A5}"
  const SEEN_TRUNCATED := "\U{E7}\U{BB}\U{93}\U{E6}\U{9E}\U{9C}\U{E5}\U{B7}\U{B2}\U{E6}\U{88}\U{AA}\U{E6}\U{96}\U{AD}"
  const MARKER_SNIPPED := "\n" + SEEN_SNIPPED + "\U{E4}\U{BB}\U{A5}\U{E8}\U{8A}\U{82}\U{E7}\U{9C}\U{81}\U{E4}\U{B8}\U{8A}\U{E4}\U{B8}\U{8B}\U{E6}\U{96}\U{87}\U{E7}\U{A9}\U{BA}\U{E9}\U{97}\U{B4}]"
  const MARKER_PRUNED := "\n" + SEEN_PRUNED + "]"

  datatype Retention = Low | Medium | High

  /** Settings after the compressor has replaced non-positive ones. */
  datatype Settings = Settings(recentKeep: nat, snippedKeep: nat, prunedKeep: nat)

  function Positive(n: int, default: nat): nat {
    if n <= 0 then default else n
  }

  /** Five messages, 200 and 80 bytes, unless something positive is given. */
  lemma DefaultSettings(recentKeep: int, snippedKeep: int, prunedKeep: int)
    ensures var s := NewSettings(recentKeep, snippedKeep, prunedKeep);
      && s.recentKeep == (if recentKeep > 0 then recentKeep else 5)
      && s.snippedKeep == (if snippedKeep > 0 then snippedKeep else 200)
      && s.prunedKeep == (if prunedKeep > 0 then prunedKeep else 80)
  {
  }

  function NewSettings(recentKeep: int, snippedKeep: int, prunedKeep: int): Settings {
    Settings(Positive(recentKeep, 5), Positive(snippedKeep, 200), Positive(prunedKeep, 80))
  }

  /** How much mechanical work was done. `saved` is what the compressor
      reports. */
  datatype Stats = Stats(snipped: nat, pruned: nat, saved: int)

  predicate Contains(s: string, part: string) {
    part <= s || (s != "" && Contains(s[1..], part))
  }

  lemma {:induction false} ContainsAt(s: string, part: string, k: nat)
    requires k + |part| <= |s| && s[k..k + |part|] == part
    ensures Contains(s, part)
  {
    if k > 0 {
      assert s[1..][k - 1..k - 1 + |part|] == s[k..k + |part|];
      ContainsAt(s[1..], part, k - 1);
    }
  }

  ghost predicate PartAt(s: string, k: int, part: string) {
    0 <= k <= |s| - |part| && s[k..k + |part|] == part
  }

  lemma {:induction false} ContainsWhere(s: string, part: string) returns (k: nat)
    requires Contains(s, part)
    ensures PartAt(s, k, part)
  {
    if part <= s {
      k := 0;
    } else {
      var j := ContainsWhere(s[1..], part);
      assert s[1..][j..j + |part|] == s[j + 1..j + 1 + |part|];
      k := j + 1;
    }
  }

  /** Containing is having it somewhere. */
  lemma ContainsIff(s: string, part: string)
    ensures Contains(s, part) <==> exists k :: PartAt(s, k, part)
  {
    if Contains(s, part) {
      var _ := ContainsWhere(s, part);
    }
    if k :| PartAt(s, k, part) {
      ContainsAt(s, part, k);
    }
  }

  /** A text that contains a marker contains what the marker contains. */
  lemma {:induction false} ContainsWithin(s: string, whole: string, part: string, k: nat)
    requires Contains(s, whole) && k + |part| <= |whole| && whole[k..k + |part|] == part
    ensures Contains(s, part)
  {
    if whole <= s {
      assert s[k..k + |part|] == whole[k..k + |part|];
      ContainsAt(s, part, k);
    } else {
      ContainsWithin(s[1..], whole, part, k);
    }
  }

  predicate AlreadyTruncated(s: string) {
    Contains(s, SEEN_SNIPPED) || Contains(s, SEEN_PRUNED) || Contains(s, SEEN_TRUNCATED)
  }

  function RetentionOf(tool: string): Retention {
    if tool in {"file_write", "file_edit", "file_create", "file_delete", "move_file"} then High
    else if tool in {"terminal_exec", "dependency_check", "code_lint", "code_format", "code_review", "git_operation"}
    then Medium
    else Low
  }

  /** The change records are of the highest class, the checks of the middle one,
      and everything else, a tool without a name included, of the lowest. */
  lemma RetentionByTool(tool: string)
    ensures RetentionOf(tool) == High <==>
      || tool == "file_write" || tool == "file_edit" || tool == "file_create" || tool == "file_delete"
      || tool == "move_file"
    ensures RetentionOf(tool) == Medium <==>
      || tool == "terminal_exec" || tool == "dependency_check" || tool == "code_lint" || tool == "code_format"
      || tool == "code_review" || tool == "git_operation"
  {
    assert |"terminal_exec"| == 13;
    assert |"dependency_check"| == 16;
  }

  function NameIn(calls: seq<Call>, id: string): string {
    if calls == [] then ""
    else if calls[0].id == id && calls[0].name != "" then calls[0].name
    else NameIn(calls[1..], id)
  }

  /** The name of the tool a result answers: the nearest earlier assistant turn
      that lists the id with a name. */
  function NameBefore(messages: seq<Message>, i: nat, id: string): string
    requires i <= |messages|
  {
    if i == 0 then ""
    else
      var m := messages[i - 1];
      var found := if m.role == Assistant && m.calls.Parsed? then NameIn(m.calls.list, id) else "";
      if found != "" then found else NameBefore(messages, i - 1, id)
  }

  /** The turn gives the id this name, in the first of its calls that has the id
      and a name. */
  ghost predicate GivesName(m: Message, id: string, name: string) {
    && m.role == Assistant && m.calls.Parsed? && name != ""
    && exists p :: 0 <= p < |m.calls.list| && m.calls.list[p] == Call(id, name)
         && forall q :: 0 <= q < p ==> m.calls.list[q].id != id || m.calls.list[q].name == ""
  }

  ghost predicate GivesNoName(m: Message, id: string) {
    m.role == Assistant && m.calls.Parsed? ==>
      forall p :: 0 <= p < |m.calls.list| ==> m.calls.list[p].id != id || m.calls.list[p].name == ""
  }

  lemma {:induction false} NameInCalls(calls: seq<Call>, id: string)
    ensures var name := NameIn(calls, id);
      if name == "" then forall p :: 0 <= p < |calls| ==> calls[p].id != id || calls[p].name == ""
      else
        exists p :: 0 <= p < |calls| && calls[p] == Call(id, name)
          && forall q :: 0 <= q < p ==> calls[q].id != id || calls[q].name == ""
  {
    if calls != [] && !(calls[0].id == id && calls[0].name != "") {
      NameInCalls(calls[1..], id);
      var name := NameIn(calls, id);
      if name != "" {
        var p :| 0 <= p < |calls[1..]| && calls[1..][p] == Call(id, name)
          && forall q :: 0 <= q < p ==> calls[1..][q].id != id || calls[1..][q].name == "";
        assert calls[p + 1] == Call(id, name);
        forall q | 0 <= q < p + 1 ensures calls[q].id != id || calls[q].name == "" {
          assert q > 0 ==> calls[q] == calls[1..][q - 1];
        }
      } else {
        forall p | 0 <= p < |calls| ensures calls[p].id != id || calls[p].name == "" {
          assert p > 0 ==> calls[p] == calls[1..][p - 1];
        }
      }
    } else if calls != [] {
      assert calls[0] == Call(id, NameIn(calls, id));
    }
  }

  /** A result's tool is the one its nearest earlier turn names it by; without
      such a turn it has none. */
  lemma {:induction false} NameIsNearest(messages: seq<Message>, i: nat, id: string)
    requires i <= |messages|
    ensures var name := NameBefore(messages, i, id);
      if name == "" then forall j :: 0 <= j < i ==> GivesNoName(messages[j], id)
      else
        exists j :: 0 <= j < i && GivesName(messages[j], id, name)
          && forall k :: j < k < i ==> GivesNoName(messages[k], id)
  {
    if i > 0 {
      var m := messages[i - 1];
      if m.role == Assistant && m.calls.Parsed? {
        NameInCalls(m.calls.list, id);
      }
      NameIsNearest(messages, i - 1, id);
    }
  }

  function ToolRetention(messages: seq<Message>, i: nat): Retention
    requires i < |messages|
  {
    if messages[i].toolCallId == "" then Low else RetentionOf(NameBefore(messages, i, messages[i].toolCallId))
  }

  /** A result without an id, or whose id no earlier turn names, is of the lowest
      class. */
  lemma UnnamedIsLow(messages: seq<Message>, i: nat)
    requires i < |messages|
    requires messages[i].toolCallId == "" || forall j :: 0 <= j < i ==> GivesNoName(messages[j], messages[i].toolCallId)
    ensures ToolRetention(messages, i) == Low
  {
    if messages[i].toolCallId != "" {
      NobodyNames(messages, i, messages[i].toolCallId);
    }
  }

  lemma {:induction false} NobodyNames(messages: seq<Message>, i: nat, id: string)
    requires i <= |messages| && forall j :: 0 <= j < i ==> GivesNoName(messages[j], id)
    ensures NameBefore(messages, i, id) == ""
  {
    if i > 0 {
      NobodyNames(messages, i - 1, id);
      assert GivesNoName(messages[i - 1], id);
      if messages[i - 1].calls.Parsed? {
        NameInCalls(messages[i - 1].calls.list, id);
      }
    }
  }

  /** `n` times `k`. */
  function Times(n: nat, k: nat): (r: nat)
    ensures r == n * k
  {
    if n == 0 then 0 else Times(n - 1, k) + k
  }

  function Total(messages: seq<Message>): nat {
    if messages == [] then 0 else Total(messages[..|messages| - 1]) + |messages[|messages| - 1].content|
  }

  lemma {:induction false} TotalUpdate(messages: seq<Message>, i: nat, m: Message)
    requires i < |messages|
    ensures Total(messages[i := m]) == Total(messages) - |messages[i].content| + |m.content|
  {
    var n := |messages| - 1;
    if i < n {
      TotalUpdate(messages[..n], i, m);
      assert messages[i := m][..n] == messages[..n][i := m];
    } else {
      assert messages[i := m][..n] == messages[..n];
    }
  }

  /** `b` is `a` with other texts at indices from `lo` up to `hi`. */
  ghost predicate OnlyTexts(a: seq<Message>, b: seq<Message>, lo: nat, hi: int) {
    && |a| == |b|
    && (forall i :: 0 <= i < |a| ==> b[i] == a[i].(content := b[i].content))
    && (forall i :: 0 <= i < |a| && !(lo <= i < hi) ==> b[i] == a[i])
  }

  /** The beginning of a text and a marker. */
  function Clipped(m: Message, keep: nat, marker: string): Message
    requires keep <= |m.content|
  {
    m.(content := m.content[..keep] + marker)
  }

  /** The tool behind a result is found without looking at texts. */
  lemma {:induction false} NamesIgnoreTexts(a: seq<Message>, b: seq<Message>, lo: nat, hi: int, i: nat, id: string)
    requires OnlyTexts(a, b, lo, hi) && i <= |a|
    ensures NameBefore(a, i, id) == NameBefore(b, i, id)
  {
    if i > 0 {
      assert b[i - 1] == a[i - 1].(content := b[i - 1].content);
      NamesIgnoreTexts(a, b, lo, hi, i - 1, id);
    }
  }

  lemma RetentionIgnoresTexts(a: seq<Message>, b: seq<Message>, lo: nat, hi: int, i: nat)
    requires OnlyTexts(a, b, lo, hi) && i < |a|
    ensures ToolRetention(a, i) == ToolRetention(b, i)
  {
    assert b[i] == a[i].(content := b[i].content);
    NamesIgnoreTexts(a, b, lo, hi, i, a[i].toolCallId);
  }

  /** A pass on its way: the first `n` messages are rewritten. */
  ghost predicate Partway(start: seq<Message>, now: seq<Message>, goal: seq<Message>, n: nat) {
    && |now| == |start| == |goal|
    && forall j :: 0 <= j < |now| ==> now[j] == if j < n then goal[j] else start[j]
  }

  lemma PartwayTexts(start: seq<Message>, now: seq<Message>, goal: seq<Message>, n: nat, lo: nat, hi: int)
    requires Partway(start, now, goal, n) && OnlyTexts(start, goal, lo, hi)
    ensures OnlyTexts(start, now, lo, hi)
  {
  }

  class Compressor {
    const settings: Settings

    constructor (recentKeep: int, snippedKeep: int, prunedKeep: int)
      ensures settings == NewSettings(recentKeep, snippedKeep, prunedKeep)
    {
      settings := NewSettings(recentKeep, snippedKeep, prunedKeep);
    }

    function ProtectFrom(count: nat): nat {
      if count - settings.recentKeep < 1 then 1 else count - settings.recentKeep
    }

    predicate Old(messages: seq<Message>, i: nat) {
      1 <= i < ProtectFrom(|messages|)
    }

    /** A result is snipped if it is old, long, not clipped before, and of the
        class in question. */
    predicate Snips(messages: seq<Message>, i: nat, retention: Retention)
      requires i < |messages|
    {
      var m := messages[i];
      && Old(messages, i) && m.role == Tool && |m.content| > settings.snippedKeep + 100
      && !AlreadyTruncated(m.content) && ToolRetention(messages, i) == retention
    }

    function SnippedAt(messages: seq<Message>, i: nat, retention: Retention): Message
      requires i < |messages|
    {
      if Snips(messages, i, retention) then Clipped(messages[i], settings.snippedKeep, MARKER_SNIPPED) else messages[i]
    }

    function Snipped(messages: seq<Message>, retention: Retention): (r: seq<Message>)
      ensures |r| == |messages|
    {
      seq(|messages|, i requires 0 <= i < |messages| => SnippedAt(messages, i, retention))
    }

    /** Pruning clips what is longer than its limit and not pruned before; a
        result of the highest class is snipped instead. */
    function PrunedAt(messages: seq<Message>, i: nat): Message
      requires i < |messages|
    {
      var m := messages[i];
      if !Old(messages, i) || m.role != Tool || |m.content| <= settings.prunedKeep || Contains(m.content, MARKER_PRUNED)
      then m
      else if ToolRetention(messages, i) != High then Clipped(m, settings.prunedKeep, MARKER_PRUNED)
      else if |m.content| > settings.snippedKeep && !AlreadyTruncated(m.content)
      then Clipped(m, settings.snippedKeep, MARKER_SNIPPED)
      else m
    }

    function Pruned(messages: seq<Message>): (r: seq<Message>)
      ensures |r| == |messages|
    {
      seq(|messages|, i requires 0 <= i < |messages| => PrunedAt(messages, i))
    }

    function CutAt(messages: seq<Message>, i: nat): Message
      requires i < |messages|
    {
      var m := messages[i];
      if m.role == Assistant && |m.content| > 500 && m.calls == NoCalls then Clipped(m, 200, MARKER_PRUNED) else m
    }

    /** Long assistant texts are cut from `i` on, one by one, until the measure
        is within the limit. */
    ghost function CutFrom(messages: seq<Message>, i: nat, measure: seq<Message> -> int, limit: int): (r: seq<Message>)
      ensures |r| == |messages|
      decreases |messages| - i
    {
      if i >= ProtectFrom(|messages|) || i >= |messages| then messages
      else
        var next := messages[i := CutAt(messages, i)];
        if measure(next) <= limit then next else CutFrom(next, i + 1, measure, limit)
    }

    /** The whole of trimming: each stage is entered only above its threshold. */
    ghost function Trimmed(messages: seq<Message>, measure: seq<Message> -> int, snipAt: int, pruneAt: int, hardAt: int): (r: seq<Message>)
      ensures |r| == |messages|
    {
      if messages == [] || measure(messages) <= snipAt then messages
      else
        var snipped := Snipped(messages, Low);
        var pruned := if measure(snipped) > pruneAt then Pruned(snipped) else snipped;
        if measure(pruned) > hardAt then CutFrom(pruned, 1, measure, hardAt) else pruned
    }

    /** What is rewritten, by position, role, length, markers and tool: a result
        that is neither the first message nor among the protected last ones, more
        than 100 bytes over its limit, and without any marker. */
    lemma SnippedIff(messages: seq<Message>, i: nat, retention: Retention)
      requires i < |messages|
      ensures var m := messages[i];
        var snipped := Snipped(messages, retention)[i];
        if 1 <= i && i + settings.recentKeep < |messages| && m.role == Tool && |m.content| > settings.snippedKeep + 100
           && !Contains(m.content, SEEN_SNIPPED) && !Contains(m.content, SEEN_PRUNED) && !Contains(m.content, SEEN_TRUNCATED)
           && ToolRetention(messages, i) == retention
        then snipped == m.(content := m.content[..settings.snippedKeep] + MARKER_SNIPPED)
        else snipped == m
    {
    }

    lemma PrunedIff(messages: seq<Message>, i: nat)
      requires i < |messages|
      ensures var m := messages[i];
        var pruned := Pruned(messages)[i];
        if 1 <= i && i + settings.recentKeep < |messages| && m.role == Tool && |m.content| > settings.prunedKeep
           && !Contains(m.content, MARKER_PRUNED) && ToolRetention(messages, i) != High
        then pruned == m.(content := m.content[..settings.prunedKeep] + MARKER_PRUNED)
        else if 1 <= i && i + settings.recentKeep < |messages| && m.role == Tool && ToolRetention(messages, i) == High
           && |m.content| > settings.prunedKeep && |m.content| > settings.snippedKeep
           && !Contains(m.content, SEEN_SNIPPED) && !Contains(m.content, SEEN_PRUNED) && !Contains(m.content, SEEN_TRUNCATED)
        then pruned == m.(content := m.content[..settings.snippedKeep] + MARKER_SNIPPED)
        else pruned == m
    {
      if !AlreadyTruncated(messages[i].content) && |messages[i].content| > settings.snippedKeep {
        SnippingShows(messages[i], settings.snippedKeep);
      }
    }

    /** The long texts of assistant turns without calls are cut to 200 bytes, from
        index `i` up to `n`; the others stay. */
    ghost predicate CutUpTo(messages: seq<Message>, result: seq<Message>, i: nat, n: nat) {
      && |result| == |messages|
      && forall k :: 0 <= k < |messages| ==>
           result[k] ==
             if i <= k < n && messages[k].role == Assistant && messages[k].calls == Parsed([]) && |messages[k].content| > 500
             then messages[k].(content := messages[k].content[..200] + MARKER_PRUNED)
             else messages[k]
    }

    /** Everything from `i` up to `n` was cut, the measure was above the limit all
        the way, and cutting ended because it is not any more or because the
        protected tail begins. */
    ghost predicate StopsAt(messages: seq<Message>, result: seq<Message>, i: nat, n: nat, measure: seq<Message> -> int, limit: int) {
      && i <= n && CutUpTo(messages, result, i, n)
      && (n > i ==> n + settings.recentKeep <= |messages|)
      && (n + settings.recentKeep < |messages| ==> n > i && measure(result) <= limit)
      && forall m, part | i < m < n && CutUpTo(messages, part, i, m) :: measure(part) > limit
    }

    lemma {:induction false} CutStopsAtFirst(messages: seq<Message>, i: nat, measure: seq<Message> -> int, limit: int)
      requires i >= 1
      ensures exists n: nat :: StopsAt(messages, CutFrom(messages, i, measure, limit), i, n, measure, limit)
      decreases |messages| - i
    {
      var result := CutFrom(messages, i, measure, limit);
      if i >= ProtectFrom(|messages|) || i >= |messages| {
        assert StopsAt(messages, result, i, i, measure, limit);
      } else {
        var next := messages[i := CutAt(messages, i)];
        if measure(next) > limit {
          CutStopsAtFirst(next, i + 1, measure, limit);
          var n: nat :| StopsAt(next, result, i + 1, n, measure, limit);
          StopsEarlier(messages, next, result, i, n, measure, limit);
        } else {
          assert StopsAt(messages, result, i, i + 1, measure, limit);
        }
      }
    }

    lemma StopsEarlier(messages: seq<Message>, next: seq<Message>, result: seq<Message>, i: nat, n: nat,
                       measure: seq<Message> -> int, limit: int)
      requires 1 <= i && i + settings.recentKeep < |messages| && next == messages[i := CutAt(messages, i)]
      requires measure(next) > limit && StopsAt(next, result, i + 1, n, measure, limit)
      ensures StopsAt(messages, result, i, n, measure, limit)
    {
      CutJoins(messages, next, result, i, n);
      forall m, part | i < m < n && CutUpTo(messages, part, i, m) ensures measure(part) > limit {
        CutJoins(messages, next, part, i, m);
        if m == i + 1 {
          assert part == next;
        }
      }
    }

    lemma CutJoins(messages: seq<Message>, next: seq<Message>, result: seq<Message>, i: nat, n: nat)
      requires i < n && i < |messages| && next == messages[i := CutAt(messages, i)]
      ensures CutUpTo(next, result, i + 1, n) <==> CutUpTo(messages, result, i, n)
    {
    }

    lemma SnippedTexts(messages: seq<Message>, retention: Retention)
      ensures OnlyTexts(messages, Snipped(messages, retention), 1, ProtectFrom(|messages|))
    {
    }

    lemma PrunedTexts(messages: seq<Message>)
      ensures OnlyTexts(messages, Pruned(messages), 1, ProtectFrom(|messages|))
    {
    }

    lemma {:induction false} CutTexts(messages: seq<Message>, i: nat, measure: seq<Message> -> int, limit: int)
      requires i >= 1
      ensures OnlyTexts(messages, CutFrom(messages, i, measure, limit), 1, ProtectFrom(|messages|))
      decreases |messages| - i
    {
      if i < ProtectFrom(|messages|) && i < |messages| {
        CutTexts(messages[i := CutAt(messages, i)], i + 1, measure, limit);
      }
    }

    /** What was rewritten before does not matter to the next message. */
    lemma SnipStep(start: seq<Message>, now: seq<Message>, retention: Retention, i: nat)
      requires i < |start| && Old(start, i) && Partway(start, now, Snipped(start, retention), i)
      ensures SnippedAt(now, i, retention) == SnippedAt(start, i, retention)
      ensures Partway(start, now[i := SnippedAt(now, i, retention)], Snipped(start, retention), i + 1)
    {
      SnippedTexts(start, retention);
      PartwayTexts(start, now, Snipped(start, retention), i, 1, ProtectFrom(|start|));
      RetentionIgnoresTexts(start, now, 1, ProtectFrom(|start|), i);
    }

    lemma PruneStep(start: seq<Message>, now: seq<Message>, i: nat)
      requires i < |start| && Old(start, i) && Partway(start, now, Pruned(start), i)
      ensures PrunedAt(now, i) == PrunedAt(start, i)
      ensures Partway(start, now[i := PrunedAt(now, i)], Pruned(start), i + 1)
    {
      PrunedTexts(start);
      PartwayTexts(start, now, Pruned(start), i, 1, ProtectFrom(|start|));
      RetentionIgnoresTexts(start, now, 1, ProtectFrom(|start|), i);
    }

    /** Replaces one text by its beginning and a marker. */
    method Clip(messages: array<Message>, i: nat, keep: nat, marker: string)
      requires i < messages.Length && keep <= |messages[i].content|
      modifies messages
      ensures messages[..] == old(messages[..])[i := Clipped(old(messages[i]), keep, marker)]
      ensures Total(messages[..]) == Total(old(messages[..])) - |old(messages[i].content)| + keep + |marker|
    {
      var m := messages[i];
      var clipped := Clipped(m, keep, marker);
      TotalUpdate(messages[..], i, clipped);
      messages[i] := clipped;
      assert messages[..] == old(messages[..])[i := clipped];
    }

    /** One pass over the old tool results of one retention class. */
    method SnipPass(messages: array<Message>, retention: Retention) returns (snipped: nat, saved: int)
      modifies messages
      ensures messages[..] == Snipped(old(messages[..]), retention)
      ensures snipped == 0 ==> messages[..] == old(messages[..])
      ensures saved == Total(old(messages[..])) - Total(messages[..]) >= snipped
    {
      snipped, saved := 0, 0;
      ghost var start, now := messages[..], messages[..];
      ghost var goal := Snipped(start, retention);
      var protectFrom := ProtectFrom(messages.Length);
      for i := 1 to protectFrom
        invariant now == messages[..]
        invariant Partway(start, now, goal, i)
        invariant snipped == 0 ==> now == start
        invariant saved == Total(start) - Total(now) >= snipped
      {
        SnipStep(start, now, retention, i);
        var n := SnipOne(messages, i, retention);
        if n > 0 {
          snipped := snipped + 1;
          saved := saved + n;
        }
        now := messages[..];
      }
      assert now == goal;
    }

    method SnipOne(messages: array<Message>, i: nat, retention: Retention) returns (n: nat)
      requires i < messages.Length && Old(messages[..], i)
      modifies messages
      ensures messages[..] == old(messages[..])[i := SnippedAt(old(messages[..]), i, retention)]
      ensures n == 0 ==> messages[..] == old(messages[..])
      ensures n == Total(old(messages[..])) - Total(messages[..])
    {
      n := 0;
      var m := messages[i];
      assert messages[..] == messages[..][i := m];
      if m.role != Tool || m.content == "" {
        return;
      }
      if |m.content| <= settings.snippedKeep + 100 {
        return;
      }
      if AlreadyTruncated(m.content) {
        return;
      }
      if ToolRetention(messages[..], i) != retention {
        return;
      }
      n := |m.content| - (settings.snippedKeep + |MARKER_SNIPPED|);
      Clip(messages, i, settings.snippedKeep, MARKER_SNIPPED);
    }

    /** Low-value results first; medium ones only when there was nothing low. */
    method SnipStaleToolResults(messages: array<Message>) returns (stats: Stats)
      modifies messages
      ensures messages[..] == SnippedStale(old(messages[..]))
      ensures stats.snipped == 0 ==> messages[..] == old(messages[..])
      ensures stats.pruned == 0
      ensures stats.saved == Total(old(messages[..])) - Total(messages[..]) >= stats.snipped
    {
      var snipped, saved := SnipPass(messages, Low);
      ghost var low := messages[..];
      if snipped == 0 {
        snipped, saved := SnipPass(messages, Medium);
      } else {
        assert Total(low) < Total(old(messages[..]));
      }
      stats := Stats(snipped, 0, saved);
    }

    function SnippedStale(messages: seq<Message>): seq<Message> {
      var low := Snipped(messages, Low);
      if low != messages then low else Snipped(messages, Medium)
    }

    method PrunePass(messages: array<Message>) returns (pruned: nat, saved: int)
      modifies messages
      ensures messages[..] == Pruned(old(messages[..]))
      ensures pruned == 0 ==> messages[..] == old(messages[..])
      ensures saved == Total(old(messages[..])) - Total(messages[..])
    {
      pruned, saved := 0, 0;
      ghost var start, now := messages[..], messages[..];
      ghost var goal := Pruned(start);
      var protectFrom := ProtectFrom(messages.Length);
      for i := 1 to protectFrom
        invariant now == messages[..]
        invariant Partway(start, now, goal, i)
        invariant pruned == 0 ==> now == start
        invariant saved == Total(start) - Total(now)
      {
        PruneStep(start, now, i);
        var did, n := PruneOne(messages, i);
        if did {
          pruned := pruned + 1;
          saved := saved + n;
        }
        now := messages[..];
      }
      assert now == goal;
    }

    method PruneOne(messages: array<Message>, i: nat) returns (did: bool, n: int)
      requires i < messages.Length && Old(messages[..], i)
      modifies messages
      ensures messages[..] == old(messages[..])[i := PrunedAt(old(messages[..]), i)]
      ensures !did ==> messages[..] == old(messages[..])
      ensures n == Total(old(messages[..])) - Total(messages[..])
    {
      did, n := false, 0;
      var m := messages[i];
      assert messages[..] == messages[..][i := m];
      if m.role != Tool || m.content == "" {
        return;
      }
      if |m.content| <= settings.prunedKeep {
        return;
      }
      if Contains(m.content, MARKER_PRUNED) {
        return;
      }
      if ToolRetention(messages[..], i) == High {
        if |m.content| > settings.snippedKeep && !AlreadyTruncated(m.content) {
          n := |m.content| - (settings.snippedKeep + |MARKER_SNIPPED|);
          Clip(messages, i, settings.snippedKeep, MARKER_SNIPPED);
          did := true;
        }
      } else {
        n := |m.content| - (settings.prunedKeep + |MARKER_PRUNED|);
        Clip(messages, i, settings.prunedKeep, MARKER_PRUNED);
        did := true;
      }
    }

    /** Cuts long assistant texts until the measure is within the limit. The
        saving reported for each cut leaves its marker out of account. */
    method AssistantPass(messages: array<Message>, measure: seq<Message> -> int, limit: int)
      returns (cuts: nat, saved: int)
      modifies messages
      ensures messages[..] == CutFrom(old(messages[..]), 1, measure, limit)
      ensures cuts == 0 ==> messages[..] == old(messages[..])
      ensures saved == Total(old(messages[..])) - Total(messages[..]) + Times(cuts, |MARKER_PRUNED|)
    {
      cuts, saved := 0, 0;
      ghost var start, now := messages[..], messages[..];
      var protectFrom := ProtectFrom(messages.Length);
      var i := 1;
      while i < protectFrom && i < messages.Length
        invariant 1 <= i && now == messages[..]
        invariant CutFrom(now, i, measure, limit) == CutFrom(start, 1, measure, limit)
        invariant cuts == 0 ==> now == start
        invariant saved == Total(start) - Total(now) + Times(cuts, |MARKER_PRUNED|)
      {
        var n := CutAssistant(messages, i);
        now := messages[..];
        if n > 0 {
          saved := saved + n;
          cuts := cuts + 1;
        }
        if measure(messages[..]) <= limit {
          return;
        }
        i := i + 1;
      }
    }

    /** Cuts one long assistant text without calls; `n` is what is reported. */
    method CutAssistant(messages: array<Message>, i: nat) returns (n: nat)
      requires i < messages.Length
      modifies messages
      ensures messages[..] == old(messages[..])[i := CutAt(old(messages[..]), i)]
      ensures n == 0 ==> messages[..] == old(messages[..])
      ensures n > 0 ==> Total(messages[..]) == Total(old(messages[..])) - n + |MARKER_PRUNED|
    {
      var m := messages[i];
      assert messages[..] == messages[..][i := m];
      if m.role == Assistant && m.content != "" && |m.content| > 500 && m.calls == NoCalls {
        n := |m.content| - 200;
        Clip(messages, i, 200, MARKER_PRUNED);
      } else {
        n := 0;
      }
    }

    lemma SnippedStaleTexts(messages: seq<Message>)
      ensures OnlyTexts(messages, SnippedStale(messages), 1, ProtectFrom(|messages|))
    {
      SnippedTexts(messages, Low);
      SnippedTexts(messages, Medium);
    }

    /** In the band below the trigger results of the middle class are cut only when
        there is nothing low to cut. */
    lemma StaleByClass(messages: seq<Message>, k: nat)
      requires k < |messages|
      ensures |SnippedStale(messages)| == |messages|
      ensures (exists i :: 0 <= i < |messages| && Snipped(messages, Low)[i] != messages[i]) ==>
        SnippedStale(messages)[k] == Snipped(messages, Low)[k]
      ensures (forall i :: 0 <= i < |messages| ==> Snipped(messages, Low)[i] == messages[i]) ==>
        SnippedStale(messages)[k] == Snipped(messages, Medium)[k]
    {
    }

    /** Trimming goes on until the measure is within the hard limit or every old
        long text without calls is cut; and it cuts none if the measure was
        within the limit after the results had been dealt with. */
    lemma TrimmedReaches(messages: seq<Message>, measure: seq<Message> -> int, snipAt: int, pruneAt: int, hardAt: int)
      requires measure(messages) > snipAt && messages != []
      ensures var result := Trimmed(messages, measure, snipAt, pruneAt, hardAt);
        var snipped := Snipped(messages, Low);
        var before := if measure(snipped) > pruneAt then Pruned(snipped) else snipped;
        && (measure(before) <= hardAt ==> result == before)
        && (measure(before) > hardAt ==>
              measure(result) <= hardAt || CutUpTo(before, result, 1, ProtectFrom(|messages|)))
    {
      var snipped := Snipped(messages, Low);
      var before := if measure(snipped) > pruneAt then Pruned(snipped) else snipped;
      if measure(before) > hardAt {
        CutStopsAtFirst(before, 1, measure, hardAt);
        var n: nat :| StopsAt(before, CutFrom(before, 1, measure, hardAt), 1, n, measure, hardAt);
      }
    }

    /** Trimming rewrites texts between the first message and the protected tail
        and nothing else. */
    lemma TrimmedTexts(messages: seq<Message>, measure: seq<Message> -> int, snipAt: int, pruneAt: int, hardAt: int)
      ensures OnlyTexts(messages, Trimmed(messages, measure, snipAt, pruneAt, hardAt), 1, ProtectFrom(|messages|))
    {
      var snipped := Snipped(messages, Low);
      SnippedTexts(messages, Low);
      PrunedTexts(snipped);
      CutTexts(snipped, 1, measure, hardAt);
      CutTexts(Pruned(snipped), 1, measure, hardAt);
    }

    /** Cutting assistant texts leaves results alone. */
    lemma {:induction false} CutSparesResults(messages: seq<Message>, i: nat, measure: seq<Message> -> int, limit: int, k: nat)
      requires k < |messages| && messages[k].role == Tool
      ensures CutFrom(messages, i, measure, limit)[k] == messages[k]
      decreases |messages| - i
    {
      if i < ProtectFrom(|messages|) && i < |messages| {
        CutSparesResults(messages[i := CutAt(messages, i)], i + 1, measure, limit, k);
      }
    }

    /** A snipped text is not the text it was snipped from: it carries the
        marker. */
    lemma SnippingShows(m: Message, keep: nat)
      requires keep <= |m.content| && !AlreadyTruncated(m.content)
      ensures Clipped(m, keep, MARKER_SNIPPED) != m
      ensures !Contains(m.content, MARKER_PRUNED)
    {
      var clipped := m.content[..keep] + MARKER_SNIPPED;
      assert MARKER_SNIPPED[1..1 + |SEEN_SNIPPED|] == SEEN_SNIPPED;
      assert clipped[keep + 1..keep + 1 + |SEEN_SNIPPED|] == SEEN_SNIPPED;
      ContainsAt(clipped, SEEN_SNIPPED, keep + 1);
      if Contains(m.content, MARKER_PRUNED) {
        assert MARKER_PRUNED[1..1 + |SEEN_PRUNED|] == SEEN_PRUNED;
        ContainsWithin(m.content, MARKER_PRUNED, SEEN_PRUNED, 1);
      }
    }

    /** What pruning does to a result of the highest class. */
    predicate CutsHigh(m: Message) {
      |m.content| > settings.prunedKeep && |m.content| > settings.snippedKeep && !AlreadyTruncated(m.content)
    }

    lemma PrunedHighIff(messages: seq<Message>, k: nat)
      requires k < |messages| && messages[k].role == Tool && ToolRetention(messages, k) == High
      ensures PrunedAt(messages, k) != messages[k] <==> Old(messages, k) && CutsHigh(messages[k])
    {
      if !AlreadyTruncated(messages[k].content) && |messages[k].content| > settings.snippedKeep {
        SnippingShows(messages[k], settings.snippedKeep);
      }
    }

    lemma SnippedSparesHigh(messages: seq<Message>, retention: Retention, k: nat)
      requires k < |messages| && ToolRetention(messages, k) == High && retention != High
      ensures Snipped(messages, retention)[k] == messages[k]
      ensures ToolRetention(Snipped(messages, retention), k) == High
    {
      SnippedTexts(messages, retention);
      RetentionIgnoresTexts(messages, Snipped(messages, retention), 1, ProtectFrom(|messages|), k);
    }

    /** Results of the highest class are said never to be cut. Snipping indeed
        spares them; but trimming rewrites one exactly when it is outside the
        protected tail, longer than both limits, without a marker, and the
        measure is above the pruning threshold after low results were snipped. */
    lemma HighIsRewrittenIff(messages: seq<Message>, measure: seq<Message> -> int, snipAt: int, pruneAt: int, hardAt: int, k: nat)
      requires k < |messages| && messages[k].role == Tool && ToolRetention(messages, k) == High
      ensures Trimmed(messages, measure, snipAt, pruneAt, hardAt)[k] != messages[k] <==>
        && Old(messages, k) && CutsHigh(messages[k])
        && measure(messages) > snipAt && measure(Snipped(messages, Low)) > pruneAt
    {
      var snipped := Snipped(messages, Low);
      SnippedSparesHigh(messages, Low, k);
      PrunedHighIff(snipped, k);
      CutSparesResults(snipped, 1, measure, hardAt, k);
      PrunedKeepsRole(snipped, k);
      CutSparesResults(Pruned(snipped), 1, measure, hardAt, k);
    }

    lemma PrunedKeepsRole(messages: seq<Message>, k: nat)
      requires k < |messages|
      ensures Pruned(messages)[k] == PrunedAt(messages, k) && Pruned(messages)[k].role == messages[k].role
    {
    }

    /** In the band below the trigger they are safe. */
    lemma HighIsNeverSnipped(messages: seq<Message>, k: nat)
      requires k < |messages| && ToolRetention(messages, k) == High
      ensures |SnippedStale(messages)| == |messages| && SnippedStale(messages)[k] == messages[k]
    {
      SnippedSparesHigh(messages, Low, k);
      SnippedSparesHigh(messages, Medium, k);
    }

    /** Three levels, each entered only while the measure is above its
        threshold. The reported saving is the real one plus one marker for each
        assistant text cut. */
    method TrimContext(messages: array<Message>, measure: seq<Message> -> int, snipAt: int, pruneAt: int, hardAt: int)
      returns (stats: Stats, ghost cuts: nat)
      modifies messages
      ensures messages[..] == Trimmed(old(messages[..]), measure, snipAt, pruneAt, hardAt)
      ensures stats.snipped == 0 && stats.pruned == 0 && cuts == 0 ==> messages[..] == old(messages[..])
      ensures stats.saved == Total(old(messages[..])) - Total(messages[..]) + Times(cuts, |MARKER_PRUNED|)
    {
      stats, cuts := Stats(0, 0, 0), 0;
      if messages.Length == 0 || measure(messages[..]) <= snipAt {
        return;
      }
      var snipped, saved := SnipPass(messages, Low);
      stats := Stats(snipped, 0, saved);
      if measure(messages[..]) > pruneAt {
        var pruned, more := PrunePass(messages);
        stats := Stats(snipped, pruned, stats.saved + more);
      }
      if measure(messages[..]) > hardAt {
        var c, more := AssistantPass(messages, measure, hardAt);
        cuts := c;
        stats := stats.(saved := stats.saved + more);
      }
    }
  }

  // ---------------------------------------------------------------- a change record that is cut

  function Plain(n: nat): (s: string)
    ensures |s| == n
  {
    seq(n, _ => 'x')
  }

  lemma {:induction false} PlainHasNoMarker(n: nat, part: string)
    requires part != "" && part[0] != 'x'
    ensures !Contains(Plain(n), part)
  {
    if n > 0 {
      assert Plain(n)[1..] == Plain(n - 1);
      PlainHasNoMarker(n - 1, part);
    }
  }

  /** A file was written, its record is 201 bytes long, and five more messages
      follow. */
  function WrittenFile(): seq<Message> {
    var filler := Message(User, "", NoCalls, "");
    [filler, AssistantMessage("", [Call("c", "file_write")]), ToolMessage("c", Plain(201)),
     filler, filler, filler, filler, filler]
  }

  /** With the default settings, a measure of bytes and the thresholds of a
      base of 100, the record is cut to 200 bytes and a marker. */
  lemma WrittenFileIsCut(compressor: Compressor)
    requires compressor.settings == NewSettings(0, 0, 0)
    ensures ToolRetention(WrittenFile(), 2) == High
    ensures compressor.Trimmed(WrittenFile(), (m: seq<Message>) => Total(m), 75, 100, 100)[2] != WrittenFile()[2]
  {
    var messages := WrittenFile();
    var measure := (m: seq<Message>) => Total(m);
    WrittenFileIsHigh();
    PlainIsUntouched();
    WrittenFileTotal(messages);
    compressor.SnippedSparesHigh(messages, Low, 2);
    WrittenFileTotal(compressor.Snipped(messages, Low));
    compressor.HighIsRewrittenIff(messages, measure, 75, 100, 100, 2);
  }

  lemma PlainIsUntouched()
    ensures !AlreadyTruncated(Plain(201))
  {
    PlainHasNoMarker(201, SEEN_SNIPPED);
    PlainHasNoMarker(201, SEEN_PRUNED);
    PlainHasNoMarker(201, SEEN_TRUNCATED);
  }

  lemma WrittenFileIsHigh()
    ensures ToolRetention(WrittenFile(), 2) == High
    ensures WrittenFile()[2] == ToolMessage("c", Plain(201))
  {
    var messages := WrittenFile();
    assert messages[1].calls.list == [Call("c", "file_write")];
    assert NameBefore(messages, 2, "c") == "file_write";
  }

  lemma WrittenFileTotal(messages: seq<Message>)
    requires |messages| == 8 && |messages[2].content| == 201
    ensures Total(messages) >= 201
  {
    TotalCounts(messages, 2);
  }

  lemma {:induction false} TotalCounts(messages: seq<Message>, i: nat)
    requires i < |messages|
    ensures Total(messages) >= |messages[i].content|
  {
    if i < |messages| - 1 {
      TotalCounts(messages[..|messages| - 1], i);
    }
  }

  // ---------------------------------------------------------------- the latch

  datatype Latch = Latch(consecutive: nat, stuck: bool, softNoticed: bool, rewriteVersion: nat)

  const Unlatched := Latch(0, false, false, 0)

  /** The band the prompt falls into. */
  datatype Zone = Disabled | Below | Soft | Snip | Trigger

  function Truncate(r: real): int {
    if r >= 0.0 then r.Floor else -((-r).Floor)
  }

  datatype Thresholds = Thresholds(soft: int, snip: int, high: int, force: int)

  /** `ratio` is the configured trigger ratio; a non-positive one means 0.8. */
  function ThresholdsFor(inputBudget: int, ratio: real): Thresholds {
    var base := inputBudget as real * (if ratio <= 0.0 then 0.8 else ratio);
    Thresholds(Truncate(base * 0.625), Truncate(base * 0.75), Truncate(base), Truncate(base * 1.125))
  }

  function ZoneOf(latch: Latch, window: int, prompt: int, t: Thresholds): Zone {
    if window <= 0 || prompt <= 0 then Disabled
    else if prompt >= t.high then Trigger
    else if prompt >= t.soft && prompt < t.snip && !latch.softNoticed then Soft
    else if prompt >= t.snip then Snip
    else Below
  }

  /** The thresholds are 62.5, 75, 100 and 112.5 percent of the base, which is the
      configured part of the input budget or four fifths of it, each rounded
      down. */
  lemma ThresholdsRoundDown(inputBudget: int, ratio: real)
    requires inputBudget >= 0
    ensures var t := ThresholdsFor(inputBudget, ratio);
      var base := if ratio <= 0.0 then inputBudget as real * 0.8 else inputBudget as real * ratio;
      && t.soft as real <= base * 0.625 < (t.soft + 1) as real
      && t.snip as real <= base * 0.75 < (t.snip + 1) as real
      && t.high as real <= base < (t.high + 1) as real
      && t.force as real <= base * 1.125 < (t.force + 1) as real
      && t.soft <= t.snip <= t.high <= t.force
  {
    assert inputBudget as real * (if ratio <= 0.0 then 0.8 else ratio) >= 0.0;
  }

  lemma DefaultThresholds()
    ensures ThresholdsFor(1000, 0.0) == Thresholds(500, 600, 800, 900)
  {
  }

  /** The band of a prompt, by the numbers: the soft one is entered once. */
  lemma ZoneByPrompt(latch: Latch, window: int, prompt: int, t: Thresholds)
    ensures var zone := ZoneOf(latch, window, prompt, t);
      var live := window > 0 && prompt > 0;
      && (zone == Disabled <==> !live)
      && (zone == Trigger <==> live && t.high <= prompt)
      && (zone == Soft <==> live && t.soft <= prompt < t.snip && prompt < t.high && !latch.softNoticed)
      && (zone == Snip <==> live && t.snip <= prompt < t.high)
      && (t.soft <= t.snip <= t.high ==>
            (zone == Below <==> live && prompt < t.snip && (prompt < t.soft || latch.softNoticed)))
  {
  }

  /** The latch after one decision: `mechanical` says some text was clipped and
      counted, `enough` that this brought the measure below the trigger. */
  function Next(latch: Latch, zone: Zone, mechanical: bool, enough: bool): Latch {
    match zone
    case Disabled => latch
    case Below => latch.(consecutive := 0, stuck := false)
    case Soft => latch.(softNoticed := true)
    case Snip => if mechanical then latch.(rewriteVersion := latch.rewriteVersion + 1) else latch
    case Trigger =>
      if latch.stuck then latch
      else
        var bumped := if mechanical then latch.(rewriteVersion := latch.rewriteVersion + 1) else latch;
        if mechanical && enough then bumped
        else bumped.(rewriteVersion := bumped.rewriteVersion + 1, consecutive := latch.consecutive + 1,
                     stuck := latch.consecutive + 1 >= 2)
  }

  /** The version counts rewritings and requests, one each. */
  lemma VersionCounts(latch: Latch, zone: Zone, mechanical: bool, enough: bool)
    ensures var rewritten := mechanical && (zone == Snip || (zone == Trigger && !latch.stuck));
      var asked := zone == Trigger && !latch.stuck && !(mechanical && enough);
      && Next(latch, zone, mechanical, enough).rewriteVersion
           == latch.rewriteVersion + (if rewritten then 1 else 0) + (if asked then 1 else 0)
      && AsksForSummary(latch, zone, mechanical, enough) == asked
  {
  }

  /** One decision as the latch sees it. */
  datatype Round = Round(zone: Zone, mechanical: bool, enough: bool)

  predicate AsksForSummary(latch: Latch, zone: Zone, mechanical: bool, enough: bool) {
    zone == Trigger && !latch.stuck && !(mechanical && enough)
  }

  /** The counter never passes two, and equals two exactly when stuck. */
  ghost predicate LatchOk(latch: Latch) {
    latch.consecutive <= 2 && (latch.stuck <==> latch.consecutive == 2)
  }

  datatype Decision = Decision(zone: Zone, stats: Stats, needSummary: bool)

  /** The decision and the latch after it are those of one step of the latch. */
  ghost predicate Decided(before: Latch, after: Latch, d: Decision, r: Round) {
    && LatchOk(after)
    && after == Next(before, r.zone, r.mechanical, r.enough)
    && d.needSummary == AsksForSummary(before, r.zone, r.mechanical, r.enough)
    && (r.mechanical <==> d.stats.snipped > 0 || d.stats.pruned > 0)
  }

  class ContextManager {
    const compressor: Compressor
    const ratio: real
    const measure: seq<Message> -> int
    var latch: Latch

    constructor (compressor: Compressor, ratio: real, measure: seq<Message> -> int)
      ensures latch == Unlatched
      ensures this.compressor == compressor && this.ratio == ratio && this.measure == measure
    {
      this.compressor, this.ratio, this.measure := compressor, ratio, measure;
      latch := Unlatched;
    }

    method Reset()
      modifies this
      ensures latch == Unlatched
    {
      latch := Unlatched;
    }

    /** The thresholds of trimming have their own base, with a fixed ratio. */
    function TrimBase(inputBudget: int): int {
      if inputBudget <= 0 then 0 else Truncate(inputBudget as real * 0.8)
    }

    ghost function TrimmedFor(messages: seq<Message>, inputBudget: int): seq<Message> {
      var base := TrimBase(inputBudget);
      compressor.Trimmed(messages, measure, Truncate(base as real * 0.75), base, base)
    }

    /** Trimming has four fifths of the input budget, rounded down, as its second
        and third threshold, and three quarters of that as its first. */
    lemma TrimThresholds(messages: seq<Message>, inputBudget: int)
      ensures var base := TrimBase(inputBudget);
        && (inputBudget <= 0 ==> base == 0)
        && (inputBudget > 0 ==> base as real <= inputBudget as real * 0.8 < (base + 1) as real)
      ensures TrimmedFor(messages, 1000) == compressor.Trimmed(messages, measure, 600, 800, 800)
    {
      assert 1000 as real * 0.8 == 800.0 && 800 as real * 0.75 == 600.0;
      if inputBudget > 0 {
        assert inputBudget as real * 0.8 >= 0.0;
      }
    }

    /** What a decision makes of the messages. */
    ghost function Rewritten(messages: seq<Message>, zone: Zone, stuck: bool, inputBudget: int): seq<Message> {
      match zone
      case Snip => compressor.SnippedStale(messages)
      case Trigger => if stuck then messages else TrimmedFor(messages, inputBudget)
      case _ => messages
    }

    /** Any text that changes is one of an old message, comes with a higher
        rewrite version, and leaves the pairing verdict alone. */
    method Decide(prompt: int, window: int, inputBudget: int, messages: array<Message>)
      returns (d: Decision, ghost r: Round)
      requires LatchOk(latch)
      modifies this, messages
      ensures d.zone == r.zone == ZoneOf(old(latch), window, prompt, ThresholdsFor(inputBudget, ratio))
      ensures Decided(old(latch), latch, d, r)
      ensures d.zone == Trigger && !old(latch.stuck) ==>
        (r.enough <==> measure(messages[..]) < ThresholdsFor(inputBudget, ratio).high)
      ensures messages[..] == Rewritten(old(messages[..]), d.zone, old(latch.stuck), inputBudget)
      ensures OnlyTexts(old(messages[..]), messages[..], 1, compressor.ProtectFrom(messages.Length))
      ensures Paired(messages[..]) == Paired(old(messages[..]))
      ensures messages[..] != old(messages[..]) ==> latch.rewriteVersion > old(latch.rewriteVersion)
      ensures d.zone == Trigger && old(latch.stuck) ==> latch == old(latch) && messages[..] == old(messages[..])
      ensures d.zone in {Disabled, Below, Soft} ==> messages[..] == old(messages[..])
    {
      var t := ThresholdsFor(inputBudget, ratio);
      d := Decision(ZoneOf(latch, window, prompt, t), Stats(0, 0, 0), false);
      r := Round(d.zone, false, false);
      match d.zone {
        case Disabled =>
        case Soft =>
          latch := latch.(softNoticed := true);
        case Snip =>
          d, r := AtSnip(d, messages);
        case Below =>
          latch := latch.(consecutive := 0, stuck := false);
        case Trigger =>
          if !latch.stuck {
            d, r := AtTrigger(d, inputBudget, t.high, messages);
          }
      }
    }

    method AtSnip(before: Decision, messages: array<Message>) returns (d: Decision, ghost r: Round)
      requires LatchOk(latch) && before.zone == Snip && !before.needSummary
      modifies this, messages
      ensures d.zone == r.zone == Snip && Decided(old(latch), latch, d, r)
      ensures messages[..] == compressor.SnippedStale(old(messages[..]))
      ensures OnlyTexts(old(messages[..]), messages[..], 1, compressor.ProtectFrom(messages.Length))
      ensures Paired(messages[..]) == Paired(old(messages[..]))
      ensures messages[..] != old(messages[..]) ==> latch.rewriteVersion > old(latch.rewriteVersion)
    {
      ghost var texts := messages[..];
      var stats := compressor.SnipStaleToolResults(messages);
      compressor.SnippedStaleTexts(texts);
      PairingIgnoresContent(texts, messages[..]);
      d := before.(stats := stats);
      r := Round(Snip, stats.snipped > 0, false);
      if stats.snipped > 0 {
        latch := latch.(rewriteVersion := latch.rewriteVersion + 1);
      }
    }

    /** Trim; ask for a summary unless that was enough. */
    method AtTrigger(before: Decision, inputBudget: int, high: int, messages: array<Message>)
      returns (d: Decision, ghost r: Round)
      requires LatchOk(latch) && !latch.stuck && before.zone == Trigger && !before.needSummary
      modifies this, messages
      ensures d.zone == r.zone == Trigger && Decided(old(latch), latch, d, r)
      ensures r.enough <==> measure(messages[..]) < high
      ensures messages[..] == TrimmedFor(old(messages[..]), inputBudget)
      ensures OnlyTexts(old(messages[..]), messages[..], 1, compressor.ProtectFrom(messages.Length))
      ensures Paired(messages[..]) == Paired(old(messages[..]))
      ensures messages[..] != old(messages[..]) ==> latch.rewriteVersion > old(latch.rewriteVersion)
    {
      ghost var texts := messages[..];
      var base := TrimBase(inputBudget);
      var stats, _ := compressor.TrimContext(messages, measure, Truncate(base as real * 0.75), base, base);
      compressor.TrimmedTexts(texts, measure, Truncate(base as real * 0.75), base, base);
      PairingIgnoresContent(texts, messages[..]);
      d := before.(stats := stats);
      var mechanical := stats.snipped > 0 || stats.pruned > 0;
      r := Round(Trigger, mechanical, measure(messages[..]) < high);
      if mechanical {
        latch := latch.(rewriteVersion := latch.rewriteVersion + 1);
        if measure(messages[..]) < high {
          return;
        }
      }
      latch := latch.(rewriteVersion := latch.rewriteVersion + 1, consecutive := latch.consecutive + 1);
      if latch.consecutive >= 2 {
        latch := latch.(stuck := true);
      }
      d := d.(needSummary := true);
    }
  }

  // ---------------------------------------------------------------- over all call sequences

  function LatchAfter(latch: Latch, rounds: seq<Round>): Latch
    decreases |rounds|
  {
    if rounds == [] then latch
    else LatchAfter(Next(latch, rounds[0].zone, rounds[0].mechanical, rounds[0].enough), rounds[1..])
  }

  function Summaries(latch: Latch, rounds: seq<Round>): nat
    decreases |rounds|
  {
    if rounds == [] then 0
    else
      var r := rounds[0];
      (if AsksForSummary(latch, r.zone, r.mechanical, r.enough) then 1 else 0)
      + Summaries(Next(latch, r.zone, r.mechanical, r.enough), rounds[1..])
  }

  /** Whatever the calls, the latch stays within bounds and versions only
      grow. */
  lemma {:induction false} LatchAlwaysOk(latch: Latch, rounds: seq<Round>)
    requires LatchOk(latch)
    ensures LatchOk(LatchAfter(latch, rounds))
    ensures LatchAfter(latch, rounds).rewriteVersion >= latch.rewriteVersion + Summaries(latch, rounds)
    decreases |rounds|
  {
    if rounds != [] {
      var r := rounds[0];
      LatchAlwaysOk(Next(latch, r.zone, r.mechanical, r.enough), rounds[1..]);
    }
  }

  /** Between two falls below the trigger's lower bands the manager asks for a
      summary at most twice in all: each request uses up one of the two counts,
      and nothing else moves the counter. */
  lemma {:induction false} AtMostTwoSummaries(latch: Latch, rounds: seq<Round>)
    requires LatchOk(latch)
    requires forall r :: r in rounds ==> r.zone != Below
    ensures Summaries(latch, rounds) == LatchAfter(latch, rounds).consecutive - latch.consecutive
    ensures Summaries(latch, rounds) <= 2 - latch.consecutive
    decreases |rounds|
  {
    LatchAlwaysOk(latch, rounds);
    if rounds != [] {
      var r := rounds[0];
      assert r in rounds;
      assert LatchOk(Next(latch, r.zone, r.mechanical, r.enough));
      AtMostTwoSummaries(Next(latch, r.zone, r.mechanical, r.enough), rounds[1..]);
    }
  }

  /** A soft notice is given once: after it no prompt falls into the soft band
      again. */
  lemma {:induction false} SoftNoticeOnce(latch: Latch, rounds: seq<Round>, window: int, prompt: int, t: Thresholds)
    requires latch.softNoticed || exists r <- rounds :: r.zone == Soft
    ensures ZoneOf(LatchAfter(latch, rounds), window, prompt, t) != Soft
    decreases |rounds|
  {
    if rounds != [] {
      var r := rounds[0];
      assert rounds == [r] + rounds[1..];
      SoftNoticeOnce(Next(latch, r.zone, r.mechanical, r.enough), rounds[1..], window, prompt, t);
    }
  }

  /** Of prompts at the trigger that trimming does not bring down, the first ones
      are answered by a request, up to two in all. */
  lemma {:induction false} TriggersCounted(latch: Latch, rounds: seq<Round>)
    requires LatchOk(latch)
    requires forall r <- rounds :: r.zone == Trigger && !(r.mechanical && r.enough)
    ensures Summaries(latch, rounds) == if |rounds| + latch.consecutive <= 2 then |rounds| else 2 - latch.consecutive
    decreases |rounds|
  {
    if rounds != [] {
      var r := rounds[0];
      assert r in rounds;
      TriggersCounted(Next(latch, r.zone, r.mechanical, r.enough), rounds[1..]);
    }
  }

  /** A prompt below the bands gives the two requests back, whatever came
      before. */
  lemma BelowReleases(latch: Latch, rounds: seq<Round>)
    requires forall r <- rounds :: r.zone == Trigger && !(r.mechanical && r.enough)
    ensures Summaries(latch, [Round(Below, false, false)] + rounds) == if |rounds| <= 2 then |rounds| else 2
  {
    var all := [Round(Below, false, false)] + rounds;
    assert all[1..] == rounds;
    TriggersCounted(Next(latch, Below, false, false), rounds);
  }

  /** Trimming that was enough asks for nothing and uses up nothing. */
  lemma EnoughIsFree(latch: Latch)
    requires !latch.stuck
    ensures Summaries(latch, [Round(Trigger, true, true)]) == 0
    ensures LatchAfter(latch, [Round(Trigger, true, true)]).consecutive == latch.consecutive
  {
  }

  /** Once stuck, only a prompt below the bands, with the soft notice already
      given or not due, unlatches it. */
  lemma {:induction false} StuckUntilBelow(latch: Latch, rounds: seq<Round>)
    requires LatchOk(latch) && latch.stuck
    requires forall r :: r in rounds ==> r.zone != Below
    ensures LatchAfter(latch, rounds).stuck
    ensures Summaries(latch, rounds) == 0
    decreases |rounds|
  {
    AtMostTwoSummaries(latch, rounds);
    LatchAlwaysOk(latch, rounds);
  }
}
