/** Joining a run's durable history with its live events: the stream a client
    gets from a sequence number on. Events are represented by their numbers;
    0 is an event without a durable position. */
module StreamJoin {

  // ---------------------------------------------------------------- the loop

  datatype Cursor = Cursor(delivered: seq<nat>, last: nat)

  /** A numbered event that is not above the cursor was delivered before. */
  function Take(c: Cursor, number: nat): Cursor {
    if !Due(c, number) then c
    else Cursor(c.delivered + [number], if number != 0 then number else c.last)
  }

  function TakeAll(c: Cursor, numbers: seq<nat>): Cursor {
    if numbers == [] then c
    else Take(TakeAll(c, numbers[..|numbers| - 1]), numbers[|numbers| - 1])
  }

  predicate Due(c: Cursor, number: nat) {
    number == 0 || number > c.last
  }

  /** An event on the channel: its number, and whether its state is terminal. */
  datatype Item = Item(number: nat, ends: bool)

  function Numbers(items: seq<Item>): (numbers: seq<nat>)
    ensures |numbers| == |items|
    ensures forall i :: 0 <= i < |items| ==> numbers[i] == items[i].number
  {
    seq(|items|, i requires 0 <= i < |items| => items[i].number)
  }

  predicate Closes(c: Cursor, x: Item) {
    Due(c, x.number) && x.ends
  }

  /** How many live events are looked at: delivering one whose state is
      terminal is the last thing the stream does. */
  function Consumed(c: Cursor, live: seq<Item>): (n: nat)
    ensures n <= |live|
    decreases |live|
  {
    if live == [] then 0
    else if Closes(c, live[0]) then 1
    else 1 + Consumed(Take(c, live[0].number), live[1..])
  }

  /** History first; a run that was already over has no live part. */
  function Stream(history: seq<nat>, live: seq<Item>, afterSeq: nat, over: bool): Cursor {
    var joined := TakeAll(Cursor([], afterSeq), history);
    if over then joined else TakeAll(joined, Numbers(live[..Consumed(joined, live)]))
  }

  /** The client may leave after any number of deliveries. */
  method StreamRun(history: seq<nat>, live: seq<Item>, afterSeq: nat, over: bool, patience: nat)
    returns (delivered: seq<nat>)
    requires 0 !in history
    ensures var whole := Stream(history, live, afterSeq, over).delivered;
      delivered == if |whole| <= patience then whole else whole[..patience]
  {
    ghost var start := Cursor([], afterSeq);
    var lastSeq, stopped;
    delivered, lastSeq, stopped := DeliverHistory(history, afterSeq, patience);
    ghost var joined := TakeAll(start, history);
    if stopped {
      GrowsAll(joined, Numbers(live[..Consumed(joined, live)]));
      return;
    }
    if over {
      return;
    }
    delivered := DeliverLive(live, delivered, lastSeq, patience);
  }

  method DeliverHistory(history: seq<nat>, afterSeq: nat, patience: nat)
    returns (delivered: seq<nat>, lastSeq: nat, stopped: bool)
    requires 0 !in history
    ensures var whole := TakeAll(Cursor([], afterSeq), history);
      if stopped then |whole.delivered| > patience && delivered == whole.delivered[..patience]
      else Cursor(delivered, lastSeq) == whole && |delivered| <= patience
  {
    delivered, lastSeq := [], afterSeq;
    ghost var start := Cursor([], afterSeq);
    for i := 0 to |history|
      invariant Cursor(delivered, lastSeq) == TakeAll(start, history[..i])
      invariant |delivered| <= patience
    {
      assert history[..i + 1][..i] == history[..i];
      assert history[i] in history;
      if history[i] > lastSeq {
        if |delivered| == patience {
          assert history == history[..i] + history[i..];
          TakeSplit(start, history[..i], history[i..]);
          Crossing(TakeAll(start, history[..i]), history[i..]);
          return delivered, lastSeq, true;
        }
        delivered, lastSeq := delivered + [history[i]], history[i];
      }
    }
    assert history[..|history|] == history;
    stopped := false;
  }

  method DeliverLive(live: seq<Item>, before: seq<nat>, joinedAt: nat, patience: nat) returns (delivered: seq<nat>)
    requires |before| <= patience
    ensures var joined := Cursor(before, joinedAt);
      var whole := TakeAll(joined, Numbers(live[..Consumed(joined, live)])).delivered;
      delivered == if |whole| <= patience then whole else whole[..patience]
  {
    var lastSeq := joinedAt;
    delivered := before;
    ghost var joined := Cursor(before, joinedAt);
    ghost var stop := Consumed(joined, live);
    for i := 0 to |live|
      invariant Cursor(delivered, lastSeq) == TakeAll(joined, Numbers(live[..i]))
      invariant |delivered| <= patience
      invariant stop == i + Consumed(Cursor(delivered, lastSeq), live[i..])
    {
      var ev := live[i];
      NumbersSnoc(live, i);
      assert live[i..][1..] == live[i + 1..];
      if ev.number != 0 && ev.number <= lastSeq {
        continue;
      }
      if |delivered| == patience {
        MoreIsDue(joined, live, i, stop);
        return;
      }
      if ev.number != 0 {
        lastSeq := ev.number;
      }
      delivered := delivered + [ev.number];
      if ev.ends {
        return;
      }
    }
    assert live[..|live|] == live;
  }

  lemma MoreIsDue(c: Cursor, live: seq<Item>, i: nat, n: nat)
    requires i < n <= |live| && Due(TakeAll(c, Numbers(live[..i])), live[i].number)
    ensures var before, whole := TakeAll(c, Numbers(live[..i])).delivered, TakeAll(c, Numbers(live[..n])).delivered;
      before <= whole && |before| < |whole|
  {
    NumbersSplit(live, i, n);
    TakeSplit(c, Numbers(live[..i]), Numbers(live[i..n]));
    Crossing(TakeAll(c, Numbers(live[..i])), Numbers(live[i..n]));
  }

  lemma NumbersSnoc(items: seq<Item>, i: nat)
    requires i < |items|
    ensures Numbers(items[..i + 1]) == Numbers(items[..i]) + [items[i].number]
    ensures Numbers(items[..i + 1])[..i] == Numbers(items[..i])
  {
  }

  lemma NumbersSplit(items: seq<Item>, i: nat, n: nat)
    requires i <= n <= |items|
    ensures Numbers(items[..n]) == Numbers(items[..i]) + Numbers(items[i..n])
  {
  }

  lemma {:induction false} TakeSplit(c: Cursor, a: seq<nat>, b: seq<nat>)
    ensures TakeAll(c, a + b) == TakeAll(TakeAll(c, a), b)
  {
    if b == [] {
      assert a + b == a;
    } else {
      assert (a + b)[..|a + b| - 1] == a + b[..|b| - 1];
      TakeSplit(c, a, b[..|b| - 1]);
    }
  }

  lemma {:induction false} GrowsAll(c: Cursor, numbers: seq<nat>)
    ensures c.delivered <= TakeAll(c, numbers).delivered && c.last <= TakeAll(c, numbers).last
  {
    if numbers != [] {
      GrowsAll(c, numbers[..|numbers| - 1]);
    }
  }

  /** An event that is due makes the delivery strictly longer. */
  lemma Crossing(c: Cursor, numbers: seq<nat>)
    requires numbers != [] && Due(c, numbers[0])
    ensures c.delivered <= TakeAll(c, numbers).delivered && |c.delivered| < |TakeAll(c, numbers).delivered|
  {
    assert numbers == [numbers[0]] + numbers[1..];
    TakeSplit(c, [numbers[0]], numbers[1..]);
    assert [numbers[0]][..0] == [];
    assert TakeAll(c, [numbers[0]]) == Take(c, numbers[0]);
    GrowsAll(Take(c, numbers[0]), numbers[1..]);
  }

  // ---------------------------------------------------------------- order, unconditionally

  /** The numbered elements rise strictly, start above `low` and end at or
      below `high`. */
  ghost predicate Rising(numbers: seq<nat>, low: nat, high: nat) {
    && low <= high
    && (forall i :: 0 <= i < |numbers| && numbers[i] != 0 ==> low < numbers[i] <= high)
    && (forall i, j :: 0 <= i < j < |numbers| && numbers[i] != 0 && numbers[j] != 0 ==> numbers[i] < numbers[j])
  }

  /** Whatever the history and the channel hold, numbers are delivered in
      strictly increasing order and above where the client asked. */
  lemma {:induction false} DeliveryRises(c: Cursor, low: nat, numbers: seq<nat>)
    requires Rising(c.delivered, low, c.last)
    ensures Rising(TakeAll(c, numbers).delivered, low, TakeAll(c, numbers).last)
  {
    if numbers != [] {
      DeliveryRises(c, low, numbers[..|numbers| - 1]);
    }
  }

  /** Every number above the cursor's start that is delivered is the first of its
      size or larger to come: it was not overtaken. */
  lemma {:induction false} DeliveredInTime(c: Cursor, numbers: seq<nat>, n: nat)
    requires n > c.last && n !in c.delivered
    ensures n in TakeAll(c, numbers).delivered <==> InTime(numbers, n)
    ensures TakeAll(c, numbers).last >= n <==> exists j :: 0 <= j < |numbers| && numbers[j] >= n
  {
    if numbers != [] {
      var k := |numbers| - 1;
      var init := numbers[..k];
      DeliveredInTime(c, init, n);
      InTimeSnoc(init, numbers[k], n);
      assert numbers == init + [numbers[k]];
    }
  }

  ghost predicate InTime(numbers: seq<nat>, n: nat) {
    exists j :: 0 <= j < |numbers| && numbers[j] == n && forall i :: 0 <= i < j ==> numbers[i] < n
  }

  lemma InTimeSnoc(init: seq<nat>, x: nat, n: nat)
    ensures InTime(init + [x], n) <==> InTime(init, n) || (x == n && forall i :: 0 <= i < |init| ==> init[i] < n)
  {
    var all := init + [x];
    if InTime(all, n) {
      var j :| 0 <= j < |all| && all[j] == n && forall i :: 0 <= i < j ==> all[i] < n;
      assert forall i :: 0 <= i < |init| ==> all[i] == init[i];
    }
    if InTime(init, n) {
      var j :| 0 <= j < |init| && init[j] == n && forall i :: 0 <= i < j ==> init[i] < n;
      assert all[j] == n && forall i :: 0 <= i < j ==> all[i] == init[i];
    }
    if x == n && forall i :: 0 <= i < |init| ==> init[i] < n {
      assert all[|init|] == n && forall i :: 0 <= i < |init| ==> all[i] == init[i];
    }
  }

  // ---------------------------------------------------------------- the system around it

  /** `Ended` by the terminal check before the live part, or by delivering a
      terminal event. */
  datatype Mode = Unsubscribed | Subscribed | ReadingHistory(next: nat) | Live | Ended(atCheck: bool)

  /** `appended` events are in the log; `final` is the number of the terminal
      one, 0 while there is none, and `over` says that the run's record shows it;
      `announced` that a terminal event was given to the bus without being
      appended first.
      `published` are the numbers of the events given to the bus so far,
      `unnumbered` those given without their number, and `early` those given
      before the subscription. `covered` is how far the history read reached.
      `offered` is all the channel was given, of which the stream has taken the
      first `taken`. */
  datatype World = World(
    appended: nat,
    final: nat,
    over: bool,
    announced: bool,
    published: set<nat>,
    unnumbered: set<nat>,
    early: set<nat>,
    mode: Mode,
    covered: nat,
    offered: seq<Item>,
    taken: nat,
    cut: bool,
    cursor: Cursor)

  datatype Step =
    | Append(ends: bool)
    | Finish
    | Publish(n: nat, numbered: bool)
    | Announce(ends: bool)
    | Subscribe
    | ReadHistory(ok: bool)
    | DeliverOne
    | StartLive(unreadable: bool)
    | Receive

  function Start(afterSeq: nat): World {
    World(0, 0, false, false, {}, {}, {}, Unsubscribed, 0, [], 0, false, Cursor([], afterSeq))
  }

  predicate Listening(w: World) {
    !w.mode.Unsubscribed? && !w.mode.Ended?
  }

  /** The bus's side of one event: a full buffer disconnects the subscriber. */
  function Offer(w: World, x: Item, capacity: nat): World {
    if !Listening(w) || w.cut then w
    else if |w.offered| - w.taken < capacity then w.(offered := w.offered + [x])
    else w.(cut := true)
  }

  /** Appending and publishing are separate steps, and the goroutines of one run
      may publish in another order than they appended in. What is announced has
      not been appended: a merged frame, or the failure that recovery publishes
      before it logs it. */
  function Apply(w: World, s: Step, capacity: nat): World {
    match s
    case Append(ends) =>
      w.(appended := w.appended + 1, final := if ends && w.final == 0 then w.appended + 1 else w.final)
    case Finish => w.(over := w.over || w.final != 0)
    case Publish(n, numbered) =>
      if n == 0 || n > w.appended || n in w.published then w
      else
        var w' := w.(published := w.published + {n}, unnumbered := if numbered then w.unnumbered else w.unnumbered + {n});
        Offer(w', Item(if numbered then n else 0, n == w.final), capacity)
    case Announce(ends) => Offer(w.(announced := w.announced || ends), Item(0, ends), capacity)
    case Subscribe =>
      if !w.mode.Unsubscribed? then w else w.(mode := Subscribed, early := w.published)
    case ReadHistory(ok) =>
      if !w.mode.Subscribed? then w
      else w.(mode := ReadingHistory(w.cursor.last + 1), covered := if ok then w.appended else 0)
    case DeliverOne =>
      if !w.mode.ReadingHistory? || w.mode.next > w.covered then w
      else w.(cursor := Take(w.cursor, w.mode.next), mode := ReadingHistory(w.mode.next + 1))
    case StartLive(unreadable) =>
      if !w.mode.ReadingHistory? || w.mode.next <= w.covered then w
      else w.(mode := if w.over || unreadable then Ended(true) else Live)
    case Receive =>
      if !w.mode.Live? || w.taken >= |w.offered| then w
      else
        var x := w.offered[w.taken];
        w.(cursor := Take(w.cursor, x.number), taken := w.taken + 1,
           mode := if Closes(w.cursor, x) then Ended(false) else Live)
  }

  function After(afterSeq: nat, capacity: nat, steps: seq<Step>): World {
    if steps == [] then Start(afterSeq)
    else Apply(After(afterSeq, capacity, steps[..|steps| - 1]), steps[|steps| - 1], capacity)
  }

  // ---------------------------------------------------------------- invariant

  ghost predicate Has(items: seq<Item>, n: nat) {
    exists i :: 0 <= i < |items| && items[i].number == n
  }

  ghost predicate LogOk(w: World) {
    && w.final <= w.appended && (w.over ==> w.final != 0)
    && (forall k <- w.published :: 0 < k <= w.appended)
    && w.unnumbered <= w.published && w.early <= w.published
  }

  /** The channel was given each numbered event that was published since the
      subscription, once, unless the reader was cut off before. */
  ghost predicate ChannelOk(w: World) {
    && w.taken <= |w.offered|
    && (w.mode.Unsubscribed? ==> w.offered == [] && w.early == {} && !w.cut)
    && (forall i :: 0 <= i < |w.offered| && w.offered[i].number != 0 ==>
          w.offered[i].number in w.published - w.unnumbered - w.early)
    && (Listening(w) && !w.cut ==> forall k <- w.published - w.unnumbered - w.early :: Has(w.offered, k))
    && (forall i :: 0 <= i < |w.offered| && w.offered[i].ends ==>
          || (w.final != 0 && w.offered[i].number == w.final)
          || (w.offered[i].number == 0 && (w.announced || (w.final != 0 && w.final in w.unnumbered))))
  }

  /** The numbers above `lo` up to `hi`. */
  function Span(lo: nat, hi: nat): (s: seq<nat>)
    ensures forall n :: n in s <==> lo < n <= hi
    decreases hi
  {
    if hi <= lo then [] else Span(lo, hi - 1) + [hi]
  }

  lemma {:induction false} TakeSpan(lo: nat, hi: nat)
    ensures TakeAll(Cursor([], lo), Span(lo, hi)) == Joined(lo, hi)
    decreases hi
  {
    if hi > lo {
      TakeSpan(lo, hi - 1);
      TakeAllSnoc(Cursor([], lo), Span(lo, hi - 1), hi);
    }
  }

  /** The cursor after the history. */
  function Joined(afterSeq: nat, covered: nat): Cursor {
    Cursor(Span(afterSeq, covered), if covered <= afterSeq then afterSeq else covered)
  }

  /** No item among these ended the stream. */
  ghost predicate Open(c: Cursor, items: seq<Item>)
    decreases |items|
  {
    items != [] ==> !Closes(c, items[0]) && Open(Take(c, items[0].number), items[1..])
  }

  lemma {:induction false} OpenSnoc(c: Cursor, items: seq<Item>, x: Item)
    requires Open(c, items)
    ensures Closes(TakeAll(c, Numbers(items)), x) ==> Consumed(c, items + [x]) == |items| + 1
    ensures !Closes(TakeAll(c, Numbers(items)), x) ==> Open(c, items + [x])
    ensures Consumed(c, items) == |items|
    decreases |items|
  {
    if items != [] {
      var rest := items[1..];
      assert (items + [x])[1..] == rest + [x];
      OpenSnoc(Take(c, items[0].number), rest, x);
      assert Numbers(items) == [items[0].number] + Numbers(rest);
      TakeSplit(c, [items[0].number], Numbers(rest));
      assert TakeAll(c, [items[0].number]) == Take(c, items[0].number) by {
        assert [items[0].number][..0] == [];
      }
    } else {
      assert [x][1..] == [];
    }
  }

  ghost predicate CursorOk(w: World, afterSeq: nat) {
    && w.covered <= w.appended
    && match w.mode
       case Unsubscribed => w.cursor == Cursor([], afterSeq) && w.covered == 0 && w.taken == 0
       case Subscribed => w.cursor == Cursor([], afterSeq) && w.covered == 0 && w.taken == 0
       case ReadingHistory(next) =>
         w.taken == 0 && afterSeq < next && w.cursor == Joined(afterSeq, next - 1) &&
         (next - 1 <= w.covered || next == afterSeq + 1)
       case Live => LiveOk(w, afterSeq) && Open(Joined(afterSeq, w.covered), w.offered[..w.taken])
       case Ended(atCheck) =>
         LiveOk(w, afterSeq) &&
         if atCheck then w.taken == 0 else ClosedOk(w, afterSeq)
  }

  ghost predicate LiveOk(w: World, afterSeq: nat) {
    && w.taken <= |w.offered|
    && w.cursor == TakeAll(Joined(afterSeq, w.covered), Numbers(w.offered[..w.taken]))
  }

  ghost predicate ClosedOk(w: World, afterSeq: nat) {
    && 0 < w.taken <= |w.offered|
    && w.offered[w.taken - 1].ends
    && w.cursor.delivered != [] && w.cursor.delivered[|w.cursor.delivered| - 1] == w.offered[w.taken - 1].number
    && Consumed(Joined(afterSeq, w.covered), w.offered[..w.taken]) == w.taken
  }

  ghost predicate Inv(w: World, afterSeq: nat) {
    LogOk(w) && ChannelOk(w) && CursorOk(w, afterSeq)
  }

  lemma OfferKeepsCursor(w: World, afterSeq: nat, x: Item, capacity: nat)
    requires CursorOk(w, afterSeq) && w.taken <= |w.offered|
    ensures CursorOk(Offer(w, x, capacity), afterSeq)
  {
    var w' := Offer(w, x, capacity);
    assert w'.offered[..w.taken] == w.offered[..w.taken];
  }

  lemma AnnounceKeepsChannel(w: World, ends: bool, capacity: nat)
    requires ChannelOk(w)
    ensures ChannelOk(Apply(w, Announce(ends), capacity))
  {
    var w' := Apply(w, Announce(ends), capacity);
    forall k | Has(w.offered, k) ensures Has(w'.offered, k) {
      var i :| 0 <= i < |w.offered| && w.offered[i].number == k;
      assert w'.offered[i].number == k;
    }
  }

  lemma PublishKeepsChannel(w: World, n: nat, numbered: bool, capacity: nat)
    requires LogOk(w) && ChannelOk(w)
    ensures ChannelOk(Apply(w, Publish(n, numbered), capacity))
  {
    var w' := Apply(w, Publish(n, numbered), capacity);
    if w' != w && Listening(w') && !w'.cut {
      var x := Item(if numbered then n else 0, n == w.final);
      assert w'.offered == w.offered + [x];
      forall k <- w'.published - w'.unnumbered - w'.early ensures Has(w'.offered, k) {
        if k == n {
          assert w'.offered[|w.offered|].number == k;
        } else {
          assert Has(w.offered, k);
          var i :| 0 <= i < |w.offered| && w.offered[i].number == k;
          assert w'.offered[i].number == k;
        }
      }
    }
  }

  lemma ReceiveKeepsCursor(w: World, afterSeq: nat)
    requires CursorOk(w, afterSeq) && w.mode.Live? && w.taken < |w.offered|
    ensures CursorOk(Apply(w, Receive, 0), afterSeq)
  {
    var x, joined, items := w.offered[w.taken], Joined(afterSeq, w.covered), w.offered[..w.taken];
    assert w.offered[..w.taken + 1] == items + [x];
    OpenSnoc(joined, items, x);
    TakeItem(joined, items, x);
  }

  lemma TakeItem(c: Cursor, items: seq<Item>, x: Item)
    ensures TakeAll(c, Numbers(items + [x])) == Take(TakeAll(c, Numbers(items)), x.number)
  {
    assert Numbers(items + [x]) == Numbers(items) + [x.number];
    TakeAllSnoc(c, Numbers(items), x.number);
  }

  lemma TakeAllSnoc(c: Cursor, numbers: seq<nat>, n: nat)
    ensures TakeAll(c, numbers + [n]) == Take(TakeAll(c, numbers), n)
  {
    assert (numbers + [n])[..|numbers|] == numbers;
  }

  lemma ReceiveKeepsChannel(w: World)
    requires ChannelOk(w) && w.mode.Live? && w.taken < |w.offered|
    ensures ChannelOk(Apply(w, Receive, 0))
  {
  }

  lemma PhaseKeepsInv(w: World, afterSeq: nat, s: Step, capacity: nat)
    requires Inv(w, afterSeq) && (s.Append? || s.Finish? || s.Subscribe? || s.ReadHistory? || s.DeliverOne? || s.StartLive?)
    ensures Inv(Apply(w, s, capacity), afterSeq)
  {
    assert w.offered[..0] == [];
    assert Numbers([]) == [];
  }

  lemma PublishKeepsCursor(w: World, afterSeq: nat, n: nat, numbered: bool, capacity: nat)
    requires CursorOk(w, afterSeq) && w.taken <= |w.offered|
    ensures CursorOk(Apply(w, Publish(n, numbered), capacity), afterSeq)
  {
    if n != 0 && n <= w.appended && n !in w.published {
      var w' := w.(published := w.published + {n}, unnumbered := if numbered then w.unnumbered else w.unnumbered + {n});
      OfferKeepsCursor(w', afterSeq, Item(if numbered then n else 0, n == w.final), capacity);
    }
  }

  lemma PublishKeepsLog(w: World, n: nat, numbered: bool, capacity: nat)
    requires LogOk(w)
    ensures LogOk(Apply(w, Publish(n, numbered), capacity))
  {
  }

  lemma AnnounceKeepsInv(w: World, afterSeq: nat, ends: bool, capacity: nat)
    requires Inv(w, afterSeq)
    ensures Inv(Apply(w, Announce(ends), capacity), afterSeq)
  {
    AnnounceKeepsLog(w, ends, capacity);
    AnnounceKeepsChannel(w, ends, capacity);
    AnnounceKeepsCursor(w, afterSeq, ends, capacity);
  }

  lemma AnnounceKeepsLog(w: World, ends: bool, capacity: nat)
    requires LogOk(w)
    ensures LogOk(Apply(w, Announce(ends), capacity))
  {
  }

  lemma AnnounceKeepsCursor(w: World, afterSeq: nat, ends: bool, capacity: nat)
    requires CursorOk(w, afterSeq) && w.taken <= |w.offered|
    ensures CursorOk(Apply(w, Announce(ends), capacity), afterSeq)
  {
    OfferKeepsCursor(w.(announced := w.announced || ends), afterSeq, Item(0, ends), capacity);
  }

  lemma PublishKeepsInv(w: World, afterSeq: nat, n: nat, numbered: bool, capacity: nat)
    requires Inv(w, afterSeq)
    ensures Inv(Apply(w, Publish(n, numbered), capacity), afterSeq)
  {
    PublishKeepsLog(w, n, numbered, capacity);
    PublishKeepsChannel(w, n, numbered, capacity);
    PublishKeepsCursor(w, afterSeq, n, numbered, capacity);
  }

  lemma ReceiveKeepsInv(w: World, afterSeq: nat, capacity: nat)
    requires Inv(w, afterSeq)
    ensures Inv(Apply(w, Receive, capacity), afterSeq)
  {
    if w.mode.Live? && w.taken < |w.offered| {
      ReceiveKeepsChannel(w);
      ReceiveKeepsCursor(w, afterSeq);
    }
  }

  lemma ApplyKeepsInv(w: World, afterSeq: nat, s: Step, capacity: nat)
    requires Inv(w, afterSeq)
    ensures Inv(Apply(w, s, capacity), afterSeq)
  {
    match s {
      case Publish(n, numbered) => PublishKeepsInv(w, afterSeq, n, numbered, capacity);
      case Announce(ends) => AnnounceKeepsInv(w, afterSeq, ends, capacity);
      case Receive => ReceiveKeepsInv(w, afterSeq, capacity);
      case _ => PhaseKeepsInv(w, afterSeq, s, capacity);
    }
  }

  lemma {:induction false} ReachableInv(afterSeq: nat, capacity: nat, steps: seq<Step>)
    ensures Inv(After(afterSeq, capacity, steps), afterSeq)
  {
    if steps != [] {
      ReachableInv(afterSeq, capacity, steps[..|steps| - 1]);
      ApplyKeepsInv(After(afterSeq, capacity, steps[..|steps| - 1]), afterSeq, steps[|steps| - 1], capacity);
    }
  }

  /** The system runs the loop above: what has been delivered in the live part is
      what the loop makes of the history and of the items taken so far. */
  lemma SystemRunsTheLoop(afterSeq: nat, capacity: nat, steps: seq<Step>)
    requires var w := After(afterSeq, capacity, steps); w.mode.Live? || w.mode.Ended?
    ensures var w := After(afterSeq, capacity, steps);
      w.taken <= |w.offered| &&
      w.cursor == Stream(Span(afterSeq, w.covered), w.offered[..w.taken], afterSeq, w.mode == Ended(true))
  {
    ReachableInv(afterSeq, capacity, steps);
    var w := After(afterSeq, capacity, steps);
    TakeSpan(afterSeq, w.covered);
    var live := w.offered[..w.taken];
    if w.mode.Live? {
      OpenSnoc(Joined(afterSeq, w.covered), live, Item(0, false));
    }
    assert live[..w.taken] == live;
    assert Numbers([]) == [];
  }

  // ---------------------------------------------------------------- what is missing

  /** A larger number was offered while this one had not been. */
  ghost predicate Overtaken(items: seq<Item>, n: nat) {
    exists j :: 0 <= j < |items| && items[j].number > n && !Has(items[..j], n)
  }

  lemma InTimeIff(items: seq<Item>, taken: nat, n: nat)
    requires taken <= |items| && n > 0
    requires exists j :: 0 <= j < taken && items[j].number >= n
    ensures InTime(Numbers(items[..taken]), n) <==> !Overtaken(items, n)
    ensures InTime(Numbers(items[..taken]), n) ==> Has(items, n)
  {
    var j :| 0 <= j < taken && items[j].number >= n;
    var f := FirstAtLeast(items, n, j);
    var numbers := Numbers(items[..taken]);
    if items[f].number == n {
      assert numbers[f] == n && forall i :: 0 <= i < f ==> numbers[i] == items[i].number;
      forall k | 0 <= k < |items| && items[k].number > n ensures Has(items[..k], n) {
        assert k > f && items[..k][f].number == n;
      }
    } else {
      assert !Has(items[..f], n);
      forall i | 0 <= i < |numbers| && numbers[i] == n ensures f < i && numbers[f] > n {
        assert items[i].number == n;
      }
    }
  }

  lemma {:induction false} FirstAtLeast(items: seq<Item>, n: nat, j: nat) returns (f: nat)
    requires j < |items| && items[j].number >= n
    ensures f <= j && items[f].number >= n && forall i :: 0 <= i < f ==> items[i].number < n
  {
    f := j;
    if i :| 0 <= i < j && items[i].number >= n {
      f := FirstAtLeast(items, n, i);
    }
  }

  /** For every interleaving of appends, publications in any order, a slow reader
      being cut off and deliveries: a number up to the last one delivered is
      missing exactly when the history did not cover it and its event was
      published without its number, or before the subscription, or was not
      offered before a larger number was. */
  lemma MissingIff(afterSeq: nat, capacity: nat, steps: seq<Step>, n: nat)
    requires afterSeq < n <= After(afterSeq, capacity, steps).cursor.last
    ensures var w := After(afterSeq, capacity, steps);
      n !in w.cursor.delivered <==>
        n > w.covered && (n in w.unnumbered || n in w.early || Overtaken(w.offered, n))
  {
    ReachableInv(afterSeq, capacity, steps);
    var w := After(afterSeq, capacity, steps);
    if w.mode.Live? || w.mode.Ended? {
      MissingOnceLive(w, afterSeq, n);
    }
  }

  lemma MissingOnceLive(w: World, afterSeq: nat, n: nat)
    requires Inv(w, afterSeq) && (w.mode.Live? || w.mode.Ended?)
    requires afterSeq < n <= w.cursor.last
    ensures n !in w.cursor.delivered <==>
      n > w.covered && (n in w.unnumbered || n in w.early || Overtaken(w.offered, n))
  {
    var joined := Joined(afterSeq, w.covered);
    var numbers := Numbers(w.offered[..w.taken]);
    if n <= w.covered {
      GrowsAll(joined, numbers);
      assert n in joined.delivered;
    } else {
      DeliveredInTime(joined, numbers, n);
      var j :| 0 <= j < |numbers| && numbers[j] >= n;
      assert w.offered[j].number >= n;
      InTimeIff(w.offered, w.taken, n);
    }
  }

  // ---------------------------------------------------------------- publication in log order

  /** Every event is published with its number and after all earlier ones, and
      the history can be read. */
  ghost predicate Orderly(afterSeq: nat, capacity: nat, steps: seq<Step>) {
    forall i :: 0 <= i < |steps| ==> Proper(After(afterSeq, capacity, steps[..i]), steps[i])
  }

  ghost predicate Proper(w: World, s: Step) {
    match s
    case Publish(n, numbered) => numbered && forall m :: 0 < m < n ==> m in w.published
    case ReadHistory(ok) => ok
    case _ => true
  }

  /** Nothing was overtaken, and what came early the history covers. */
  ghost predicate InOrder(w: World) {
    && w.unnumbered == {}
    && (forall k <- w.early :: k <= w.appended)
    && (!w.mode.Unsubscribed? && !w.mode.Subscribed? ==> forall k <- w.early :: k <= w.covered)
    && (forall j, m :: 0 <= j < |w.offered| && 0 < m < w.offered[j].number ==> m in w.early || Has(w.offered[..j], m))
  }

  lemma OfferKeepsOrder(w: World, x: Item, capacity: nat)
    requires InOrder(w)
    requires Listening(w) && !w.cut ==> forall m :: 0 < m < x.number ==> m in w.early || Has(w.offered, m)
    ensures InOrder(Offer(w, x, capacity))
  {
    var w' := Offer(w, x, capacity);
    forall j, m | 0 <= j < |w'.offered| && 0 < m < w'.offered[j].number
      ensures m in w'.early || Has(w'.offered[..j], m)
    {
      if j < |w.offered| {
        assert w'.offered[..j] == w.offered[..j];
      } else {
        assert w'.offered[..j] == w.offered;
      }
    }
  }

  lemma ProperKeepsOrder(w: World, afterSeq: nat, s: Step, capacity: nat)
    requires Inv(w, afterSeq) && InOrder(w) && Proper(w, s)
    ensures InOrder(Apply(w, s, capacity))
  {
    match s {
      case Publish(n, numbered) =>
        if n != 0 && n <= w.appended && n !in w.published {
          var w' := w.(published := w.published + {n});
          OfferKeepsOrder(w', Item(n, n == w.final), capacity);
        }
      case Announce(ends) => OfferKeepsOrder(w.(announced := w.announced || ends), Item(0, ends), capacity);
      case _ =>
    }
  }

  lemma {:induction false} OrderlyStaysInOrder(afterSeq: nat, capacity: nat, steps: seq<Step>)
    requires Orderly(afterSeq, capacity, steps)
    ensures InOrder(After(afterSeq, capacity, steps))
  {
    if steps != [] {
      var k := |steps| - 1;
      assert forall i :: 0 <= i < k ==> steps[..k][..i] == steps[..i] && steps[..k][i] == steps[i];
      OrderlyStaysInOrder(afterSeq, capacity, steps[..k]);
      ReachableInv(afterSeq, capacity, steps[..k]);
      ProperKeepsOrder(After(afterSeq, capacity, steps[..k]), afterSeq, steps[k], capacity);
    }
  }

  /** When events are published with their numbers and in log order, and the
      history can be read, the client gets a gapless piece of the log from where
      it asked, however slow it is. */
  lemma GaplessPrefix(afterSeq: nat, capacity: nat, steps: seq<Step>, n: nat)
    requires Orderly(afterSeq, capacity, steps)
    ensures var w := After(afterSeq, capacity, steps);
      && (afterSeq < n <= w.cursor.last <==> n != 0 && n in w.cursor.delivered)
      && (w.cursor.last == afterSeq || w.cursor.last <= w.appended)
  {
    OrderlyStaysInOrder(afterSeq, capacity, steps);
    ReachableInv(afterSeq, capacity, steps);
    var w := After(afterSeq, capacity, steps);
    CursorRises(w, afterSeq);
    if afterSeq < n <= w.cursor.last {
      MissingIff(afterSeq, capacity, steps, n);
      if Overtaken(w.offered, n) {
        var j :| 0 <= j < |w.offered| && w.offered[j].number > n && !Has(w.offered[..j], n);
        assert n in w.early;
      }
    }
  }

  lemma {:induction false} LastIsTaken(c: Cursor, numbers: seq<nat>)
    ensures TakeAll(c, numbers).last == c.last || TakeAll(c, numbers).last in numbers
  {
    if numbers != [] {
      LastIsTaken(c, numbers[..|numbers| - 1]);
    }
  }

  lemma CursorRises(w: World, afterSeq: nat)
    requires Inv(w, afterSeq)
    ensures Rising(w.cursor.delivered, afterSeq, w.cursor.last)
    ensures w.cursor.last == afterSeq || w.cursor.last <= w.appended
  {
    if w.mode.Live? || w.mode.Ended? {
      var numbers := Numbers(w.offered[..w.taken]);
      SpanRises(afterSeq, w.covered);
      DeliveryRises(Joined(afterSeq, w.covered), afterSeq, numbers);
      LastIsTaken(Joined(afterSeq, w.covered), numbers);
      if w.cursor.last in numbers && w.cursor.last != 0 {
        var i :| 0 <= i < |numbers| && numbers[i] == w.cursor.last;
        assert w.offered[i].number in w.published;
      }
    } else if w.mode.ReadingHistory? {
      SpanRises(afterSeq, w.mode.next - 1);
    }
  }

  lemma {:induction false} SpanRises(lo: nat, hi: nat)
    ensures Rising(Span(lo, hi), lo, Joined(lo, hi).last)
    decreases hi
  {
    if hi > lo {
      SpanRises(lo, hi - 1);
    }
  }

  // ---------------------------------------------------------------- how a stream ends

  /** The client has been shown the end of the run: its event, or the frame that
      stands for it without a number. */
  ghost predicate EndShown(w: World) {
    var d := w.cursor.delivered;
    w.final in d || (d != [] && d[|d| - 1] == 0 && (w.final in w.unnumbered || w.announced))
  }

  /** A stream that ended by itself has shown the end of a run above the
      requested number unless it ended at the check before the live part, with
      the terminal event appended after the history was read. Then everything
      after the history is lost to the client. */
  lemma EndShownIff(afterSeq: nat, capacity: nat, steps: seq<Step>)
    requires var w := After(afterSeq, capacity, steps); w.mode.Ended? && w.final > afterSeq
    ensures var w := After(afterSeq, capacity, steps);
      && (EndShown(w) <==> !w.mode.atCheck || w.final <= w.covered)
      && (w.mode.atCheck ==> w.cursor == Joined(afterSeq, w.covered))
  {
    ReachableInv(afterSeq, capacity, steps);
    var w := After(afterSeq, capacity, steps);
    if w.mode.atCheck {
      assert Numbers(w.offered[..0]) == [];
      assert 0 !in w.cursor.delivered;
    } else {
      assert w.cursor.delivered[|w.cursor.delivered| - 1] in w.cursor.delivered;
    }
  }

  // ---------------------------------------------------------------- whether a stream ends

  /** Nothing terminal is announced. */
  ghost predicate Unannounced(steps: seq<Step>) {
    forall s <- steps :: s.Announce? ==> !s.ends
  }

  /** The item waits in the channel and will close the stream when its turn
      comes. */
  ghost predicate ClosesAt(w: World, i: nat)
    requires i < |w.offered|
  {
    var x := w.offered[i];
    && w.taken <= i && x.ends
    && (x.number == 0 || (x.number > w.cursor.last && forall k :: w.taken <= k < i ==> w.offered[k].number < x.number))
  }

  ghost predicate EndAhead(w: World) {
    exists i :: 0 <= i < |w.offered| && ClosesAt(w, i)
  }

  /** The reader is connected and the terminal event has not been given to the
      bus yet. */
  ghost predicate EndToCome(w: World, capacity: nat) {
    !w.cut && capacity > 0 && (w.final == 0 || w.final !in w.published)
  }

  ghost predicate Idle(w: World) {
    w.mode.Live? && w.taken <= |w.offered|
  }

  lemma ReceiveKeepsAhead(w: World)
    requires Idle(w) && w.taken < |w.offered| && !Closes(w.cursor, w.offered[w.taken])
    ensures Idle(Apply(w, Receive, 0)) && (EndAhead(w) <==> EndAhead(Apply(w, Receive, 0)))
  {
    var w' := Apply(w, Receive, 0);
    forall i | 0 <= i < |w.offered| && ClosesAt(w, i) ensures ClosesAt(w', i) {
    }
    forall i | 0 <= i < |w.offered| && ClosesAt(w', i) ensures ClosesAt(w, i) {
    }
  }

  lemma OfferKeepsAhead(w: World, x: Item, capacity: nat)
    requires Idle(w) && !x.ends
    ensures Idle(Offer(w, x, capacity)) && (EndAhead(Offer(w, x, capacity)) ==> EndAhead(w))
  {
    var w' := Offer(w, x, capacity);
    if EndAhead(w') {
      var i :| 0 <= i < |w'.offered| && ClosesAt(w', i);
      assert forall k :: 0 <= k < |w.offered| ==> w'.offered[k] == w.offered[k];
      assert i < |w.offered| && ClosesAt(w, i);
    }
  }

  /** A channel without room takes nothing any more. */
  lemma NoRoom(w: World, x: Item, capacity: nat)
    requires Idle(w) && (w.cut || capacity == 0)
    ensures Offer(w, x, capacity).offered == w.offered && Idle(Offer(w, x, capacity))
    ensures Offer(w, x, capacity).cut
    ensures EndAhead(Offer(w, x, capacity)) <==> EndAhead(w)
  {
    var w' := Offer(w, x, capacity);
    assert forall i :: 0 <= i < |w.offered| ==> (ClosesAt(w, i) <==> ClosesAt(w', i));
  }

  ghost predicate Endless(w: World, capacity: nat) {
    Idle(w) && !EndAhead(w) && !EndToCome(w, capacity)
  }

  lemma SameChannelSameAhead(w: World, w': World)
    requires w'.offered == w.offered && w'.taken == w.taken && w'.cursor == w.cursor
    ensures EndAhead(w') <==> EndAhead(w)
  {
    assert forall i :: 0 <= i < |w.offered| ==> (ClosesAt(w, i) <==> ClosesAt(w', i));
  }

  lemma EndlessPublish(w: World, n: nat, numbered: bool, capacity: nat)
    requires Endless(w, capacity)
    ensures Endless(Apply(w, Publish(n, numbered), capacity), capacity)
  {
    if n != 0 && n <= w.appended && n !in w.published {
      var w' := w.(published := w.published + {n}, unnumbered := if numbered then w.unnumbered else w.unnumbered + {n});
      var x := Item(if numbered then n else 0, n == w.final);
      SameChannelSameAhead(w, w');
      if w.cut || capacity == 0 {
        NoRoom(w', x, capacity);
      } else {
        OfferKeepsAhead(w', x, capacity);
      }
    }
  }

  lemma EndlessStays(w: World, s: Step, capacity: nat)
    requires Endless(w, capacity) && (s.Announce? ==> !s.ends)
    ensures Endless(Apply(w, s, capacity), capacity)
  {
    match s {
      case Publish(n, numbered) => EndlessPublish(w, n, numbered, capacity);
      case Announce(ends) => OfferKeepsAhead(w, Item(0, false), capacity);
      case Receive =>
        if w.taken < |w.offered| {
          assert Closes(w.cursor, w.offered[w.taken]) ==> ClosesAt(w, w.taken);
          ReceiveKeepsAhead(w);
        }
      case _ => SameChannelSameAhead(w, Apply(w, s, capacity));
    }
  }

  lemma {:induction false} EndlessForever(afterSeq: nat, capacity: nat, steps: seq<Step>, more: seq<Step>)
    requires Endless(After(afterSeq, capacity, steps), capacity) && Unannounced(more)
    ensures Endless(After(afterSeq, capacity, steps + more), capacity)
  {
    if more == [] {
      assert steps + more == steps;
    } else {
      var init, s := more[..|more| - 1], more[|more| - 1];
      assert s in more && forall x <- init :: x in more;
      EndlessForever(afterSeq, capacity, steps, init);
      LastStep(afterSeq, capacity, steps, more);
      EndlessStays(After(afterSeq, capacity, steps + init), s, capacity);
    }
  }

  lemma LastStep(afterSeq: nat, capacity: nat, steps: seq<Step>, more: seq<Step>)
    requires more != []
    ensures var n := |more| - 1;
      After(afterSeq, capacity, steps + more) == Apply(After(afterSeq, capacity, steps + more[..n]), more[n], capacity)
  {
    var n := |more| - 1;
    assert steps + more == (steps + more[..n]) + [more[n]];
    AfterSnoc(afterSeq, capacity, steps + more[..n], more[n]);
  }

  lemma AfterSnoc(afterSeq: nat, capacity: nat, steps: seq<Step>, s: Step)
    ensures After(afterSeq, capacity, steps + [s]) == Apply(After(afterSeq, capacity, steps), s, capacity)
  {
    assert (steps + [s])[..|steps|] == steps;
  }

  /** `w'` comes from `w` by taking what is in the channel: the stream closed, or
      nothing in it would have closed it. */
  ghost predicate Drained(w: World, w': World) {
    || w'.mode == Ended(false)
    || (!EndAhead(w) && w'.mode.Live? && w'.taken == |w'.offered| && w'.cut == w.cut && w'.final == w.final
        && w'.published == w.published && w'.appended == w.appended)
  }

  lemma TakeOneMore(w: World, capacity: nat)
    requires Idle(w) && w.taken < |w.offered| && !Closes(w.cursor, w.offered[w.taken])
    ensures var next := Apply(w, Receive, capacity);
      && Idle(next) && |next.offered| - next.taken == |w.offered| - w.taken - 1
      && (forall w' :: Drained(next, w') ==> Drained(w, w'))
  {
    ReceiveKeepsAhead(w);
  }

  lemma OneRun(steps: seq<Step>, a: seq<Step>, b: seq<Step>)
    ensures steps + (a + b) == (steps + a) + b
    ensures Unannounced(a) && Unannounced(b) ==> Unannounced(a + b)
  {
  }

  lemma {:induction false} Drain(afterSeq: nat, capacity: nat, steps: seq<Step>) returns (more: seq<Step>)
    requires Idle(After(afterSeq, capacity, steps))
    ensures Unannounced(more) && Drained(After(afterSeq, capacity, steps), After(afterSeq, capacity, steps + more))
    decreases var w := After(afterSeq, capacity, steps); |w.offered| - w.taken
  {
    var w := After(afterSeq, capacity, steps);
    AfterSnoc(afterSeq, capacity, steps, Receive);
    if w.taken == |w.offered| {
      more := [];
      assert steps + more == steps;
    } else if Closes(w.cursor, w.offered[w.taken]) {
      more := [Receive];
    } else {
      TakeOneMore(w, capacity);
      var rest := Drain(afterSeq, capacity, steps + [Receive]);
      OneRun(steps, [Receive], rest);
      more := [Receive] + rest;
    }
  }

  /** With an empty channel, let the run end and publish its end without a
      number. */
  lemma EndNow(afterSeq: nat, capacity: nat, steps: seq<Step>) returns (more: seq<Step>)
    requires var w := After(afterSeq, capacity, steps); w.mode.Live? && w.taken == |w.offered| && EndToCome(w, capacity)
    ensures Unannounced(more) && After(afterSeq, capacity, steps + more).mode == Ended(false)
  {
    var w := After(afterSeq, capacity, steps);
    ReachableInv(afterSeq, capacity, steps);
    var end := if w.final == 0 then w.appended + 1 else w.final;
    more := [Append(w.final == 0), Publish(end, false), Receive];
    AfterThree(afterSeq, capacity, steps, Append(w.final == 0), Publish(end, false), Receive);
    var w1 := Apply(w, Append(w.final == 0), capacity);
    assert w1.final == end && end != 0 && end !in w1.published && end <= w1.appended;
    var w2 := Apply(w1, Publish(end, false), capacity);
    assert w2.offered == w.offered + [Item(0, true)];
    assert Closes(w2.cursor, w2.offered[w2.taken]);
  }

  lemma CloseIt(afterSeq: nat, capacity: nat, steps: seq<Step>) returns (more: seq<Step>)
    requires var w := After(afterSeq, capacity, steps); w.mode.Live? && (EndAhead(w) || EndToCome(w, capacity))
    ensures Unannounced(more) && After(afterSeq, capacity, steps + more).mode == Ended(false)
  {
    LiveIsIdle(afterSeq, capacity, steps);
    more := Drain(afterSeq, capacity, steps);
    if After(afterSeq, capacity, steps + more).mode != Ended(false) {
      StillToCome(After(afterSeq, capacity, steps), After(afterSeq, capacity, steps + more), capacity);
      var end := EndNow(afterSeq, capacity, steps + more);
      OneRun(steps, more, end);
      more := more + end;
    }
  }

  lemma StillToCome(w: World, w': World, capacity: nat)
    requires Drained(w, w') && w'.mode != Ended(false) && (EndAhead(w) || EndToCome(w, capacity))
    ensures w'.mode.Live? && w'.taken == |w'.offered| && EndToCome(w', capacity)
  {
  }

  /** A live stream can still close by itself, without a terminal event being
      announced, exactly when a terminal item that will be due waits in its
      channel, or the reader is connected and the end of the run is still to be
      published. */
  lemma ClosesIff(afterSeq: nat, capacity: nat, steps: seq<Step>)
    requires After(afterSeq, capacity, steps).mode.Live?
    ensures (exists more :: Unannounced(more) && After(afterSeq, capacity, steps + more).mode == Ended(false))
       <==> EndAhead(After(afterSeq, capacity, steps)) || EndToCome(After(afterSeq, capacity, steps), capacity)
  {
    var w := After(afterSeq, capacity, steps);
    if EndAhead(w) || EndToCome(w, capacity) {
      var more := CloseIt(afterSeq, capacity, steps);
    } else {
      LiveIsIdle(afterSeq, capacity, steps);
      forall more | Unannounced(more) ensures After(afterSeq, capacity, steps + more).mode != Ended(false) {
        EndlessForever(afterSeq, capacity, steps, more);
      }
    }
  }

  lemma LiveIsIdle(afterSeq: nat, capacity: nat, steps: seq<Step>)
    requires After(afterSeq, capacity, steps).mode.Live?
    ensures Idle(After(afterSeq, capacity, steps))
  {
    ReachableInv(afterSeq, capacity, steps);
  }

  /** No terminal event comes without its number. */
  ghost predicate Quiet(steps: seq<Step>) {
    forall s <- steps :: (s.Announce? ==> !s.ends) && (s.Publish? ==> s.numbered)
  }

  /** The history has delivered the end of the run, and the live part was
      entered all the same. */
  ghost predicate ShownThenLive(w: World) {
    w.mode.Live? && 0 < w.final <= w.cursor.last && w.final !in w.unnumbered && !w.announced
  }

  lemma QuietStaysLive(w: World, afterSeq: nat, s: Step, capacity: nat)
    requires Inv(w, afterSeq) && ShownThenLive(w)
    requires (s.Announce? ==> !s.ends) && (s.Publish? ==> s.numbered)
    ensures ShownThenLive(Apply(w, s, capacity))
  {
  }

  /** Then the numbered live copy of the end is skipped, and the stream stays open
      for good: only the client's leaving or a full buffer ends it. */
  lemma {:induction false} ShownThenLiveNeverCloses(afterSeq: nat, capacity: nat, steps: seq<Step>, more: seq<Step>)
    requires ShownThenLive(After(afterSeq, capacity, steps)) && Quiet(more)
    ensures ShownThenLive(After(afterSeq, capacity, steps + more))
  {
    if more == [] {
      assert steps + more == steps;
    } else {
      var init, s := more[..|more| - 1], more[|more| - 1];
      assert s in more && forall x <- init :: x in more;
      ShownThenLiveNeverCloses(afterSeq, capacity, steps, init);
      ReachableInv(afterSeq, capacity, steps + init);
      LastStep(afterSeq, capacity, steps, more);
      QuietStaysLive(After(afterSeq, capacity, steps + init), afterSeq, s, capacity);
    }
  }

  /** The end is logged before the history is read, but the run's record does not
      show it at the check. */
  function LateRecordRun(): seq<Step> {
    [Subscribe, Append(true), ReadHistory(true)] + [DeliverOne, StartLive(false), Publish(1, true)]
  }

  lemma LateRecordStaysOpen(more: seq<Step>)
    requires Quiet(more)
    ensures After(0, 1, LateRecordRun()).cursor == Cursor([1], 1) && After(0, 1, LateRecordRun()).final == 1
    ensures After(0, 1, LateRecordRun() + more).mode == Live
  {
    var half := [Subscribe, Append(true), ReadHistory(true)];
    AfterThree(0, 1, [], Subscribe, Append(true), ReadHistory(true));
    assert [] + half == half;
    AfterThree(0, 1, half, DeliverOne, StartLive(false), Publish(1, true));
    ShownThenLiveNeverCloses(0, 1, LateRecordRun(), more);
  }

  // ---------------------------------------------------------------- runs that lose events

  function JoinLive(): seq<Step> {
    [Subscribe, ReadHistory(true), StartLive(false)]
  }

  /** Three more steps. */
  lemma AfterThree(afterSeq: nat, capacity: nat, steps: seq<Step>, a: Step, b: Step, c: Step)
    ensures After(afterSeq, capacity, steps + [a, b, c])
         == Apply(Apply(Apply(After(afterSeq, capacity, steps), a, capacity), b, capacity), c, capacity)
  {
    assert (steps + [a])[..|steps|] == steps;
    assert (steps + [a, b])[..|steps| + 1] == steps + [a];
    var all := steps + [a, b, c];
    assert all[..|steps| + 2] == steps + [a, b];
    assert all[|steps| + 2] == c;
    assert After(afterSeq, capacity, all) == Apply(After(afterSeq, capacity, steps + [a, b]), c, capacity);
    assert After(afterSeq, capacity, steps + [a, b]) == Apply(After(afterSeq, capacity, steps + [a]), b, capacity);
  }

  lemma JoinsLive(capacity: nat)
    ensures After(0, capacity, JoinLive()) == Start(0).(mode := Live)
  {
    AfterThree(0, capacity, [], Subscribe, ReadHistory(true), StartLive(false));
    assert [] + JoinLive() == JoinLive();
  }

  /** Two tool goroutines append 1 and 2 and publish in the other order: the
      live client sees the second and never the first, numbered as it was. */
  function SwappedRun(): seq<Step> {
    JoinLive() + [Append(false), Append(false), Publish(2, true)] + [Receive, Publish(1, true), Receive]
  }

  lemma SwappedOffer()
    ensures After(0, 2, JoinLive() + [Append(false), Append(false), Publish(2, true)])
         == Start(0).(mode := Live, appended := 2, published := {2}, offered := [Item(2, false)])
  {
    JoinsLive(2);
    AfterThree(0, 2, JoinLive(), Append(false), Append(false), Publish(2, true));
    var w := Start(0).(mode := Live);
    assert Apply(Apply(w, Append(false), 2), Append(false), 2) == w.(appended := 2);
  }

  lemma SwappedLeavesGap()
    ensures var w := After(0, 2, SwappedRun());
      w.cursor == Cursor([2], 2) && w.published == {1, 2} && w.unnumbered == {} && w.early == {}
  {
    SwappedOffer();
    SwappedTail();
    AfterThree(0, 2, JoinLive() + [Append(false), Append(false), Publish(2, true)], Receive, Publish(1, true), Receive);
  }

  lemma SwappedTail()
    ensures var w := Start(0).(mode := Live, appended := 2, published := {2}, offered := [Item(2, false)]);
      Apply(Apply(Apply(w, Receive, 2), Publish(1, true), 2), Receive, 2) ==
        w.(published := {1, 2}, offered := [Item(2, false), Item(1, false)], taken := 2, cursor := Cursor([2], 2))
  {
    var w := Start(0).(mode := Live, appended := 2, published := {2}, offered := [Item(2, false)]);
    var w1 := w.(taken := 1, cursor := Cursor([2], 2));
    assert Apply(w, Receive, 2) == w1;
    var w2 := w1.(published := {1, 2}, offered := [Item(2, false), Item(1, false)]);
    assert Apply(w1, Publish(1, true), 2) == w2;
  }

  /** A run whose first event is published without its number: the live client
      sees it as unnumbered and never as the first. */
  function UnnumberedRun(): seq<Step> {
    JoinLive() + [Append(false), Publish(1, false), Receive] + [Append(false), Publish(2, true), Receive]
  }

  lemma FirstIsUnnumbered()
    ensures After(0, 1, JoinLive() + [Append(false), Publish(1, false), Receive])
         == Start(0).(mode := Live, appended := 1, published := {1}, unnumbered := {1}, offered := [Item(0, false)],
                      taken := 1, cursor := Cursor([0], 0))
  {
    JoinsLive(1);
    AfterThree(0, 1, JoinLive(), Append(false), Publish(1, false), Receive);
    var w := Start(0).(mode := Live, appended := 1);
    var w1 := w.(published := {1}, unnumbered := {1}, offered := [Item(0, false)]);
    assert Apply(w, Publish(1, false), 1) == w1;
  }

  lemma UnnumberedLeavesGap()
    ensures After(0, 1, UnnumberedRun()).cursor == Cursor([0, 2], 2)
  {
    FirstIsUnnumbered();
    AfterThree(0, 1, JoinLive() + [Append(false), Publish(1, false), Receive], Append(false), Publish(2, true), Receive);
    var w := Start(0).(mode := Live, appended := 2, published := {1}, unnumbered := {1}, offered := [Item(0, false)],
                       taken := 1, cursor := Cursor([0], 0));
    var w1 := w.(published := {1, 2}, offered := [Item(0, false), Item(2, false)]);
    assert Apply(w, Publish(2, true), 1) == w1;
    assert [0] + [2] == [0, 2];
  }

  /** A run that ends between the history read and the terminal check: the
      client's stream closes without its last event. */
  function LateEndRun(): seq<Step> {
    [Subscribe, ReadHistory(true), Append(true)] + [Publish(1, true), Finish, StartLive(false)]
  }

  lemma EndLostAtCheck()
    ensures var w := After(0, 1, LateEndRun());
      w.mode == Ended(true) && w.final == 1 && w.published == {1} && w.cursor == Cursor([], 0)
  {
    AfterThree(0, 1, [], Subscribe, ReadHistory(true), Append(true));
    var half := [Subscribe, ReadHistory(true), Append(true)];
    assert [] + half == half;
    AfterThree(0, 1, half, Publish(1, true), Finish, StartLive(false));
  }
}
