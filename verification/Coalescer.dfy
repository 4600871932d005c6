/** The event coalescer: mergeable events fold per run and type into a frame
    that is flushed by a timer or when it is full. */
module Coalescer {

  datatype Kind = TokenDelta | Heartbeat | Progress | Durable(name: string) | Direct(name: string)
  {
    predicate Mergeable() {
      TokenDelta? || Heartbeat? || Progress?
    }
  }

  /** `coalesced` is zero on a source event and counts the folded events on a
      merged one; `envelope` stands for the fields a frame takes from its newest
      event. */
  datatype Event = Event(
    run: string, kind: Kind, content: string, reasoning: string, number: nat, coalesced: nat, envelope: string)

  datatype Key = Key(run: string, kind: Kind)

  datatype Frame = Frame(count: nat, content: string, reasoning: string, last: Event, size: nat)

  const MAX_FRAME_BYTES := 4096

  function KeyOf(e: Event): Key {
    Key(e.run, e.kind)
  }

  // ---------------------------------------------------------------- what was said per key

  /** How many source events an event stands for. */
  function Weight(e: Event): nat {
    if e.coalesced == 0 then 1 else e.coalesced
  }

  datatype Told = Told(content: string, reasoning: string, count: nat)

  function Add(t: Told, content: string, reasoning: string, count: nat): Told {
    Told(t.content + content, t.reasoning + reasoning, t.count + count)
  }

  const Nothing := Told("", "", 0)

  /** The texts and the number of source events of one key, in order. */
  function Tell(events: seq<Event>, k: Key): Told {
    if events == [] then Nothing
    else
      var e := events[|events| - 1];
      var earlier := Tell(events[..|events| - 1], k);
      if KeyOf(e) == k then Add(earlier, e.content, e.reasoning, Weight(e)) else earlier
  }

  lemma TellSnoc(events: seq<Event>, e: Event, k: Key)
    ensures Tell(events + [e], k) ==
      if KeyOf(e) == k then Add(Tell(events, k), e.content, e.reasoning, Weight(e)) else Tell(events, k)
  {
    assert (events + [e])[..|events|] == events;
  }

  /** What was delivered plus what is pending is what was published. */
  ghost predicate Balanced(published: seq<Event>, pending: map<Key, Frame>, delivered: seq<Event>, k: Key) {
    Tell(published, k) ==
      if k in pending then Add(Tell(delivered, k), pending[k].content, pending[k].reasoning, pending[k].count)
      else Tell(delivered, k)
  }

  ghost predicate Conserved(published: seq<Event>, pending: map<Key, Frame>, delivered: seq<Event>) {
    forall k :: Balanced(published, pending, delivered, k)
  }

  ghost predicate FrameOk(k: Key, f: Frame, maxCoalesce: int) {
    && k.kind.Mergeable() && KeyOf(f.last) == k
    && f.count >= 1 && f.count < maxCoalesce
    && f.size == |f.content| + |f.reasoning| < MAX_FRAME_BYTES
  }

  /** A frame that may wait is one of three kinds and under both limits. */
  lemma FrameLimits(k: Key, f: Frame, maxCoalesce: int)
    requires FrameOk(k, f, maxCoalesce)
    ensures k.kind in {TokenDelta, Heartbeat, Progress}
    ensures 1 <= f.count < maxCoalesce && |f.content| + |f.reasoning| < 4096
    ensures f.last.run == k.run && f.last.kind == k.kind
  {
  }

  function Merged(f: Frame): Event {
    f.last.(content := f.content, reasoning := f.reasoning, coalesced := f.count, number := 0)
  }

  /** A merged event has the texts and the count of its frame, no number of its
      own, and everything else from the newest event folded in. */
  lemma MergedFields(pending: map<Key, Frame>, e: Event)
    ensures var m := Merged(Folded(pending, e));
      && m.run == e.run && m.kind == e.kind && m.envelope == e.envelope && m.number == 0
      && if Key(e.run, e.kind) in pending then
           var f := pending[Key(e.run, e.kind)];
           m.coalesced == f.count + 1 && m.content == f.content + e.content && m.reasoning == f.reasoning + e.reasoning
         else m.coalesced == 1 && m.content == e.content && m.reasoning == e.reasoning
  {
  }

  lemma FlushConserves(published: seq<Event>, pending: map<Key, Frame>, delivered: seq<Event>, k: Key)
    requires Conserved(published, pending, delivered)
    requires k in pending && KeyOf(pending[k].last) == k && pending[k].count >= 1
    ensures Conserved(published, pending - {k}, delivered + [Merged(pending[k])])
  {
    forall j ensures Balanced(published, pending - {k}, delivered + [Merged(pending[k])], j) {
      assert Balanced(published, pending, delivered, j);
      TellSnoc(delivered, Merged(pending[k]), j);
    }
  }

  lemma PassConserves(published: seq<Event>, pending: map<Key, Frame>, delivered: seq<Event>, e: Event)
    requires Conserved(published, pending, delivered) && KeyOf(e) !in pending
    ensures Conserved(published + [e], pending, delivered + [e])
  {
    forall j ensures Balanced(published + [e], pending, delivered + [e], j) {
      assert Balanced(published, pending, delivered, j);
      TellSnoc(published, e, j);
      TellSnoc(delivered, e, j);
    }
  }

  /** The frame after folding one more source event into it. */
  function Folded(pending: map<Key, Frame>, e: Event): Frame {
    var k := KeyOf(e);
    var f := if k in pending then pending[k] else Frame(0, "", "", e, 0);
    Frame(f.count + 1, f.content + e.content, f.reasoning + e.reasoning, e, f.size + |e.content| + |e.reasoning|)
  }

  lemma AddAdd(t: Told, c1: string, r1: string, n1: nat, c2: string, r2: string, n2: nat)
    ensures Add(Add(t, c1, r1, n1), c2, r2, n2) == Add(t, c1 + c2, r1 + r2, n1 + n2)
  {
    assert (t.content + c1) + c2 == t.content + (c1 + c2);
    assert (t.reasoning + r1) + r2 == t.reasoning + (r1 + r2);
  }

  lemma FoldBalances(published: seq<Event>, pending: map<Key, Frame>, delivered: seq<Event>, e: Event, j: Key)
    requires Balanced(published, pending, delivered, j) && e.coalesced == 0
    ensures Balanced(published + [e], pending[KeyOf(e) := Folded(pending, e)], delivered, j)
  {
    TellSnoc(published, e, j);
    if j == KeyOf(e) {
      var f := if j in pending then pending[j] else Frame(0, "", "", e, 0);
      AddAdd(Tell(delivered, j), f.content, f.reasoning, f.count, e.content, e.reasoning, 1);
      assert Tell(delivered, j) == Add(Tell(delivered, j), "", "", 0);
    }
  }

  lemma FoldConserves(published: seq<Event>, pending: map<Key, Frame>, delivered: seq<Event>, e: Event)
    requires Conserved(published, pending, delivered) && e.coalesced == 0
    ensures Conserved(published + [e], pending[KeyOf(e) := Folded(pending, e)], delivered)
  {
    var published', pending' := published + [e], pending[KeyOf(e) := Folded(pending, e)];
    forall j ensures Balanced(published', pending', delivered, j) {
      FoldBalances(published, pending, delivered, e, j);
    }
  }

  // ---------------------------------------------------------------- the coalescer

  class Coalescer {
    const maxCoalesce: int
    var pending: map<Key, Frame>
    /** Keys in the order their frames were opened; flushing leaves them here. */
    var order: seq<Key>
    var armed: bool
    var closed: bool
    /** What the bus was given, in order. */
    var delivered: seq<Event>
    ghost var published: seq<Event>

    /** Nothing is lost or reordered within a key, every pending frame is under
        both limits, and something pending means a timer is armed. */
    ghost predicate Valid()
      reads this
    {
      && Conserved(published, pending, delivered)
      && (forall k :: k in pending ==> FrameOk(k, pending[k], maxCoalesce) && k in order)
      && (pending != map[] ==> armed || closed)
      && (closed ==> pending == map[])
    }

    constructor (maxCoalesce: int)
      ensures Valid() && delivered == [] && published == [] && !closed && this.maxCoalesce == maxCoalesce
    {
      this.maxCoalesce := maxCoalesce;
      pending, order, armed, closed, delivered, published := map[], [], false, false, [], [];
    }

    /** Routes an event; `published` grows by it whatever happens to it. */
    method Publish(e: Event)
      requires Valid() && e.coalesced == 0
      modifies this
      ensures Valid() && published == old(published) + [e]
      ensures closed == old(closed) && old(delivered) <= delivered && old(order) <= order
      ensures !e.kind.Mergeable() || old(closed) ==> delivered == old(delivered) + [e] && pending == old(pending)
      ensures e.kind.Mergeable() && !old(closed) ==>
        var f := Folded(old(pending), e);
        if f.size >= MAX_FRAME_BYTES || f.count >= maxCoalesce
        then delivered == old(delivered) + [Merged(f)] && pending == old(pending) - {KeyOf(e)}
        else delivered == old(delivered) && pending == old(pending)[KeyOf(e) := f]
      ensures e.kind.Durable? || e.kind.Direct? || closed ==> delivered == old(delivered) + [e] && pending == old(pending)
    {
      ghost var before := published;
      published := published + [e];
      if !e.kind.Mergeable() || closed {
        PassConserves(before, pending, delivered, e);
        delivered := delivered + [e];
        return;
      }
      var key := KeyOf(e);
      var f := Folded(pending, e);
      FoldConserves(before, pending, delivered, e);
      if key !in pending {
        order := order + [key];
      }
      ghost var without := pending - {key};
      pending := pending[key := f];
      var forceFlush := f.size >= MAX_FRAME_BYTES || f.count >= maxCoalesce;
      if !forceFlush && !armed {
        armed := true;
      }
      if forceFlush {
        FlushConserves(published, pending, delivered, key);
        EmitFrame(key);
        assert pending == without;
      }
    }

    /** Takes one frame out of the buffer and gives it to the bus. */
    method EmitFrame(key: Key)
      modifies this`pending, this`delivered
      ensures key !in old(pending) ==> pending == old(pending) && delivered == old(delivered)
      ensures key in old(pending) ==>
        pending == old(pending) - {key} && delivered == old(delivered) + [Merged(old(pending)[key])]
    {
      if key !in pending {
        return;
      }
      var f := pending[key];
      pending := pending - {key};
      delivered := delivered + [Merged(f)];
    }

    /** The timer: everything pending is delivered. */
    method Flush()
      requires Valid()
      modifies this`pending, this`delivered, this`armed
      ensures Valid() && pending == map[] && !armed
      ensures old(delivered) <= delivered
    {
      var keys := order;
      armed := false;
      FlushKeys(keys);
    }

    method FlushKeys(keys: seq<Key>)
      requires Conserved(published, pending, delivered)
      requires forall k :: k in pending ==> FrameOk(k, pending[k], maxCoalesce) && k in keys
      modifies this`pending, this`delivered
      ensures Conserved(published, pending, delivered) && pending == map[]
      ensures old(delivered) <= delivered
    {
      for i := 0 to |keys|
        invariant Conserved(published, pending, delivered)
        invariant forall k :: k in pending ==> FrameOk(k, pending[k], maxCoalesce) && k in keys[i..]
        invariant old(delivered) <= delivered
      {
        if keys[i] in pending {
          FlushConserves(published, pending, delivered, keys[i]);
        }
        EmitFrame(keys[i]);
      }
    }

    method Close()
      requires Valid()
      modifies this
      ensures Valid() && closed && pending == map[]
      ensures published == old(published)
      ensures forall k :: Tell(delivered, k) == Tell(published, k)
    {
      if !closed {
        closed := true;
        armed := false;
        FlushKeys(order);
      }
      forall k ensures Tell(delivered, k) == Tell(published, k) {
        assert Balanced(published, pending, delivered, k);
      }
    }
  }
}
