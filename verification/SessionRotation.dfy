/** Refresh-token rotation: many goroutines of one process, a striped lock, and
    a store whose operations are atomic. */
module SessionRotation {
  import opened Wrappers

  /** Thirty days and fifteen minutes, in milliseconds. */
  const REFRESH_TTL := 30 * 24 * 3600 * 1000
  const ACCESS_TTL := 15 * 60 * 1000

  /** A session row. `root` is not a column: it names the login the chain of
      rotations started from. */
  datatype Session = Session(
    refreshHash: nat,
    rotatedFrom: Option<nat>,
    accessExpires: int,
    refreshExpires: int,
    revoked: bool,
    root: nat)

  /** Where a goroutine inside `Refresh` stands. */
  datatype Phase = Locked(hash: nat) | Loaded(hash: nat, id: nat, now: int)

  /** `locks` maps a held stripe to its holder. */
  datatype World = World(store: map<nat, Session>, phases: map<nat, Phase>, locks: map<nat, nat>)

  datatype Step =
    | Issue(id: nat, hash: nat, now: int)
    | Lock(thread: nat, hash: nat)
    | Load(thread: nat, id: nat, now: int, userActive: bool)
    | Rotate(thread: nat, nextId: nat, nextHash: nat, now: int, stored: bool)
    | Revoke(id: nat)
    | Crash

  function RefreshDeadline(previous: int, now: int): int {
    if previous > 0 then previous else now + REFRESH_TTL
  }

  /** Builds a session with an absolute deadline, or nothing when the deadline
      has passed. */
  function BuildSession(hash: nat, from: Option<nat>, root: nat, deadline: int, now: int): (r: Option<Session>)
    ensures r.Some? <==> deadline > now
    ensures r.Some? ==> now < r.value.accessExpires <= deadline == r.value.refreshExpires
  {
    if deadline <= now then None
    else
      var access := now + ACCESS_TTL;
      Some(Session(hash, from, if access > deadline then deadline else access, deadline, false, root))
  }

  /** No row has the id or the token, or refers to the id. */
  predicate FreshRow(store: map<nat, Session>, id: nat, hash: nat) {
    id !in store &&
    forall k :: k in store ==>
      store[k].refreshHash != hash && store[k].root != id && store[k].rotatedFrom != Some(id)
  }

  function Unlock(w: World, stripe: nat -> nat, thread: nat): World
    requires thread in w.phases
  {
    w.(phases := w.phases - {thread}, locks := w.locks - {stripe(w.phases[thread].hash)})
  }

  /** New ids and tokens are random, so a step that would reuse one does not
      happen; neither does one whose goroutine is elsewhere. */
  predicate Enabled(w: World, stripe: nat -> nat, s: Step) {
    match s
    case Issue(id, hash, now) => FreshRow(w.store, id, hash) && now >= 0
    case Lock(t, hash) => t !in w.phases && stripe(hash) !in w.locks
    case Load(t, id, _, _) => t in w.phases && w.phases[t].Locked?
    case Rotate(t, nextId, nextHash, _, _) =>
      t in w.phases && w.phases[t].Loaded? && w.phases[t].id in w.store && FreshRow(w.store, nextId, nextHash)
    case Revoke(id) => id in w.store
    case Crash => true
  }

  function Apply(w: World, stripe: nat -> nat, s: Step): World {
    if !Enabled(w, stripe, s) then w
    else match s
      case Issue(id, hash, now) =>
        var built := BuildSession(hash, None, id, now + REFRESH_TTL, now);
        if built.None? then w else w.(store := w.store[id := built.value])
      case Lock(t, hash) =>
        w.(phases := w.phases[t := Locked(hash)], locks := w.locks[stripe(hash) := t])
      case Load(t, id, now, userActive) =>
        var hash := w.phases[t].hash;
        if id !in w.store || w.store[id].refreshHash != hash then Unlock(w, stripe, t)
        else
          var sess := w.store[id];
          if sess.revoked || (sess.refreshExpires > 0 && now >= sess.refreshExpires) || !userActive
          then Unlock(w, stripe, t)
          else w.(phases := w.phases[t := Loaded(hash, id, now)])
      case Rotate(t, nextId, nextHash, now, stored) =>
        var Loaded(_, id, loadedAt) := w.phases[t];
        var sess := w.store[id];
        var next := BuildSession(nextHash, Some(id), sess.root, RefreshDeadline(sess.refreshExpires, loadedAt), now);
        if next.None? || !stored then Unlock(w, stripe, t)
        else Unlock(w, stripe, t).(store := w.store[id := sess.(revoked := true)][nextId := next.value])
      case Revoke(id) =>
        w.(store := w.store[id := w.store[id].(revoked := true)])
      case Crash =>
        w.(phases := map[], locks := map[])
  }

  const Start := World(map[], map[], map[])

  function After(stripe: nat -> nat, steps: seq<Step>): World {
    if steps == [] then Start
    else Apply(After(stripe, steps[..|steps| - 1]), stripe, steps[|steps| - 1])
  }

  // ---------------------------------------------------------------- invariant

  ghost predicate Childless(store: map<nat, Session>, id: nat) {
    forall c :: c in store ==> store[c].rotatedFrom != Some(id)
  }

  ghost predicate TokensDiffer(store: map<nat, Session>) {
    forall a, b :: a in store && b in store && store[a].refreshHash == store[b].refreshHash ==> a == b
  }

  /** A rotated session is revoked and its successor continues its chain. */
  ghost predicate ParentsRevoked(store: map<nat, Session>) {
    forall p, c :: p in store && c in store && store[c].rotatedFrom == Some(p) ==>
      store[p].revoked && store[p].root == store[c].root
  }

  ghost predicate OneSuccessor(store: map<nat, Session>) {
    forall a, b | a in store && b in store ::
      store[a].rotatedFrom.Some? && store[a].rotatedFrom == store[b].rotatedFrom ==> a == b
  }

  ghost predicate OneTip(store: map<nat, Session>) {
    forall a, b | a in store && b in store && store[a].root == store[b].root ::
      Childless(store, a) && Childless(store, b) ==> a == b
  }

  ghost predicate OneDeadline(store: map<nat, Session>) {
    && (forall a, b :: a in store && b in store && store[a].root == store[b].root ==>
          store[a].refreshExpires == store[b].refreshExpires)
    && (forall a :: a in store ==> 0 < store[a].refreshExpires && store[a].accessExpires <= store[a].refreshExpires)
  }

  ghost predicate RowsOk(store: map<nat, Session>) {
    TokensDiffer(store) && ParentsRevoked(store) && OneSuccessor(store) && OneTip(store) && OneDeadline(store)
  }

  ghost predicate ThreadsOk(w: World, stripe: nat -> nat) {
    && (forall t :: t in w.phases ==>
          stripe(w.phases[t].hash) in w.locks && w.locks[stripe(w.phases[t].hash)] == t)
    && (forall t :: t in w.phases && w.phases[t].Loaded? ==>
          var p := w.phases[t];
          && p.id in w.store && w.store[p.id].refreshHash == p.hash && Childless(w.store, p.id)
          && p.now < w.store[p.id].refreshExpires)
  }

  ghost predicate Inv(w: World, stripe: nat -> nat) {
    RowsOk(w.store) && ThreadsOk(w, stripe)
  }

  function Rotated(store: map<nat, Session>, id: nat, nextId: nat, next: Session): map<nat, Session>
    requires id in store
  {
    store[id := store[id].(revoked := true)][nextId := next]
  }

  lemma RotateTips(store: map<nat, Session>, id: nat, nextId: nat, next: Session)
    requires OneTip(store) && id in store && Childless(store, id)
    requires FreshRow(store, nextId, next.refreshHash)
    requires next.rotatedFrom == Some(id) && next.root == store[id].root
    ensures OneTip(Rotated(store, id, nextId, next))
  {
    var store' := Rotated(store, id, nextId, next);
    assert !Childless(store', id) by {
      assert store'[nextId].rotatedFrom == Some(id);
    }
    forall a | a in store && Childless(store', a) ensures Childless(store, a) {
      ChildlessBefore(store, store', a);
    }
  }

  lemma ChildlessBefore(store: map<nat, Session>, store': map<nat, Session>, a: nat)
    requires forall k :: k in store ==> k in store' && store'[k].rotatedFrom == store[k].rotatedFrom
    requires Childless(store', a)
    ensures Childless(store, a)
  {
  }

  /** The successor is a new row in the chain of the row it replaces. */
  ghost predicate Succeeds(store: map<nat, Session>, id: nat, nextId: nat, next: Session) {
    && id in store && Childless(store, id) && FreshRow(store, nextId, next.refreshHash)
    && next.rotatedFrom == Some(id) && next.root == store[id].root
    && next.accessExpires <= next.refreshExpires == store[id].refreshExpires
  }

  lemma RotateTokens(store: map<nat, Session>, id: nat, nextId: nat, next: Session)
    requires TokensDiffer(store) && Succeeds(store, id, nextId, next)
    ensures TokensDiffer(Rotated(store, id, nextId, next))
  {
  }

  lemma RotateParents(store: map<nat, Session>, id: nat, nextId: nat, next: Session)
    requires ParentsRevoked(store) && Succeeds(store, id, nextId, next)
    ensures ParentsRevoked(Rotated(store, id, nextId, next))
  {
    var store' := Rotated(store, id, nextId, next);
    forall p, c | p in store' && c in store' && store'[c].rotatedFrom == Some(p)
      ensures store'[p].revoked && store'[p].root == store'[c].root
    {
      if c == nextId {
        assert p == id;
      } else {
        assert p != nextId;
      }
    }
  }

  lemma RotateSuccessor(store: map<nat, Session>, id: nat, nextId: nat, next: Session)
    requires OneSuccessor(store) && Succeeds(store, id, nextId, next)
    ensures OneSuccessor(Rotated(store, id, nextId, next))
  {
  }

  lemma RotateDeadline(store: map<nat, Session>, id: nat, nextId: nat, next: Session)
    requires OneDeadline(store) && Succeeds(store, id, nextId, next)
    ensures OneDeadline(Rotated(store, id, nextId, next))
  {
  }

  lemma RotateRows(store: map<nat, Session>, id: nat, nextId: nat, next: Session)
    requires RowsOk(store) && Succeeds(store, id, nextId, next)
    ensures RowsOk(Rotated(store, id, nextId, next))
  {
    RotateTokens(store, id, nextId, next);
    RotateParents(store, id, nextId, next);
    RotateSuccessor(store, id, nextId, next);
    RotateTips(store, id, nextId, next);
    RotateDeadline(store, id, nextId, next);
  }

  lemma IssueTips(store: map<nat, Session>, id: nat, s: Session)
    requires OneTip(store) && FreshRow(store, id, s.refreshHash) && s.rotatedFrom == None && s.root == id
    ensures OneTip(store[id := s])
  {
    var store' := store[id := s];
    forall a | a in store && Childless(store', a) ensures Childless(store, a) {
      ChildlessBefore(store, store', a);
    }
  }

  lemma IssueRows(store: map<nat, Session>, id: nat, s: Session)
    requires RowsOk(store) && FreshRow(store, id, s.refreshHash)
    requires s.rotatedFrom == None && s.root == id && 0 < s.refreshExpires && s.accessExpires <= s.refreshExpires
    ensures RowsOk(store[id := s])
  {
    IssueTips(store, id, s);
  }

  lemma RevokeTips(store: map<nat, Session>, id: nat)
    requires OneTip(store) && id in store
    ensures OneTip(store[id := store[id].(revoked := true)])
  {
    var store' := store[id := store[id].(revoked := true)];
    forall a | a in store && Childless(store', a) ensures Childless(store, a) {
      ChildlessBefore(store, store', a);
    }
  }

  lemma RevokeRows(store: map<nat, Session>, id: nat)
    requires RowsOk(store) && id in store
    ensures RowsOk(store[id := store[id].(revoked := true)])
  {
    RevokeTips(store, id);
    var store' := store[id := store[id].(revoked := true)];
    assert TokensDiffer(store');
    assert ParentsRevoked(store');
    assert OneSuccessor(store');
    assert OneDeadline(store');
  }

  lemma RotateKeepsThreads(w: World, stripe: nat -> nat, t: nat, nextId: nat, next: Session)
    requires Inv(w, stripe) && t in w.phases && w.phases[t].Loaded?
    requires var id := w.phases[t].id; FreshRow(w.store, nextId, next.refreshHash) && next.rotatedFrom == Some(id)
    ensures var id := w.phases[t].id;
      ThreadsOk(Unlock(w, stripe, t).(store := Rotated(w.store, id, nextId, next)), stripe)
  {
    var id := w.phases[t].id;
    var w' := Unlock(w, stripe, t).(store := Rotated(w.store, id, nextId, next));
    forall u | u in w'.phases && w'.phases[u].Loaded?
      ensures var p := w'.phases[u];
        && p.id in w'.store && w'.store[p.id].refreshHash == p.hash && Childless(w'.store, p.id)
        && p.now < w'.store[p.id].refreshExpires
    {
      assert w.phases[u].id != id;
    }
  }

  /** A store change that adds no successor to an existing row keeps the
      goroutines' facts. */
  lemma ThreadsFrame(w: World, stripe: nat -> nat, store': map<nat, Session>)
    requires ThreadsOk(w, stripe)
    requires forall k :: k in w.store ==>
      && k in store' && store'[k].refreshHash == w.store[k].refreshHash
      && store'[k].rotatedFrom == w.store[k].rotatedFrom && store'[k].refreshExpires == w.store[k].refreshExpires
    requires forall k :: k in store' && k !in w.store ==> store'[k].rotatedFrom == None
    ensures ThreadsOk(w.(store := store'), stripe)
  {
  }

  lemma LoadKeepsThreads(w: World, stripe: nat -> nat, t: nat, id: nat, now: int)
    requires Inv(w, stripe) && t in w.phases && w.phases[t].Locked?
    requires id in w.store && w.store[id].refreshHash == w.phases[t].hash && !w.store[id].revoked
    requires now < w.store[id].refreshExpires
    ensures ThreadsOk(w.(phases := w.phases[t := Loaded(w.phases[t].hash, id, now)]), stripe)
  {
    assert Childless(w.store, id);
  }

  lemma RotateKeepsInv(w: World, stripe: nat -> nat, s: Step)
    requires Inv(w, stripe) && Enabled(w, stripe, s) && s.Rotate?
    ensures Inv(Apply(w, stripe, s), stripe)
  {
    var Loaded(_, id, loadedAt) := w.phases[s.thread];
    var sess := w.store[id];
    var next := BuildSession(s.nextHash, Some(id), sess.root, RefreshDeadline(sess.refreshExpires, loadedAt), s.now);
    if next.Some? && s.stored {
      RotateRows(w.store, id, s.nextId, next.value);
      RotateKeepsThreads(w, stripe, s.thread, s.nextId, next.value);
    }
  }

  lemma UnlockKeepsThreads(w: World, stripe: nat -> nat, t: nat)
    requires ThreadsOk(w, stripe) && t in w.phases
    ensures ThreadsOk(Unlock(w, stripe, t), stripe)
  {
  }

  lemma IssueKeepsInv(w: World, stripe: nat -> nat, s: Step)
    requires Inv(w, stripe) && Enabled(w, stripe, s) && s.Issue?
    ensures Inv(Apply(w, stripe, s), stripe)
  {
    var row := BuildSession(s.hash, None, s.id, s.now + REFRESH_TTL, s.now).value;
    IssueRows(w.store, s.id, row);
    ThreadsFrame(w, stripe, w.store[s.id := row]);
  }

  lemma LoadKeepsInv(w: World, stripe: nat -> nat, s: Step)
    requires Inv(w, stripe) && Enabled(w, stripe, s) && s.Load?
    ensures Inv(Apply(w, stripe, s), stripe)
  {
    UnlockKeepsThreads(w, stripe, s.thread);
    if s.id in w.store && w.store[s.id].refreshHash == w.phases[s.thread].hash && !w.store[s.id].revoked &&
      s.now < w.store[s.id].refreshExpires {
      LoadKeepsThreads(w, stripe, s.thread, s.id, s.now);
    }
  }

  lemma LockKeepsInv(w: World, stripe: nat -> nat, s: Step)
    requires Inv(w, stripe) && Enabled(w, stripe, s) && s.Lock?
    ensures Inv(Apply(w, stripe, s), stripe)
  {
    assert ThreadsOk(Apply(w, stripe, s), stripe);
  }

  lemma ApplyKeepsInv(w: World, stripe: nat -> nat, s: Step)
    requires Inv(w, stripe)
    ensures Inv(Apply(w, stripe, s), stripe)
  {
    if Enabled(w, stripe, s) {
      match s {
        case Issue(_, _, _) => IssueKeepsInv(w, stripe, s);
        case Lock(_, _) => LockKeepsInv(w, stripe, s);
        case Load(_, _, _, _) => LoadKeepsInv(w, stripe, s);
        case Rotate(_, _, _, _, _) => RotateKeepsInv(w, stripe, s);
        case Revoke(id) => RevokeKeepsInv(w, stripe, id);
        case Crash =>
      }
    }
  }

  lemma RevokeKeepsInv(w: World, stripe: nat -> nat, id: nat)
    requires Inv(w, stripe) && id in w.store
    ensures Inv(w.(store := w.store[id := w.store[id].(revoked := true)]), stripe)
  {
    RevokeRows(w.store, id);
    ThreadsFrame(w, stripe, w.store[id := w.store[id].(revoked := true)]);
  }

  lemma {:induction false} ReachableInv(stripe: nat -> nat, steps: seq<Step>)
    ensures Inv(After(stripe, steps), stripe)
  {
    if steps != [] {
      ReachableInv(stripe, steps[..|steps| - 1]);
      ApplyKeepsInv(After(stripe, steps[..|steps| - 1]), stripe, steps[|steps| - 1]);
    }
  }

  // ---------------------------------------------------------------- what holds over every run

  /** A refresh token is exchanged at most once: whatever the interleaving, a
      session is the source of at most one other. */
  lemma ExchangedOnce(stripe: nat -> nat, steps: seq<Step>, p: nat, a: nat, b: nat)
    requires var store := After(stripe, steps).store;
      a in store && b in store && store[a].rotatedFrom == Some(p) == store[b].rotatedFrom
    ensures a == b
    ensures var store := After(stripe, steps).store; p in store ==> store[p].revoked
  {
    ReachableInv(stripe, steps);
  }

  /** A chain of rotations has at most one session that is not revoked. */
  lemma OneLivePerChain(stripe: nat -> nat, steps: seq<Step>, a: nat, b: nat)
    requires var store := After(stripe, steps).store;
      a in store && b in store && store[a].root == store[b].root && !store[a].revoked && !store[b].revoked
    ensures a == b
  {
    ReachableInv(stripe, steps);
    var store := After(stripe, steps).store;
    assert Childless(store, a) && Childless(store, b);
  }

  /** Rotation never extends a login: the sessions of a chain all carry one
      deadline, and no access token of the chain outlives it. */
  lemma DeadlineIsAbsolute(stripe: nat -> nat, steps: seq<Step>, a: nat, b: nat)
    requires var store := After(stripe, steps).store; a in store && b in store && store[a].root == store[b].root
    ensures var store := After(stripe, steps).store;
      store[a].refreshExpires == store[b].refreshExpires && store[a].accessExpires <= store[b].refreshExpires
  {
    ReachableInv(stripe, steps);
  }

  // ---------------------------------------------------------------- revocation

  ghost predicate AllRevoked(w: World, root: nat) {
    forall a :: a in w.store && w.store[a].root == root ==> w.store[a].revoked
  }

  /** A goroutine has read a session of the chain and not yet rotated it. */
  ghost predicate InFlight(w: World, root: nat) {
    exists t :: t in w.phases && w.phases[t].Loaded? && w.phases[t].id in w.store &&
      w.store[w.phases[t].id].root == root
  }

  lemma DeadStaysDead(w: World, stripe: nat -> nat, s: Step, root: nat)
    requires Inv(w, stripe) && root in w.store && AllRevoked(w, root) && !InFlight(w, root)
    ensures AllRevoked(Apply(w, stripe, s), root) && !InFlight(Apply(w, stripe, s), root)
    ensures root in Apply(w, stripe, s).store
  {
    if Enabled(w, stripe, s) && s.Rotate? {
      assert w.store[w.phases[s.thread].id].root != root;
    }
    var w' := Apply(w, stripe, s);
  }

  function Continue(w: World, stripe: nat -> nat, steps: seq<Step>): World
    decreases |steps|
  {
    if steps == [] then w else Continue(Apply(w, stripe, steps[0]), stripe, steps[1..])
  }

  lemma {:induction false} DeadForever(w: World, stripe: nat -> nat, steps: seq<Step>, root: nat)
    requires Inv(w, stripe) && root in w.store && AllRevoked(w, root) && !InFlight(w, root)
    ensures AllRevoked(Continue(w, stripe, steps), root)
    decreases |steps|
  {
    if steps != [] {
      DeadStaysDead(w, stripe, steps[0], root);
      ApplyKeepsInv(w, stripe, steps[0]);
      DeadForever(Apply(w, stripe, steps[0]), stripe, steps[1..], root);
    }
  }

  lemma {:induction false} FreshIdExists(store: map<nat, Session>) returns (n: nat)
    ensures forall k :: k in store ==>
      k < n && store[k].root < n && store[k].refreshHash < n &&
      (store[k].rotatedFrom.Some? ==> store[k].rotatedFrom.value < n)
    decreases |store|
  {
    if store == map[] {
      n := 0;
    } else {
      var k :| k in store;
      var rest := store - {k};
      assert store.Keys == rest.Keys + {k};
      n := FreshIdExists(rest);
      var s := store[k];
      var m := n + k + s.root + s.refreshHash + (if s.rotatedFrom.Some? then s.rotatedFrom.value else 0) + 1;
      forall j | j in store
        ensures j < m && store[j].root < m && store[j].refreshHash < m &&
          (store[j].rotatedFrom.Some? ==> store[j].rotatedFrom.value < m)
      {
        if j != k {
          assert j in rest && rest[j] == store[j];
        }
      }
      n := m;
    }
  }

  /** A refresh in flight when its chain was revoked still completes, at the
      time it had read, and leaves a live session behind. */
  lemma InFlightRevives(w: World, stripe: nat -> nat, root: nat) returns (s: Step)
    requires Inv(w, stripe) && InFlight(w, root)
    ensures s.Rotate? && s.thread in w.phases && w.phases[s.thread].Loaded? && s.now == w.phases[s.thread].now
    ensures !AllRevoked(Apply(w, stripe, s), root)
  {
    var t :| t in w.phases && w.phases[t].Loaded? && w.phases[t].id in w.store &&
      w.store[w.phases[t].id].root == root;
    var id := FreshIdExists(w.store);
    assert FreshRow(w.store, id, id);
    s := Rotate(t, id, id, w.phases[t].now, true);
    var w' := Apply(w, stripe, s);
    assert w.store[w.phases[t].id].refreshExpires > 0;
    assert id in w'.store && w'.store[id].root == root && !w'.store[id].revoked;
  }

  lemma {:induction false} ContinueIsAfter(stripe: nat -> nat, steps: seq<Step>, more: seq<Step>)
    ensures Continue(After(stripe, steps), stripe, more) == After(stripe, steps + more)
    decreases |more|
  {
    if more == [] {
      assert steps + more == steps;
    } else {
      assert (steps + [more[0]])[..|steps|] == steps;
      assert steps + more == (steps + [more[0]]) + more[1..];
      ContinueIsAfter(stripe, steps + [more[0]], more[1..]);
    }
  }

  /** The store's rotation does not look at whether the old row was revoked
      meanwhile. After any run in which every session of a chain has been
      revoked, that is final exactly when no refresh of the chain is in
      flight. */
  lemma RevocationFinalIff(stripe: nat -> nat, steps: seq<Step>, root: nat)
    requires root in After(stripe, steps).store && AllRevoked(After(stripe, steps), root)
    ensures (forall more :: AllRevoked(After(stripe, steps + more), root)) <==> !InFlight(After(stripe, steps), root)
  {
    var w := After(stripe, steps);
    ReachableInv(stripe, steps);
    if InFlight(w, root) {
      var s := InFlightRevives(w, stripe, root);
      assert (steps + [s])[..|steps|] == steps;
      assert !AllRevoked(After(stripe, steps + [s]), root);
    } else {
      forall more ensures AllRevoked(After(stripe, steps + more), root) {
        DeadForever(w, stripe, more, root);
        ContinueIsAfter(stripe, steps, more);
      }
    }
  }

  /** Log in at 0, start to refresh at 1, and be revoked before the rotation. */
  function RevokedInFlight(): seq<Step> {
    [Issue(1, 1, 0), Lock(0, 1), Load(0, 1, 1, true)] + [Revoke(1), Rotate(0, 2, 2, 2, true)]
  }

  function FirstRow(): Session {
    Session(1, None, ACCESS_TTL, REFRESH_TTL, false, 1)
  }

  lemma AfterSnoc(stripe: nat -> nat, steps: seq<Step>, s: Step)
    ensures After(stripe, steps + [s]) == Apply(After(stripe, steps), stripe, s)
  {
    assert (steps + [s])[..|steps|] == steps;
  }

  lemma LoadedRun(stripe: nat -> nat)
    ensures After(stripe, RevokedInFlight()[..3])
         == World(map[1 := FirstRow()], map[0 := Loaded(1, 1, 1)], map[stripe(1) := 0])
  {
    var run := RevokedInFlight();
    AfterSnoc(stripe, [], run[0]);
    assert run[..1] == [] + [run[0]];
    assert After(stripe, run[..1]) == World(map[1 := FirstRow()], map[], map[]);
    AfterSnoc(stripe, run[..1], run[1]);
    assert run[..2] == run[..1] + [run[1]];
    assert After(stripe, run[..2]) == World(map[1 := FirstRow()], map[0 := Locked(1)], map[stripe(1) := 0]);
    AfterSnoc(stripe, run[..2], run[2]);
    assert run[..3] == run[..2] + [run[2]];
  }

  /** That run is one of the system's: when its last step comes the chain is
      fully revoked, and afterwards it has a live session. */
  lemma RevokedChainRevives(stripe: nat -> nat)
    ensures var run := RevokedInFlight();
      && 1 in After(stripe, run[..4]).store && AllRevoked(After(stripe, run[..4]), 1)
      && !AllRevoked(After(stripe, run), 1)
  {
    var run := RevokedInFlight();
    LoadedRun(stripe);
    AfterSnoc(stripe, run[..3], run[3]);
    assert run[..4] == run[..3] + [run[3]];
    var revoked := FirstRow().(revoked := true);
    var w := World(map[1 := revoked], map[0 := Loaded(1, 1, 1)], map[stripe(1) := 0]);
    assert After(stripe, run[..4]) == w;
    AfterSnoc(stripe, run[..4], run[4]);
    assert run == run[..4] + [run[4]];
    var after := Apply(w, stripe, run[4]);
    assert 2 in after.store && after.store[2].root == 1 && !after.store[2].revoked;
  }

  // ---------------------------------------------------------------- refreshing keeps a login alive

  /** A new session holds for fifteen minutes, or until the login's deadline if
      that comes first. */
  ghost predicate Successor(row: Session, from: nat, next: Session, hash: nat, builtAt: int) {
    && next.refreshHash == hash && next.rotatedFrom == Some(from) && next.root == row.root && !next.revoked
    && next.refreshExpires == row.refreshExpires
    && next.accessExpires == if builtAt + 900000 < row.refreshExpires then builtAt + 900000 else row.refreshExpires
  }

  /** One row becomes revoked and its successor comes in; nothing else changes. */
  ghost predicate Exchange(before: map<nat, Session>, after: map<nat, Session>, id: nat, nextId: nat, nextHash: nat, builtAt: int) {
    && id in before && nextId in after
    && Successor(before[id], id, after[nextId], nextHash, builtAt)
    && after - {nextId} == before[id := before[id].(revoked := true)]
  }

  /** A crash loses every lock and every refresh in flight, and no row. */
  lemma CrashFreesLocks(w: World, stripe: nat -> nat)
    ensures Apply(w, stripe, Crash) == World(w.store, map[], map[])
  {
  }

  /** Every stripe that is locked is held by a refresh in flight, so none stays
      locked for ever. */
  ghost predicate LocksHeld(w: World, stripe: nat -> nat) {
    forall s <- w.locks :: w.locks[s] in w.phases && stripe(w.phases[w.locks[s]].hash) == s
  }

  lemma {:induction false} LocksAreHeld(stripe: nat -> nat, steps: seq<Step>)
    ensures LocksHeld(After(stripe, steps), stripe)
  {
    if steps != [] {
      var n := |steps| - 1;
      LocksAreHeld(stripe, steps[..n]);
      ReachableInv(stripe, steps[..n]);
      ApplyKeepsLocks(After(stripe, steps[..n]), stripe, steps[n]);
    }
  }

  lemma ApplyKeepsLocks(w: World, stripe: nat -> nat, s: Step)
    requires LocksHeld(w, stripe) && ThreadsOk(w, stripe)
    ensures LocksHeld(Apply(w, stripe, s), stripe)
  {
    if Enabled(w, stripe, s) && (s.Load? || s.Rotate?) {
      UnlockKeepsLocks(w, stripe, s.thread);
    }
  }

  lemma UnlockKeepsLocks(w: World, stripe: nat -> nat, t: nat)
    requires LocksHeld(w, stripe) && t in w.phases
    ensures LocksHeld(Unlock(w, stripe, t), stripe)
  {
  }

  /** A login holds for thirty days from its time. */
  lemma LoginHolds(w: World, stripe: nat -> nat, id: nat, hash: nat, now: int)
    requires FreshRow(w.store, id, hash) && now >= 0
    ensures Apply(w, stripe, Issue(id, hash, now)) ==
      w.(store := w.store[id := Session(hash, None, now + 900000, now + 2592000000, false, id)])
  {
  }

  function RefreshSteps(thread: nat, hash: nat, id: nat, loadedAt: int, userActive: bool, nextId: nat, nextHash: nat, builtAt: int): seq<Step> {
    [Lock(thread, hash), Load(thread, id, loadedAt, userActive), Rotate(thread, nextId, nextHash, builtAt, true)]
  }

  /** Where locking, loading and rotating lead. */
  ghost function ThreeSteps(w: World, stripe: nat -> nat, thread: nat, id: nat, loadedAt: int, userActive: bool,
                            nextId: nat, nextHash: nat, builtAt: int): World
    requires id in w.store
  {
    var locked := Apply(w, stripe, Lock(thread, w.store[id].refreshHash));
    var loaded := Apply(locked, stripe, Load(thread, id, loadedAt, userActive));
    Apply(loaded, stripe, Rotate(thread, nextId, nextHash, builtAt, true))
  }

  lemma ExchangeByFields(w: World, stripe: nat -> nat, thread: nat, id: nat, loadedAt: int, userActive: bool,
                         nextId: nat, nextHash: nat, builtAt: int)
    requires id in w.store && FreshRow(w.store, nextId, nextHash) && w.store[id].refreshExpires > 0
    requires thread !in w.phases && stripe(w.store[id].refreshHash) !in w.locks
    ensures var row := w.store[id];
      var w' := ThreeSteps(w, stripe, thread, id, loadedAt, userActive, nextId, nextHash, builtAt);
      && w'.phases == w.phases && w'.locks == w.locks
      && if !row.revoked && userActive && loadedAt < row.refreshExpires && builtAt < row.refreshExpires
         then
           Exchange(w.store, w'.store, id, nextId, nextHash, builtAt)
         else w'.store == w.store
  {
    var hash := w.store[id].refreshHash;
    var locked := Apply(w, stripe, Lock(thread, hash));
    assert locked == World(w.store, w.phases[thread := Locked(hash)], w.locks[stripe(hash) := thread]);
    assert locked.phases - {thread} == w.phases && locked.locks - {stripe(hash)} == w.locks;
    var loaded := Apply(locked, stripe, Load(thread, id, loadedAt, userActive));
    if thread in loaded.phases {
      assert loaded == locked.(phases := w.phases[thread := Loaded(hash, id, loadedAt)]);
      assert loaded.phases - {thread} == w.phases;
    }
  }

  /** In every reachable world a session that is not revoked can be exchanged up
      to the deadline of its login, by an active user and with its lock free, and
      only then: otherwise locking, loading and rotating leave all as it was. The
      access token's own expiry plays no part. */
  lemma ExchangeIff(stripe: nat -> nat, steps: seq<Step>, thread: nat, id: nat, loadedAt: int, userActive: bool,
                    nextId: nat, nextHash: nat, builtAt: int)
    requires var w := After(stripe, steps);
      && id in w.store && FreshRow(w.store, nextId, nextHash)
      && thread !in w.phases && stripe(w.store[id].refreshHash) !in w.locks
    ensures var w := After(stripe, steps);
      var row := w.store[id];
      var w' := After(stripe, steps + RefreshSteps(thread, row.refreshHash, id, loadedAt, userActive, nextId, nextHash, builtAt));
      && w'.phases == w.phases && w'.locks == w.locks
      && if !row.revoked && userActive && loadedAt < row.refreshExpires && builtAt < row.refreshExpires
         then
           Exchange(w.store, w'.store, id, nextId, nextHash, builtAt)
         else w'.store == w.store
  {
    var w := After(stripe, steps);
    ReachableInv(stripe, steps);
    ExchangeByFields(w, stripe, thread, id, loadedAt, userActive, nextId, nextHash, builtAt);
    RefreshIsThreeSteps(stripe, steps, thread, id, loadedAt, userActive, nextId, nextHash, builtAt);
  }

  lemma RefreshIsThreeSteps(stripe: nat -> nat, steps: seq<Step>, thread: nat, id: nat, loadedAt: int, userActive: bool,
                            nextId: nat, nextHash: nat, builtAt: int)
    requires id in After(stripe, steps).store
    ensures var w := After(stripe, steps);
      After(stripe, steps + RefreshSteps(thread, w.store[id].refreshHash, id, loadedAt, userActive, nextId, nextHash, builtAt)) ==
      ThreeSteps(w, stripe, thread, id, loadedAt, userActive, nextId, nextHash, builtAt)
  {
    var more := RefreshSteps(thread, After(stripe, steps).store[id].refreshHash, id, loadedAt, userActive, nextId, nextHash, builtAt);
    AfterSnoc(stripe, steps, more[0]);
    AfterSnoc(stripe, steps + more[..1], more[1]);
    AfterSnoc(stripe, steps + more[..2], more[2]);
    assert steps + [more[0]] == steps + more[..1];
    assert steps + more[..1] + [more[1]] == steps + more[..2];
    assert steps + more[..2] + [more[2]] == steps + more;
  }

  // ---------------------------------------------------------------- one refresh from start to end

  datatype Answer = Tokens | BadCredentials | RevokedSession | ExpiredSession | DisabledUser | StoreError

  /** What the store says about the user of a session. */
  datatype UserLookup = ActiveUser | InactiveUser | UserMissing | UserLookupFailed

  /** How the transaction of a rotation ends: well, with an error and nothing
      written, or with an error although it was written. */
  datatype Fault = NoFault | FailedBefore | FailedAfter

  /** A row that may be exchanged at this time. */
  predicate Usable(s: Session, now: int) {
    !s.revoked && !(s.refreshExpires > 0 && now >= s.refreshExpires)
  }

  /** Why a refresh goes no further than reading: the first check that fails. */
  function Refusal(s: Session, now: int, user: UserLookup): Answer {
    if s.revoked then RevokedSession
    else if !Usable(s, now) then ExpiredSession
    else match user
      case UserMissing => BadCredentials
      case UserLookupFailed => StoreError
      case _ => DisabledUser
  }

  /** The answer to a refresh that found `row` for its token. */
  function Verdict(store: map<nat, Session>, wellFormed: bool, hash: nat, found: bool, row: nat, loadedAt: int,
                   user: UserLookup, builtAt: int, fault: Fault): Answer {
    if !wellFormed then BadCredentials
    else if !found then StoreError
    else if row !in store || store[row].refreshHash != hash then BadCredentials
    else if !Usable(store[row], loadedAt) || user != ActiveUser then Refusal(store[row], loadedAt, user)
    else if RefreshDeadline(store[row].refreshExpires, loadedAt) <= builtAt then ExpiredSession
    else if fault == NoFault then Tokens
    else StoreError
  }

  /** The row that the lookup of a well-formed token came back with. */
  ghost predicate Hit(store: map<nat, Session>, hash: nat, wellFormed: bool, found: bool, row: nat) {
    wellFormed && found && row in store && store[row].refreshHash == hash
  }

  /** It is neither revoked nor past its deadline, if it has one. */
  ghost predicate Open(s: Session, now: int) {
    !s.revoked && (s.refreshExpires <= 0 || now < s.refreshExpires)
  }

  /** The clock has not passed the deadline when the successor is built. */
  ghost predicate BuiltInTime(s: Session, loadedAt: int, builtAt: int) {
    builtAt < if s.refreshExpires > 0 then s.refreshExpires else loadedAt + 2592000000
  }

  /** Each answer by the fields of the row, the two clock readings, the user and
      the store's fault. */
  lemma VerdictByFields(store: map<nat, Session>, wellFormed: bool, hash: nat, found: bool, row: nat, loadedAt: int,
                        user: UserLookup, builtAt: int, fault: Fault)
    ensures var answer := Verdict(store, wellFormed, hash, found, row, loadedAt, user, builtAt, fault);
      var hit := Hit(store, hash, wellFormed, found, row);
      && (answer == Tokens <==>
            hit && Open(store[row], loadedAt) && user == ActiveUser && BuiltInTime(store[row], loadedAt, builtAt) && fault == NoFault)
      && (answer == RevokedSession <==> hit && store[row].revoked)
      && (answer == ExpiredSession <==>
            hit && !store[row].revoked &&
            (!Open(store[row], loadedAt) || (user == ActiveUser && !BuiltInTime(store[row], loadedAt, builtAt))))
      && (answer == DisabledUser <==> hit && Open(store[row], loadedAt) && user == InactiveUser)
      && (answer == BadCredentials <==>
            !wellFormed || (found && !hit) || (hit && Open(store[row], loadedAt) && user == UserMissing))
      && (answer == StoreError <==>
            (wellFormed && !found) ||
            (hit && Open(store[row], loadedAt) &&
             (user == UserLookupFailed ||
              (user == ActiveUser && BuiltInTime(store[row], loadedAt, builtAt) && fault != NoFault))))
  {
  }

  /** Tokens are given for an open row with its deadline ahead, to an active
      user, when the store works, and for nothing else. */
  lemma TokensByFields(store: map<nat, Session>, wellFormed: bool, hash: nat, found: bool, row: nat, loadedAt: int,
                       user: UserLookup, builtAt: int, fault: Fault)
    ensures Verdict(store, wellFormed, hash, found, row, loadedAt, user, builtAt, fault) == Tokens <==>
      && Hit(store, hash, wellFormed, found, row) && Open(store[row], loadedAt) && user == ActiveUser
      && BuiltInTime(store[row], loadedAt, builtAt) && fault == NoFault
  {
    VerdictByFields(store, wellFormed, hash, found, row, loadedAt, user, builtAt, fault);
  }

  /** A whole refresh: lock, load, rotate and, after a rotation that reported an
      error, revoke what it may have written. A step that was refused leaves
      nothing for the next one to do. */
  function Refreshed(w: World, stripe: nat -> nat, thread: nat, hash: nat, row: nat, loadedAt: int, userActive: bool,
                     nextId: nat, nextHash: nat, builtAt: int, fault: Fault, revoked: bool): World {
    var locked := Apply(w, stripe, Lock(thread, hash));
    var loaded := Apply(locked, stripe, Load(thread, row, loadedAt, userActive));
    Exchanged(loaded, stripe, thread, nextId, nextHash, builtAt, fault, revoked)
  }

  function Exchanged(w: World, stripe: nat -> nat, thread: nat, nextId: nat, nextHash: nat, builtAt: int, fault: Fault,
                     revoked: bool): World {
    var rotated := Apply(w, stripe, Rotate(thread, nextId, nextHash, builtAt, fault != FailedBefore));
    if fault != NoFault && revoked then Apply(rotated, stripe, Revoke(nextId)) else rotated
  }

  lemma NothingToExchange(w: World, stripe: nat -> nat, thread: nat, nextId: nat, nextHash: nat, builtAt: int, fault: Fault,
                          revoked: bool)
    requires thread !in w.phases && nextId !in w.store
    ensures Exchanged(w, stripe, thread, nextId, nextHash, builtAt, fault, revoked) == w
  {
  }

  /** What each fault of the store's transaction leaves: nothing written, or the
      exchange, whose successor is then revoked if the revocation works. */
  lemma ExchangedByFault(w: World, stripe: nat -> nat, thread: nat, nextId: nat, nextHash: nat, builtAt: int, fault: Fault,
                         revoked: bool)
    requires thread in w.phases && w.phases[thread].Loaded? && w.phases[thread].id in w.store
    requires FreshRow(w.store, nextId, nextHash) && w.store[w.phases[thread].id].refreshExpires > 0
    ensures var id := w.phases[thread].id;
      var after := Exchanged(w, stripe, thread, nextId, nextHash, builtAt, fault, revoked);
      var late := builtAt >= w.store[id].refreshExpires;
      && after.phases == w.phases - {thread}
      && (late || fault == FailedBefore ==> after.store == w.store)
      && (!late && fault == NoFault ==> Exchange(w.store, after.store, id, nextId, nextHash, builtAt))
      && (!late && fault == FailedAfter ==>
            nextId in after.store && after.store[nextId].revoked == revoked
            && Exchange(w.store, after.store[nextId := after.store[nextId].(revoked := false)], id, nextId, nextHash, builtAt))
  {
    var rotated := Apply(w, stripe, Rotate(thread, nextId, nextHash, builtAt, fault != FailedBefore));
    if nextId in rotated.store {
      assert rotated.store - {nextId} == w.store[w.phases[thread].id := w.store[w.phases[thread].id].(revoked := true)];
    }
  }

  /** The account service with its store. */
  class Service {
    const stripe: nat -> nat
    var store: map<nat, Session>
    var phases: map<nat, Phase>
    var locks: map<nat, nat>

    ghost function View(): World
      reads this
    {
      World(store, phases, locks)
    }

    constructor (stripe: nat -> nat)
      ensures View() == Start && this.stripe == stripe
    {
      this.stripe := stripe;
      store, phases, locks := map[], map[], map[];
    }

    method Lookup(hash: nat) returns (row: Option<nat>)
      ensures row.Some? ==> row.value in store && store[row.value].refreshHash == hash
      ensures row.None? ==> forall k :: k in store ==> store[k].refreshHash != hash
    {
      if k :| k in store && store[k].refreshHash == hash {
        return Some(k);
      }
      return None;
    }

    method Acquire(thread: nat, hash: nat)
      requires thread !in phases && stripe(hash) !in locks
      modifies this`phases, this`locks
      ensures View() == Apply(old(View()), stripe, Lock(thread, hash))
      ensures thread in phases && phases[thread] == Locked(hash)
      ensures phases - {thread} == old(phases) && locks - {stripe(hash)} == old(locks)
    {
      locks, phases := locks[stripe(hash) := thread], phases[thread := Locked(hash)];
    }

    method Release(thread: nat)
      requires thread in phases
      modifies this`phases, this`locks
      ensures View() == Unlock(old(View()), stripe, thread)
    {
      locks := locks - {stripe(phases[thread].hash)};
      phases := phases - {thread};
    }

    /** Reads the row and checks it; a refresh that goes no further lets its
        lock go. `Tokens` stands for going on. */
    method LoadSession(thread: nat, hash: nat, found: bool, loadedAt: int, user: UserLookup)
      returns (answer: Answer, row: nat)
      requires thread in phases && phases[thread] == Locked(hash)
      modifies this`phases, this`locks
      ensures View() == Apply(old(View()), stripe, Load(thread, row, loadedAt, found && user.ActiveUser?))
      ensures answer == Tokens <==> thread in phases
      ensures answer == Tokens ==> phases == old(phases)[thread := Loaded(hash, row, loadedAt)] && locks == old(locks)
      ensures answer == Tokens <==>
        found && row in store && store[row].refreshHash == hash && Usable(store[row], loadedAt) && user.ActiveUser?
      ensures answer == Tokens <==> Hit(store, hash, true, found, row) && Open(store[row], loadedAt) && user == ActiveUser
      ensures answer == RevokedSession <==> Hit(store, hash, true, found, row) && store[row].revoked
      ensures answer == ExpiredSession <==>
        Hit(store, hash, true, found, row) && !store[row].revoked && !Open(store[row], loadedAt)
      ensures answer != Tokens ==>
        answer == if !found then StoreError
                  else if row !in store || store[row].refreshHash != hash then BadCredentials
                  else Refusal(store[row], loadedAt, user)
      ensures found && (row !in store || store[row].refreshHash != hash) ==>
        forall k :: k in store ==> store[k].refreshHash != hash
    {
      row := 0;
      if !found {
        Release(thread);
        return StoreError, row;
      }
      var hit := Lookup(hash);
      if hit.None? {
        Release(thread);
        return BadCredentials, row;
      }
      row := hit.value;
      if !Usable(store[row], loadedAt) || user != ActiveUser {
        Release(thread);
        return Refusal(store[row], loadedAt, user), row;
      }
      phases := phases[thread := Loaded(hash, row, loadedAt)];
      answer := Tokens;
    }

    /** Builds the successor, stores it and, if the store reports an error,
        revokes it, whether it was written or not. */
    method RotateSession(thread: nat, nextId: nat, nextHash: nat, builtAt: int, fault: Fault, revoked: bool)
      returns (answer: Answer)
      requires thread in phases && phases[thread].Loaded? && phases[thread].id in store
      requires FreshRow(store, nextId, nextHash)
      modifies this
      ensures View() == Exchanged(old(View()), stripe, thread, nextId, nextHash, builtAt, fault, revoked)
      ensures phases == old(phases) - {thread} && locks == old(locks) - {stripe(old(phases[thread]).hash)}
      ensures var Loaded(_, id, loadedAt) := old(phases[thread]);
        answer == if RefreshDeadline(old(store)[id].refreshExpires, loadedAt) <= builtAt then ExpiredSession
                  else if fault == NoFault then Tokens else StoreError
      ensures answer == ExpiredSession ==> store == old(store)
      ensures var Loaded(_, id, _) := old(phases[thread]);
        answer == Tokens && old(store)[id].refreshExpires > 0 ==>
          Exchange(old(store), store, id, nextId, nextHash, builtAt)
      ensures answer == Tokens ==> nextId in store
      ensures answer == StoreError && revoked && nextId in store ==> store[nextId].revoked
    {
      var Loaded(_, id, loadedAt) := phases[thread];
      var sess := store[id];
      var next := BuildSession(nextHash, Some(id), sess.root, RefreshDeadline(sess.refreshExpires, loadedAt), builtAt);
      Release(thread);
      if next.None? {
        return ExpiredSession;
      }
      if fault != FailedBefore {
        store := store[id := sess.(revoked := true)][nextId := next.value];
      }
      if fault == NoFault {
        return Tokens;
      }
      if revoked && nextId in store {
        store := store[nextId := store[nextId].(revoked := true)];
      }
      answer := StoreError;
    }

    /** `loadedAt` and `builtAt` are two readings of the clock. */
    method Refresh(wellFormed: bool, thread: nat, hash: nat, found: bool, loadedAt: int, user: UserLookup,
                   nextId: nat, nextHash: nat, builtAt: int, fault: Fault, revoked: bool)
      returns (answer: Answer, ghost row: nat)
      requires thread !in phases && stripe(hash) !in locks && FreshRow(store, nextId, nextHash)
      modifies this
      ensures View() == if !wellFormed then old(View())
        else Refreshed(old(View()), stripe, thread, hash, row, loadedAt, found && user.ActiveUser?, nextId, nextHash,
                       builtAt, fault, revoked)
      ensures phases == old(phases) && locks == old(locks)
      ensures answer == Verdict(old(store), wellFormed, hash, found, row, loadedAt, user, builtAt, fault)
      ensures wellFormed && found && !(row in old(store) && old(store)[row].refreshHash == hash) ==>
        forall k :: k in old(store) ==> old(store)[k].refreshHash != hash
      ensures answer == Tokens <==>
        && Hit(old(store), hash, wellFormed, found, row) && Open(old(store)[row], loadedAt) && user == ActiveUser
        && BuiltInTime(old(store)[row], loadedAt, builtAt) && fault == NoFault
      ensures answer == Tokens && old(store)[row].refreshExpires > 0 ==>
        Exchange(old(store), store, row, nextId, nextHash, builtAt)
      ensures answer == Tokens ==> nextId in store
      ensures answer != Tokens && answer != StoreError ==> store == old(store)
      ensures answer == StoreError && revoked && nextId in store ==> store[nextId].revoked
    {
      row := 0;
      TokensByFields(store, wellFormed, hash, found, row, loadedAt, user, builtAt, fault);
      if !wellFormed {
        return BadCredentials, row;
      }
      Acquire(thread, hash);
      var id;
      answer, id := LoadSession(thread, hash, found, loadedAt, user);
      row := id;
      TokensByFields(store, wellFormed, hash, found, row, loadedAt, user, builtAt, fault);
      if answer != Tokens {
        NothingToExchange(View(), stripe, thread, nextId, nextHash, builtAt, fault, revoked);
        return;
      }
      answer := RotateSession(thread, nextId, nextHash, builtAt, fault, revoked);
    }
  }
}
