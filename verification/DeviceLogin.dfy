/** Device-code login: one code, polled from any number of processes, redeemed
    through an atomic store step with a compensating revoke. */
module DeviceLogin {
  import opened Wrappers

  datatype Status = Pending | Approved | Consumed | Expired

  /** A poll: what it has done so far, or how it returned. `Won` returned
      tokens; `Cleaned` returned an error after revoking its session; `Leaked`
      failed to revoke; `Dead` is a poll whose process died. */
  datatype Poll =
    | Refused
    | Checked
    | Issued(session: nat)
    | Lost(session: nat)
    | Won(session: nat)
    | Cleaned(session: nat)
    | Leaked(session: nat)
    | Dead(held: Option<nat>)
  {
    /** The session the poll created, if it got that far. */
    function Created(): Option<nat> {
      match this
      case Issued(k) => Some(k)
      case Lost(k) => Some(k)
      case Won(k) => Some(k)
      case Cleaned(k) => Some(k)
      case Leaked(k) => Some(k)
      case Dead(held) => held
      case _ => None
    }

    predicate Finished() {
      Refused? || Won? || Cleaned?
    }
  }

  /** A session row; `poll` is history, the poll that created it. */
  datatype Session = Session(live: bool, poll: nat)

  datatype World = World(status: Status, expiresAt: int, sessions: map<nat, Session>, polls: map<nat, Poll>)

  /** What the store answers to the conditional update: its result, an error
      with nothing written, or an error after the write. */
  datatype Fault = NoFault | FailedBefore | FailedAfter

  datatype Step =
    | Approve(now: int)
    | Read(poll: nat, now: int, userActive: bool)
    | Issue(poll: nat, session: nat, stored: bool)
    | Consume(poll: nat, fault: Fault)
    | Compensate(poll: nat, stored: bool)
    | Die(poll: nat)

  predicate PastExpiry(w: World, now: int) {
    w.expiresAt > 0 && now >= w.expiresAt
  }

  function Apply(w: World, s: Step): World {
    match s
    case Approve(now) =>
      if PastExpiry(w, now) || w.status != Pending then w else w.(status := Approved)
    case Read(t, now, userActive) =>
      if t in w.polls then w
      else w.(polls := w.polls[t :=
                if !PastExpiry(w, now) && w.status == Approved && userActive then Checked else Refused])
    case Issue(t, session, stored) =>
      if t !in w.polls || !w.polls[t].Checked? || session in w.sessions then w
      else if !stored then w.(polls := w.polls[t := Refused])
      else w.(sessions := w.sessions[session := Session(true, t)], polls := w.polls[t := Issued(session)])
    case Consume(t, fault) =>
      if t !in w.polls || !w.polls[t].Issued? then w
      else
        var session := w.polls[t].session;
        var taken := fault != FailedBefore && w.status == Approved;
        w.(status := if taken then Consumed else w.status,
           polls := w.polls[t := if taken && fault == NoFault then Won(session) else Lost(session)])
    case Compensate(t, stored) =>
      if t !in w.polls || !w.polls[t].Lost? then w
      else
        var session := w.polls[t].session;
        if stored then w.(sessions := w.sessions[session := Session(false, t)], polls := w.polls[t := Cleaned(session)])
        else w.(polls := w.polls[t := Leaked(session)])
    case Die(t) =>
      if t !in w.polls || w.polls[t].Finished() then w
      else
        var p := w.polls[t];
        w.(polls := w.polls[t := Dead(if p.Issued? || p.Lost? || p.Leaked? then Some(p.session)
                                      else if p.Dead? then p.held else None)])
  }

  function Start(expiresAt: int): World {
    World(Pending, expiresAt, map[], map[])
  }

  function After(expiresAt: int, steps: seq<Step>): World {
    if steps == [] then Start(expiresAt)
    else Apply(After(expiresAt, steps[..|steps| - 1]), steps[|steps| - 1])
  }

  ghost predicate WinnerOk(w: World) {
    && (forall t :: t in w.polls && w.polls[t].Won? ==> w.status == Consumed)
    && (forall t, u :: t in w.polls && u in w.polls && w.polls[t].Won? && w.polls[u].Won? ==> t == u)
  }

  /** A poll and the session it created know each other, and the session is
      live unless the poll revoked it. */
  ghost predicate SessionsOk(w: World) {
    && (forall t :: t in w.polls && w.polls[t].Created().Some? ==>
          var s := w.polls[t].Created().value;
          s in w.sessions && w.sessions[s] == Session(!w.polls[t].Cleaned?, t))
    && (forall s :: s in w.sessions ==>
          w.sessions[s].poll in w.polls && w.polls[w.sessions[s].poll].Created() == Some(s))
  }

  ghost predicate Inv(w: World) {
    WinnerOk(w) && SessionsOk(w)
  }

  lemma ApplyKeepsWinner(w: World, step: Step)
    requires WinnerOk(w)
    ensures WinnerOk(Apply(w, step))
  {
  }

  lemma ApplyKeepsSessions(w: World, step: Step)
    requires SessionsOk(w)
    ensures SessionsOk(Apply(w, step))
  {
    match step {
      case Issue(_, _, _) => IssueKeepsSessions(w, step);
      case Compensate(_, _) => CompensateKeepsSessions(w, step);
      case _ => OthersKeepSessions(w, step);
    }
  }

  lemma IssueKeepsSessions(w: World, step: Step)
    requires SessionsOk(w) && step.Issue?
    ensures SessionsOk(Apply(w, step))
  {
  }

  lemma CompensateKeepsSessions(w: World, step: Step)
    requires SessionsOk(w) && step.Compensate?
    ensures SessionsOk(Apply(w, step))
  {
  }

  lemma OthersKeepSessions(w: World, step: Step)
    requires SessionsOk(w) && !step.Issue? && !step.Compensate?
    ensures SessionsOk(Apply(w, step))
  {
  }

  lemma ApplyKeepsInv(w: World, step: Step)
    requires Inv(w)
    ensures Inv(Apply(w, step))
  {
    ApplyKeepsWinner(w, step);
    ApplyKeepsSessions(w, step);
  }

  lemma {:induction false} ReachableInv(expiresAt: int, steps: seq<Step>)
    ensures Inv(After(expiresAt, steps))
  {
    if steps != [] {
      ReachableInv(expiresAt, steps[..|steps| - 1]);
      ApplyKeepsInv(After(expiresAt, steps[..|steps| - 1]), steps[|steps| - 1]);
    }
  }

  /** At most one poll returns tokens, and then the code is consumed. */
  lemma RedeemedOnce(expiresAt: int, steps: seq<Step>, t: nat, u: nat)
    requires var w := After(expiresAt, steps);
      t in w.polls && u in w.polls && w.polls[t].Won? && w.polls[u].Won?
    ensures t == u && After(expiresAt, steps).status == Consumed
  {
    ReachableInv(expiresAt, steps);
  }

  /** A losing poll that has returned left no live session, and the winner's is
      live. */
  lemma LosersCleanUp(expiresAt: int, steps: seq<Step>, t: nat, s: nat)
    requires var w := After(expiresAt, steps); t in w.polls && w.polls[t].Finished() && w.polls[t].Created() == Some(s)
    ensures var w := After(expiresAt, steps); s in w.sessions && (w.sessions[s].live <==> w.polls[t].Won?)
  {
    ReachableInv(expiresAt, steps);
  }

  /** Once every poll has returned, none having died or failed to revoke, the
      live sessions are exactly the winner's. */
  lemma OneSessionPerCode(expiresAt: int, steps: seq<Step>, s: nat)
    requires var w := After(expiresAt, steps);
      s in w.sessions && forall t :: t in w.polls ==> w.polls[t].Finished()
    ensures var w := After(expiresAt, steps);
      w.sessions[s].live <==> exists t :: t in w.polls && w.polls[t] == Won(s)
  {
    ReachableInv(expiresAt, steps);
    var w := After(expiresAt, steps);
    var t := w.sessions[s].poll;
    assert w.polls[t].Created() == Some(s);
    assert w.sessions[s].live ==> w.polls[t] == Won(s);
  }

  // ---------------------------------------------------------------- the in-process fallback

  const PRUNE_AT := 256

  datatype Claim = Claim(hash: nat, now: int, expiresAt: int)

  function Pruned(m: map<nat, int>, now: int): map<nat, int> {
    if |m| >= PRUNE_AT then map k | k in m && m[k] > now :: m[k] else m
  }

  predicate Granted(m: map<nat, int>, c: Claim) {
    !(c.hash in m && m[c.hash] > c.now)
  }

  function Claimed(m: map<nat, int>, c: Claim): map<nat, int> {
    var kept := Pruned(m, c.now);
    if Granted(kept, c) then kept[c.hash := c.expiresAt] else kept
  }

  /** One process's table of redeemed codes, used when the store cannot consume
      a code atomically. */
  class UsedDeviceCodes {
    var m: map<nat, int>

    constructor ()
      ensures m == map[]
    {
      m := map[];
    }

    method TryClaim(hash: nat, now: int, expiresAt: int) returns (ok: bool)
      modifies this
      ensures ok == Granted(old(m), Claim(hash, now, expiresAt))
      ensures m == Claimed(old(m), Claim(hash, now, expiresAt))
    {
      if |m| >= PRUNE_AT {
        var todo := m.Keys;
        var kept := m;
        while todo != {}
          invariant todo <= m.Keys
          invariant kept == map k | k in m && (k in todo || m[k] > now) :: m[k]
          decreases todo
        {
          var k :| k in todo;
          todo := todo - {k};
          if m[k] <= now {
            kept := kept - {k};
          }
        }
        m := kept;
      }
      if hash in m && m[hash] > now {
        return false;
      }
      m := m[hash := expiresAt];
      ok := true;
    }
  }

  function TableAfter(m: map<nat, int>, claims: seq<Claim>): map<nat, int>
    decreases |claims|
  {
    if claims == [] then m else TableAfter(Claimed(m, claims[0]), claims[1..])
  }

  /** As long as no clock has reached a recorded expiry, the record stays,
      whatever else is claimed or pruned. */
  lemma {:induction false} BlockedUntilExpiry(m: map<nat, int>, hash: nat, expiry: int, claims: seq<Claim>)
    requires hash in m && m[hash] == expiry
    requires forall c :: c in claims ==> c.now < expiry
    ensures var m' := TableAfter(m, claims); hash in m' && m'[hash] == expiry
    decreases |claims|
  {
    if claims != [] {
      assert claims[0] in claims;
      BlockedUntilExpiry(Claimed(m, claims[0]), hash, expiry, claims[1..]);
    }
  }

  /** A claim that clears the table of a code although its expiry is recorded:
      the table is full and the claim's clock has passed that expiry. */
  predicate Clears(m: map<nat, int>, c: Claim, expiry: int) {
    |m| >= PRUNE_AT && c.now >= expiry
  }

  ghost predicate NeverCleared(m: map<nat, int>, claims: seq<Claim>, expiry: int)
    decreases |claims|
  {
    claims != [] ==> !Clears(m, claims[0], expiry) && NeverCleared(Claimed(m, claims[0]), claims[1..], expiry)
  }

  /** None of the claims on the code is granted. */
  ghost predicate AllRefused(m: map<nat, int>, claims: seq<Claim>, hash: nat)
    decreases |claims|
  {
    claims != [] ==>
      (claims[0].hash == hash ==> !Granted(m, claims[0])) && AllRefused(Claimed(m, claims[0]), claims[1..], hash)
  }

  /** A code that is not recorded is granted to whoever claims it next. */
  lemma {:induction false} UnrecordedIsGranted(m: map<nat, int>, claims: seq<Claim>, hash: nat)
    requires hash !in m && claims != [] && claims[|claims| - 1].hash == hash
    ensures !AllRefused(m, claims, hash)
    decreases |claims|
  {
    if claims[0].hash != hash {
      UnrecordedIsGranted(Claimed(m, claims[0]), claims[1..], hash);
    }
  }

  /** A recorded code is refused to all later claims on it exactly when each of
      them comes before its expiry and no claim in between, on any code, finds
      the table full with a clock past that expiry. The clocks need not be in
      order: each poll reads its own before it claims. */
  lemma {:induction false} RefusedIff(m: map<nat, int>, hash: nat, expiry: int, claims: seq<Claim>)
    requires hash in m && m[hash] == expiry
    requires claims != [] && claims[|claims| - 1].hash == hash
    requires forall c <- claims :: c.hash == hash ==> c.expiresAt == expiry
    ensures AllRefused(m, claims, hash) <==>
      (forall c <- claims :: c.hash == hash ==> c.now < expiry) && NeverCleared(m, claims, expiry)
    decreases |claims|
  {
    var c, rest := claims[0], claims[1..];
    assert claims == [c] + rest;
    var m' := Claimed(m, c);
    if c.hash == hash {
      if c.now < expiry && rest != [] {
        RefusedIff(m', hash, expiry, rest);
      }
    } else if Clears(m, c, expiry) {
      UnrecordedIsGranted(m', rest, hash);
    } else {
      RefusedIff(m', hash, expiry, rest);
    }
  }

  /** The table redeems a code once exactly when the code has an expiry and no
      claim in between clears it. `first` is granted, `second` is the last poll
      of the same code; a poll claims a code only before its expiry, and clocks
      are not negative. Nothing is asked of the clocks of other codes. */
  lemma FallbackOnceIff(m: map<nat, int>, first: Claim, between: seq<Claim>, second: Claim)
    requires Granted(m, first) && second.hash == first.hash
    requires forall c <- between + [second] ::
      c.hash == first.hash ==> c.expiresAt == first.expiresAt && c.now >= 0 && (c.expiresAt > 0 ==> c.now < c.expiresAt)
    ensures AllRefused(Claimed(m, first), between + [second], first.hash) <==>
      first.expiresAt > 0 && NeverCleared(Claimed(m, first), between + [second], first.expiresAt)
  {
    assert Granted(Pruned(m, first.now), first);
    var claims := between + [second];
    assert second in claims;
    RefusedIff(Claimed(m, first), first.hash, first.expiresAt, claims);
  }

  /** `n` claims on other codes, all expiring at 100. */
  function Fill(n: nat): (claims: seq<Claim>)
    ensures |claims| == n
  {
    if n == 0 then [] else Fill(n - 1) + [Claim(n, 0, 100)]
  }

  function Filled(n: nat): (m: map<nat, int>)
    ensures forall k :: k in m <==> 1 <= k <= n
    ensures forall k <- m :: m[k] == 100
  {
    if n == 0 then map[] else Filled(n - 1)[n := 100]
  }

  lemma {:induction false} FilledSize(n: nat)
    ensures |Filled(n)| == n
  {
    if n > 0 {
      FilledSize(n - 1);
      assert Filled(n).Keys == Filled(n - 1).Keys + {n};
      assert |Filled(n).Keys| == |Filled(n - 1).Keys| + 1;
    }
  }

  lemma TableSnoc(m: map<nat, int>, claims: seq<Claim>, c: Claim)
    ensures TableAfter(m, claims + [c]) == Claimed(TableAfter(m, claims), c)
    decreases |claims|
  {
    if claims != [] {
      assert (claims + [c])[1..] == claims[1..] + [c];
      TableSnoc(Claimed(m, claims[0]), claims[1..], c);
    } else {
      assert [c][1..] == [];
    }
  }

  lemma {:induction false} FillFills(n: nat)
    requires n < PRUNE_AT
    ensures TableAfter(map[], Fill(n)) == Filled(n)
  {
    if n > 0 {
      FillFills(n - 1);
      FilledSize(n - 1);
      TableSnoc(map[], Fill(n - 1), Claim(n, 0, 100));
    }
  }

  const RACE_FILL: nat := 255

  /** From the empty table: after 255 other codes, a poll of code 0 at time 5
      redeems it until 10; a poll of code 1000 whose clock says 10 clears it; a
      poll of code 0 that read 9 before that is granted again. */
  lemma RedeemedTwice()
    ensures var full := TableAfter(map[], Fill(RACE_FILL));
      var once := Claimed(full, Claim(0, 5, 10));
      var cleared := Claimed(once, Claim(1000, 10, 50));
      && Granted(full, Claim(0, 5, 10))
      && !Granted(once, Claim(0, 9, 10))
      && Granted(cleared, Claim(0, 9, 10))
  {
    FillFills(RACE_FILL);
    FilledSize(RACE_FILL);
    var full := Filled(RACE_FILL);
    var once := Claimed(full, Claim(0, 5, 10));
    assert once == full[0 := 10];
    assert once.Keys == full.Keys + {0};
    assert |once| == |once.Keys| == PRUNE_AT;
    assert 0 !in Pruned(once, 10);
  }

  // ---------------------------------------------------------------- one poll from start to end

  datatype Answer = Tokens | BadCredentials | AuthorizationPending | RevokedCode | ExpiredCode | DisabledUser | StoreError

  /** What the store says about the row of the polled code, and of its user. */
  datatype CodeLookup = CodeFound | CodeMissing | CodeLookupFailed

  datatype UserLookup = ActiveUser | InactiveUser | UserMissing | UserLookupFailed

  /** The rest of a poll that was let through: issue, consume and, when that
      fails, revoke. */
  function Redeemed(w: World, t: nat, session: nat, issued: bool, fault: Fault, revoked: bool): World {
    var made := Apply(w, Issue(t, session, issued));
    var consumed := Apply(made, Consume(t, fault));
    Apply(consumed, Compensate(t, revoked))
  }

  class Service {
    const expiresAt: int
    var status: Status
    var sessions: map<nat, Session>
    var polls: map<nat, Poll>

    ghost function View(): World
      reads this
    {
      World(status, expiresAt, sessions, polls)
    }

    constructor (expiresAt: int)
      ensures View() == Start(expiresAt)
    {
      this.expiresAt := expiresAt;
      status, sessions, polls := Pending, map[], map[];
    }

    /** The conditional update of the store: one transaction, which may fail
        before or after it is written. */
    method ConsumeDeviceCode(fault: Fault) returns (ok: bool, conflict: bool)
      modifies this`status
      ensures ok <==> old(status) == Approved && fault == NoFault
      ensures conflict <==> old(status) != Approved && fault == NoFault
      ensures status == if old(status) == Approved && fault != FailedBefore then Consumed else old(status)
    {
      if fault == FailedBefore {
        return false, false;
      }
      ok := status == Approved;
      conflict := !ok && fault == NoFault;
      if ok {
        status := Consumed;
      }
      ok := ok && fault == NoFault;
    }

    /** Consumes the code and, when that fails, revokes the session. */
    method Settle(t: nat, session: nat, fault: Fault, revoked: bool) returns (answer: Answer)
      requires t in polls && polls[t] == Issued(session)
      modifies this
      ensures View() == Apply(Apply(old(View()), Consume(t, fault)), Compensate(t, revoked))
      ensures answer == if old(status) == Approved && fault == NoFault then Tokens
                        else if fault == NoFault then RevokedCode else StoreError
    {
      var ok, conflict := ConsumeDeviceCode(fault);
      if ok {
        polls := polls[t := Won(session)];
        return Tokens;
      }
      if revoked {
        sessions := sessions[session := Session(false, t)];
        polls := polls[t := Cleaned(session)];
      } else {
        polls := polls[t := Leaked(session)];
      }
      answer := if conflict then RevokedCode else StoreError;
    }

    /** Issue first, consume second: a code is never burnt without a session,
        and a session without its code is revoked. */
    method Redeem(t: nat, session: nat, issued: bool, fault: Fault, revoked: bool) returns (answer: Answer)
      requires t in polls && polls[t].Checked? && session !in sessions
      modifies this
      ensures View() == Redeemed(old(View()), t, session, issued, fault, revoked)
      ensures answer == if !issued then StoreError
                        else if old(status) == Approved && fault == NoFault then Tokens
                        else if fault == NoFault then RevokedCode else StoreError
    {
      if !issued {
        polls := polls[t := Refused];
        RefusedStays(View(), t, session, issued, fault, revoked);
        return StoreError;
      }
      sessions, polls := sessions[session := Session(true, t)], polls[t := Issued(session)];
      answer := Settle(t, session, fault, revoked);
    }

    /** The checks in the order they are made, and then the redemption. */
    method PollDeviceLogin(wellFormed: bool, code: CodeLookup, t: nat, now: int, user: UserLookup, session: nat,
                           issued: bool, fault: Fault, revoked: bool)
      returns (answer: Answer)
      requires t !in polls && session !in sessions
      modifies this
      ensures var through := LetThrough(old(View()), wellFormed, code, now, user);
        && View() == Redeemed(Apply(old(View()), Read(t, now, wellFormed && code.CodeFound? && user.ActiveUser?)),
                              t, session, issued, fault, revoked)
        && answer == if !through then Refusal(old(View()), wellFormed, code, now, user)
                     else if !issued then StoreError
                     else if fault == NoFault then Tokens else StoreError
      ensures answer == Tokens <==>
        && wellFormed && code == CodeFound && (expiresAt <= 0 || now < expiresAt)
        && old(status) == Approved && user == ActiveUser && issued && fault == NoFault
      ensures !(OpenCode(expiresAt, wellFormed, code, now) && old(status) == Approved && user == ActiveUser) ==>
        ToldAtCheck(expiresAt, old(status), wellFormed, code, now, user, answer) && status == old(status)
    {
      ghost var read := Apply(View(), Read(t, now, wellFormed && code.CodeFound? && user.ActiveUser?));
      answer := Check(wellFormed, code, now, user);
      if answer != Tokens {
        polls := polls[t := Refused];
        RefusedStays(read, t, session, issued, fault, revoked);
        return;
      }
      polls := polls[t := Checked];
      answer := Redeem(t, session, issued, fault, revoked);
    }

    /** `Tokens` lets the poll through. */
    method Check(wellFormed: bool, code: CodeLookup, now: int, user: UserLookup) returns (answer: Answer)
      ensures answer == if LetThrough(View(), wellFormed, code, now, user) then Tokens
                        else Refusal(View(), wellFormed, code, now, user)
      ensures ToldAtCheck(expiresAt, status, wellFormed, code, now, user, answer)
    {
      CheckByFields(View(), wellFormed, code, now, user);
      if !wellFormed {
        return BadCredentials;
      }
      match code {
        case CodeMissing => return BadCredentials;
        case CodeLookupFailed => return StoreError;
        case CodeFound =>
      }
      if expiresAt > 0 && now >= expiresAt {
        return ExpiredCode;
      }
      match status {
        case Pending => return AuthorizationPending;
        case Consumed => return RevokedCode;
        case Expired => return ExpiredCode;
        case Approved =>
      }
      match user {
        case UserMissing => return RevokedCode;
        case UserLookupFailed => return StoreError;
        case InactiveUser => return DisabledUser;
        case ActiveUser => return Tokens;
      }
    }
  }

  predicate LetThrough(w: World, wellFormed: bool, code: CodeLookup, now: int, user: UserLookup) {
    wellFormed && code.CodeFound? && !PastExpiry(w, now) && w.status == Approved && user.ActiveUser?
  }

  /** Why a poll is not let through: the first check that fails decides. */
  function Refusal(w: World, wellFormed: bool, code: CodeLookup, now: int, user: UserLookup): Answer {
    if !wellFormed || code.CodeMissing? then BadCredentials
    else if code.CodeLookupFailed? then StoreError
    else if PastExpiry(w, now) || w.status == Expired then ExpiredCode
    else if w.status == Pending then AuthorizationPending
    else if w.status == Consumed || user.UserMissing? then RevokedCode
    else if user.UserLookupFailed? then StoreError
    else DisabledUser
  }

  /** The polled code is there and its time has not run out. */
  ghost predicate OpenCode(expiresAt: int, wellFormed: bool, code: CodeLookup, now: int) {
    wellFormed && code == CodeFound && (expiresAt <= 0 || now < expiresAt)
  }

  /** What a poll is told before it gets any further, by the code's row, the
      clock and the user; `Tokens` is for going on. */
  ghost predicate ToldAtCheck(expiresAt: int, status: Status, wellFormed: bool, code: CodeLookup, now: int,
                              user: UserLookup, answer: Answer) {
    var open := OpenCode(expiresAt, wellFormed, code, now);
    && (answer == Tokens <==> open && status == Approved && user == ActiveUser)
    && (answer == AuthorizationPending <==> open && status == Pending)
    && (answer == RevokedCode <==> open && (status == Consumed || (status == Approved && user == UserMissing)))
    && (answer == DisabledUser <==> open && status == Approved && user == InactiveUser)
    && (answer == ExpiredCode <==> wellFormed && code == CodeFound && (!open || status == Expired))
    && (answer == BadCredentials <==> !wellFormed || code == CodeMissing)
    && (answer == StoreError <==>
          (wellFormed && code == CodeLookupFailed) || (open && status == Approved && user == UserLookupFailed))
  }

  lemma CheckByFields(w: World, wellFormed: bool, code: CodeLookup, now: int, user: UserLookup)
    ensures ToldAtCheck(w.expiresAt, w.status, wellFormed, code, now, user,
                        if LetThrough(w, wellFormed, code, now, user) then Tokens
                        else Refusal(w, wellFormed, code, now, user))
  {
  }

  function RedeemSteps(t: nat, session: nat, now: int): seq<Step> {
    [Approve(now), Read(t, now, true)] + [Issue(t, session, true), Consume(t, NoFault)]
  }

  lemma AfterSnoc(expiresAt: int, steps: seq<Step>, s: Step)
    ensures After(expiresAt, steps + [s]) == Apply(After(expiresAt, steps), s)
  {
    assert (steps + [s])[..|steps|] == steps;
  }

  /** In every reachable world a code that is not consumed, and whose time has
      not run out, can still be approved and exchanged for one live session. */
  lemma OpenCodeRedeems(expiresAt: int, steps: seq<Step>, t: nat, session: nat, now: int)
    requires var w := After(expiresAt, steps);
      w.status in {Pending, Approved} && t !in w.polls && session !in w.sessions
    requires expiresAt <= 0 || now < expiresAt
    ensures var w, w' := After(expiresAt, steps), After(expiresAt, steps + RedeemSteps(t, session, now));
      && w'.status == Consumed
      && w'.polls == w.polls[t := Won(session)]
      && w'.sessions == w.sessions[session := Session(true, t)]
  {
    ExpiryIsFixed(expiresAt, steps);
    var more := RedeemSteps(t, session, now);
    AfterSnoc(expiresAt, steps, more[0]);
    AfterSnoc(expiresAt, steps + more[..1], more[1]);
    AfterSnoc(expiresAt, steps + more[..2], more[2]);
    AfterSnoc(expiresAt, steps + more[..3], more[3]);
    assert steps + [more[0]] == steps + more[..1];
    assert steps + more[..1] + [more[1]] == steps + more[..2];
    assert steps + more[..2] + [more[2]] == steps + more[..3];
    assert steps + more[..3] + [more[3]] == steps + more;
  }

  lemma {:induction false} ExpiryIsFixed(expiresAt: int, steps: seq<Step>)
    ensures After(expiresAt, steps).expiresAt == expiresAt
  {
    if steps != [] {
      ExpiryIsFixed(expiresAt, steps[..|steps| - 1]);
    }
  }

  /** Without an approval no poll ever gets tokens. */
  lemma {:induction false} NothingWithoutApproval(expiresAt: int, steps: seq<Step>)
    requires forall i :: 0 <= i < |steps| ==> !steps[i].Approve?
    ensures var w := After(expiresAt, steps);
      && w.status == Pending && w.sessions == map[]
      && forall t <- w.polls :: w.polls[t] == Refused || w.polls[t] == Dead(None)
  {
    if steps != [] {
      var n := |steps| - 1;
      assert forall i :: 0 <= i < n ==> steps[..n][i] == steps[i];
      NothingWithoutApproval(expiresAt, steps[..n]);
    }
  }

  /** A code whose time has run out, or that was used, is never approved again. */
  lemma ApprovalIff(w: World, now: int)
    ensures Apply(w, Approve(now)).status == Approved <==>
      w.status == Approved || (w.status == Pending && (w.expiresAt <= 0 || now < w.expiresAt))
    ensures Apply(w, Approve(now)).status != Approved ==> Apply(w, Approve(now)) == w
  {
  }

  lemma RefusedStays(w: World, t: nat, session: nat, issued: bool, fault: Fault, revoked: bool)
    requires t in w.polls && w.polls[t].Refused?
    ensures Redeemed(w, t, session, issued, fault, revoked) == w
  {
  }

  /** How a whole poll ends, by what each step met: refused before a session was
      stored, won, or cleaned up or leaked by its revocation; and whether the code
      is used up, which a write that reported an error does as well. */
  lemma PollEnds(w: World, t: nat, now: int, userActive: bool, session: nat, issued: bool, fault: Fault, revoked: bool)
    requires t !in w.polls && session !in w.sessions
    ensures var after := Redeemed(Apply(w, Read(t, now, userActive)), t, session, issued, fault, revoked);
      var made := userActive && (w.expiresAt <= 0 || now < w.expiresAt) && w.status == Approved && issued;
      && t in after.polls
      && (!made ==> after.polls[t] == Refused && after.sessions == w.sessions && after.status == w.status)
      && (made && fault == NoFault ==>
            && after.polls[t] == Won(session) && after.status == Consumed
            && after.sessions == w.sessions[session := Session(true, t)])
      && (made && fault != NoFault ==>
            && after.polls[t] == (if revoked then Cleaned(session) else Leaked(session))
            && after.sessions == w.sessions[session := Session(!revoked, t)]
            && after.status == if fault == FailedAfter then Consumed else Approved)
  {
  }

  /** A whole poll: it wins exactly when it was let through, its session was
      stored and the code consumed; and a poll that does not win leaves no new
      live session, unless the revocation fails. */
  lemma PollWinsOrCleansUp(w: World, t: nat, now: int, userActive: bool, session: nat, issued: bool, fault: Fault, revoked: bool)
    requires t !in w.polls && session !in w.sessions
    ensures var after := Redeemed(Apply(w, Read(t, now, userActive)), t, session, issued, fault, revoked);
      && t in after.polls
      && (after.polls[t] == Won(session) <==>
            userActive && (w.expiresAt <= 0 || now < w.expiresAt) && w.status == Approved && issued && fault == NoFault)
      && (after.polls[t] != Won(session) && revoked ==>
            forall s <- after.sessions :: after.sessions[s].live ==> s in w.sessions && w.sessions[s] == after.sessions[s])
  {
  }
}
