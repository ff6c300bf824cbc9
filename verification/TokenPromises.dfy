/** The promises of the token manager, for any number of concurrent callers. */
module TokenPromises {
  import opened Domain
  import opened TokenSteps
  import opened TokenChain

  function Reached(grant: Grant, now: int, n: nat, events: seq<Event>): World {
    After(Init(grant, now, n), events)
  }

  // ---------------------------------------------------------------- one refresh at a time

  predicate IsGranted(e: Entry) {
    e.Answered? && e.reply.Granted?
  }

  /** Which entry may follow which: a call is answered, a grant is stored, before the next call. */
  predicate Follows(e: Entry, next: Entry) {
    if e.Sent? then next.Answered? else if IsGranted(e) then next.Kept? else next.Sent?
  }

  ghost predicate Bracketed(log: seq<Entry>) {
    && log != [] && IsGranted(log[0])
    && forall i :: 0 <= i < |log| - 1 ==> Follows(log[i], log[i + 1])
  }

  /** The caller whose turn it is to add the next entry. */
  ghost predicate Turn(w: World) {
    && w.log != []
    && (forall i :: 0 <= i < |w.callers| && w.callers[i].pc.Waiting? ==> w.log[|w.log| - 1].Sent?)
    && (forall i :: 0 <= i < |w.callers| && w.callers[i].pc.Storing? ==> IsGranted(w.log[|w.log| - 1]))
    && (forall i :: 0 <= i < |w.callers| && w.callers[i].pc.Refreshing?
                    ==> !w.log[|w.log| - 1].Sent? && !IsGranted(w.log[|w.log| - 1]))
    && (w.log[|w.log| - 1].Sent? ==> exists i :: 0 <= i < |w.callers| && w.callers[i].pc.Waiting?)
    && (IsGranted(w.log[|w.log| - 1]) ==> exists i :: 0 <= i < |w.callers| && w.callers[i].pc.Storing?)
  }

  lemma TurnFollows(w: World, v: World, i: Cid)
    requires i < |w.callers| && Turn(w) && LockOk(w)
    requires v.log == w.log && |v.callers| == |w.callers|
    requires forall j :: 0 <= j < |w.callers| && j != i ==> v.callers[j] == w.callers[j]
    requires !w.callers[i].pc.Waiting? && !w.callers[i].pc.Storing?
    requires !v.callers[i].pc.Waiting? && !v.callers[i].pc.Storing?
    requires v.callers[i].pc.Refreshing? ==> HoldsWrite(w.callers[i].pc)
    ensures Turn(v)
  {
    if w.log[|w.log| - 1].Sent? {
      var j :| 0 <= j < |w.callers| && w.callers[j].pc.Waiting?;
      assert v.callers[j].pc.Waiting?;
    }
    if IsGranted(w.log[|w.log| - 1]) {
      var j :| 0 <= j < |w.callers| && w.callers[j].pc.Storing?;
      assert v.callers[j].pc.Storing?;
    }
  }

  lemma ActKeepsTurn(w: World, i: Cid, reply: Reply)
    requires i < |w.callers| && Turn(w) && LockOk(w) && Bracketed(w.log)
    ensures Turn(Act(w, i, reply)) && Bracketed(Act(w, i, reply).log)
  {
    var v, pc := Act(w, i, reply), w.callers[i].pc;
    if pc.Refreshing? || pc.Waiting? || pc.Storing? {
      assert forall j :: 0 <= j < |w.callers| && j != i ==> !HoldsWrite(w.callers[j].pc) && v.callers[j] == w.callers[j];
      hide LockOk;
      assert v.callers[i].pc.Waiting? || v.callers[i].pc.Storing? || v.callers[i].pc.Failing? || v.callers[i].pc.Stored?;
    } else {
      TurnFollows(w, v, i);
    }
  }

  lemma {:induction false} EveryRunIsBracketed(grant: Grant, now: int, n: nat, events: seq<Event>)
    ensures var w := Reached(grant, now, n, events); Turn(w) && Bracketed(w.log)
  {
    if events == [] {
      var w := Init(grant, now, n);
      assert w.log[0] == Answered(Granted(grant));
    } else {
      var before, e := events[..|events| - 1], events[|events| - 1];
      EveryRunIsBracketed(grant, now, n, before);
      EveryRunKeepsInv(grant, now, n, before);
      var w := Reached(grant, now, n, before);
      assert Reached(grant, now, n, events) == Next(w, e);
      hide After, Act, Bracketed, TokenOk, LogOk;
      match e
      case Tick(ns) => TickKeepsTurn(w, ns);
      case Go(i, reply) => if i < |w.callers| { ActKeepsTurn(w, i, reply); }
    }
  }

  lemma TickKeepsTurn(w: World, ns: nat)
    requires Turn(w)
    ensures Turn(w.(now := w.now + ns))
  {}

  // ---------------------------------------------------------------- the chain of refresh tokens

  /** The stored token at a point of the log: where its grant is, and that nothing came later. */
  ghost predicate IsLatest(log: seq<Entry>, i: nat, j: nat, g: Grant, at: int)
    requires i < |log|
  {
    && j + 1 < i
    && log[j] == Answered(Granted(g)) && log[j + 1] == Kept(at)
    && forall k :: j + 1 < k < i ==> !IsGranted(log[k]) && !log[k].Kept?
  }

  lemma {:induction false} LatestGrant(log: seq<Entry>) returns (j: nat)
    requires Bracketed(log) && !IsGranted(log[|log| - 1])
    ensures j + 1 < |log| && IsGranted(log[j]) && log[j + 1].Kept?
    ensures forall k :: j + 1 < k < |log| ==> !IsGranted(log[k]) && !log[k].Kept?
    ensures LastGrant(log) == Some(log[j].reply.grant)
    ensures var g := log[j].reply.grant;
      Current(log) == Some(Token(g.access, g.refresh, log[j + 1].at + Duration(g.validity)))
  {
    var before := log[..|log| - 1];
    if log[|log| - 1].Kept? {
      j := |log| - 2;
      assert Follows(log[j], log[j + 1]);
      assert before[|before| - 1] == log[j];
    } else {
      assert |log| > 1;
      assert Follows(log[|log| - 2], log[|log| - 1]);
      assert !IsGranted(before[|before| - 1]);
      assert Bracketed(before) by {
        forall i | 0 <= i < |before| - 1 ensures Follows(before[i], before[i + 1]) {
          assert Follows(log[i], log[i + 1]);
        }
      }
      j := LatestGrant(before);
    }
  }

  lemma BracketedPrefix(log: seq<Entry>, i: nat)
    requires Bracketed(log) && i < |log| && log[i].Sent?
    ensures Bracketed(log[..i]) && !IsGranted(log[..i][|log[..i]| - 1])
  {
    assert i > 0;
    forall k | 0 <= k < i - 1 ensures Follows(log[..i][k], log[..i][k + 1]) {
      assert Follows(log[k], log[k + 1]);
    }
    assert Follows(log[i - 1], log[i]);
  }

  /**
   * Each refresh carries the refresh token of the latest successful response, Init's being the
   * first, and starts more than ten seconds after the expiry of the token that response stored.
   */
  lemma RefreshesFormAChain(grant: Grant, now: int, n: nat, events: seq<Event>, i: nat) returns (j: nat, g: Grant, at: int)
    requires var log := Reached(grant, now, n, events).log; i < |log| && log[i].Sent?
    ensures var log := Reached(grant, now, n, events).log;
      && IsLatest(log, i, j, g, at)
      && log[i].refresh == g.refresh
      && log[i].at > at + Duration(g.validity) + 10_000_000_000
  {
    EveryRunKeepsInv(grant, now, n, events);
    EveryRunIsBracketed(grant, now, n, events);
    var log := Reached(grant, now, n, events).log;
    assert SentOk(log[..i], log[i]);
    hide After, LockOk, TokenOk, CallerOk, LogOk, Turn;
    BracketedPrefix(log, i);
    hide Bracketed, LastGrant, Current;
    j := LatestGrant(log[..i]);
    g, at := log[j].reply.grant, log[j + 1].at;
  }

  /** A rotating server never issues the same refresh token twice. */
  ghost predicate Rotating(log: seq<Entry>) {
    forall i, j :: 0 <= i < j < |log| && IsGranted(log[i]) && IsGranted(log[j])
                   ==> log[i].reply.grant.refresh != log[j].reply.grant.refresh
  }

  /** The refresh at `i` succeeded, which under rotation uses its token up. */
  predicate Redeems(log: seq<Entry>, i: nat) {
    i + 1 < |log| && log[i].Sent? && IsGranted(log[i + 1])
  }

  /** Under a rotating server a redeemed refresh token is never sent again. */
  lemma NoTokenSentAfterRedeemed(grant: Grant, now: int, n: nat, events: seq<Event>, i: nat, j: nat)
    requires var log := Reached(grant, now, n, events).log;
      Rotating(log) && Redeems(log, i) && i < j < |log| && log[j].Sent?
    ensures var log := Reached(grant, now, n, events).log; log[i].refresh != log[j].refresh
  {
    var log := Reached(grant, now, n, events).log;
    var a, g, at := RefreshesFormAChain(grant, now, n, events, i);
    var b, h, bt := RefreshesFormAChain(grant, now, n, events, j);
    hide After;
    assert IsGranted(log[i + 1]) && log[b].Answered?;
  }

  /** Only a caller with a grant to store changes the stored token: a failed refresh leaves all of it. */
  lemma OnlyGrantsAreStored(grant: Grant, now: int, n: nat, events: seq<Event>, i: Cid, reply: Reply)
    requires i < |Reached(grant, now, n, events).callers|
    requires var w := Reached(grant, now, n, events); Act(w, i, reply).shared.token != w.shared.token
    ensures var w := Reached(grant, now, n, events); var g := LastGrant(w.log);
      && w.callers[i].pc.Storing? && g == Some(w.callers[i].pc.grant)
      && Act(w, i, reply).shared.token == Token(g.value.access, g.value.refresh, w.now + Duration(g.value.validity))
  {
    EveryRunKeepsInv(grant, now, n, events);
    hide After, LockOk, LogOk, CallerOk, LastGrant, Current;
  }

  /**
   * A validity that does not fit a duration counts as none: the new expiry is the promised one
   * exactly when it fits, and otherwise the token expires as it is stored.
   */
  lemma ExpiryExactlyAsGranted(grant: Grant, now: int, n: nat, events: seq<Event>, i: Cid, reply: Reply)
    requires var w := Reached(grant, now, n, events); i < |w.callers| && w.callers[i].pc.Storing?
    ensures var w := Reached(grant, now, n, events);
      var validity, expires := w.callers[i].pc.grant.validity, Act(w, i, reply).shared.token.expires;
      && (expires == w.now + validity * 1_000_000_000 <==> -0x7FFF_FFFF_FFFF_FFFF <= validity * 1_000_000_000 <= 0x7FFF_FFFF_FFFF_FFFF)
      && (expires != w.now + validity * 1_000_000_000 ==> expires == w.now)
  {
    hide After;
  }

  // ---------------------------------------------------------------- no second refresh

  /** Has found the token refreshed by somebody else, or is done. */
  predicate Settled(pc: Pc) {
    pc.FoundFresh? || pc.Released? || pc.Done?
  }

  lemma {:induction false} SettledStays(w: World, events: seq<Event>, i: Cid)
    requires i < |w.callers| && Settled(w.callers[i].pc)
    ensures var v := After(w, events); i < |v.callers| && Settled(v.callers[i].pc)
  {
    if events != [] {
      SettledStays(w, events[..|events| - 1], i);
    }
  }

  /** A caller that finds the token unexpired once it has the write lock never sends a refresh. */
  lemma FreshAfterWaiting(w: World, i: Cid, reply: Reply, more: seq<Event>)
    requires i < |w.callers| && w.callers[i].pc.Writing? && !IsExpired(w.now, w.shared.token.expires)
    ensures var v := After(Act(w, i, reply), more);
      && i < |v.callers| && Settled(v.callers[i].pc)
      && forall r :: Act(v, i, r).log == v.log
  {
    SettledStays(Act(w, i, reply), more, i);
    hide After;
  }

  /** The caller's next step sends a refresh. */
  predicate Sends(w: World, i: Cid)
    requires i < |w.callers|
  {
    w.callers[i].pc.Refreshing?
  }

  /**
   * A caller with the write lock goes without a refresh, now and for ever, exactly when no more
   * than ten seconds have passed since the expiry; else the refresh is its very next step.
   */
  lemma RefreshesExactlyBeyondGrace(w: World, i: Cid, reply: Reply)
    requires i < |w.callers| && w.callers[i].pc.Writing?
    ensures w.now <= w.shared.token.expires + 10_000_000_000 <==>
      forall more :: SendsNotAfter(Act(w, i, reply), i, more)
  {
    var u := Act(w, i, reply);
    if w.now <= w.shared.token.expires + 10_000_000_000 {
      forall more ensures SendsNotAfter(u, i, more) {
        FreshAfterWaiting(w, i, reply, more);
      }
    } else {
      assert !SendsNotAfter(u, i, []);
    }
  }

  /** After these events the caller is not about to send a refresh. */
  predicate SendsNotAfter(w: World, i: Cid, events: seq<Event>) {
    var v := After(w, events); i < |v.callers| && !Sends(v, i)
  }

  // ---------------------------------------------------------------- the lock

  lemma LockIsExclusive(grant: Grant, now: int, n: nat, events: seq<Event>, i: Cid, j: Cid)
    requires var w := Reached(grant, now, n, events); i < |w.callers| && j < |w.callers|
    ensures var w := Reached(grant, now, n, events); var p, q := w.callers[i].pc, w.callers[j].pc;
      && (HoldsWrite(p) && HoldsWrite(q) ==> i == j)
      && !(HoldsWrite(p) && HoldsRead(q))
      && (p.Done? ==> i !in w.shared.readers && w.shared.writer != Some(i))
  {
    EveryRunKeepsInv(grant, now, n, events);
    hide After, TokenOk, LogOk, CallerOk;
  }

  /** A call that returns a token returns one stored when the call began, or later. */
  lemma TokensAreNoOlder(grant: Grant, now: int, n: nat, events: seq<Event>, i: Cid)
    requires var w := Reached(grant, now, n, events);
      i < |w.callers| && w.callers[i].pc.Done? && w.callers[i].pc.result.Returned?
    ensures var w := Reached(grant, now, n, events);
      NoOlder(w.log, w.callers[i].began, w.callers[i].pc.result.token)
  {
    EveryRunKeepsInv(grant, now, n, events);
    hide After, LockOk, TokenOk, LogOk, NoOlder;
    var w := Reached(grant, now, n, events);
    assert CallerOk(w, w.callers[i]);
  }

  /** Unless all callers are done, one of them can move. */
  lemma SomebodyCanMove(grant: Grant, now: int, n: nat, events: seq<Event>, c: Cid) returns (i: Cid)
    requires var w := Reached(grant, now, n, events); c < |w.callers| && !w.callers[c].pc.Done?
    ensures var w := Reached(grant, now, n, events);
      i < |w.callers| && !w.callers[i].pc.Done? && !Blocked(w.shared, w.callers[i].pc)
  {
    EveryRunKeepsInv(grant, now, n, events);
    hide After, TokenOk, LogOk, CallerOk;
    var w := Reached(grant, now, n, events);
    match w.shared.writer {
      case None => i := c;
      case Some(holder) =>
        if w.shared.readers == {} {
          i := holder;
        } else {
          i :| i in w.shared.readers;
        }
    }
  }

  function StepsLeft(pc: Pc): nat {
    match pc
    case Start => 11
    case Reading => 10
    case Read(_) => 1
    case SawExpired => 9
    case WantsWrite => 8
    case Draining => 7
    case Writing => 6
    case FoundFresh => 2
    case Released => 1
    case Refreshing => 5
    case Waiting => 4
    case Storing(_) => 2
    case Stored(_) => 1
    case Failing => 1
    case Done(_) => 0
  }

  function Total(callers: seq<Caller>): nat {
    if callers == [] then 0 else Total(callers[..|callers| - 1]) + StepsLeft(callers[|callers| - 1].pc)
  }

  lemma {:induction false} TotalUpdate(callers: seq<Caller>, i: nat, c: Caller)
    requires i < |callers|
    ensures Total(callers[i := c]) + StepsLeft(callers[i].pc) == Total(callers) + StepsLeft(c.pc)
  {
    hide StepsLeft;
    var last := |callers| - 1;
    if i == last {
      assert callers[i := c][..last] == callers[..last];
    } else {
      assert callers[i := c][..last] == callers[..last][i := c];
      TotalUpdate(callers[..last], i, c);
    }
  }

  /** The steps left to all callers together shrink with every step that is not blocked. */
  lemma EveryMoveCounts(w: World, i: Cid, reply: Reply)
    requires i < |w.callers| && !w.callers[i].pc.Done?
    ensures var v := Act(w, i, reply);
      if Blocked(w.shared, w.callers[i].pc) then v.shared == w.shared && v.log == w.log && Total(v.callers) == Total(w.callers)
      else Total(v.callers) < Total(w.callers)
  {
    var v := Act(w, i, reply);
    assert v.callers == w.callers[i := v.callers[i]];
    TotalUpdate(w.callers, i, v.callers[i]);
  }

  // ---------------------------------------------------------------- grace

  /** Where the token that a caller at `pc` is to hand out, or has handed out, comes from. */
  predicate Checked(u: World, e: Event, i: Cid, pc: Pc) {
    && e.Go? && e.caller == i && i < |u.callers|
    && match u.callers[i].pc
       case Reading =>
         && u.now <= u.shared.token.expires + 10_000_000_000
         && (pc == Read(u.shared.token.access) || pc == Done(Returned(u.shared.token.access)))
       case Writing =>
         && u.now <= u.shared.token.expires + 10_000_000_000
         && (pc.FoundFresh? || pc.Released? || (pc.Done? && pc.result.Returned?))
       case Waiting =>
         && e.reply.Granted?
         && (pc == Storing(e.reply.grant) || pc == Stored(e.reply.grant.access) || pc == Done(Returned(e.reply.grant.access)))
       case _ => false
  }

  /** Has a token to hand out, or has handed it out. */
  predicate HasToken(pc: Pc) {
    pc.Read? || pc.FoundFresh? || pc.Released? || pc.Storing? || pc.Stored? || (pc.Done? && pc.result.Returned?)
  }

  lemma CheckedStays(u: World, e: Event, i: Cid, w: World, next: Event)
    requires i < |w.callers| && HasToken(w.callers[i].pc) && Checked(u, e, i, w.callers[i].pc)
    ensures i < |Next(w, next).callers| && Checked(u, e, i, Next(w, next).callers[i].pc)
  {}

  lemma NewlyChecked(w: World, e: Event, i: Cid)
    requires i < |w.callers| && !HasToken(w.callers[i].pc)
    requires i < |Next(w, e).callers| && HasToken(Next(w, e).callers[i].pc)
    ensures Checked(w, e, i, Next(w, e).callers[i].pc)
  {}

  /**
   * No call returns a token without a check: at one of its own steps the stored token was at most
   * ten seconds past its expiry, or the endpoint granted the very token it returns.
   */
  lemma {:induction false} ReturnedTokensAreChecked(grant: Grant, now: int, n: nat, events: seq<Event>, i: Cid) returns (k: nat)
    requires var w := Reached(grant, now, n, events); i < |w.callers| && HasToken(w.callers[i].pc)
    ensures k < |events| && Checked(Reached(grant, now, n, events[..k]), events[k], i, Reached(grant, now, n, events).callers[i].pc)
  {
    var before, e := events[..|events| - 1], events[|events| - 1];
    var w := Reached(grant, now, n, before);
    assert Reached(grant, now, n, events) == Next(w, e);
    assert |w.callers| == |Next(w, e).callers|;
    hide After, Next;
    if HasToken(w.callers[i].pc) {
      k := ReturnedTokensAreChecked(grant, now, n, before, i);
      assert before[..k] == events[..k];
      CheckedStays(Reached(grant, now, n, before[..k]), before[k], i, w, e);
    } else {
      k := |events| - 1;
      NewlyChecked(w, e, i);
    }
  }

  /** Has picked the string it is to hand out. */
  predicate HasString(pc: Pc) {
    pc.Read? || pc.Storing? || pc.Stored? || (pc.Done? && pc.result.Returned?)
  }

  /** The string a caller at `pc` has picked was stored at that very step, or granted at it. */
  predicate Picked(u: World, e: Event, i: Cid, pc: Pc) {
    && e.Go? && e.caller == i && i < |u.callers|
    && match u.callers[i].pc
       case Reading => pc == Read(u.shared.token.access) || pc == Done(Returned(u.shared.token.access))
       case Released => pc == Done(Returned(u.shared.token.access))
       case Waiting =>
         && e.reply.Granted?
         && (pc == Storing(e.reply.grant) || pc == Stored(e.reply.grant.access) || pc == Done(Returned(e.reply.grant.access)))
       case _ => false
  }

  lemma PickedStays(u: World, e: Event, i: Cid, w: World, next: Event)
    requires i < |w.callers| && HasString(w.callers[i].pc) && Picked(u, e, i, w.callers[i].pc)
    ensures i < |Next(w, next).callers| && Picked(u, e, i, Next(w, next).callers[i].pc)
  {}

  lemma NewlyPicked(w: World, e: Event, i: Cid)
    requires i < |w.callers| && !HasString(w.callers[i].pc)
    requires i < |Next(w, e).callers| && HasString(Next(w, e).callers[i].pc)
    ensures Picked(w, e, i, Next(w, e).callers[i].pc)
  {}

  /** A returned token was, at one of the call's own steps, the stored one or the one just granted. */
  lemma {:induction false} ReturnedTokensArePicked(grant: Grant, now: int, n: nat, events: seq<Event>, i: Cid) returns (k: nat)
    requires var w := Reached(grant, now, n, events); i < |w.callers| && HasString(w.callers[i].pc)
    ensures k < |events| && Picked(Reached(grant, now, n, events[..k]), events[k], i, Reached(grant, now, n, events).callers[i].pc)
  {
    var before, e := events[..|events| - 1], events[|events| - 1];
    var w := Reached(grant, now, n, before);
    assert Reached(grant, now, n, events) == Next(w, e);
    assert |w.callers| == |Next(w, e).callers|;
    hide After, Next;
    if HasString(w.callers[i].pc) {
      k := ReturnedTokensArePicked(grant, now, n, before, i);
      assert before[..k] == events[..k];
      PickedStays(Reached(grant, now, n, before[..k]), before[k], i, w, e);
    } else {
      k := |events| - 1;
      NewlyPicked(w, e, i);
    }
  }

  predicate Failing(pc: Pc) {
    pc.Failing? || pc == Done(Failed)
  }

  lemma FailingStays(w: World, e: Event, i: Cid)
    requires i < |w.callers| && i < |Next(w, e).callers| && Failing(Next(w, e).callers[i].pc)
    ensures Failing(w.callers[i].pc) || (e.Go? && e.caller == i && w.callers[i].pc.Waiting? && e.reply.Denied?)
  {}

  /** A call fails only because the endpoint denied it the refresh it sent itself. */
  lemma {:induction false} FailuresAreDenials(grant: Grant, now: int, n: nat, events: seq<Event>, i: Cid) returns (k: nat)
    requires var w := Reached(grant, now, n, events); i < |w.callers| && Failing(w.callers[i].pc)
    ensures k < |events| && events[k].Go? && events[k].caller == i && events[k].reply.Denied?
    ensures var u := Reached(grant, now, n, events[..k]); i < |u.callers| && u.callers[i].pc.Waiting?
  {
    var before, e := events[..|events| - 1], events[|events| - 1];
    var w := Reached(grant, now, n, before);
    assert Reached(grant, now, n, events) == Next(w, e);
    assert |w.callers| == |Next(w, e).callers|;
    FailingStays(w, e, i);
    hide After, Next;
    if Failing(w.callers[i].pc) {
      k := FailuresAreDenials(grant, now, n, before, i);
      assert before[..k] == events[..k];
    } else {
      k := |events| - 1;
    }
  }

  /** A look at the stored token under either lock is content exactly up to ten seconds after its expiry. */
  lemma ContentExactlyWithinGrace(grant: Grant, now: int, n: nat, events: seq<Event>, i: Cid, reply: Reply)
    requires var w := Reached(grant, now, n, events);
      i < |w.callers| && (w.callers[i].pc.Reading? || w.callers[i].pc.Writing?)
    ensures var w := Reached(grant, now, n, events); var pc := Act(w, i, reply).callers[i].pc;
      && (HasToken(pc) <==> w.now <= w.shared.token.expires + 10_000_000_000)
      && (!HasToken(pc) <==> pc.SawExpired? || pc.Refreshing?)
  {
    hide After;
  }

  /** The expiry is not strict: within ten seconds after it the old token is still handed out. */
  lemma ExpiredTokenIsHandedOut(access: string, refresh: string, now: int, late: nat)
    requires 0 < late <= 10_000_000_000
    ensures var w := Reached(Grant(access, refresh, 0), now, 1, [Tick(late)] + [Go(0, Denied)] + [Go(0, Denied)] + [Go(0, Denied)]);
      && w.now > w.shared.token.expires && |w.callers| == 1
      && w.callers[0].pc == TokenSteps.Done(Returned(access))
  {
    var w0, go := Init(Grant(access, refresh, 0), now, 1), Go(0, Denied);
    AfterOne(w0, [], Tick(late));
    assert [] + [Tick(late)] == [Tick(late)];
    AfterOne(w0, [Tick(late)], go);
    AfterOne(w0, [Tick(late)] + [go], go);
    AfterOne(w0, [Tick(late)] + [go] + [go], go);
    hide After;
    var w1 := Next(w0, Tick(late));
    var w2 := Act(w1, 0, Denied);
    var w3 := Act(w2, 0, Denied);
    assert w2.callers[0].pc.Reading? && w3.callers[0].pc == Read(access);
  }

  lemma AfterOne(w: World, xs: seq<Event>, e: Event)
    ensures After(w, xs + [e]) == Next(After(w, xs), e)
  {
    assert (xs + [e])[..|xs|] == xs;
  }
}
