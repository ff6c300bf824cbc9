/** What the lock around the stored token guarantees, in every run. */
module TokenChain {
  import opened Domain
  import opened TokenSteps

  /** The latest successful response. */
  function LastGrant(log: seq<Entry>): Option<Grant> {
    if log == [] then None
    else
      match log[|log| - 1]
      case Answered(Granted(g)) => Some(g)
      case _ => LastGrant(log[..|log| - 1])
  }

  /** The token stored last. */
  function Current(log: seq<Entry>): Option<Token> {
    if log == [] then None
    else
      var before := log[..|log| - 1];
      match log[|log| - 1]
      case Kept(at) =>
        (match LastGrant(before)
         case Some(g) => Some(Token(g.access, g.refresh, at + Duration(g.validity)))
         case None => None)
      case _ => Current(before)
  }

  /** The access token of the `g`-th stored token, counting from one. */
  function AccessOf(log: seq<Entry>, g: nat): Option<string> {
    if log == [] then None
    else
      var before := log[..|log| - 1];
      if log[|log| - 1].Kept? && Generation(log) == g then
        if LastGrant(before).Some? then Some(LastGrant(before).value.access) else None
      else AccessOf(before, g)
  }

  predicate HoldsRead(pc: Pc) {
    pc.Reading? || pc.Read? || pc.SawExpired?
  }

  /** Holds the write lock against everybody. */
  predicate HoldsWrite(pc: Pc) {
    pc.Writing? || pc.FoundFresh? || pc.Refreshing? || pc.Waiting? || pc.Storing? || pc.Stored? || pc.Failing?
  }

  ghost predicate LockOk(w: World) {
    && (forall i :: i in w.shared.readers <==> 0 <= i < |w.callers| && HoldsRead(w.callers[i].pc))
    && (forall i :: 0 <= i < |w.callers| && (HoldsWrite(w.callers[i].pc) || w.callers[i].pc.Draining?)
                    <==> w.shared.writer == Some(i))
    && (forall i :: 0 <= i < |w.callers| && HoldsWrite(w.callers[i].pc) ==> w.shared.readers == {})
  }

  /** The latest grant is the stored token, or a caller is about to store it. */
  ghost predicate TokenOk(w: World) {
    && Current(w.log) == Some(w.shared.token)
    && LastGrant(w.log).Some?
    && (forall i :: 0 <= i < |w.callers| && w.callers[i].pc.Storing? ==> LastGrant(w.log) == Some(w.callers[i].pc.grant))
    && ((forall i :: 0 <= i < |w.callers| ==> !w.callers[i].pc.Storing?) ==>
          var g := LastGrant(w.log).value;
          g.access == w.shared.token.access && g.refresh == w.shared.token.refresh)
  }

  /** A token handed out or about to be was stored when the call began, or later. */
  ghost predicate NoOlder(log: seq<Entry>, began: nat, token: string) {
    exists g :: began <= g <= Generation(log) && AccessOf(log, g) == Some(token)
  }

  ghost predicate CallerOk(w: World, c: Caller) {
    match c.pc
    case Start => true
    case Read(t) => NoOlder(w.log, c.began, t)
    case Stored(t) => NoOlder(w.log, c.began, t)
    case Done(r) => r.Returned? ==> NoOlder(w.log, c.began, r.token)
    case Refreshing => c.began <= Generation(w.log) && IsExpired(w.now, w.shared.token.expires)
    case _ => c.began <= Generation(w.log)
  }

  /** Every refresh carries the latest grant's refresh token, and starts late enough. */
  ghost predicate LogOk(log: seq<Entry>) {
    forall i :: 0 <= i < |log| && log[i].Sent? ==> SentOk(log[..i], log[i])
  }

  ghost predicate SentOk(before: seq<Entry>, e: Entry)
    requires e.Sent?
  {
    && LastGrant(before).Some? && LastGrant(before).value.refresh == e.refresh
    && Current(before).Some? && e.at > Current(before).value.expires + GRACE
  }

  ghost predicate Inv(w: World) {
    && LockOk(w)
    && TokenOk(w)
    && LogOk(w.log)
    && forall i :: 0 <= i < |w.callers| ==> CallerOk(w, w.callers[i])
  }

  lemma InitKeepsInv(grant: Grant, now: int, n: nat)
    ensures Inv(Init(grant, now, n))
  {
    var w := Init(grant, now, n);
    var first, log := [Answered(Granted(grant))], w.log;
    assert log[..1] == first && first[..0] == [];
    assert LastGrant(first) == Some(grant);
  }

  lemma TickKeepsInv(w: World, ns: nat)
    requires Inv(w)
    ensures Inv(w.(now := w.now + ns))
  {
    hide LogOk, NoOlder, Current, LastGrant, LockOk;
    var v := w.(now := w.now + ns);
    assert LockOk(v) by { LockFollows(w, v); }
    forall i | 0 <= i < |v.callers| ensures CallerOk(v, v.callers[i]) {
      assert CallerOk(w, w.callers[i]);
    }
  }

  lemma LockFollows(w: World, v: World)
    requires LockOk(w) && v.shared == w.shared && v.callers == w.callers
    ensures LockOk(v)
  {}

  lemma ActKeepsLock(w: World, i: Cid, reply: Reply)
    requires i < |w.callers| && LockOk(w)
    ensures LockOk(Act(w, i, reply))
  {}

  // ---------------------------------------------------------------- the log grows

  lemma LogStep(log: seq<Entry>, e: Entry)
    ensures (log + [e])[..|log + [e]| - 1] == log
    ensures Generation(log + [e]) == Generation(log) + if e.Kept? then 1 else 0
    ensures LastGrant(log + [e]) == if e.Answered? && e.reply.Granted? then Some(e.reply.grant) else LastGrant(log)
    ensures !e.Kept? ==> Current(log + [e]) == Current(log)
    ensures e.Kept? && LastGrant(log).Some? ==>
      var g := LastGrant(log).value; Current(log + [e]) == Some(Token(g.access, g.refresh, e.at + Duration(g.validity)))
  {
    assert (log + [e])[..|log|] == log;
  }

  lemma {:induction false} NoLaterGeneration(log: seq<Entry>, g: nat)
    requires g > Generation(log)
    ensures AccessOf(log, g).None?
  {
    if log != [] {
      NoLaterGeneration(log[..|log| - 1], g);
    }
  }

  lemma AccessStep(log: seq<Entry>, e: Entry, g: nat)
    ensures AccessOf(log, g).Some? ==> AccessOf(log + [e], g) == AccessOf(log, g)
  {
    LogStep(log, e);
    if g > Generation(log) { NoLaterGeneration(log, g); }
  }

  lemma OldStaysNoOlder(log: seq<Entry>, e: Entry, began: nat, token: string)
    requires NoOlder(log, began, token)
    ensures NoOlder(log + [e], began, token)
  {
    var g :| began <= g <= Generation(log) && AccessOf(log, g) == Some(token);
    AccessStep(log, e, g);
    LogStep(log, e);
  }

  /** The stored token is the youngest generation. */
  lemma {:induction false} CurrentIsNewest(log: seq<Entry>)
    ensures Current(log).Some? ==> AccessOf(log, Generation(log)) == Some(Current(log).value.access)
  {
    if log != [] {
      CurrentIsNewest(log[..|log| - 1]);
    }
  }

  lemma CurrentIsNoOlder(w: World, began: nat)
    requires TokenOk(w) && began <= Generation(w.log)
    ensures NoOlder(w.log, began, w.shared.token.access)
  {
    CurrentIsNewest(w.log);
  }

  // ---------------------------------------------------------------- each step keeps the invariant

  /** The log either stays, or grows by what this step records. */
  lemma LogChange(w: World, i: Cid, reply: Reply)
    requires i < |w.callers|
    ensures var v := Act(w, i, reply); v.log == w.log || exists e :: v.log == w.log + [e]
  {}

  lemma CallersFollow(w: World, v: World, c: Caller)
    requires CallerOk(w, c) && v.now == w.now && !c.pc.Refreshing?
    requires v.log == w.log || exists e :: v.log == w.log + [e]
    ensures CallerOk(v, c)
  {
    if v.log != w.log {
      var e :| v.log == w.log + [e];
      LogStep(w.log, e);
      match c.pc {
        case Read(t) => OldStaysNoOlder(w.log, e, c.began, t);
        case Stored(t) => OldStaysNoOlder(w.log, e, c.began, t);
        case Done(r) => if r.Returned? { OldStaysNoOlder(w.log, e, c.began, r.token); }
        case _ =>
      }
    }
  }

  /** The store turns the latest grant into the stored token, and nobody else is about to store. */
  lemma StoreKeepsToken(w: World, i: Cid, reply: Reply)
    requires i < |w.callers| && w.callers[i].pc.Storing? && LockOk(w) && TokenOk(w)
    ensures TokenOk(Act(w, i, reply))
    ensures Act(w, i, reply).shared.token.access == w.callers[i].pc.grant.access
  {
    var v := Act(w, i, reply);
    assert forall j :: 0 <= j < |w.callers| && j != i ==> !HoldsWrite(w.callers[j].pc) && v.callers[j] == w.callers[j];
    hide LockOk;
    LogStep(w.log, Kept(w.now));
    hide LastGrant, Current, Generation;
  }

  /** A reply is the latest grant at most for the caller that got it. */
  lemma ReplyKeepsToken(w: World, i: Cid, reply: Reply)
    requires i < |w.callers| && w.callers[i].pc.Waiting? && LockOk(w) && TokenOk(w)
    ensures TokenOk(Act(w, i, reply))
  {
    var v := Act(w, i, reply);
    assert forall j :: 0 <= j < |w.callers| && j != i ==> !HoldsWrite(w.callers[j].pc) && v.callers[j] == w.callers[j];
    hide LockOk;
    LogStep(w.log, Answered(reply));
    hide LastGrant, Current, Generation;
    if v.callers[i].pc.Storing? {
      assert !(forall j :: 0 <= j < |v.callers| ==> !v.callers[j].pc.Storing?);
    } else {
      assert forall j :: 0 <= j < |w.callers| ==> !w.callers[j].pc.Storing?;
    }
  }

  lemma QuietKeepsToken(w: World, v: World, i: Cid)
    requires i < |w.callers| && !w.callers[i].pc.Storing? && |v.callers| == |w.callers| && !v.callers[i].pc.Storing?
    requires forall j :: 0 <= j < |w.callers| && j != i ==> v.callers[j] == w.callers[j]
    requires v.shared.token == w.shared.token && LastGrant(v.log) == LastGrant(w.log) && Current(v.log) == Current(w.log)
    requires TokenOk(w)
    ensures TokenOk(v)
  {
    hide LastGrant, Current;
    if j :| 0 <= j < |w.callers| && w.callers[j].pc.Storing? {
      assert v.callers[j].pc.Storing?;
    }
  }

  lemma ActKeepsToken(w: World, i: Cid, reply: Reply)
    requires i < |w.callers| && LockOk(w) && TokenOk(w)
    ensures TokenOk(Act(w, i, reply))
  {
    hide LockOk, TokenOk;
    if w.callers[i].pc.Storing? {
      StoreKeepsToken(w, i, reply);
    } else if w.callers[i].pc.Waiting? {
      ReplyKeepsToken(w, i, reply);
    } else {
      LogStep(w.log, Sent(w.shared.token.refresh, w.now));
      hide LastGrant, Current, Generation;
      QuietKeepsToken(w, Act(w, i, reply), i);
    }
  }

  lemma ActKeepsLog(w: World, i: Cid, reply: Reply)
    requires i < |w.callers| && LockOk(w) && TokenOk(w) && LogOk(w.log) && CallerOk(w, w.callers[i])
    ensures LogOk(Act(w, i, reply).log)
  {
    var v := Act(w, i, reply);
    if w.callers[i].pc.Refreshing? {
      assert forall j :: 0 <= j < |w.callers| ==> !w.callers[j].pc.Storing? by {
        assert forall j :: 0 <= j < |w.callers| && j != i ==> !HoldsWrite(w.callers[j].pc);
      }
      assert SentOk(w.log, v.log[|w.log|]);
    }
    hide LockOk, TokenOk, Exec, SentOk;
    forall k | 0 <= k < |v.log| && v.log[k].Sent? ensures SentOk(v.log[..k], v.log[k]) {
      if k < |w.log| { assert v.log[..k] == w.log[..k]; } else { assert v.log[..k] == w.log; }
    }
  }

  lemma ActorKnows(w: World, i: Cid, reply: Reply)
    requires i < |w.callers| && LockOk(w) && TokenOk(w) && CallerOk(w, w.callers[i])
    ensures CallerOk(Act(w, i, reply), Act(w, i, reply).callers[i])
  {
    hide LockOk, TokenOk, NoOlder, LastGrant, Current;
    var v, c := Act(w, i, reply), w.callers[i];
    match c.pc {
      case Reading => if v.callers[i].pc.Read? { CurrentIsNoOlder(w, c.began); }
      case Released => CurrentIsNoOlder(w, c.began);
      case Refreshing => LogStep(w.log, Sent(w.shared.token.refresh, w.now));
      case Waiting => LogStep(w.log, Answered(reply));
      case Storing(g) => StorerKnows(w, i, reply);
      case _ =>
    }
  }

  lemma StorerKnows(w: World, i: Cid, reply: Reply)
    requires i < |w.callers| && w.callers[i].pc.Storing? && LockOk(w) && TokenOk(w) && CallerOk(w, w.callers[i])
    ensures CallerOk(Act(w, i, reply), Act(w, i, reply).callers[i])
  {
    hide LockOk, TokenOk, NoOlder, LastGrant, Current;
    StoreKeepsToken(w, i, reply);
    LogStep(w.log, Kept(w.now));
    hide Generation;
    CurrentIsNoOlder(Act(w, i, reply), w.callers[i].began);
  }

  lemma ActKeepsInv(w: World, i: Cid, reply: Reply)
    requires i < |w.callers|
    requires Inv(w)
    ensures Inv(Act(w, i, reply))
  {
    hide CallerOk, LogOk, TokenOk;
    var v := Act(w, i, reply);
    ActKeepsLock(w, i, reply);
    ActKeepsToken(w, i, reply);
    ActKeepsLog(w, i, reply);
    ActorKnows(w, i, reply);
    forall j | 0 <= j < |v.callers| ensures CallerOk(v, v.callers[j]) {
      if j != i { OthersKnow(w, i, reply, j); }
    }
    hide LockOk;
  }

  lemma OthersKnow(w: World, i: Cid, reply: Reply, j: Cid)
    requires i < |w.callers| && j < |w.callers| && i != j
    requires LockOk(w) && CallerOk(w, w.callers[j])
    ensures var v := Act(w, i, reply); CallerOk(v, v.callers[j])
  {
    var v := Act(w, i, reply);
    LogChange(w, i, reply);
    if w.callers[j].pc.Refreshing? {
      assert !HoldsWrite(w.callers[i].pc);
    } else {
      hide LockOk;
      CallersFollow(w, v, w.callers[j]);
    }
  }

  lemma {:induction false} EveryRunKeepsInv(grant: Grant, now: int, n: nat, events: seq<Event>)
    ensures Inv(After(Init(grant, now, n), events))
  {
    hide Inv, Act;
    if events == [] {
      InitKeepsInv(grant, now, n);
    } else {
      var w := After(Init(grant, now, n), events[..|events| - 1]);
      EveryRunKeepsInv(grant, now, n, events[..|events| - 1]);
      match events[|events| - 1]
      case Tick(ns) => TickKeepsInv(w, ns);
      case Go(i, reply) => if i < |w.callers| { ActKeepsInv(w, i, reply); }
    }
  }
}
