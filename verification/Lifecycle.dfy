/**
 * What the broker's two stores promise each other in every run, whatever requests are in flight
 * and whichever calls fail.
 */
module Lifecycle {
  import opened Domain
  import opened Tables
  import opened ApiManager
  import opened Requests
  import opened Interleaving
  import opened SagaInvariant

  /** The state a run reaches from empty tables. */
  function Reached(apim: Remote, events: seq<Event>): World {
    After(Init(apim), events)
  }

  lemma {:induction false} AfterConcat(w: World, xs: seq<Event>, ys: seq<Event>)
    ensures After(After(w, xs), ys) == After(w, xs + ys)
  {
    hide Next;
    if ys == [] {
      assert xs + ys == xs;
    } else {
      AfterConcat(w, xs, ys[..|ys| - 1]);
      assert (xs + ys)[..|xs + ys| - 1] == xs + ys[..|ys| - 1];
    }
  }

  // ---------------------------------------------------------------- one class per resource

  /** The four things that can have become of a resource the broker created. */
  ghost predicate Referenced(w: World, r: ResourceId) {
    exists id :: Names(w.sys, id, r)
  }

  ghost predicate InFlight(w: World, r: ResourceId) {
    exists tid :: tid in w.threads && Holds(w.threads[tid].pc, r)
  }

  ghost predicate Orphaned(w: World, r: ResourceId) {
    r in w.hist.orphaned
  }

  ghost predicate Removed(w: World, r: ResourceId) {
    r !in w.sys.apim.live && !Referenced(w, r)
  }

  /** Each created resource is in exactly one class. */
  lemma OneClassEach(apim: Remote, events: seq<Event>, r: ResourceId)
    requires Sane(apim) && r in Reached(apim, events).hist.creator
    ensures var w := Reached(apim, events);
      && (Referenced(w, r) || InFlight(w, r) || Orphaned(w, r) || Removed(w, r))
      && !(Referenced(w, r) && (InFlight(w, r) || Orphaned(w, r) || Removed(w, r)))
      && !(InFlight(w, r) && (Orphaned(w, r) || Removed(w, r)))
      && !(Orphaned(w, r) && Removed(w, r))
  {
    EveryRunKeepsInv(apim, events);
    var w := Reached(apim, events);
    hide After;
    ClassOf(w.sys, w.hist, w.threads, r);
    hide ThreadsOk, ResourcesOk, RowsOk, KeysOk, OneClaim, Integrity;
    if Referenced(w, r) {
      var id :| Names(w.sys, id, r);
      RowIsStored(w.sys, w.hist, w.threads, id);
    }
    if InFlight(w, r) {
      var tid :| tid in w.threads && Holds(w.threads[tid].pc, r);
      Knows(w.sys, w.hist, w.threads, tid);
      hide ThreadOk;
      HolderIsCreator(w.sys, w.hist, tid, w.threads[tid], r);
    }
  }

  lemma ClassOf(s: Sys, h: History, threads: map<Tid, Thread>, r: ResourceId)
    requires r in h.creator && ResourcesOk(s, h, threads) && StoredOk(s, h)
    ensures r in s.apim.live ==>
      || (exists id :: Names(s, id, r))
      || r in h.orphaned
      || (h.creator[r] in threads && Holds(threads[h.creator[r]].pc, r))
  {
    assert ResourceOk(s, h, threads, r);
  }

  /** At most one row names a resource, and at most one request holds it: the one that created it. */
  lemma OneRowOneHolder(apim: Remote, events: seq<Event>, r: ResourceId, i: InstanceId, j: InstanceId, s: Tid, t: Tid)
    requires Sane(apim)
    ensures var w := Reached(apim, events);
      && (Names(w.sys, i, r) && Names(w.sys, j, r) ==> i == j)
      && (Names(w.sys, i, r) ==> r in w.hist.creator)
      && (s in w.threads && t in w.threads && Holds(w.threads[s].pc, r) && Holds(w.threads[t].pc, r)
          ==> s == t && r in w.hist.creator && w.hist.creator[r] == s)
  {
    EveryRunKeepsInv(apim, events);
    var w := Reached(apim, events);
    hide After, ThreadOk, ThreadsOk, ResourcesOk, RowsOk, KeysOk, OneClaim;
    if Names(w.sys, i, r) { RowIsStored(w.sys, w.hist, w.threads, i); }
    if s in w.threads && Holds(w.threads[s].pc, r) {
      Knows(w.sys, w.hist, w.threads, s);
      HolderIsCreator(w.sys, w.hist, s, w.threads[s], r);
    }
    if t in w.threads && Holds(w.threads[t].pc, r) {
      Knows(w.sys, w.hist, w.threads, t);
      HolderIsCreator(w.sys, w.hist, t, w.threads[t], r);
    }
  }

  /**
   * A row's resource is live, or exactly one Deprovision in flight has removed it, or that
   * Deprovision could not delete the row; and never two of these.
   */
  lemma RowsAreBacked(apim: Remote, events: seq<Event>, id: InstanceId)
    requires Sane(apim) && id in Reached(apim, events).sys.db.instances
    ensures var w := Reached(apim, events); var r := w.sys.db.instances[id].resource;
      && (r in w.sys.apim.live || Claimed(w.threads, r) || r in w.hist.dangling)
      && !(r in w.sys.apim.live && (Claimed(w.threads, r) || r in w.hist.dangling))
      && !(Claimed(w.threads, r) && r in w.hist.dangling)
      && (forall i, j :: i in w.threads && j in w.threads && Claims(w.threads[i].pc, r) && Claims(w.threads[j].pc, r)
                         ==> i == j && w.threads[i].req.Deprovision? && w.threads[i].req.id == id)
  {
    EveryRunKeepsInv(apim, events);
    var w := Reached(apim, events);
    hide After, ThreadOk, ThreadsOk, ResourcesOk, KeysOk, Integrity;
    var r := w.sys.db.instances[id].resource;
    assert RowOk(w.sys, w.hist, w.threads, id);
    hide RowsOk;
    forall i | i in w.threads && Claims(w.threads[i].pc, r)
      ensures r !in w.sys.apim.live && r !in w.hist.dangling && w.threads[i].req.Deprovision? && w.threads[i].req.id == id
    {
      Knows(w.sys, w.hist, w.threads, i);
      ClaimantKnowsRow(w.sys, w.hist, i, w.threads[i], r);
    }
  }

  // ---------------------------------------------------------------- the remote delete is a claim

  /** Whether this call is the one by which request `tid` removed resource `r` from API-M. */
  ghost predicate RemovedBy(w: World, e: Event, tid: Tid, r: ResourceId) {
    && e.Call? && e.tid == tid
    && r in w.sys.apim.live && r !in Next(w, e).sys.apim.live
  }

  /** A request about to delete a row has itself removed a resource, earlier in this very run. */
  lemma {:induction false} ClaimantRemovedResource(w: World, events: seq<Event>, tid: Tid, row: Instance) returns (i: nat)
    requires tid !in w.threads
    requires var v := After(w, events);
      tid in v.threads && v.threads[tid].req.Deprovision? && v.threads[tid].pc == RemovingRow(row)
    ensures i < |events| && RemovedBy(After(w, events[..i]), events[i], tid, row.resource)
  {
    var before, e := events[..|events| - 1], events[|events| - 1];
    var u := After(w, before);
    if tid in u.threads && u.threads[tid].req.Deprovision? && u.threads[tid].pc == RemovingRow(row) {
      i := ClaimantRemovedResource(w, before, tid, row);
      assert before[..i] == events[..i];
    } else {
      assert After(w, events) == Next(u, e);
      hide After;
      assert e.Call? && e.tid == tid && tid in u.threads;
      i := |events| - 1;
    }
  }

  /**
   * The row a Deprovision deletes is the row of the resource it removed itself, never that of a
   * later Provision under the same instance ID, and no other row goes with it.
   */
  lemma DeprovisionDeletesItsOwnRow(apim: Remote, events: seq<Event>, tid: Tid, row: Instance, a: Answer) returns (i: nat)
    requires Sane(apim)
    requires var w := Reached(apim, events);
      tid in w.threads && w.threads[tid].req.Deprovision? && w.threads[tid].pc == RemovingRow(row)
    ensures i < |events| && RemovedBy(Reached(apim, events[..i]), events[i], tid, row.resource)
    ensures var w := Reached(apim, events); var id := w.threads[tid].req.id; var v := Act(w, tid, a);
      && id in w.sys.db.instances && w.sys.db.instances[id].resource == row.resource
      && (v.threads[tid].pc == Done(Deprovisioned) <==> a.Okay? && !HasBinding(w.sys.db, id))
      && v.sys.db.instances == (if v.threads[tid].pc == Done(Deprovisioned) then w.sys.db.instances - {id} else w.sys.db.instances)
      && v.sys.apim == w.sys.apim
  {
    hide After, Inv, Exec, Record;
    EveryRunKeepsInv(apim, events);
    i := ClaimantRemovedResource(Init(apim), events, tid, row);
    ClaimDeletesRow(Reached(apim, events), tid, row, a);
  }

  lemma ClaimDeletesRow(w: World, tid: Tid, row: Instance, a: Answer)
    requires tid in w.threads && w.threads[tid].req.Deprovision? && w.threads[tid].pc == RemovingRow(row)
    requires Inv(w)
    ensures var id := w.threads[tid].req.id; var v := Act(w, tid, a);
      && id in w.sys.db.instances && w.sys.db.instances[id].resource == row.resource
      && (v.threads[tid].pc == Done(Deprovisioned) <==> a.Okay? && !HasBinding(w.sys.db, id))
      && v.sys.db.instances == (if v.threads[tid].pc == Done(Deprovisioned) then w.sys.db.instances - {id} else w.sys.db.instances)
      && v.sys.apim == w.sys.apim
  {
    hide ThreadOk, ThreadsOk, ResourcesOk, RowsOk, KeysOk, Integrity, StoredOk, OneClaim;
    Knows(w.sys, w.hist, w.threads, tid);
    ClaimantKnowsRow(w.sys, w.hist, tid, w.threads[tid], row.resource);
  }

  // ---------------------------------------------------------------- racing Provisions

  /** How one call can change what is live and what is stored. */
  lemma FatesChange(w: World, tid: Tid, a: Answer, r: ResourceId)
    requires tid in w.threads && Inv(w)
    requires var v := Act(w, tid, a); r in v.hist.stored && r !in v.sys.apim.live
    ensures var v := Act(w, tid, a);
      || (r in w.hist.stored && r !in w.sys.apim.live && v.hist.stored[r] == w.hist.stored[r])
      || (r in w.sys.apim.live && w.threads[tid].req.Deprovision? && w.threads[tid].req.id == v.hist.stored[r])
  {
    hide Inv, Act;
    var q := w.threads[tid].req;
    if q.Provision? {
      ProvisionFates(w, tid, a, r);
    } else if q.Deprovision? {
      DeprovisionFates(w, tid, a, r);
    } else {
      BystandersLeaveFates(w, tid, a);
    }
  }

  lemma ProvisionFates(w: World, tid: Tid, a: Answer, r: ResourceId)
    requires tid in w.threads && w.threads[tid].req.Provision? && Inv(w)
    requires var v := Act(w, tid, a); r in v.hist.stored && r !in v.sys.apim.live
    ensures r in w.hist.stored && r !in w.sys.apim.live && Act(w, tid, a).hist.stored[r] == w.hist.stored[r]
  {
    hide ThreadOk, ThreadsOk, ResourcesOk, RowsOk, KeysOk, OneClaim, Integrity;
    var t := w.threads[tid];
    Knows(w.sys, w.hist, w.threads, tid);
    if Holds(t.pc, r) { HolderIsCreator(w.sys, w.hist, tid, t, r); }
  }

  lemma DeprovisionFates(w: World, tid: Tid, a: Answer, r: ResourceId)
    requires tid in w.threads && w.threads[tid].req.Deprovision? && Inv(w)
    requires var v := Act(w, tid, a); r in v.hist.stored && r !in v.sys.apim.live
    ensures r in w.hist.stored && Act(w, tid, a).hist.stored[r] == w.hist.stored[r]
    ensures r in w.sys.apim.live ==> w.threads[tid].req.id == w.hist.stored[r]
  {
    hide ThreadOk, ThreadsOk, ResourcesOk, RowsOk, KeysOk, OneClaim, Integrity, StoredOk;
    var t := w.threads[tid];
    Knows(w.sys, w.hist, w.threads, tid);
    if t.pc.RemovingResource? { RemoverKnows(w.sys, w.hist, tid, t); }
  }

  lemma BystandersLeaveFates(w: World, tid: Tid, a: Answer)
    requires tid in w.threads && !w.threads[tid].req.Provision? && !w.threads[tid].req.Deprovision?
    ensures Act(w, tid, a).sys.apim == w.sys.apim && Act(w, tid, a).hist.stored == w.hist.stored
  {}

  lemma RemoverKnows(s: Sys, h: History, tid: Tid, t: Thread)
    requires ThreadOk(s, h, tid, t) && t.req.Deprovision? && t.pc.RemovingResource?
    ensures t.pc.row.resource in h.stored && h.stored[t.pc.row.resource] == t.req.id
  {}

  /** In `u` the call `e` removed `r`, and as of `w` its request is a Deprovision of the instance `r` was stored under. */
  ghost predicate Explains(u: World, e: Event, w: World, r: ResourceId) {
    && RemovedBy(u, e, e.tid, r)
    && r in w.hist.stored
    && e.tid in w.threads && w.threads[e.tid].req.Deprovision? && w.threads[e.tid].req.id == w.hist.stored[r]
  }

  lemma ExplanationStays(u: World, e: Event, w: World, next: Event, r: ResourceId)
    requires Explains(u, e, w, r) && Inv(w)
    ensures Explains(u, e, Next(w, next), r)
  {
    hide Inv, RemovedBy;
    StoredStays(w, next, r);
    RequestStays(w, next, e.tid);
    hide Next;
  }

  lemma RemovedNow(w: World, e: Event, r: ResourceId)
    requires r in Next(w, e).hist.stored && r !in Next(w, e).sys.apim.live
    requires r in w.hist.stored ==> r in w.sys.apim.live
    requires Inv(w)
    ensures Explains(w, e, Next(w, e), r)
  {
    hide Inv, Exec, Record;
    FatesChange(w, e.tid, e.answer, r);
  }

  /**
   * A stored resource that is gone was removed at a definite call, and the call was one of a
   * Deprovision of the very instance it was stored under.
   */
  lemma {:induction false} EveryRunExplainsRemovals(apim: Remote, events: seq<Event>, r: ResourceId) returns (i: nat)
    requires Sane(apim)
    requires r in Reached(apim, events).hist.stored && r !in Reached(apim, events).sys.apim.live
    ensures i < |events| && Explains(Reached(apim, events[..i]), events[i], Reached(apim, events), r)
  {
    hide Inv, Next, Explains;
    var before, e := events[..|events| - 1], events[|events| - 1];
    EveryRunKeepsInv(apim, before);
    var w := Reached(apim, before);
    assert Reached(apim, events) == Next(w, e);
    hide After;
    if r in w.hist.stored && r !in w.sys.apim.live {
      i := EveryRunExplainsRemovals(apim, before, r);
      assert before[..i] == events[..i];
      ExplanationStays(Reached(apim, before[..i]), before[i], w, e, r);
    } else {
      i := |events| - 1;
      RemovedNow(w, e, r);
    }
  }

  lemma RequestStays(w: World, e: Event, tid: Tid)
    requires tid in w.threads
    ensures tid in Next(w, e).threads && Next(w, e).threads[tid].req == w.threads[tid].req
  {
    hide Exec, Record;
  }

  /**
   * However many Provisions of an instance ID race, and whatever fails, at most one of them
   * succeeds in storing a row until somebody asks to deprovision that ID.
   */
  lemma OneWinner(apim: Remote, events: seq<Event>, id: InstanceId, i: Tid, j: Tid)
    requires Sane(apim)
    requires var w := Reached(apim, events);
      && (forall tid :: tid in w.threads && w.threads[tid].req.Deprovision? ==> w.threads[tid].req.id != id)
      && i in w.threads && w.threads[i].req.Provision? && w.threads[i].req.id == id
      && j in w.threads && w.threads[j].req.Provision? && w.threads[j].req.id == id
      && w.threads[i].pc.Done? && w.threads[i].pc.response.Provisioned?
      && w.threads[j].pc.Done? && w.threads[j].pc.response.Provisioned?
    ensures i == j
    ensures var w := Reached(apim, events);
      Names(w.sys, id, w.threads[i].pc.response.resource) && w.threads[i].pc.response.resource in w.sys.apim.live
  {
    EveryRunKeepsInv(apim, events);
    var w := Reached(apim, events);
    hide After, ThreadOk, ThreadsOk, ResourcesOk, RowsOk, KeysOk, OneClaim, Integrity;
    WinnerStored(w.sys, w.hist, w.threads, i);
    WinnerStored(w.sys, w.hist, w.threads, j);
    if w.threads[i].pc.response.resource !in w.sys.apim.live {
      var k := EveryRunExplainsRemovals(apim, events, w.threads[i].pc.response.resource);
    }
    if w.threads[j].pc.response.resource !in w.sys.apim.live {
      var k := EveryRunExplainsRemovals(apim, events, w.threads[j].pc.response.resource);
    }
  }

  lemma WinnerStored(s: Sys, h: History, threads: map<Tid, Thread>, tid: Tid)
    requires tid in threads && threads[tid].req.Provision?
    requires threads[tid].pc.Done? && threads[tid].pc.response.Provisioned?
    requires ThreadsOk(s, h, threads) && ResourcesOk(s, h, threads)
    ensures var r := threads[tid].pc.response.resource;
      r in h.creator && h.creator[r] == tid && r in h.stored && h.stored[r] == threads[tid].req.id
  {
    assert ThreadOk(s, h, tid, threads[tid]);
    var r := threads[tid].pc.response.resource;
    assert ResourceOk(s, h, threads, r);
  }

  /** A losing Provision's compensation touches the resource it created itself, which no row names. */
  lemma CompensationIsPrivate(apim: Remote, events: seq<Event>, tid: Tid, a: Answer)
    requires Sane(apim)
    requires tid in Reached(apim, events).threads && Reached(apim, events).threads[tid].pc.CleaningUp?
    ensures var w := Reached(apim, events); var r := w.threads[tid].pc.resource; var v := Act(w, tid, a);
      && r in w.hist.creator && w.hist.creator[r] == tid
      && !Referenced(w, r) && r !in w.hist.stored
      && v.sys.db == w.sys.db
      && v.sys.apim.live == (if a.Okay? then w.sys.apim.live - {r} else w.sys.apim.live)
      && v.hist.orphaned == (if a.Okay? then w.hist.orphaned else w.hist.orphaned + {r})
  {
    EveryRunKeepsInv(apim, events);
    var w := Reached(apim, events);
    var t, r := w.threads[tid], w.threads[tid].pc.resource;
    hide After, ThreadsOk, ResourcesOk, RowsOk, KeysOk, OneClaim, Integrity, StoredOk;
    Knows(w.sys, w.hist, w.threads, tid);
    HolderIsCreator(w.sys, w.hist, tid, t, r);
    HeldKind(w.sys, w.hist, w.threads, tid, r);
    UnstoredIsUnnamed(w.sys, w.hist, w.threads, r);
    assert t.req.Provision?;
    hide ThreadOk;
  }

  lemma UnstoredIsUnnamed(s: Sys, h: History, threads: map<Tid, Thread>, r: ResourceId)
    requires r !in h.stored && RowsOk(s, h, threads)
    ensures forall id :: !Names(s, id, r)
  {
    RowsAreStored(s, h, threads);
  }

  lemma HeldKind(s: Sys, h: History, threads: map<Tid, Thread>, tid: Tid, r: ResourceId)
    requires tid in threads && r in h.creator && h.creator[r] == tid && ResourcesOk(s, h, threads)
    ensures WellFormed(threads[tid].req)
    ensures r in s.apim.live ==> s.apim.live[r] == KindOf(threads[tid].req.plan)
  {
    assert ResourceOk(s, h, threads, r);
  }

  // ---------------------------------------------------------------- idempotence

  /** The request that wrote the row of `id`. */
  ghost function CreatorOf(w: World, id: InstanceId): Request
    requires id in w.sys.db.instances && Inv(w)
  {
    assert RowOk(w.sys, w.hist, w.threads, id);
    w.threads[w.hist.creator[w.sys.db.instances[id].resource]].req
  }

  /**
   * While a row lives, a valid Provision of its ID changes nothing, and is answered "already
   * exists" exactly when its stream, space and organization are those of the Provision that wrote
   * the row, however many updates came between.
   */
  lemma ProvisionIsIdempotent(apim: Remote, events: seq<Event>, tid: Tid)
    requires Sane(apim)
    requires var w := Reached(apim, events);
      tid in w.threads && w.threads[tid].pc.Start?
      && var q := w.threads[tid].req;
      && q.Provision? && q.space != "" && q.org != "" && !q.plan.UnknownPlan? && q.params.Valid?
      && q.id in w.sys.db.instances
    ensures Inv(Reached(apim, events))
    ensures var w := Reached(apim, events); var q := w.threads[tid].req;
      var q0 := CreatorOf(w, q.id); var v := Act(w, tid, Okay);
      && WellFormed(q0) && q0.id == q.id
      && v.sys == w.sys
      && v.threads[tid].pc.Done?
      && v.threads[tid].pc.response ==
         if q.params.hash == q0.params.hash && q.space == q0.space && q.org == q0.org
         then AlreadyProvisioned else Refused(InstanceAlreadyExists)
  {
    hide After, Inv, Act;
    EveryRunKeepsInv(apim, events);
    LookupDecides(Reached(apim, events), tid);
  }

  lemma LookupDecides(w: World, tid: Tid)
    requires Inv(w)
    requires tid in w.threads && WellFormed(w.threads[tid].req) && w.threads[tid].pc.Start?
    requires w.threads[tid].req.id in w.sys.db.instances
    ensures var q := w.threads[tid].req; var q0 := CreatorOf(w, q.id); var v := Act(w, tid, Okay);
      && WellFormed(q0) && q0.id == q.id
      && v.sys == w.sys
      && v.threads[tid].pc.Done?
      && v.threads[tid].pc.response ==
         if q.params.hash == q0.params.hash && q.space == q0.space && q.org == q0.org
         then AlreadyProvisioned else Refused(InstanceAlreadyExists)
  {
    hide ThreadOk, ThreadsOk, ResourcesOk, RowsOk, KeysOk, OneClaim, Integrity, StoredOk;
    RowWrittenBy(w.sys, w.hist, w.threads, w.threads[tid].req.id);
  }

  lemma RowWrittenBy(s: Sys, h: History, threads: map<Tid, Thread>, id: InstanceId)
    requires id in s.db.instances && RowsOk(s, h, threads) && ResourcesOk(s, h, threads)
    ensures var r := s.db.instances[id].resource;
      r in h.creator && h.creator[r] in threads && WellFormed(threads[h.creator[r]].req)
      && threads[h.creator[r]].req.id == id && s.db.instances[id] == RowOf(threads[h.creator[r]].req, r)
  {
    assert RowOk(s, h, threads, id);
    assert ResourceOk(s, h, threads, s.db.instances[id].resource);
  }

  // ---------------------------------------------------------------- a failed row delete is for ever

  lemma {:induction false} DanglingNeverShrinks(w: World, events: seq<Event>)
    ensures w.hist.dangling <= After(w, events).hist.dangling
  {
    hide Exec;
    if events != [] {
      DanglingNeverShrinks(w, events[..|events| - 1]);
    }
  }

  /**
   * Once a row's resource is gone and the row delete failed, the row stays in every future, so the
   * instance ID can be neither deprovisioned nor provisioned afresh.
   */
  lemma DanglingIsForever(apim: Remote, events: seq<Event>, more: seq<Event>, r: ResourceId)
    requires Sane(apim) && r in Reached(apim, events).hist.dangling
    ensures var w, v := Reached(apim, events), Reached(apim, events + more);
      && r in w.hist.stored && r in v.hist.stored && v.hist.stored[r] == w.hist.stored[r]
      && Names(v.sys, w.hist.stored[r], r) && r !in v.sys.apim.live
  {
    EveryRunKeepsInv(apim, events);
    EveryRunKeepsInv(apim, events + more);
    AfterConcat(Init(apim), events, more);
    DanglingNeverShrinks(Reached(apim, events), more);
    StoredNeverChanges(Reached(apim, events), more, r);
    hide After, ThreadsOk, ResourcesOk, RowsOk, KeysOk, OneClaim, Integrity;
  }

  lemma {:induction false} StoredNeverChanges(w: World, events: seq<Event>, r: ResourceId)
    requires Inv(w) && r in w.hist.stored
    ensures var v := After(w, events); Inv(v) && r in v.hist.stored && v.hist.stored[r] == w.hist.stored[r]
  {
    hide Inv;
    if events != [] {
      var before, e := events[..|events| - 1], events[|events| - 1];
      StoredNeverChanges(w, before, r);
      var u := After(w, before);
      assert After(w, events) == Next(u, e);
      hide After;
      NextKeepsInv(u, e);
      StoredStays(u, e, r);
    }
  }

  lemma StoredStays(w: World, e: Event, r: ResourceId)
    requires r in w.hist.stored && Inv(w)
    ensures var v := Next(w, e); r in v.hist.stored && v.hist.stored[r] == w.hist.stored[r]
  {
    hide ThreadOk, ThreadsOk, ResourcesOk, RowsOk, KeysOk, OneClaim, Integrity, StoredOk;
    if e.Call? && e.tid in w.threads && Holds(w.threads[e.tid].pc, r) {
      Knows(w.sys, w.hist, w.threads, e.tid);
      HolderIsCreator(w.sys, w.hist, e.tid, w.threads[e.tid], r);
    }
    hide Exec;
  }
}
