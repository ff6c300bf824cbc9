/**
 * The invariant of every interleaving: what each request in flight knows, and what has become of
 * every API-M resource the broker ever created.
 */
module SagaInvariant {
  import opened Domain
  import opened Tables
  import opened ApiManager
  import opened Requests
  import opened Interleaving

  /** A Provision that has created a resource and not yet stored it or given it up. */
  predicate Holds(pc: Pc, r: ResourceId) {
    (pc.Publishing? || pc.StoringRow? || pc.CleaningUp?) && pc.resource == r
  }

  /** A Deprovision that has removed a resource and not yet deleted its row. */
  predicate Claims(pc: Pc, r: ResourceId) {
    pc.RemovingRow? && pc.row.resource == r
  }

  ghost predicate ProvisionOk(s: Sys, h: History, tid: Tid, q: Request, pc: Pc) {
    match pc
    case Start => true
    case SearchingApi => WellFormed(q)
    case SearchingApp => WellFormed(q)
    case Creating => WellFormed(q)
    case Publishing(r) => WellFormed(q) && HeldOk(s, h, tid, r)
    case StoringRow(r) => WellFormed(q) && HeldOk(s, h, tid, r)
    case CleaningUp(r, f) => WellFormed(q) && HeldOk(s, h, tid, r)
    case Done(resp) =>
      (resp.Provisioned? ==> resp.resource in h.creator && h.creator[resp.resource] == tid && resp.resource in h.stored)
    case _ => false
  }

  ghost predicate HeldOk(s: Sys, h: History, tid: Tid, r: ResourceId) {
    && r in h.creator && h.creator[r] == tid
    && r in s.apim.live
    && r !in h.stored && r !in h.orphaned
  }

  ghost predicate DeprovisionOk(s: Sys, h: History, q: Request, pc: Pc) {
    match pc
    case Start => true
    case RemovingResource(row) => row.resource in h.stored && h.stored[row.resource] == q.id
    case RemovingRow(row) =>
      && row.resource in h.stored && h.stored[row.resource] == q.id
      && row.resource !in s.apim.live && row.resource !in h.dangling
      && Names(s, q.id, row.resource)
    case Done(_) => true
    case _ => false
  }

  ghost predicate BindOk(h: History, q: Request, pc: Pc) {
    match pc
    case Start => true
    case Naming(_) => true
    case ReadingInstance(_, _) => true
    case ReadingApplication(_, _, r) => r in h.stored && h.stored[r] == q.id
    case GeneratingKeys(_, r) => r in h.stored && h.stored[r] == q.id
    case StoringKeys(_, r, _) => r in h.stored && h.stored[r] == q.id
    case StoringBind(_, r, keys) => r in h.stored && h.stored[r] == q.id && r in h.issued && h.issued[r] == keys
    case Done(resp) =>
      resp.Bound? ==>
        && resp.resource in h.stored && h.stored[resp.resource] == q.id
        && ((resp.alreadyExists && resp.keys == NO_KEYS)
            || (resp.resource in h.issued && h.issued[resp.resource] == resp.keys))
    case _ => false
  }

  ghost predicate ThreadOk(s: Sys, h: History, tid: Tid, t: Thread) {
    match t.req
    case Provision(_, _, _, _, _, _) => ProvisionOk(s, h, tid, t.req, t.pc)
    case Deprovision(_, _) => DeprovisionOk(s, h, t.req, t.pc)
    case Bind(_, _, _, _, _) => BindOk(h, t.req, t.pc)
    case Unbind(_, _, _) => t.pc.Start? || t.pc.RemovingBind? || t.pc.Done?
    case Update(_, _, _) => t.pc.Start? || t.pc.UpdatingResource? || t.pc.Done?
  }

  /** What a resource the broker created has been through. */
  ghost predicate ResourceOk(s: Sys, h: History, threads: map<Tid, Thread>, r: ResourceId)
    requires r in h.creator
  {
    var tid := h.creator[r];
    && r in s.apim.used
    && tid in threads && WellFormed(threads[tid].req)
    && (r in s.apim.live ==> s.apim.live[r] == KindOf(threads[tid].req.plan))
    && (r in s.apim.live && r !in h.stored && r !in h.orphaned ==> Holds(threads[tid].pc, r))
    && (r in h.stored ==> threads[tid].pc == Done(Provisioned(r)) && h.stored[r] == threads[tid].req.id)
  }

  ghost predicate StoredOk(s: Sys, h: History) {
    && h.stored.Keys <= h.creator.Keys
    && h.orphaned <= h.creator.Keys
    && (forall r :: r in h.orphaned ==> r in s.apim.live && r !in h.stored)
    && (forall r :: r in h.stored && r in s.apim.live ==> Names(s, h.stored[r], r))
    && (forall r :: r in h.dangling ==> r in h.stored && r !in s.apim.live && Names(s, h.stored[r], r))
  }

  ghost predicate Claimed(threads: map<Tid, Thread>, r: ResourceId) {
    exists tid :: tid in threads && Claims(threads[tid].pc, r)
  }

  /** A row is what its creator wrote, and its resource is live unless somebody removed it. */
  ghost predicate RowOk(s: Sys, h: History, threads: map<Tid, Thread>, id: InstanceId)
    requires id in s.db.instances
  {
    var row := s.db.instances[id];
    && row.resource in h.stored && h.stored[row.resource] == id
    && row.resource in h.creator && h.creator[row.resource] in threads
    && WellFormed(threads[h.creator[row.resource]].req)
    && row == RowOf(threads[h.creator[row.resource]].req, row.resource)
    && (row.resource in s.apim.live || row.resource in h.dangling || Claimed(threads, row.resource))
  }

  ghost predicate KeysOk(s: Sys, h: History) {
    && h.issued.Keys <= h.stored.Keys
    && (forall r :: r in s.db.applications ==> r in h.issued && h.issued[r] == s.db.applications[r])
    && (forall r :: r in h.issued && Names(s, h.stored[r], r) ==> r in s.db.applications)
  }

  ghost predicate OneClaim(threads: map<Tid, Thread>) {
    forall i, j, r :: i in threads && j in threads && Claims(threads[i].pc, r) && Claims(threads[j].pc, r) ==> i == j
  }

  ghost predicate ThreadsOk(s: Sys, h: History, threads: map<Tid, Thread>) {
    forall tid :: tid in threads ==> ThreadOk(s, h, tid, threads[tid])
  }

  ghost predicate ResourcesOk(s: Sys, h: History, threads: map<Tid, Thread>) {
    forall r :: r in h.creator ==> ResourceOk(s, h, threads, r)
  }

  ghost predicate RowsOk(s: Sys, h: History, threads: map<Tid, Thread>) {
    forall id :: id in s.db.instances ==> RowOk(s, h, threads, id)
  }

  ghost predicate Inv(w: World) {
    && Integrity(w.sys.db)
    && Sane(w.sys.apim)
    && StoredOk(w.sys, w.hist)
    && KeysOk(w.sys, w.hist)
    && OneClaim(w.threads)
    && ThreadsOk(w.sys, w.hist, w.threads)
    && ResourcesOk(w.sys, w.hist, w.threads)
    && RowsOk(w.sys, w.hist, w.threads)
  }

  lemma InitKeepsInv(apim: Remote)
    requires Sane(apim)
    ensures Inv(Init(apim))
  {}

  // ---------------------------------------------------------------- frames

  ghost predicate Extends<K, V>(m: map<K, V>, m': map<K, V>) {
    forall k :: k in m ==> k in m' && m'[k] == m[k]
  }

  ghost predicate HistoryGrows(h: History, h': History) {
    && Extends(h.creator, h'.creator) && Extends(h.stored, h'.stored) && Extends(h.issued, h'.issued)
    && h.orphaned <= h'.orphaned && h.dangling <= h'.dangling
  }

  lemma Knows(s: Sys, h: History, threads: map<Tid, Thread>, tid: Tid)
    requires tid in threads && ThreadsOk(s, h, threads)
    ensures ThreadOk(s, h, tid, threads[tid])
  {}

  lemma HolderIsCreator(s: Sys, h: History, tid: Tid, t: Thread, r: ResourceId)
    requires ThreadOk(s, h, tid, t) && Holds(t.pc, r)
    ensures WellFormed(t.req) && HeldOk(s, h, tid, r)
  {}

  lemma ClaimantKnowsRow(s: Sys, h: History, tid: Tid, t: Thread, r: ResourceId)
    requires ThreadOk(s, h, tid, t) && Claims(t.pc, r)
    ensures t.req.Deprovision?
    ensures r in h.stored && h.stored[r] == t.req.id
    ensures r !in s.apim.live && r !in h.dangling
    ensures Names(s, t.req.id, r)
  {}

  ghost predicate Undisturbed(s': Sys, h': History, t: Thread) {
    && (forall r :: Holds(t.pc, r) ==> r in s'.apim.live && r !in h'.stored && r !in h'.orphaned)
    && (forall r :: Claims(t.pc, r) ==> r !in s'.apim.live && r !in h'.dangling && Names(s', t.req.id, r))
  }

  /** What one thread knows survives another's call that touches neither its hold nor its claim. */
  lemma ThreadFollows(s: Sys, h: History, s': Sys, h': History, tid: Tid, t: Thread)
    requires ThreadOk(s, h, tid, t)
    requires HistoryGrows(h, h')
    requires Undisturbed(s', h', t)
    ensures ThreadOk(s', h', tid, t)
  {}

  lemma ThreadsFollow(s: Sys, h: History, threads: map<Tid, Thread>, s': Sys, h': History, tid: Tid, t: Thread)
    requires ThreadsOk(s, h, threads)
    requires HistoryGrows(h, h')
    requires forall c :: c in threads && c != tid ==> Undisturbed(s', h', threads[c])
    requires ThreadOk(s', h', tid, t)
    ensures ThreadsOk(s', h', threads[tid := t])
  {
    forall c | c in threads && c != tid ensures ThreadOk(s', h', c, threads[c]) {
      assert ThreadOk(s, h, c, threads[c]);
      ThreadFollows(s, h, s', h', c, threads[c]);
    }
    hide ThreadOk;
  }

  /** Rows follow a call as long as each row that remains is still explained. */
  lemma RowsFollow(s: Sys, h: History, threads: map<Tid, Thread>, s': Sys, h': History, tid: Tid, t: Thread)
    requires RowsOk(s, h, threads)
    requires HistoryGrows(h, h')
    requires tid in threads ==> threads[tid].req == t.req
    requires forall id :: id in s'.db.instances ==> id in s.db.instances && s'.db.instances[id] == s.db.instances[id]
    requires forall id :: id in s'.db.instances ==>
      var r := s.db.instances[id].resource;
      r in s'.apim.live || r in h'.dangling || Claimed(threads[tid := t], r)
    ensures RowsOk(s', h', threads[tid := t])
  {
    forall id | id in s'.db.instances ensures RowOk(s', h', threads[tid := t], id) {
      assert RowOk(s, h, threads, id);
    }
  }

  lemma ClaimsFollow(threads: map<Tid, Thread>, tid: Tid, t: Thread, r: ResourceId)
    requires Claimed(threads, r)
    requires tid in threads ==> !Claims(threads[tid].pc, r)
    ensures Claimed(threads[tid := t], r)
  {
    var c :| c in threads && Claims(threads[c].pc, r);
    assert Claims(threads[tid := t][c].pc, r);
  }

  lemma RowsUnmoved(s: Sys, h: History, threads: map<Tid, Thread>, s': Sys, h': History, tid: Tid, t: Thread)
    requires RowsOk(s, h, threads)
    requires HistoryGrows(h, h')
    requires tid in threads ==> threads[tid].req == t.req && !threads[tid].pc.RemovingRow?
    requires forall id :: id in s'.db.instances ==> id in s.db.instances && s'.db.instances[id] == s.db.instances[id]
    requires forall id :: id in s'.db.instances && s'.db.instances[id].resource in s.apim.live
                          ==> s'.db.instances[id].resource in s'.apim.live
    ensures RowsOk(s', h', threads[tid := t])
  {
    forall id | id in s'.db.instances
      ensures var r := s.db.instances[id].resource;
        r in s'.apim.live || r in h'.dangling || Claimed(threads[tid := t], r)
    {
      assert RowOk(s, h, threads, id);
      var r := s.db.instances[id].resource;
      if Claimed(threads, r) { ClaimsFollow(threads, tid, t, r); }
    }
    RowsFollow(s, h, threads, s', h', tid, t);
  }

  /** Resources follow a move of one thread that keeps its hold; a finished thread stays finished. */
  lemma ResourcesFollow(s: Sys, h: History, threads: map<Tid, Thread>, s': Sys, h': History, tid: Tid, t: Thread)
    requires ResourcesOk(s, h, threads)
    requires s'.apim == s.apim && h'.creator == h.creator && h'.stored == h.stored && h'.orphaned == h.orphaned
    requires tid in threads ==>
      threads[tid].req == t.req
      && (forall r :: Holds(threads[tid].pc, r) ==> Holds(t.pc, r))
      && (threads[tid].pc.Done? ==> t.pc == threads[tid].pc)
    ensures ResourcesOk(s', h', threads[tid := t])
  {
    forall r | r in h.creator ensures ResourceOk(s', h', threads[tid := t], r) {
      assert ResourceOk(s, h, threads, r);
    }
  }

  lemma ClaimsUnmoved(threads: map<Tid, Thread>, tid: Tid, t: Thread)
    requires OneClaim(threads) && !t.pc.RemovingRow?
    ensures OneClaim(threads[tid := t])
  {}

  lemma StoredUnmoved(s: Sys, h: History, s': Sys, h': History)
    requires StoredOk(s, h)
    requires s'.db.instances == s.db.instances && h'.stored == h.stored && h'.orphaned == h.orphaned && h'.dangling == h.dangling
    requires h.creator.Keys <= h'.creator.Keys
    requires forall r :: r in h.creator ==> (r in s.apim.live <==> r in s'.apim.live)
    ensures StoredOk(s', h')
  {}

  /** Threads and rows follow a call that leaves the instances and the fate of every resource alone. */
  lemma RestUnmoved(w: World, w': World, tid: Tid)
    requires tid in w'.threads && w'.threads == w.threads[tid := w'.threads[tid]]
    requires tid in w.threads ==> w.threads[tid].req == w'.threads[tid].req && !w.threads[tid].pc.RemovingRow?
    requires !w'.threads[tid].pc.RemovingRow?
    requires w'.sys.db.instances == w.sys.db.instances
    requires w.hist.stored == w'.hist.stored && w.hist.orphaned == w'.hist.orphaned && w.hist.dangling == w'.hist.dangling
    requires Extends(w.hist.creator, w'.hist.creator) && Extends(w.hist.issued, w'.hist.issued)
    requires forall r :: r in w.hist.creator ==> (r in w.sys.apim.live <==> r in w'.sys.apim.live)
    requires ThreadOk(w'.sys, w'.hist, tid, w'.threads[tid])
    requires Inv(w)
    ensures StoredOk(w'.sys, w'.hist)
    ensures OneClaim(w'.threads)
    ensures ThreadsOk(w'.sys, w'.hist, w'.threads)
    ensures RowsOk(w'.sys, w'.hist, w'.threads)
  {
    hide ThreadOk, ResourcesOk, RowsOk, Integrity, KeysOk;
    var t := w'.threads[tid];
    ClaimsUnmoved(w.threads, tid, t);
    StoredUnmoved(w.sys, w.hist, w'.sys, w'.hist);
    forall c | c in w.threads && c != tid ensures Undisturbed(w'.sys, w'.hist, w.threads[c]) {
      ThreadUndisturbed(w.sys, w.hist, w'.sys, w'.hist, c, w.threads[c]);
    }
    ThreadsFollow(w.sys, w.hist, w.threads, w'.sys, w'.hist, tid, t);
    RowsExplained(w.sys, w.hist, w.threads, w'.sys);
    RowsUnmoved(w.sys, w.hist, w.threads, w'.sys, w'.hist, tid, t);
  }

  lemma RowsExplained(s: Sys, h: History, threads: map<Tid, Thread>, s': Sys)
    requires RowsOk(s, h, threads)
    requires forall r :: r in h.creator && r in s.apim.live ==> r in s'.apim.live
    ensures forall id :: id in s.db.instances && s.db.instances[id].resource in s.apim.live
                         ==> s.db.instances[id].resource in s'.apim.live
  {
    forall id | id in s.db.instances ensures s.db.instances[id].resource in h.creator {
      assert RowOk(s, h, threads, id);
    }
  }

  lemma ThreadUndisturbed(s: Sys, h: History, s': Sys, h': History, c: Tid, t: Thread)
    requires ThreadOk(s, h, c, t)
    requires h.stored.Keys <= h.creator.Keys
    requires s'.db.instances == s.db.instances
    requires h'.stored == h.stored && h'.orphaned == h.orphaned && h'.dangling == h.dangling
    requires forall r :: r in h.creator ==> (r in s.apim.live <==> r in s'.apim.live)
    ensures Undisturbed(s', h', t)
  {
    forall r | Holds(t.pc, r) ensures r in s'.apim.live && r !in h'.stored && r !in h'.orphaned {
      HolderIsCreator(s, h, c, t, r);
    }
    forall r | Claims(t.pc, r) ensures r !in s'.apim.live && r !in h'.dangling && Names(s', t.req.id, r) {
      ClaimantKnowsRow(s, h, c, t, r);
    }
  }

  // ---------------------------------------------------------------- each call keeps the invariant

  /**
   * An arrival, or a call that touches no instance, no API-M resource and no part of their history:
   * all of Unbind and Update, all but the key store of Bind, and every lookup.
   */
  lemma QuietKeepsInv(w: World, w': World, tid: Tid)
    requires tid in w'.threads && w'.threads == w.threads[tid := w'.threads[tid]]
    requires w'.sys.apim == w.sys.apim && w'.sys.db.instances == w.sys.db.instances
    requires w'.hist == w.hist.(issued := w'.hist.issued) && Extends(w.hist.issued, w'.hist.issued)
    requires Integrity(w'.sys.db) && KeysOk(w'.sys, w'.hist)
    requires tid in w.threads ==>
      && w.threads[tid].req == w'.threads[tid].req && !w.threads[tid].pc.RemovingRow?
      && (forall r :: Holds(w.threads[tid].pc, r) ==> Holds(w'.threads[tid].pc, r))
      && (w.threads[tid].pc.Done? ==> w'.threads[tid].pc == w.threads[tid].pc)
    requires !w'.threads[tid].pc.RemovingRow?
    requires ThreadOk(w'.sys, w'.hist, tid, w'.threads[tid])
    requires Inv(w)
    ensures Inv(w')
  {
    hide ThreadOk, ThreadsOk, RowsOk, ResourcesOk, StoredOk, KeysOk, OneClaim, Integrity;
    RestUnmoved(w, w', tid);
    ResourcesFollow(w.sys, w.hist, w.threads, w'.sys, w'.hist, tid, w'.threads[tid]);
  }

  lemma ArriveKeepsInv(w: World, tid: Tid, q: Request)
    requires tid !in w.threads
    requires Inv(w)
    ensures Inv(Next(w, Arrive(tid, q)))
  {
    hide ThreadsOk, ResourcesOk, RowsOk, StoredOk, KeysOk, OneClaim, Integrity;
    QuietKeepsInv(w, Next(w, Arrive(tid, q)), tid);
  }

  /** Create: API-M hands out an id no row, request or history knows. */
  lemma CreateKeepsInv(w: World, w': World, tid: Tid, a: Answer)
    requires tid in w.threads && w.threads[tid].pc.Creating? && WellFormed(w.threads[tid].req)
    requires Creates(w.sys.apim, a)
    requires w'.sys == w.sys.(apim := Create(w.sys.apim, KindOf(w.threads[tid].req.plan), a))
    requires w'.hist == w.hist.(creator := w.hist.creator[a.id := tid])
    requires tid in w'.threads && w'.threads == w.threads[tid := w'.threads[tid]]
    requires w'.threads[tid].req == w.threads[tid].req
    requires (w'.threads[tid].pc.Publishing? || w'.threads[tid].pc.StoringRow?) && w'.threads[tid].pc.resource == a.id
    requires Inv(w)
    ensures Inv(w')
  {
    CreatedIsFresh(w.sys, w.hist, w.threads, a);
    hide ThreadsOk, RowsOk, ResourcesOk, OneClaim, Integrity;
    assert KeysOk(w'.sys, w'.hist);
    hide KeysOk;
    assert ThreadOk(w'.sys, w'.hist, tid, w'.threads[tid]);
    hide ThreadOk, StoredOk;
    RestUnmoved(w, w', tid);
    CreateResources(w.sys, w.hist, w.threads, tid, w'.threads[tid], w'.sys, w'.hist, a);
  }

  lemma CreatedIsFresh(s: Sys, h: History, threads: map<Tid, Thread>, a: Answer)
    requires ResourcesOk(s, h, threads) && StoredOk(s, h) && Creates(s.apim, a)
    ensures a.id !in h.creator && a.id !in h.stored && a.id !in h.orphaned
  {
    if a.id in h.creator && ResourceOk(s, h, threads, a.id) { assert false; }
  }

  lemma CreateResources(s: Sys, h: History, threads: map<Tid, Thread>, tid: Tid, t: Thread, s': Sys, h': History, a: Answer)
    requires a.Id? && tid in threads && threads[tid].req == t.req && threads[tid].pc.Creating? && Holds(t.pc, a.id)
    requires a.id !in h.creator && a.id !in h.stored && WellFormed(t.req)
    requires s' == s.(apim := Remote(s.apim.live[a.id := KindOf(t.req.plan)], s.apim.used + {a.id}))
    requires h' == h.(creator := h.creator[a.id := tid])
    requires ResourcesOk(s, h, threads)
    ensures ResourcesOk(s', h', threads[tid := t])
  {
    forall r | r in h'.creator ensures ResourceOk(s', h', threads[tid := t], r) {
      if r != a.id { assert ResourceOk(s, h, threads, r); }
    }
  }

  /** Storing the row: it names a resource no other row names, and its creator is done. */
  lemma StoreRowKeepsInv(w: World, w': World, tid: Tid, r: ResourceId)
    requires tid in w.threads && w.threads[tid].pc == StoringRow(r) && w.threads[tid].req.Provision?
    requires WellFormed(w.threads[tid].req)
    requires var q := w.threads[tid].req;
      StoreInstance(w.sys.db, q.id, RowOf(q, r), true) == Result(w'.sys.db, true)
    requires w'.sys.apim == w.sys.apim
    requires w'.hist == w.hist.(stored := w.hist.stored[r := w.threads[tid].req.id])
    requires tid in w'.threads && w'.threads == w.threads[tid := Thread(w.threads[tid].req, Done(Provisioned(r)))]
    requires Inv(w)
    ensures Inv(w')
  {
    hide ThreadOk, ThreadsOk, ResourcesOk, RowsOk, StoredOk, KeysOk, OneClaim, Integrity;
    var q, t := w.threads[tid].req, w'.threads[tid];
    Knows(w.sys, w.hist, w.threads, tid);
    HolderIsCreator(w.sys, w.hist, tid, w.threads[tid], r);
    hide HeldOk;
    StoreInstanceKeepsIntegrity(w.sys.db, q.id, RowOf(q, r), true);
    StoreRowThreads(w.sys, w.hist, w.threads, w'.sys, w'.hist, tid, t, r);
    StoreRowResources(w.sys, w.hist, w.threads, w'.sys, w'.hist, tid, t, r);
    StoreRowRows(w.sys, w.hist, w.threads, w'.sys, w'.hist, tid, t, r);
    ClaimsUnmoved(w.threads, tid, t);
    StoreRowStored(w.sys, w.hist, w'.sys, w'.hist, q.id, r);
  }

  lemma StoreRowStored(s: Sys, h: History, s': Sys, h': History, id: InstanceId, r: ResourceId)
    requires r in h.creator && r !in h.stored && r !in h.orphaned
    requires id !in s.db.instances && id in s'.db.instances && s'.db.instances == s.db.instances[id := s'.db.instances[id]]
    requires s'.db.instances[id].resource == r && s'.db.applications == s.db.applications
    requires s'.apim == s.apim && h' == h.(stored := h.stored[r := id])
    requires StoredOk(s, h) && KeysOk(s, h)
    ensures StoredOk(s', h') && KeysOk(s', h')
  {}

  lemma StoreRowThreads(s: Sys, h: History, threads: map<Tid, Thread>, s': Sys, h': History, tid: Tid, t: Thread, r: ResourceId)
    requires r in h.creator && h.creator[r] == tid && r !in h.stored && tid in threads
    requires t.req.Provision? && t.req.id !in s.db.instances
    requires s'.db.instances.Keys == s.db.instances.Keys + {t.req.id}
    requires forall id :: id in s.db.instances ==> s'.db.instances[id] == s.db.instances[id]
    requires s'.apim == s.apim && h' == h.(stored := h.stored[r := t.req.id])
    requires t.pc == Done(Provisioned(r))
    requires ThreadsOk(s, h, threads)
    ensures ThreadsOk(s', h', threads[tid := t])
  {
    forall c | c in threads && c != tid ensures Undisturbed(s', h', threads[c]) {
      assert ThreadOk(s, h, c, threads[c]);
      forall q | Holds(threads[c].pc, q) ensures q in s'.apim.live && q !in h'.stored && q !in h'.orphaned {
        HolderIsCreator(s, h, c, threads[c], q);
      }
      forall q | Claims(threads[c].pc, q) ensures q !in s'.apim.live && q !in h'.dangling && Names(s', threads[c].req.id, q) {
        ClaimantKnowsRow(s, h, c, threads[c], q);
      }
    }
    ThreadsFollow(s, h, threads, s', h', tid, t);
  }

  lemma StoreRowResources(s: Sys, h: History, threads: map<Tid, Thread>, s': Sys, h': History, tid: Tid, t: Thread, r: ResourceId)
    requires r in h.creator && h.creator[r] == tid && r !in h.stored && r !in h.orphaned && r in s.apim.live
    requires tid in threads && threads[tid] == Thread(t.req, StoringRow(r)) && t.pc == Done(Provisioned(r))
    requires t.req.Provision?
    requires s'.apim == s.apim && h' == h.(stored := h.stored[r := t.req.id])
    requires ResourcesOk(s, h, threads)
    ensures ResourcesOk(s', h', threads[tid := t])
  {
    forall q | q in h'.creator ensures ResourceOk(s', h', threads[tid := t], q) {
      assert ResourceOk(s, h, threads, q);
    }
  }

  lemma StoreRowRows(s: Sys, h: History, threads: map<Tid, Thread>, s': Sys, h': History, tid: Tid, t: Thread, r: ResourceId)
    requires r in h.creator && h.creator[r] == tid && r !in h.stored && r in s.apim.live
    requires tid in threads && threads[tid].req == t.req && threads[tid].pc.StoringRow? && WellFormed(t.req)
    requires t.req.id !in s.db.instances && s'.db.instances == s.db.instances[t.req.id := RowOf(t.req, r)]
    requires s'.apim == s.apim && h' == h.(stored := h.stored[r := t.req.id])
    requires RowsOk(s, h, threads)
    ensures RowsOk(s', h', threads[tid := t])
  {
    forall id | id in s'.db.instances ensures RowOk(s', h', threads[tid := t], id) {
      if id != t.req.id {
        assert RowOk(s, h, threads, id);
        var q := s.db.instances[id].resource;
        if Claimed(threads, q) { ClaimsFollow(threads, tid, t, q); }
      }
    }
  }

  /** Compensation deletes the resource, or fails to and orphans it. */
  ghost predicate CleanedUp(s: Sys, h: History, s': Sys, h': History, r: ResourceId) {
    && s'.db == s.db
    && ((s'.apim == s.apim && h' == h.(orphaned := h.orphaned + {r}))
        || (s'.apim == s.apim.(live := s.apim.live - {r}) && h' == h))
  }

  /** Compensation: the resource it deletes, or orphans, is its own and in no row. */
  lemma CleanUpKeepsInv(w: World, w': World, tid: Tid, r: ResourceId)
    requires tid in w.threads && w.threads[tid].pc.CleaningUp? && w.threads[tid].pc.resource == r
    requires CleanedUp(w.sys, w.hist, w'.sys, w'.hist, r)
    requires tid in w'.threads && w'.threads == w.threads[tid := w'.threads[tid]]
    requires w'.threads[tid].req == w.threads[tid].req
    requires w'.threads[tid].pc.Done? && w'.threads[tid].pc.response.Refused?
    requires Inv(w)
    ensures Inv(w')
  {
    hide ThreadOk, ThreadsOk, ResourcesOk, RowsOk, StoredOk, KeysOk, OneClaim, Integrity;
    var t := w'.threads[tid];
    Knows(w.sys, w.hist, w.threads, tid);
    HolderIsCreator(w.sys, w.hist, tid, w.threads[tid], r);
    CleanUpThreads(w.sys, w.hist, w.threads, w'.sys, w'.hist, tid, t, r);
    CleanUpResources(w.sys, w.hist, w.threads, w'.sys, w'.hist, tid, t, r);
    CleanUpRows(w.sys, w.hist, w.threads, w'.sys, w'.hist, tid, t, r);
    ClaimsUnmoved(w.threads, tid, t);
    CleanUpStored(w.sys, w.hist, w'.sys, w'.hist, r);
  }

  lemma CleanUpStored(s: Sys, h: History, s': Sys, h': History, r: ResourceId)
    requires r in h.creator && r in s.apim.live && r !in h.stored && r !in h.orphaned
    requires CleanedUp(s, h, s', h', r)
    requires StoredOk(s, h) && KeysOk(s, h)
    ensures StoredOk(s', h') && KeysOk(s', h')
  {}

  lemma CleanUpThreads(s: Sys, h: History, threads: map<Tid, Thread>, s': Sys, h': History, tid: Tid, t: Thread, r: ResourceId)
    requires r in h.creator && h.creator[r] == tid && tid in threads
    requires CleanedUp(s, h, s', h', r)
    requires threads[tid].req == t.req && t.req.Provision? && t.pc.Done? && t.pc.response.Refused?
    requires ThreadsOk(s, h, threads)
    ensures ThreadsOk(s', h', threads[tid := t])
  {
    forall c | c in threads && c != tid ensures Undisturbed(s', h', threads[c]) {
      assert ThreadOk(s, h, c, threads[c]);
      forall q | Holds(threads[c].pc, q) ensures q in s'.apim.live && q !in h'.stored && q !in h'.orphaned {
        HolderIsCreator(s, h, c, threads[c], q);
      }
      forall q | Claims(threads[c].pc, q) ensures q !in s'.apim.live && q !in h'.dangling && Names(s', threads[c].req.id, q) {
        ClaimantKnowsRow(s, h, c, threads[c], q);
      }
    }
    ThreadsFollow(s, h, threads, s', h', tid, t);
  }

  lemma CleanUpResources(s: Sys, h: History, threads: map<Tid, Thread>, s': Sys, h': History, tid: Tid, t: Thread, r: ResourceId)
    requires r in h.creator && h.creator[r] == tid && r !in h.stored
    requires tid in threads && threads[tid].req == t.req && threads[tid].pc.CleaningUp? && threads[tid].pc.resource == r
    requires CleanedUp(s, h, s', h', r)
    requires ResourcesOk(s, h, threads)
    ensures ResourcesOk(s', h', threads[tid := t])
  {
    forall q | q in h'.creator ensures ResourceOk(s', h', threads[tid := t], q) {
      assert ResourceOk(s, h, threads, q);
    }
  }

  lemma CleanUpRows(s: Sys, h: History, threads: map<Tid, Thread>, s': Sys, h': History, tid: Tid, t: Thread, r: ResourceId)
    requires r !in h.stored && tid in threads && threads[tid].req == t.req && threads[tid].pc.CleaningUp?
    requires CleanedUp(s, h, s', h', r)
    requires RowsOk(s, h, threads)
    ensures RowsOk(s', h', threads[tid := t])
  {
    forall id | id in s.db.instances ensures s.db.instances[id].resource != r {
      assert RowOk(s, h, threads, id);
    }
    RowsUnmoved(s, h, threads, s', h', tid, t);
  }

  /** The remote delete: nobody else has removed the resource, so nobody else holds this claim. */
  lemma RemoveResourceKeepsInv(w: World, w': World, tid: Tid, row: Instance)
    requires tid in w.threads && w.threads[tid].req.Deprovision? && w.threads[tid].pc == RemovingResource(row)
    requires row.resource in w.sys.apim.live
    requires w'.sys == w.sys.(apim := w.sys.apim.(live := w.sys.apim.live - {row.resource})) && w'.hist == w.hist
    requires tid in w'.threads && w'.threads == w.threads[tid := Thread(w.threads[tid].req, RemovingRow(row))]
    requires Inv(w)
    ensures Inv(w')
  {
    hide ThreadOk, ThreadsOk, ResourcesOk, RowsOk, StoredOk, KeysOk, OneClaim, Integrity;
    var t, r := w'.threads[tid], row.resource;
    Knows(w.sys, w.hist, w.threads, tid);
    RemoveResourceStored(w.sys, w.hist, tid, w.threads[tid], w'.sys, r);
    RemoveResourceThreads(w.sys, w.hist, w.threads, w'.sys, tid, t, r);
    RemoveResourceResources(w.sys, w.hist, w.threads, w'.sys, tid, t, r);
    RemoveResourceRows(w.sys, w.hist, w.threads, w'.sys, tid, t, r);
  }

  lemma RemoveResourceStored(s: Sys, h: History, tid: Tid, t: Thread, s': Sys, r: ResourceId)
    requires t.req.Deprovision? && t.pc.RemovingResource? && t.pc.row.resource == r && ThreadOk(s, h, tid, t)
    requires r in s.apim.live && s' == s.(apim := s.apim.(live := s.apim.live - {r}))
    requires StoredOk(s, h) && KeysOk(s, h)
    ensures r in h.stored && h.stored[r] == t.req.id && r !in h.dangling && Names(s, t.req.id, r)
    ensures StoredOk(s', h) && KeysOk(s', h)
  {}

  lemma RemoveResourceThreads(s: Sys, h: History, threads: map<Tid, Thread>, s': Sys, tid: Tid, t: Thread, r: ResourceId)
    requires r in h.stored && r in s.apim.live && tid in threads && Claims(t.pc, r)
    requires t.req.Deprovision? && h.stored[r] == t.req.id && r !in h.dangling && Names(s, t.req.id, r)
    requires s' == s.(apim := s.apim.(live := s.apim.live - {r}))
    requires ThreadsOk(s, h, threads) && OneClaim(threads)
    ensures ThreadsOk(s', h, threads[tid := t])
    ensures OneClaim(threads[tid := t])
  {
    forall c | c in threads && c != tid ensures Undisturbed(s', h, threads[c]) && !Claims(threads[c].pc, r) {
      assert ThreadOk(s, h, c, threads[c]);
      forall q | Holds(threads[c].pc, q) ensures q in s'.apim.live && q !in h.stored && q !in h.orphaned {
        HolderIsCreator(s, h, c, threads[c], q);
      }
      forall q | Claims(threads[c].pc, q) ensures q != r && q !in s'.apim.live && q !in h.dangling && Names(s', threads[c].req.id, q) {
        ClaimantKnowsRow(s, h, c, threads[c], q);
      }
    }
    ThreadsFollow(s, h, threads, s', h, tid, t);
    hide ThreadsOk;
  }

  lemma RemoveResourceResources(s: Sys, h: History, threads: map<Tid, Thread>, s': Sys, tid: Tid, t: Thread, r: ResourceId)
    requires tid in threads && threads[tid].req == t.req && threads[tid].pc.RemovingResource?
    requires s' == s.(apim := s.apim.(live := s.apim.live - {r}))
    requires ResourcesOk(s, h, threads)
    ensures ResourcesOk(s', h, threads[tid := t])
  {
    forall q | q in h.creator ensures ResourceOk(s', h, threads[tid := t], q) {
      assert ResourceOk(s, h, threads, q);
    }
  }

  lemma RemoveResourceRows(s: Sys, h: History, threads: map<Tid, Thread>, s': Sys, tid: Tid, t: Thread, r: ResourceId)
    requires tid in threads && threads[tid].req == t.req && threads[tid].pc.RemovingResource? && Claims(t.pc, r)
    requires s' == s.(apim := s.apim.(live := s.apim.live - {r}))
    requires RowsOk(s, h, threads)
    ensures RowsOk(s', h, threads[tid := t])
  {
    assert Claims(threads[tid := t][tid].pc, r);
    assert Claimed(threads[tid := t], r);
    forall id | id in s.db.instances
      ensures var q := s.db.instances[id].resource; q in s'.apim.live || q in h.dangling || Claimed(threads[tid := t], q)
    {
      assert RowOk(s, h, threads, id);
      var q := s.db.instances[id].resource;
      if Claimed(threads, q) { ClaimsFollow(threads, tid, t, q); }
    }
    RowsFollow(s, h, threads, s', h, tid, t);
  }

  /** The row delete: the claim names the row that goes, or the row that dangles from now on. */
  lemma RemoveRowKeepsInv(w: World, w': World, tid: Tid, row: Instance)
    requires tid in w.threads && w.threads[tid].req.Deprovision? && w.threads[tid].pc == RemovingRow(row)
    requires w'.sys.apim == w.sys.apim
    requires
      || (w'.sys.db == w.sys.db && w'.hist == w.hist.(dangling := w.hist.dangling + {row.resource}))
      || (DeleteInstance(w.sys.db, w.threads[tid].req.id, true) == Result(w'.sys.db, true) && w'.hist == w.hist)
    requires tid in w'.threads && w'.threads == w.threads[tid := w'.threads[tid]]
    requires w'.threads[tid].req == w.threads[tid].req && w'.threads[tid].pc.Done?
    requires Inv(w)
    ensures Inv(w')
  {
    hide ThreadOk, ThreadsOk, ResourcesOk, RowsOk, StoredOk, KeysOk, OneClaim, Integrity;
    var id, t, r := w.threads[tid].req.id, w'.threads[tid], row.resource;
    Knows(w.sys, w.hist, w.threads, tid);
    ClaimantKnowsRow(w.sys, w.hist, tid, w.threads[tid], r);
    DeleteInstanceKeepsIntegrity(w.sys.db, id, true);
    assert RowGone(w.sys, w.hist, w'.sys, w'.hist, id, r);
    hide RowGone;
    RemoveRowThreads(w.sys, w.hist, w.threads, w'.sys, w'.hist, tid, t, r);
    RemoveRowResources(w.sys, w.hist, w.threads, w'.sys, w'.hist, tid, t, r);
    RemoveRowRows(w.sys, w.hist, w.threads, w'.sys, w'.hist, tid, t, r);
    ClaimsUnmoved(w.threads, tid, t);
    RemoveRowStored(w.sys, w.hist, w'.sys, w'.hist, id, r);
  }

  ghost predicate RowGone(s: Sys, h: History, s': Sys, h': History, id: InstanceId, r: ResourceId) {
    && s'.apim == s.apim && Names(s, id, r)
    && ((s'.db == s.db && h' == h.(dangling := h.dangling + {r}))
        || (s'.db.instances == s.db.instances - {id} && s'.db.applications == s.db.applications - {r} && h' == h))
  }

  lemma RemoveRowStored(s: Sys, h: History, s': Sys, h': History, id: InstanceId, r: ResourceId)
    requires r in h.stored && h.stored[r] == id && r !in s.apim.live && r !in h.dangling
    requires RowGone(s, h, s', h', id, r)
    requires StoredOk(s, h) && KeysOk(s, h)
    ensures StoredOk(s', h') && KeysOk(s', h')
  {
    hide KeysOk;
    assert StoredOk(s', h');
    hide StoredOk;
    RemoveRowKeys(s, h, s', h', id, r);
  }

  lemma RemoveRowKeys(s: Sys, h: History, s': Sys, h': History, id: InstanceId, r: ResourceId)
    requires r in h.stored && h.stored[r] == id
    requires RowGone(s, h, s', h', id, r)
    requires KeysOk(s, h)
    ensures KeysOk(s', h')
  {}

  lemma RemoveRowThreads(s: Sys, h: History, threads: map<Tid, Thread>, s': Sys, h': History, tid: Tid, t: Thread, r: ResourceId)
    requires tid in threads && Claims(threads[tid].pc, r) && !t.pc.RemovingRow?
    requires r in h.stored && h.stored[r] == t.req.id
    requires RowGone(s, h, s', h', t.req.id, r)
    requires t.req.Deprovision? && t.pc.Done?
    requires ThreadsOk(s, h, threads) && OneClaim(threads)
    ensures ThreadsOk(s', h', threads[tid := t])
  {
    forall c | c in threads && c != tid ensures Undisturbed(s', h', threads[c]) {
      assert ThreadOk(s, h, c, threads[c]);
      forall q | Holds(threads[c].pc, q) ensures q in s'.apim.live && q !in h'.stored && q !in h'.orphaned {
        HolderIsCreator(s, h, c, threads[c], q);
      }
      forall q | Claims(threads[c].pc, q) ensures q !in s'.apim.live && q !in h'.dangling && Names(s', threads[c].req.id, q) {
        ClaimantKnowsRow(s, h, c, threads[c], q);
        assert q != r;
      }
    }
    ThreadsFollow(s, h, threads, s', h', tid, t);
  }

  lemma RemoveRowResources(s: Sys, h: History, threads: map<Tid, Thread>, s': Sys, h': History, tid: Tid, t: Thread, r: ResourceId)
    requires tid in threads && threads[tid].req == t.req && threads[tid].pc.RemovingRow? && t.req.Deprovision?
    requires RowGone(s, h, s', h', t.req.id, r)
    requires ResourcesOk(s, h, threads)
    ensures ResourcesOk(s', h', threads[tid := t])
  {
    forall q | q in h.creator ensures ResourceOk(s', h', threads[tid := t], q) {
      assert ResourceOk(s, h, threads, q);
    }
  }

  lemma RemoveRowRows(s: Sys, h: History, threads: map<Tid, Thread>, s': Sys, h': History, tid: Tid, t: Thread, r: ResourceId)
    requires tid in threads && Claims(threads[tid].pc, r) && threads[tid].req == t.req && t.req.Deprovision?
    requires r in h.stored && h.stored[r] == t.req.id
    requires RowGone(s, h, s', h', t.req.id, r)
    requires RowsOk(s, h, threads)
    ensures RowsOk(s', h', threads[tid := t])
  {
    forall id | id in s'.db.instances
      ensures var q := s.db.instances[id].resource; q in s'.apim.live || q in h'.dangling || Claimed(threads[tid := t], q)
    {
      assert RowOk(s, h, threads, id);
      var q := s.db.instances[id].resource;
      if Claimed(threads, q) && q != r { ClaimsFollow(threads, tid, t, q); }
    }
    RowsFollow(s, h, threads, s', h', tid, t);
  }

  // ---------------------------------------------------------------- every call of every request

  lemma ProvisionKeepsInv(w: World, tid: Tid, a: Answer)
    requires tid in w.threads && w.threads[tid].req.Provision?
    requires Inv(w)
    ensures Inv(Act(w, tid, a))
  {
    hide Inv, Act;
    match w.threads[tid].pc {
      case Creating => CreateAct(w, tid, a);
      case StoringRow(r) => StoreRowAct(w, tid, a, r);
      case CleaningUp(r, f) => CleanUpAct(w, tid, a, r);
      case _ => LookupOrPublishAct(w, tid, a);
    }
  }

  lemma CreateAct(w: World, tid: Tid, a: Answer)
    requires tid in w.threads && w.threads[tid].req.Provision? && w.threads[tid].pc.Creating?
    requires Inv(w)
    ensures Inv(Act(w, tid, a))
  {
    hide ThreadsOk, ResourcesOk, RowsOk, StoredOk, KeysOk, OneClaim, Integrity;
    Knows(w.sys, w.hist, w.threads, tid);
    if Creates(w.sys.apim, a) {
      hide Inv;
      CreateKeepsInv(w, Act(w, tid, a), tid, a);
    } else {
      QuietKeepsInv(w, Act(w, tid, a), tid);
    }
  }

  lemma StoreRowAct(w: World, tid: Tid, a: Answer, r: ResourceId)
    requires tid in w.threads && w.threads[tid].req.Provision? && w.threads[tid].pc == StoringRow(r)
    requires Inv(w)
    ensures Inv(Act(w, tid, a))
  {
    hide ThreadsOk, ResourcesOk, RowsOk, StoredOk, KeysOk, OneClaim, Integrity;
    var w' := Act(w, tid, a);
    Knows(w.sys, w.hist, w.threads, tid);
    if w'.threads[tid].pc.Done? {
      hide ThreadOk, Inv;
      StoreRowKeepsInv(w, w', tid, r);
    } else {
      QuietKeepsInv(w, w', tid);
    }
  }

  lemma LookupOrPublishAct(w: World, tid: Tid, a: Answer)
    requires tid in w.threads && w.threads[tid].req.Provision?
    requires !w.threads[tid].pc.Creating? && !w.threads[tid].pc.StoringRow? && !w.threads[tid].pc.CleaningUp?
    requires Inv(w)
    ensures Inv(Act(w, tid, a))
  {
    hide ThreadsOk, ResourcesOk, RowsOk, StoredOk, KeysOk, OneClaim, Integrity;
    Knows(w.sys, w.hist, w.threads, tid);
    QuietKeepsInv(w, Act(w, tid, a), tid);
  }

  lemma CleanUpAct(w: World, tid: Tid, a: Answer, r: ResourceId)
    requires tid in w.threads && w.threads[tid].req.Provision?
    requires w.threads[tid].pc.CleaningUp? && w.threads[tid].pc.resource == r
    requires Inv(w)
    ensures Inv(Act(w, tid, a))
  {
    hide ThreadOk, ThreadsOk, ResourcesOk, RowsOk, StoredOk, KeysOk, OneClaim, Integrity;
    Knows(w.sys, w.hist, w.threads, tid);
    HolderIsCreator(w.sys, w.hist, tid, w.threads[tid], r);
    hide Inv;
    CleanUpKeepsInv(w, Act(w, tid, a), tid, r);
  }

  lemma DeprovisionKeepsInv(w: World, tid: Tid, a: Answer)
    requires tid in w.threads && w.threads[tid].req.Deprovision?
    requires Inv(w)
    ensures Inv(Act(w, tid, a))
  {
    hide ThreadsOk, ResourcesOk, RowsOk, StoredOk, KeysOk, OneClaim, Integrity;
    var t, w' := w.threads[tid], Act(w, tid, a);
    Knows(w.sys, w.hist, w.threads, tid);
    match t.pc {
      case Start =>
        if w'.threads[tid].pc.RemovingResource? {
          RowIsStored(w.sys, w.hist, w.threads, t.req.id);
        }
        QuietKeepsInv(w, w', tid);
      case RemovingResource(row) =>
        if w'.threads[tid].pc.Done? {
          QuietKeepsInv(w, w', tid);
        } else {
          hide ThreadOk, Inv;
          RemoveResourceKeepsInv(w, w', tid, row);
        }
      case RemovingRow(row) =>
        hide ThreadOk, Inv;
        RemoveRowKeepsInv(w, w', tid, row);
      case _ => QuietKeepsInv(w, w', tid);
    }
  }

  lemma RowIsStored(s: Sys, h: History, threads: map<Tid, Thread>, id: InstanceId)
    requires RowsOk(s, h, threads) && id in s.db.instances
    ensures var r := s.db.instances[id].resource; r in h.stored && h.stored[r] == id
  {
    assert RowOk(s, h, threads, id);
  }

  lemma KeysStored(s: Sys, h: History, r: ResourceId, keys: Keys)
    requires KeysOk(s, h) && r in h.stored && References(s.db, r) && r !in s.db.applications
    requires forall id :: id in s.db.instances ==>
      var q := s.db.instances[id].resource; q in h.stored && h.stored[q] == id
    ensures r !in h.issued
    ensures KeysOk(s.(db := s.db.(applications := s.db.applications[r := keys])), h.(issued := h.issued[r := keys]))
  {
    var id :| id in s.db.instances && s.db.instances[id].resource == r;
    assert Names(s, h.stored[r], r);
  }

  lemma RowsAreStored(s: Sys, h: History, threads: map<Tid, Thread>)
    requires RowsOk(s, h, threads)
    ensures forall id :: id in s.db.instances ==>
      var q := s.db.instances[id].resource; q in h.stored && h.stored[q] == id
  {
    forall id | id in s.db.instances
      ensures var q := s.db.instances[id].resource; q in h.stored && h.stored[q] == id
    {
      RowIsStored(s, h, threads, id);
    }
  }

  lemma StoreKeysKeepsInv(w: World, tid: Tid, a: Answer)
    requires tid in w.threads && w.threads[tid].req.Bind? && w.threads[tid].pc.StoringKeys?
    requires Inv(w)
    ensures Inv(Act(w, tid, a))
  {
    hide ThreadsOk, ResourcesOk, RowsOk, StoredOk, KeysOk, OneClaim, Integrity;
    var r, keys := w.threads[tid].pc.resource, w.threads[tid].pc.keys;
    Knows(w.sys, w.hist, w.threads, tid);
    StoreApplicationKeepsIntegrity(w.sys.db, r, keys, a.Okay?);
    if StoreApplication(w.sys.db, r, keys, a.Okay?).ok {
      RowsAreStored(w.sys, w.hist, w.threads);
      KeysStored(w.sys, w.hist, r, keys);
    }
    QuietKeepsInv(w, Act(w, tid, a), tid);
  }

  lemma StoreBindKeepsInv(w: World, tid: Tid, a: Answer)
    requires tid in w.threads && w.threads[tid].req.Bind? && w.threads[tid].pc.StoringBind?
    requires Inv(w)
    ensures Inv(Act(w, tid, a))
  {
    hide ThreadsOk, ResourcesOk, RowsOk, StoredOk, KeysOk, OneClaim, Integrity;
    var q, w' := w.threads[tid].req, Act(w, tid, a);
    Knows(w.sys, w.hist, w.threads, tid);
    var row := BindRow(q.id, w.threads[tid].pc.platformApp, q.service, q.plan, IsCreateServiceKey(q.app));
    StoreBindKeepsIntegrity(w.sys.db, q.binding, row, a.Okay?);
    KeysUnmoved(w.sys, w'.sys, w.hist);
    QuietKeepsInv(w, w', tid);
  }

  lemma BindKeepsInv(w: World, tid: Tid, a: Answer)
    requires tid in w.threads && w.threads[tid].req.Bind?
    requires Inv(w)
    ensures Inv(Act(w, tid, a))
  {
    hide Inv, Act;
    match w.threads[tid].pc {
      case ReadingInstance(_, _) => ReadInstanceAct(w, tid, a);
      case ReadingApplication(_, _, _) => ReadApplicationAct(w, tid, a);
      case StoringKeys(_, _, _) => StoreKeysKeepsInv(w, tid, a);
      case StoringBind(_, _, _) => StoreBindKeepsInv(w, tid, a);
      case _ => NameOrGenerateAct(w, tid, a);
    }
  }

  lemma ReadInstanceAct(w: World, tid: Tid, a: Answer)
    requires tid in w.threads && w.threads[tid].req.Bind? && w.threads[tid].pc.ReadingInstance?
    requires Inv(w)
    ensures Inv(Act(w, tid, a))
  {
    hide ThreadsOk, ResourcesOk, RowsOk, StoredOk, KeysOk, OneClaim, Integrity, Act, Exec;
    InstanceRead(w, tid, a);
    if w.threads[tid].req.id in w.sys.db.instances {
      RowIsStored(w.sys, w.hist, w.threads, w.threads[tid].req.id);
    }
    QuietKeepsInv(w, Act(w, tid, a), tid);
  }

  lemma InstanceRead(w: World, tid: Tid, a: Answer)
    requires tid in w.threads && w.threads[tid].req.Bind? && w.threads[tid].pc.ReadingInstance?
    ensures var v, t := Act(w, tid, a), w.threads[tid];
      && v.sys == w.sys && v.hist == w.hist && tid in v.threads
      && v.threads == w.threads[tid := v.threads[tid]] && v.threads[tid].req == t.req
      && ((v.threads[tid].pc.Done? && v.threads[tid].pc.response.Refused?)
          || (t.req.id in w.sys.db.instances && v.threads[tid].pc.ReadingApplication?
              && v.threads[tid].pc.resource == w.sys.db.instances[t.req.id].resource))
  {}

  lemma ReadApplicationAct(w: World, tid: Tid, a: Answer)
    requires tid in w.threads && w.threads[tid].req.Bind? && w.threads[tid].pc.ReadingApplication?
    requires Inv(w)
    ensures Inv(Act(w, tid, a))
  {
    hide ThreadsOk, ResourcesOk, RowsOk, StoredOk, KeysOk, OneClaim, Integrity;
    Knows(w.sys, w.hist, w.threads, tid);
    StoredKeysAreIssued(w.sys, w.hist, w.threads[tid].pc.resource);
    QuietKeepsInv(w, Act(w, tid, a), tid);
  }

  lemma NameOrGenerateAct(w: World, tid: Tid, a: Answer)
    requires tid in w.threads && w.threads[tid].req.Bind?
    requires var pc := w.threads[tid].pc;
      !pc.ReadingInstance? && !pc.ReadingApplication? && !pc.StoringKeys? && !pc.StoringBind?
    requires Inv(w)
    ensures Inv(Act(w, tid, a))
  {
    hide ThreadsOk, ResourcesOk, RowsOk, StoredOk, KeysOk, OneClaim, Integrity;
    Knows(w.sys, w.hist, w.threads, tid);
    QuietKeepsInv(w, Act(w, tid, a), tid);
  }

  lemma StoredKeysAreIssued(s: Sys, h: History, r: ResourceId)
    requires KeysOk(s, h)
    ensures r in s.db.applications ==> r in h.issued && h.issued[r] == s.db.applications[r]
  {}

  lemma KeysUnmoved(s: Sys, s': Sys, h: History)
    requires KeysOk(s, h)
    requires s'.db.instances == s.db.instances && s'.db.applications == s.db.applications
    ensures KeysOk(s', h)
  {}

  lemma UnbindKeepsInv(w: World, tid: Tid, a: Answer)
    requires tid in w.threads && w.threads[tid].req.Unbind?
    requires Inv(w)
    ensures Inv(Act(w, tid, a))
  {
    hide ThreadsOk, ResourcesOk, RowsOk, StoredOk, KeysOk, OneClaim, Integrity;
    var t, w' := w.threads[tid], Act(w, tid, a);
    Knows(w.sys, w.hist, w.threads, tid);
    DeleteBindKeepsIntegrity(w.sys.db, t.req.binding, a.Okay?);
    KeysUnmoved(w.sys, w'.sys, w.hist);
    QuietKeepsInv(w, w', tid);
  }

  lemma UpdateKeepsInv(w: World, tid: Tid, a: Answer)
    requires tid in w.threads && w.threads[tid].req.Update?
    requires Inv(w)
    ensures Inv(Act(w, tid, a))
  {
    hide ThreadsOk, ResourcesOk, RowsOk, StoredOk, KeysOk, OneClaim, Integrity;
    Knows(w.sys, w.hist, w.threads, tid);
    QuietKeepsInv(w, Act(w, tid, a), tid);
  }

  lemma NextKeepsInv(w: World, e: Event)
    requires Inv(w)
    ensures Inv(Next(w, e))
  {
    hide Inv, Act;
    match e
    case Arrive(tid, q) => if tid !in w.threads { ArriveKeepsInv(w, tid, q); }
    case Call(tid, a) =>
      if tid in w.threads {
        match w.threads[tid].req
        case Provision(_, _, _, _, _, _) => ProvisionKeepsInv(w, tid, a);
        case Deprovision(_, _) => DeprovisionKeepsInv(w, tid, a);
        case Bind(_, _, _, _, _) => BindKeepsInv(w, tid, a);
        case Unbind(_, _, _) => UnbindKeepsInv(w, tid, a);
        case Update(_, _, _) => UpdateKeepsInv(w, tid, a);
      }
  }

  /** Every state of every run, from empty tables and an API-M that others may have filled. */
  lemma {:induction false} EveryRunKeepsInv(apim: Remote, events: seq<Event>)
    requires Sane(apim)
    ensures Inv(After(Init(apim), events))
  {
    hide Inv, Next;
    if events == [] {
      InitKeepsInv(apim);
    } else {
      EveryRunKeepsInv(apim, events[..|events| - 1]);
      NextKeepsInv(After(Init(apim), events[..|events| - 1]), events[|events| - 1]);
    }
  }
}
