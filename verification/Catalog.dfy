/**
 * What a platform may believe of a broker that serves it in turn: a map from instance IDs to what
 * was asked for and what is bound. Application rows and API-M stay behind the scenes.
 */
module Catalog {
  import opened Domain
  import opened Tables
  import opened ApiManager
  import opened Requests
  import opened Interleaving
  import opened SagaInvariant
  import opened Lifecycle
  import opened Bindings
  import opened Serial

  datatype Entry = Entry(row: Instance, bindings: map<BindingId, BindRow>)

  type Book = map<InstanceId, Entry>

  function BindingsOf(t: Tables, id: InstanceId): map<BindingId, BindRow> {
    map b | b in t.binds && t.binds[b].instance == id :: t.binds[b]
  }

  /** The database, read as a book. */
  function BookOf(t: Tables): Book {
    map id | id in t.instances :: Entry(t.instances[id], BindingsOf(t, id))
  }

  predicate IsBound(m: Book, b: BindingId) {
    exists id :: id in m && b in m[id].bindings
  }

  /** What a platform must send for a Provision to be valid, and to be the same as one before. */
  predicate IsValid(q: Request) {
    q.Provision? && q.space != "" && q.org != "" && !q.plan.UnknownPlan? && q.params.Valid?
  }

  predicate AsksForTheSame(q: Request, row: Instance)
    requires IsValid(q)
  {
    q.params.hash == row.hash && q.space == row.space && q.org == row.org
  }

  /** A Bind that names no application is for a service key, whichever application the binding has. */
  predicate ForServiceKey(q: Request)
    requires q.Bind?
  {
    q.app.None? || q.app.value == ""
  }

  predicate IsForTheSameApp(q: Request, row: BindRow)
    requires q.Bind?
  {
    ForServiceKey(q) || q.app.value == row.platformApp
  }

  /** One request against the book: the answer it may get, and the book after it. */
  ghost predicate Serves(m: Book, q: Request, resp: Response, m': Book) {
    match resp
    case Provisioned(r) =>
      && IsValid(q) && q.id !in m && (forall id :: id in m ==> m[id].row.resource != r)
      && m' == m[q.id := Entry(Instance(q.service, q.plan, r, q.params.hash, q.space, q.org), map[])]
    case AlreadyProvisioned =>
      IsValid(q) && q.id in m && AsksForTheSame(q, m[q.id].row) && m' == m
    case Deprovisioned =>
      q.Deprovision? && q.id in m && m[q.id].bindings == map[] && m' == m - {q.id}
    case Bound(r, keys, already) =>
      && q.Bind? && q.plan.ApplicationPlan? && q.id in m && m[q.id].row.resource == r
      && if already
         then q.binding in m[q.id].bindings && IsForTheSameApp(q, m[q.id].bindings[q.binding]) && m' == m
         else !IsBound(m, q.binding) && exists row :: StoresBinding(m, q, row, m')
    case Unbound =>
      q.Unbind? && q.plan.ApplicationPlan? && IsBound(m, q.binding) && ForgetsBinding(m, q.binding, m')
    case Updated =>
      q.Update? && q.id in m && m' == m
    case Refused(f) =>
      && m' == m
      && (f.InstanceAlreadyExists? ==> IsValid(q) && q.id in m && !AsksForTheSame(q, m[q.id].row))
      && (f.InstanceDoesNotExist? ==> q.id !in m)
      && (f.BindingAlreadyExists? ==> q.Bind? && IsBound(m, q.binding))
      && (f.BindingAlreadyExists? && q.id in m && q.binding in m[q.id].bindings
          ==> !IsForTheSameApp(q, m[q.id].bindings[q.binding]))
      && (f.BindingDoesNotExist? ==> q.Unbind? && !IsBound(m, q.binding))
  }

  ghost predicate StoresBinding(m: Book, q: Request, row: BindRow, m': Book)
    requires q.Bind? && q.id in m
  {
    && row == BindRow(q.id, row.platformApp, q.service, q.plan, ForServiceKey(q))
    && (!ForServiceKey(q) ==> row.platformApp == q.app.value)
    && m' == m[q.id := m[q.id].(bindings := m[q.id].bindings[q.binding := row])]
  }

  ghost predicate ForgetsBinding(m: Book, b: BindingId, m': Book) {
    && m'.Keys == m.Keys
    && forall id :: id in m ==> m'[id] == m[id].(bindings := m[id].bindings - {b})
  }

  // ---------------------------------------------------------------- what a request alone knows

  predicate AppNamed(q: Request, platformApp: string)
    requires q.Bind?
  {
    !IsCreateServiceKey(q.app) ==> platformApp == q.app.value
  }

  predicate FoundSame(t: Tables, q: Request, same: bool)
    requires q.Bind?
  {
    if same then q.binding in t.binds && IsBindWithAttributes(t.binds[q.binding], q) else q.binding !in t.binds
  }

  /** While nobody else runs, what a lookup found stays so until the request stores something. */
  predicate Facts(s: Sys, q: Request, pc: Pc) {
    match q
    case Provision(_, _, _, _, _, _) =>
      (pc.SearchingApi? || pc.SearchingApp? || pc.Creating? || pc.Publishing? || pc.StoringRow? ==> q.id !in s.db.instances)
      && (pc.CleaningUp? ==> pc.failure.Internal?)
    case Deprovision(_, _) =>
      (pc.RemovingResource? || pc.RemovingRow? ==> q.id in s.db.instances && s.db.instances[q.id] == pc.row)
    case Bind(_, _, _, _, _) =>
      (!pc.Start? ==> q.plan.ApplicationPlan?) &&
      (match pc
       case Naming(same) => FoundSame(s.db, q, same) && IsCreateServiceKey(q.app)
       case ReadingInstance(same, app) => FoundSame(s.db, q, same) && AppNamed(q, app)
       case ReadingApplication(same, app, r) => FoundSame(s.db, q, same) && AppNamed(q, app) && Names(s, q.id, r)
       case GeneratingKeys(app, r) => FoundSame(s.db, q, false) && AppNamed(q, app) && Names(s, q.id, r)
       case StoringKeys(app, r, _) => FoundSame(s.db, q, false) && AppNamed(q, app) && Names(s, q.id, r)
       case StoringBind(app, r, _) => FoundSame(s.db, q, false) && AppNamed(q, app) && Names(s, q.id, r)
       case _ => true)
    case Unbind(_, _, _) => pc.RemovingBind? ==> q.plan.ApplicationPlan? && q.binding in s.db.binds
    case Update(_, _, _) => pc.UpdatingResource? ==> q.id in s.db.instances
  }

  /** One call of a request alone: unanswered, the book is as it was; answered, it is served. */
  ghost predicate OneCall(s: Sys, q: Request, m: Move) {
    && Integrity(m.sys.db)
    && if m.pc.Done? then Serves(BookOf(s.db), q, m.pc.response, BookOf(m.sys.db))
       else Facts(m.sys, q, m.pc) && BookOf(m.sys.db) == BookOf(s.db)
  }

  lemma BoundIsBound(t: Tables, b: BindingId)
    requires Integrity(t)
    ensures IsBound(BookOf(t), b) <==> b in t.binds
  {
    if b in t.binds {
      assert b in BookOf(t)[t.binds[b].instance].bindings;
    }
  }

  lemma ProvisionCall(s: Sys, q: Request, pc: Pc, a: Answer)
    requires q.Provision? && Proper(q, pc) && !pc.Done? && Facts(s, q, pc) && Integrity(s.db)
    ensures OneCall(s, q, Exec(s, q, pc, a))
  {
    hide BookOf, Integrity;
    if pc.StoringRow? {
      RowStoreCall(s, q, pc, a);
    } else {
      LookupBook(s.db, q.id);
    }
  }

  lemma RowStoreCall(s: Sys, q: Request, pc: Pc, a: Answer)
    requires q.Provision? && Proper(q, pc) && pc.StoringRow? && Facts(s, q, pc) && Integrity(s.db)
    ensures OneCall(s, q, Exec(s, q, pc, a))
  {
    hide BookOf, Integrity;
    StoreInstanceKeepsIntegrity(s.db, q.id, RowOf(q, pc.resource), a.Okay?);
    InstanceStoreBook(s.db, q.id, RowOf(q, pc.resource), a.Okay?);
  }

  lemma LookupBook(t: Tables, id: InstanceId)
    ensures id in BookOf(t) <==> id in t.instances
    ensures id in t.instances ==> BookOf(t)[id].row == t.instances[id]
  {}

  lemma InstanceStoreBook(t: Tables, id: InstanceId, row: Instance, up: bool)
    requires Integrity(t) && id !in t.instances
    ensures var u := StoreInstance(t, id, row, up); u.ok ==>
      && id !in BookOf(t) && (forall i :: i in BookOf(t) ==> BookOf(t)[i].row.resource != row.resource)
      && BookOf(u.tables) == BookOf(t)[id := Entry(row, map[])]
  {
    var u := StoreInstance(t, id, row, up);
    if u.ok {
      assert BindingsOf(t, id) == map[];
      forall i ensures BindingsOf(u.tables, i) == BindingsOf(t, i) {}
    }
  }

  lemma DeprovisionCall(s: Sys, q: Request, pc: Pc, a: Answer)
    requires q.Deprovision? && Proper(q, pc) && !pc.Done? && Facts(s, q, pc) && Integrity(s.db)
    ensures OneCall(s, q, Exec(s, q, pc, a))
  {
    hide BookOf, Integrity;
    if pc.RemovingRow? {
      RowDeleteCall(s, q, pc, a);
    } else {
      LookupBook(s.db, q.id);
    }
  }

  lemma RowDeleteCall(s: Sys, q: Request, pc: Pc, a: Answer)
    requires q.Deprovision? && pc.RemovingRow? && Facts(s, q, pc) && Integrity(s.db)
    ensures OneCall(s, q, Exec(s, q, pc, a))
  {
    hide BookOf, Integrity;
    DeleteInstanceKeepsIntegrity(s.db, q.id, a.Okay?);
    InstanceDeleteBook(s.db, q.id, a.Okay?);
    hide DeleteInstance, HasBinding;
    assert !DeleteInstance(s.db, q.id, a.Okay?).ok ==> DeleteInstance(s.db, q.id, a.Okay?).tables == s.db by {
      FailedDelete(s.db, q.id, a.Okay?);
    }
  }

  lemma FailedDelete(t: Tables, id: InstanceId, up: bool)
    ensures !DeleteInstance(t, id, up).ok ==> DeleteInstance(t, id, up).tables == t
  {}

  lemma InstanceDeleteBook(t: Tables, id: InstanceId, up: bool)
    requires Integrity(t) && id in t.instances
    ensures var u := DeleteInstance(t, id, up); u.ok ==>
      && id in BookOf(t) && BookOf(t)[id].bindings == map[] && BookOf(u.tables) == BookOf(t) - {id}
  {
    var u := DeleteInstance(t, id, up);
    if u.ok {
      assert BindingsOf(t, id) == map[];
      forall i ensures BindingsOf(u.tables, i) == BindingsOf(t, i) {}
    }
  }

  lemma ApplicationStoreBook(t: Tables, r: ResourceId, keys: Keys, up: bool)
    ensures BookOf(StoreApplication(t, r, keys, up).tables) == BookOf(t)
  {
    var u := StoreApplication(t, r, keys, up).tables;
    forall i ensures BindingsOf(u, i) == BindingsOf(t, i) {}
  }

  lemma BindStoreBook(t: Tables, q: Request, row: BindRow, up: bool)
    requires q.Bind? && Integrity(t) && q.id in t.instances && row.instance == q.id
    requires row == BindRow(q.id, row.platformApp, q.service, q.plan, IsCreateServiceKey(q.app))
    requires AppNamed(q, row.platformApp)
    ensures var u := StoreBind(t, q.binding, row, up); u.ok ==>
      q.id in BookOf(t) && !IsBound(BookOf(t), q.binding) && StoresBinding(BookOf(t), q, row, BookOf(u.tables))
  {
    var u := StoreBind(t, q.binding, row, up);
    if u.ok {
      BoundIsBound(t, q.binding);
      hide IsBound, Integrity;
      BindingsAfterStore(t, q.binding, row);
      hide BindingsOf;
      var m := BookOf(t);
      assert BookOf(u.tables).Keys == m.Keys;
      assert BookOf(u.tables)[q.id] == m[q.id].(bindings := m[q.id].bindings[q.binding := row]);
    }
  }

  lemma BindingsAfterStore(t: Tables, b: BindingId, row: BindRow)
    requires b !in t.binds
    ensures var u := t.(binds := t.binds[b := row]);
      && (forall i :: i != row.instance ==> BindingsOf(u, i) == BindingsOf(t, i))
      && BindingsOf(u, row.instance) == BindingsOf(t, row.instance)[b := row]
  {
    var u := t.(binds := t.binds[b := row]);
    forall i | i != row.instance ensures BindingsOf(u, i) == BindingsOf(t, i) {}
    assert BindingsOf(u, row.instance) == BindingsOf(t, row.instance)[b := row];
  }

  lemma BindLookupBook(t: Tables, q: Request)
    requires q.Bind? && Integrity(t) && q.binding in t.binds
    ensures IsBound(BookOf(t), q.binding)
    ensures q.id == t.binds[q.binding].instance ==>
      q.id in BookOf(t) && q.binding in BookOf(t)[q.id].bindings && BookOf(t)[q.id].bindings[q.binding] == t.binds[q.binding]
    ensures q.id in BookOf(t) && q.binding in BookOf(t)[q.id].bindings ==>
      t.binds[q.binding].instance == q.id && BookOf(t)[q.id].bindings[q.binding] == t.binds[q.binding]
  {
    BoundIsBound(t, q.binding);
  }

  lemma BindCall(s: Sys, q: Request, pc: Pc, a: Answer)
    requires q.Bind? && Proper(q, pc) && !pc.Done? && Facts(s, q, pc) && Integrity(s.db)
    ensures OneCall(s, q, Exec(s, q, pc, a))
  {
    hide BookOf, Integrity, IsBound, Facts, OneCall, Exec;
    if pc.StoringKeys? {
      KeyStoreCall(s, q, pc, a);
    } else if pc.StoringBind? {
      BindStoreCall(s, q, pc, a);
    } else {
      BindLookupCall(s, q, pc, a);
    }
  }

  lemma KeyStoreCall(s: Sys, q: Request, pc: Pc, a: Answer)
    requires q.Bind? && pc.StoringKeys? && Facts(s, q, pc) && Integrity(s.db)
    ensures OneCall(s, q, Exec(s, q, pc, a))
  {
    hide BookOf, Integrity, IsBound;
    StoreApplicationKeepsIntegrity(s.db, pc.resource, pc.keys, a.Okay?);
    ApplicationStoreBook(s.db, pc.resource, pc.keys, a.Okay?);
  }

  lemma BindStoreCall(s: Sys, q: Request, pc: Pc, a: Answer)
    requires q.Bind? && pc.StoringBind? && Facts(s, q, pc) && Integrity(s.db)
    ensures OneCall(s, q, Exec(s, q, pc, a))
  {
    hide BookOf, Integrity, IsBound, StoresBinding;
    var row := BindRow(q.id, pc.platformApp, q.service, q.plan, IsCreateServiceKey(q.app));
    StoreBindKeepsIntegrity(s.db, q.binding, row, a.Okay?);
    BindStoreBook(s.db, q, row, a.Okay?);
    LookupBook(s.db, q.id);
  }

  lemma BindLookupCall(s: Sys, q: Request, pc: Pc, a: Answer)
    requires q.Bind? && Proper(q, pc) && !pc.Done? && !pc.StoringKeys? && !pc.StoringBind?
    requires Facts(s, q, pc) && Integrity(s.db)
    ensures OneCall(s, q, Exec(s, q, pc, a))
  {
    hide BookOf, Integrity, IsBound;
    LookupBook(s.db, q.id);
    if q.binding in s.db.binds { BindLookupBook(s.db, q); }
  }

  lemma UnbindCall(s: Sys, q: Request, pc: Pc, a: Answer)
    requires q.Unbind? && Proper(q, pc) && !pc.Done? && Facts(s, q, pc) && Integrity(s.db)
    ensures OneCall(s, q, Exec(s, q, pc, a))
  {
    hide BookOf, Integrity, IsBound, ForgetsBinding;
    BoundIsBound(s.db, q.binding);
    DeleteBindKeepsIntegrity(s.db, q.binding, a.Okay?);
    BindDeleteBook(s.db, q.binding, a.Okay?);
  }

  lemma BindDeleteBook(t: Tables, b: BindingId, up: bool)
    ensures var u := DeleteBind(t, b, up); u.ok ==> ForgetsBinding(BookOf(t), b, BookOf(u.tables))
  {
    var u := DeleteBind(t, b, up);
    if u.ok {
      forall i ensures BindingsOf(u.tables, i) == BindingsOf(t, i) - {b} {}
    }
  }

  lemma UpdateCall(s: Sys, q: Request, pc: Pc, a: Answer)
    requires q.Update? && Proper(q, pc) && !pc.Done? && Facts(s, q, pc) && Integrity(s.db)
    ensures OneCall(s, q, Exec(s, q, pc, a))
  {
    LookupBook(s.db, q.id);
    hide BookOf, Integrity;
  }

  lemma AnyCall(s: Sys, q: Request, pc: Pc, a: Answer)
    requires Proper(q, pc) && !pc.Done? && Facts(s, q, pc) && Integrity(s.db)
    ensures OneCall(s, q, Exec(s, q, pc, a))
  {
    hide Proper, Facts, Integrity, OneCall, Exec;
    match q
    case Provision(_, _, _, _, _, _) => ProvisionCall(s, q, pc, a);
    case Deprovision(_, _) => DeprovisionCall(s, q, pc, a);
    case Bind(_, _, _, _, _) => BindCall(s, q, pc, a);
    case Unbind(_, _, _) => UnbindCall(s, q, pc, a);
    case Update(_, _, _) => UpdateCall(s, q, pc, a);
  }

  lemma {:induction false} AloneServes(s: Sys, q: Request, pc: Pc, answers: seq<Answer>)
    requires Proper(q, pc) && !pc.Done? && Facts(s, q, pc) && Integrity(s.db) && |answers| >= CallsLeft(pc)
    ensures var m := Alone(s, q, pc, answers);
      m.pc.Done? && Integrity(m.sys.db) && Serves(BookOf(s.db), q, m.pc.response, BookOf(m.sys.db))
    decreases |answers|
  {
    assert CallsLeft(pc) > 0;
    var m := Exec(s, q, pc, answers[0]);
    CallsRunOut(s, q, pc, answers[0]);
    AnyCall(s, q, pc, answers[0]);
    hide Exec, Proper, CallsLeft, Facts, Integrity, Serves, BookOf;
    if !m.pc.Done? {
      AloneServes(m.sys, q, m.pc, answers[1..]);
    } else {
      assert Alone(m.sys, q, m.pc, answers[1..]) == m;
    }
  }

  // ---------------------------------------------------------------- serial runs refine the book

  /** The book after the jobs, each served as the book before it allows. */
  ghost predicate ServesAll(s: Sys, jobs: seq<Job>) {
    forall i :: 0 <= i < |jobs| ==> ServesOne(ServedInTurn(s, jobs[..i]), jobs[i], ServedInTurn(s, jobs[..i + 1]))
  }

  ghost predicate ServesOne(before: Sys, job: Job, after: Sys) {
    var m := Alone(before, job.req, Start, job.script);
    m.pc.Done? && m.sys == after && Serves(BookOf(before.db), job.req, m.pc.response, BookOf(after.db))
  }

  lemma {:induction false} TablesStaySound(s: Sys, jobs: seq<Job>)
    requires Integrity(s.db)
    ensures Integrity(ServedInTurn(s, jobs).db)
  {
    hide Alone, Integrity;
    if jobs != [] {
      var job := jobs[|jobs| - 1];
      TablesStaySound(s, jobs[..|jobs| - 1]);
      AloneServes(ServedInTurn(s, jobs[..|jobs| - 1]), job.req, Start, job.script);
    }
  }

  /** Served in turn, and whatever fails, the broker is a book of instances: each answer is true of it. */
  lemma SerialRunsRefineTheBook(apim: Remote, jobs: seq<Job>)
    ensures BookOf(EMPTY) == map[]
    ensures ServesAll(Sys(EMPTY, apim), jobs)
  {
    hide Alone, Integrity, Serves;
    var s := Sys(EMPTY, apim);
    assert Integrity(EMPTY) by { EmptyIsSound(); }
    forall i | 0 <= i < |jobs|
      ensures ServesOne(ServedInTurn(s, jobs[..i]), jobs[i], ServedInTurn(s, jobs[..i + 1]))
    {
      TablesStaySound(s, jobs[..i]);
      assert jobs[..i + 1][..i] == jobs[..i] && jobs[..i + 1][i] == jobs[i];
      AloneServes(ServedInTurn(s, jobs[..i]), jobs[i].req, Start, jobs[i].script);
    }
  }

  lemma EmptyIsSound()
    ensures Integrity(EMPTY)
  {}

  // ---------------------------------------------------------------- the book and API-M

  /**
   * Between serial requests the broker's live resources are those its book names, but for the two
   * failures its history records: a row delete that failed, and a compensation that failed.
   */
  lemma BookMatchesApim(apim: Remote, jobs: seq<Job>, r: ResourceId)
    requires Sane(apim)
    ensures var w := Reached(apim, Schedule(jobs));
      && w.sys == ServedInTurn(Sys(EMPTY, apim), jobs)
      && (r in w.hist.creator ==>
            (r in w.sys.apim.live <==> (Referenced(w, r) && r !in w.hist.dangling) || r in w.hist.orphaned))
      && (Referenced(w, r) ==> r in w.hist.creator)
  {
    hide After, Alone, ServedInTurn, Schedule;
    SerialRunsAreInOrder(apim, jobs);
    var w := Reached(apim, Schedule(jobs));
    QuietResource(w, r);
  }

  lemma QuietResource(w: World, r: ResourceId)
    requires AllDone(w) && Inv(w)
    ensures r in w.hist.creator ==>
            (r in w.sys.apim.live <==> (Referenced(w, r) && r !in w.hist.dangling) || r in w.hist.orphaned)
    ensures Referenced(w, r) ==> r in w.hist.creator
  {
    hide ThreadOk, ThreadsOk, RowsOk, ResourcesOk, KeysOk, OneClaim, Integrity;
    if r in w.hist.creator { ClassOf(w.sys, w.hist, w.threads, r); }
    if Referenced(w, r) {
      var id :| Names(w.sys, id, r);
      RowIsStored(w.sys, w.hist, w.threads, id);
      RowExplained(w.sys, w.hist, w.threads, id);
    }
  }

  lemma RowExplained(s: Sys, h: History, threads: map<Tid, Thread>, id: InstanceId)
    requires id in s.db.instances && RowsOk(s, h, threads)
    ensures var r := s.db.instances[id].resource; r in s.apim.live || r in h.dangling || Claimed(threads, r)
  {
    assert RowOk(s, h, threads, id);
  }

  /** With neither failure on record, stored resource ids and live resources correspond one to one. */
  lemma CleanRunsBiject(apim: Remote, jobs: seq<Job>)
    requires Sane(apim)
    requires var h := Reached(apim, Schedule(jobs)).hist; h.dangling == {} && h.orphaned == {}
    ensures var w := Reached(apim, Schedule(jobs)); var m := BookOf(ServedInTurn(Sys(EMPTY, apim), jobs).db);
      && (forall r :: r in w.hist.creator && r in w.sys.apim.live <==> exists id :: id in m && m[id].row.resource == r)
      && (forall i, j :: i in m && j in m && m[i].row.resource == m[j].row.resource ==> i == j)
  {
    hide After, Alone, Schedule;
    SerialRunsAreInOrder(apim, jobs);
    var w := Reached(apim, Schedule(jobs));
    var m := BookOf(w.sys.db);
    hide ServedInTurn;
    forall r ensures r in w.hist.creator && r in w.sys.apim.live <==> exists id :: id in m && m[id].row.resource == r {
      QuietResource(w, r);
      if id :| Names(w.sys, id, r) { assert id in m && m[id].row.resource == r; }
      if id :| id in m && m[id].row.resource == r { assert Names(w.sys, id, r); }
    }
    hide ThreadsOk, RowsOk, ResourcesOk, KeysOk, OneClaim, StoredOk;
  }

  // ---------------------------------------------------------------- when a row is left dangling

  /** Looks up, removes the resource, deletes the row: the calls of a Deprovision. */
  predicate RemovesResource(s: Sys, q: Request, script: Script)
    requires q.Deprovision?
  {
    && Known(q.plan) && script[0].Okay? && q.id in s.db.instances
    && Deletes(s.apim, KindOf(q.plan), s.db.instances[q.id].resource, script[1])
  }

  /**
   * A Deprovision alone leaves its row without a resource exactly when the remote delete works and
   * the row delete does not, which the RESTRICT key makes certain as long as a binding is left.
   */
  lemma DanglesExactlyWhen(s: Sys, q: Request, script: Script)
    requires q.Deprovision? && q.id in s.db.instances && s.db.instances[q.id].resource in s.apim.live
    ensures var m := Alone(s, q, Start, script); var r := s.db.instances[q.id].resource;
      (q.id in m.sys.db.instances && r !in m.sys.apim.live)
      <==> RemovesResource(s, q, script) && (HasBinding(s.db, q.id) || !script[2].Okay?)
    ensures var m := Alone(s, q, Start, script);
      m.pc == Done(Deprovisioned) <==> RemovesResource(s, q, script) && !HasBinding(s.db, q.id) && script[2].Okay?
  {
    var m0 := Exec(s, q, Start, script[0]);
    assert Alone(s, q, Start, script) == Alone(m0.sys, q, m0.pc, script[1..]);
    if !m0.pc.Done? {
      var m1 := Exec(s, q, m0.pc, script[1]);
      assert Alone(s, q, m0.pc, script[1..]) == Alone(m1.sys, q, m1.pc, script[1..][1..]);
      if !m1.pc.Done? {
        assert script[1..][1..][0] == script[2];
        assert Alone(m1.sys, q, m1.pc, script[1..][1..]) == Exec(m1.sys, q, m1.pc, script[2]);
      }
    }
  }
}
