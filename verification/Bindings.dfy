/**
 * Bindings and the keys they hand out. Bind looks the instance up, and only later stores the keys
 * and the binding, so what holds depends on whether the instance can be replaced in between.
 */
module Bindings {
  import opened Domain
  import opened Tables
  import opened ApiManager
  import opened Requests
  import opened Interleaving
  import opened SagaInvariant
  import opened Lifecycle

  // ---------------------------------------------------------------- in every run

  /** Two bindings of one resource get the same keys; only a repeated Bind may find none to give. */
  lemma OneSetOfKeys(apim: Remote, events: seq<Event>, i: Tid, j: Tid)
    requires Sane(apim)
    requires var w := Reached(apim, events);
      && i in w.threads && w.threads[i].req.Bind? && w.threads[i].pc.Done? && w.threads[i].pc.response.Bound?
      && j in w.threads && w.threads[j].req.Bind? && w.threads[j].pc.Done? && w.threads[j].pc.response.Bound?
      && w.threads[i].pc.response.resource == w.threads[j].pc.response.resource
    ensures var w := Reached(apim, events); var x, y := w.threads[i].pc.response, w.threads[j].pc.response;
      && w.threads[i].req.id == w.threads[j].req.id
      && (x.keys == y.keys || (x.alreadyExists && x.keys == NO_KEYS) || (y.alreadyExists && y.keys == NO_KEYS))
  {
    hide After, ThreadsOk, ResourcesOk, RowsOk, KeysOk, OneClaim, Integrity, StoredOk;
    EveryRunKeepsInv(apim, events);
    var w := Reached(apim, events);
    BoundThreadKnows(w.sys, w.hist, w.threads, i);
    BoundThreadKnows(w.sys, w.hist, w.threads, j);
  }

  lemma BoundThreadKnows(s: Sys, h: History, threads: map<Tid, Thread>, i: Tid)
    requires i in threads && threads[i].req.Bind? && threads[i].pc.Done? && threads[i].pc.response.Bound?
    requires ThreadsOk(s, h, threads)
    ensures var x := threads[i].pc.response;
      && x.resource in h.stored && h.stored[x.resource] == threads[i].req.id
      && ((x.alreadyExists && x.keys == NO_KEYS) || (x.resource in h.issued && h.issued[x.resource] == x.keys))
  {
    assert ThreadOk(s, h, i, threads[i]);
  }

  /** The requests that hold generated keys for `r` they have not stored yet. */
  function KeyHolders(threads: map<Tid, Thread>, r: ResourceId): set<Tid> {
    set tid | tid in threads && threads[tid].req.Bind? && threads[tid].pc.StoringKeys? && threads[tid].pc.resource == r
  }

  ghost predicate KeysCounted(w: World) {
    forall r :: w.tally.generated[r] ==
                w.tally.lost[r] + |KeyHolders(w.threads, r)| + (if r in w.hist.issued then 1 else 0)
  }

  lemma CallKeepsCount(w: World, tid: Tid, a: Answer)
    requires tid in w.threads && KeysCounted(w) && Inv(w)
    ensures KeysCounted(Act(w, tid, a))
  {
    hide ThreadsOk, ResourcesOk, RowsOk, OneClaim, Integrity, StoredOk, KeysOk;
    var v := Act(w, tid, a);
    forall r
      ensures v.tally.generated[r] == v.tally.lost[r] + |KeyHolders(v.threads, r)| + (if r in v.hist.issued then 1 else 0)
    {
      CallKeepsCountOf(w, tid, a, r);
    }
  }

  lemma CallKeepsCountOf(w: World, tid: Tid, a: Answer, r: ResourceId)
    requires tid in w.threads && Inv(w)
    requires w.tally.generated[r] == w.tally.lost[r] + |KeyHolders(w.threads, r)| + (if r in w.hist.issued then 1 else 0)
    ensures var v := Act(w, tid, a);
      v.tally.generated[r] == v.tally.lost[r] + |KeyHolders(v.threads, r)| + (if r in v.hist.issued then 1 else 0)
  {
    hide ThreadsOk, ResourcesOk, RowsOk, OneClaim, Integrity, StoredOk, KeysOk, KeyHolders;
    HoldersChange(w, tid, a, r);
    if w.threads[tid].req.Bind? && w.threads[tid].pc.StoringKeys? {
      IssuedOnce(w, tid, a);
    } else if !(w.threads[tid].req.Bind? && w.threads[tid].pc.GeneratingKeys?) {
      hide Act;
      TallyStays(w, tid, a);
    }
  }

  lemma TallyStays(w: World, tid: Tid, a: Answer)
    requires tid in w.threads
    requires w.threads[tid].req.Bind? ==> !w.threads[tid].pc.StoringKeys? && !w.threads[tid].pc.GeneratingKeys?
    ensures Act(w, tid, a).tally == w.tally && Act(w, tid, a).hist.issued == w.hist.issued
  {
    var t := w.threads[tid];
    if t.pc.StoringKeys? || t.pc.GeneratingKeys? { OnlyBindsHaveKeys(w.sys, t.req, t.pc, a); }
    hide Exec;
  }

  lemma OnlyBindsHaveKeys(s: Sys, q: Request, pc: Pc, a: Answer)
    requires !q.Bind? && (pc.StoringKeys? || pc.GeneratingKeys?)
    ensures Exec(s, q, pc, a) == Move(s, pc)
  {}

  lemma HoldersChange(w: World, tid: Tid, a: Answer, r: ResourceId)
    requires tid in w.threads
    ensures var t, v := w.threads[tid], Act(w, tid, a);
      |KeyHolders(v.threads, r)| == |KeyHolders(w.threads, r)|
        - (if t.req.Bind? && t.pc.StoringKeys? && t.pc.resource == r then 1 else 0)
        + (if t.req.Bind? && t.pc.GeneratingKeys? && t.pc.resource == r && a.Keyed? then 1 else 0)
  {
    var t, v := w.threads[tid], Act(w, tid, a);
    var before, after := KeyHolders(w.threads, r), KeyHolders(v.threads, r);
    assert tid in after <==> t.req.Bind? && t.pc.GeneratingKeys? && t.pc.resource == r && a.Keyed?;
    hide Exec, Record;
    if tid in before {
      assert after == before - {tid};
    } else if tid in after {
      assert after == before + {tid};
    } else {
      assert after == before;
    }
  }

  /** A resource whose keys are being stored has no keys yet, unless the store fails. */
  lemma IssuedOnce(w: World, tid: Tid, a: Answer)
    requires tid in w.threads && w.threads[tid].req.Bind? && w.threads[tid].pc.StoringKeys? && Inv(w)
    ensures StoreApplication(w.sys.db, w.threads[tid].pc.resource, w.threads[tid].pc.keys, a.Okay?).ok
            ==> w.threads[tid].pc.resource !in w.hist.issued
  {
    hide ThreadsOk, ResourcesOk, RowsOk, KeysOk, OneClaim, Integrity, StoredOk;
    if StoreApplication(w.sys.db, w.threads[tid].pc.resource, w.threads[tid].pc.keys, a.Okay?).ok {
      Knows(w.sys, w.hist, w.threads, tid);
      RowsAreStored(w.sys, w.hist, w.threads);
      KeysStored(w.sys, w.hist, w.threads[tid].pc.resource, w.threads[tid].pc.keys);
    }
  }

  lemma NextKeepsCount(w: World, e: Event)
    requires KeysCounted(w) && Inv(w)
    ensures KeysCounted(Next(w, e))
  {
    hide Inv, Act;
    if e.Call? {
      if e.tid in w.threads { CallKeepsCount(w, e.tid, e.answer); }
    } else {
      assert forall r :: KeyHolders(Next(w, e).threads, r) == KeyHolders(w.threads, r);
    }
  }

  lemma {:induction false} EveryRunCountsKeys(apim: Remote, events: seq<Event>)
    requires Sane(apim)
    ensures KeysCounted(Reached(apim, events))
  {
    hide Inv, Next;
    if events == [] {
      assert forall r :: KeyHolders(Init(apim).threads, r) == {};
    } else {
      var before, e := events[..|events| - 1], events[|events| - 1];
      EveryRunCountsKeys(apim, before);
      EveryRunKeepsInv(apim, before);
      hide KeysCounted;
      NextKeepsCount(Reached(apim, before), e);
    }
  }

  /**
   * For an application whose instance row lives, key generations are accounted for: those whose
   * store failed, those still in flight, and exactly one more if its Application row is there.
   */
  lemma KeyGenerationsBalance(apim: Remote, events: seq<Event>, id: InstanceId)
    requires Sane(apim) && id in Reached(apim, events).sys.db.instances
    ensures var w := Reached(apim, events); var r := w.sys.db.instances[id].resource;
      w.tally.generated[r] == w.tally.lost[r] + |KeyHolders(w.threads, r)| + if r in w.sys.db.applications then 1 else 0
  {
    EveryRunCountsKeys(apim, events);
    EveryRunKeepsInv(apim, events);
    var w := Reached(apim, events);
    hide After, ThreadsOk, ResourcesOk, RowsOk, OneClaim, Integrity, StoredOk;
    RowIsStored(w.sys, w.hist, w.threads, id);
    assert Names(w.sys, id, w.sys.db.instances[id].resource);
  }

  // ---------------------------------------------------------------- bindings without keys

  /** The instance's resource has an Application row. */
  predicate HasKeys(s: Sys, id: InstanceId) {
    id in s.db.instances && s.db.instances[id].resource in s.db.applications
  }

  ghost predicate BoundHaveKeys(s: Sys) {
    forall b :: b in s.db.binds ==> HasKeys(s, s.db.binds[b].instance)
  }

  /**
   * A Bind stores its binding, but its instance has been replaced since the Bind looked it up, by one
   * nobody has bound yet.
   */
  predicate BindsReplaced(w: World, e: Event) {
    && e.Call? && e.answer.Okay? && e.tid in w.threads
    && var t := w.threads[e.tid];
    && t.req.Bind? && t.pc.StoringBind? && t.req.binding !in w.sys.db.binds
    && t.req.id in w.sys.db.instances
    && w.sys.db.instances[t.req.id].resource != t.pc.resource
    && w.sys.db.instances[t.req.id].resource !in w.sys.db.applications
  }

  /**
   * In any run whatever, a call breaks "every binding's instance has keys" exactly when it stores a
   * binding to a replaced instance. CASCADE alone would break it; RESTRICT is why no delete does.
   */
  lemma OnlyReplacedInstancesBreak(w: World, e: Event)
    requires BoundHaveKeys(w.sys) && Inv(w)
    ensures BoundHaveKeys(Next(w, e).sys) <==> !BindsReplaced(w, e)
  {
    assert Integrity(w.sys.db);
    hide Inv, Act, BoundHaveKeys;
    if e.Call? && e.tid in w.threads {
      if DeletesRow(w, e.tid) {
        RowDeleteKeepsKeys(w, e.tid, e.answer);
      } else if w.threads[e.tid].req.Bind? && w.threads[e.tid].pc.StoringBind? {
        BindStoreKeepsKeys(w, e.tid, e.answer);
      } else {
        TablesGrow(w, e.tid, e.answer);
        BindsOnlyShrink(w, e.tid, e.answer);
        GrowthKeepsKeys(w.sys, Act(w, e.tid, e.answer).sys);
      }
    }
  }

  /** Whether this request's next call is the delete of an instance row. */
  predicate DeletesRow(w: World, tid: Tid) {
    tid in w.threads && w.threads[tid].req.Deprovision? && w.threads[tid].pc.RemovingRow?
  }

  /** Every other call only ever adds rows to instances and applications. */
  lemma TablesGrow(w: World, tid: Tid, a: Answer)
    requires tid in w.threads && !DeletesRow(w, tid)
    ensures var v := Act(w, tid, a);
      && Extends(w.sys.db.instances, v.sys.db.instances)
      && Extends(w.sys.db.applications, v.sys.db.applications)
  {}

  lemma BindsOnlyShrink(w: World, tid: Tid, a: Answer)
    requires tid in w.threads && !(w.threads[tid].req.Bind? && w.threads[tid].pc.StoringBind?)
    ensures Extends(Act(w, tid, a).sys.db.binds, w.sys.db.binds)
  {}

  lemma GrowthKeepsKeys(s: Sys, s': Sys)
    requires Extends(s.db.instances, s'.db.instances) && Extends(s.db.applications, s'.db.applications)
    requires Extends(s'.db.binds, s.db.binds)
    requires BoundHaveKeys(s)
    ensures BoundHaveKeys(s')
  {}

  lemma RowDeleteKeepsKeys(w: World, tid: Tid, a: Answer)
    requires DeletesRow(w, tid) && Integrity(w.sys.db) && BoundHaveKeys(w.sys)
    ensures BoundHaveKeys(Act(w, tid, a).sys)
  {}

  lemma BindStoreKeepsKeys(w: World, tid: Tid, a: Answer)
    requires tid in w.threads && w.threads[tid].req.Bind? && w.threads[tid].pc.StoringBind?
    requires BoundHaveKeys(w.sys) && Inv(w)
    ensures BoundHaveKeys(Act(w, tid, a).sys) <==> !BindsReplaced(w, Call(tid, a))
  {
    hide ThreadOk, ThreadsOk, ResourcesOk, RowsOk, KeysOk, OneClaim, Integrity, StoredOk;
    var q, v := w.threads[tid].req, Act(w, tid, a);
    BinderHasKeys(w, tid);
    if BindsReplaced(w, Call(tid, a)) {
      assert q.binding in v.sys.db.binds && v.sys.db.binds[q.binding].instance == q.id;
    }
  }

  /** As long as its instance has the resource it looked up, a Bind about to store finds keys there. */
  lemma BinderHasKeys(w: World, tid: Tid)
    requires tid in w.threads && w.threads[tid].req.Bind? && w.threads[tid].pc.StoringBind? && Inv(w)
    ensures Names(w.sys, w.threads[tid].req.id, w.threads[tid].pc.resource) ==> HasKeys(w.sys, w.threads[tid].req.id)
  {
    hide ThreadsOk, ResourcesOk, RowsOk, OneClaim, Integrity, StoredOk;
    Knows(w.sys, w.hist, w.threads, tid);
  }

  ghost predicate KeysThroughout(w: World, events: seq<Event>) {
    forall i :: 0 <= i <= |events| ==> BoundHaveKeys(After(w, events[..i]).sys)
  }

  ghost predicate BindsReplacedNowhere(w: World, events: seq<Event>) {
    forall i :: 0 <= i < |events| ==> !BindsReplaced(After(w, events[..i]), events[i])
  }

  /** Over a whole run: every binding has keys at every point exactly when none goes to a replaced instance. */
  lemma {:induction false} KeysThroughoutExactlyWhen(apim: Remote, events: seq<Event>)
    requires Sane(apim)
    ensures KeysThroughout(Init(apim), events) <==> BindsReplacedNowhere(Init(apim), events)
  {
    if events == [] {
      assert KeysThroughout(Init(apim), events);
    } else {
      var before, e := events[..|events| - 1], events[|events| - 1];
      KeysThroughoutExactlyWhen(apim, before);
      EveryRunKeepsInv(apim, before);
      hide After, Init, Inv, BoundHaveKeys, BindsReplaced, KeysThroughout, BindsReplacedNowhere;
      assert before + [e] == events;
      ThroughoutSnoc(Init(apim), before, e);
      if BoundHaveKeys(After(Init(apim), before).sys) {
        OnlyReplacedInstancesBreak(After(Init(apim), before), e);
      }
    }
  }

  lemma ThroughoutSnoc(w: World, xs: seq<Event>, e: Event)
    ensures KeysThroughout(w, xs) ==> BoundHaveKeys(After(w, xs).sys)
    ensures KeysThroughout(w, xs + [e]) <==> KeysThroughout(w, xs) && BoundHaveKeys(Next(After(w, xs), e).sys)
    ensures BindsReplacedNowhere(w, xs + [e]) <==> BindsReplacedNowhere(w, xs) && !BindsReplaced(After(w, xs), e)
  {
    AfterOne(w, xs, e);
    hide *;
    KeysSnoc(w, xs, e);
    BindsSnoc(w, xs, e);
  }

  lemma KeysSnoc(w: World, xs: seq<Event>, e: Event)
    ensures KeysThroughout(w, xs) ==> BoundHaveKeys(After(w, xs).sys)
    ensures KeysThroughout(w, xs + [e]) <==> KeysThroughout(w, xs) && BoundHaveKeys(After(w, xs + [e]).sys)
  {
    hide After, BoundHaveKeys;
    assert forall i :: 0 <= i <= |xs| ==> (xs + [e])[..i] == xs[..i];
    assert xs[..|xs|] == xs && (xs + [e])[..|xs + [e]|] == xs + [e];
  }

  lemma BindsSnoc(w: World, xs: seq<Event>, e: Event)
    ensures BindsReplacedNowhere(w, xs + [e]) <==> BindsReplacedNowhere(w, xs) && !BindsReplaced(After(w, xs), e)
  {
    hide After, BindsReplaced;
    assert forall i :: 0 <= i <= |xs| ==> (xs + [e])[..i] == xs[..i];
    assert xs[..|xs|] == xs;
    assert (xs + [e])[|xs|] == e && forall i :: 0 <= i < |xs| ==> (xs + [e])[i] == xs[i];
  }

  // ---------------------------------------------------------------- the run that does it

  lemma AfterOne(w: World, xs: seq<Event>, e: Event)
    ensures After(w, xs + [e]) == Next(After(w, xs), e)
  {
    assert (xs + [e])[..|xs|] == xs;
  }

  lemma AfterThree(w: World, e0: Event, e1: Event, e2: Event)
    ensures After(w, [e0, e1, e2]) == Next(Next(Next(w, e0), e1), e2)
  {
    hide Next;
    AfterOne(w, [], e0);
    AfterOne(w, [e0], e1);
    AfterOne(w, [e0, e1], e2);
    assert [] + [e0] == [e0] && [e0] + [e1] == [e0, e1] && [e0, e1] + [e2] == [e0, e1, e2];
  }

  /** No call of these is answered with a failure. */
  predicate NothingFails(events: seq<Event>) {
    forall i :: 0 <= i < |events| ==> events[i].Call? ==> !events[i].answer.Failed?
  }

  lemma OneOkay()
    ensures NothingFails([Call(1, Okay)])
  {}

  lemma ThreeOkay(tid: Tid, q: Request)
    ensures NothingFails([Arrive(tid, q), Call(tid, Okay), Call(tid, Okay)])
  {}

  lemma NothingFailsConcat(xs: seq<Event>, ys: seq<Event>)
    requires NothingFails(xs) && NothingFails(ys)
    ensures NothingFails(xs + ys)
  {}

  /** A Provision of an application that nobody disturbs and nothing fails. */
  lemma PlayProvision(w: World, tid: Tid, q: Request, r: ResourceId) returns (events: seq<Event>)
    requires tid !in w.threads && WellFormed(q) && q.plan.ApplicationPlan?
    requires q.id !in w.sys.db.instances && !References(w.sys.db, r) && r !in w.sys.apim.used
    ensures var v := After(w, events);
      && v.sys.db == w.sys.db.(instances := w.sys.db.instances[q.id := RowOf(q, r)])
      && v.sys.apim == Remote(w.sys.apim.live[r := Application], w.sys.apim.used + {r})
      && v.threads == w.threads[tid := Thread(q, Done(Provisioned(r)))]
    ensures NothingFails(events)
  {
    hide Next, After;
    AfterThree(w, Arrive(tid, q), Call(tid, Okay), Call(tid, Id(r)));
    events := [Arrive(tid, q), Call(tid, Okay), Call(tid, Id(r))];
    PlayCreate(w, tid, q, r);
    AfterOne(w, events, Call(tid, Okay));
    PlayStore(After(w, events), tid, q, r);
    events := events + [Call(tid, Okay)];
  }

  lemma PlayCreate(w: World, tid: Tid, q: Request, r: ResourceId)
    requires tid !in w.threads && WellFormed(q) && q.plan.ApplicationPlan?
    requires q.id !in w.sys.db.instances && r !in w.sys.apim.used
    ensures var v := Next(Next(Next(w, Arrive(tid, q)), Call(tid, Okay)), Call(tid, Id(r)));
      && v.sys == w.sys.(apim := Remote(w.sys.apim.live[r := Application], w.sys.apim.used + {r}))
      && v.threads == w.threads[tid := Thread(q, StoringRow(r))]
  {}

  lemma PlayStore(w: World, tid: Tid, q: Request, r: ResourceId)
    requires tid in w.threads && w.threads[tid] == Thread(q, StoringRow(r)) && WellFormed(q)
    requires q.id !in w.sys.db.instances && !References(w.sys.db, r)
    ensures var v := Next(w, Call(tid, Okay));
      && v.sys == w.sys.(db := w.sys.db.(instances := w.sys.db.instances[q.id := RowOf(q, r)]))
      && v.threads == w.threads[tid := Thread(q, Done(Provisioned(r)))]
  {}

  lemma PlayFirstBind(w: World, tid: Tid, q: Request, keys: Keys) returns (events: seq<Event>)
    requires tid !in w.threads && q.Bind? && q.plan.ApplicationPlan? && !IsCreateServiceKey(q.app)
    requires q.binding !in w.sys.db.binds && q.id in w.sys.db.instances
    requires w.sys.db.instances[q.id].resource !in w.sys.db.applications
    ensures var v := After(w, events); var r := w.sys.db.instances[q.id].resource;
      && v.sys == w.sys.(db := w.sys.db.(applications := w.sys.db.applications[r := keys]))
      && v.threads == w.threads[tid := Thread(q, StoringBind(q.app.value, r, keys))]
    ensures NothingFails(events)
  {
    var r := w.sys.db.instances[q.id].resource;
    hide Next, After, Exec, NothingFails, IsBindWithAttributes;
    ThreeOkay(tid, q);
    AfterThree(w, Arrive(tid, q), Call(tid, Okay), Call(tid, Okay));
    var xs := [Arrive(tid, q), Call(tid, Okay), Call(tid, Okay)];
    PlayLookups(w, tid, q);
    var ys := PlayFirstKeys(After(w, xs), tid, keys);
    NothingFailsConcat(xs, ys);
    AfterConcat(w, xs, ys);
    events := xs + ys;
  }

  /** The lookups of the binding and of the instance. */
  lemma PlayLookups(w: World, tid: Tid, q: Request)
    requires tid !in w.threads && q.Bind? && q.plan.ApplicationPlan? && !IsCreateServiceKey(q.app)
    requires q.binding in w.sys.db.binds ==> IsBindWithAttributes(w.sys.db.binds[q.binding], q)
    requires q.id in w.sys.db.instances
    ensures var v := Next(Next(Next(w, Arrive(tid, q)), Call(tid, Okay)), Call(tid, Okay));
      && v.sys == w.sys
      && v.threads == w.threads[tid :=
           Thread(q, ReadingApplication(q.binding in w.sys.db.binds, q.app.value, w.sys.db.instances[q.id].resource))]
  {}

  lemma PlayFirstKeys(w: World, tid: Tid, keys: Keys) returns (events: seq<Event>)
    requires tid in w.threads && w.threads[tid].req.Bind?
    requires w.threads[tid].pc.ReadingApplication? && !w.threads[tid].pc.same
    requires References(w.sys.db, w.threads[tid].pc.resource) && w.threads[tid].pc.resource !in w.sys.db.applications
    ensures var v := After(w, events); var t := w.threads[tid]; var r := t.pc.resource;
      && v.sys == w.sys.(db := w.sys.db.(applications := w.sys.db.applications[r := keys]))
      && v.threads == w.threads[tid := Thread(t.req, StoringBind(t.pc.platformApp, r, keys))]
    ensures NothingFails(events)
  {
    AfterThree(w, Call(tid, Okay), Call(tid, Keyed(keys)), Call(tid, Okay));
    events := [Call(tid, Okay), Call(tid, Keyed(keys)), Call(tid, Okay)];
  }

  lemma PlayDeprovision(w: World, tid: Tid, q: Request) returns (events: seq<Event>)
    requires tid !in w.threads && q.Deprovision? && q.plan.ApplicationPlan? && q.id in w.sys.db.instances
    requires !HasBinding(w.sys.db, q.id)
    requires var r := w.sys.db.instances[q.id].resource; r in w.sys.apim.live && w.sys.apim.live[r] == Application
    ensures var v := After(w, events); var row := w.sys.db.instances[q.id];
      && v.sys.db == w.sys.db.(instances := w.sys.db.instances - {q.id}, applications := w.sys.db.applications - {row.resource})
      && v.sys.apim == w.sys.apim.(live := w.sys.apim.live - {row.resource})
      && v.threads == w.threads[tid := Thread(q, Done(Deprovisioned))]
  {
    hide Next, After;
    var row := w.sys.db.instances[q.id];
    AfterThree(w, Arrive(tid, q), Call(tid, Okay), Call(tid, Okay));
    events := [Arrive(tid, q), Call(tid, Okay), Call(tid, Okay)];
    PlayRemove(w, tid, q);
    AfterOne(w, events, Call(tid, Okay));
    PlayRowDelete(After(w, events), tid, q, row);
    events := events + [Call(tid, Okay)];
  }

  /** The lookup and the remote delete. */
  lemma PlayRemove(w: World, tid: Tid, q: Request)
    requires tid !in w.threads && q.Deprovision? && q.plan.ApplicationPlan? && q.id in w.sys.db.instances
    requires var r := w.sys.db.instances[q.id].resource; r in w.sys.apim.live && w.sys.apim.live[r] == Application
    ensures var v := Next(Next(Next(w, Arrive(tid, q)), Call(tid, Okay)), Call(tid, Okay)); var row := w.sys.db.instances[q.id];
      && v.sys == w.sys.(apim := w.sys.apim.(live := w.sys.apim.live - {row.resource}))
      && v.threads == w.threads[tid := Thread(q, RemovingRow(row))]
  {}

  /** The row delete: refused while a binding is left, although the call itself works. */
  lemma PlayRowDelete(w: World, tid: Tid, q: Request, row: Instance)
    requires tid in w.threads && w.threads[tid] == Thread(q, RemovingRow(row)) && q.Deprovision?
    requires q.id in w.sys.db.instances && w.sys.db.instances[q.id] == row
    ensures var v := Next(w, Call(tid, Okay));
      && v.sys.apim == w.sys.apim
      && if HasBinding(w.sys.db, q.id)
         then v.sys.db == w.sys.db && v.threads == w.threads[tid := Thread(q, Done(Refused(Internal(DeleteInstanceRow))))]
              && row.resource in v.hist.dangling
         else v.sys.db == w.sys.db.(instances := w.sys.db.instances - {q.id}, applications := w.sys.db.applications - {row.resource})
              && v.threads == w.threads[tid := Thread(q, Done(Deprovisioned))]
  {}

  const A_PROVISION := Provision(1, "svc", ApplicationPlan, "space", "org", Valid([]))
  const A_BIND := Bind(1, 7, "svc", ApplicationPlan, Some("app"))
  const SOME_KEYS := Keys("key", "secret", "token")

  /** It does happen: a Bind that read the old instance stores its binding to the new one. */
  lemma KeylessBindingExists() returns (events: seq<Event>)
    ensures var w := Reached(Remote(map[], {}), events);
      && w.sys.db.binds == map[7 := BindRow(1, "app", "svc", ApplicationPlan, false)]
      && Names(w.sys, 1, 11) && !HasKeys(w.sys, 1)
      && w.threads.Keys == {0, 1, 2, 3} && w.threads[1] == Thread(A_BIND, Done(Bound(10, SOME_KEYS, false)))
  {
    hide Next, Exec, After;
    var init := Init(Remote(map[], {}));
    events := PlayProvision(init, 0, A_PROVISION, 10);
    var xs := PlayFirstBind(After(init, events), 1, A_BIND, SOME_KEYS);
    AfterConcat(init, events, xs);
    events := events + xs;
    xs := PlayDeprovision(After(init, events), 2, Deprovision(1, ApplicationPlan));
    AfterConcat(init, events, xs);
    events := events + xs;
    xs := PlayProvision(After(init, events), 3, A_PROVISION, 11);
    AfterConcat(init, events, xs);
    events := events + xs;
    AfterOne(init, events, Call(1, Okay));
    LateBind(After(init, events), 1);
    events := events + [Call(1, Okay)];
  }

  lemma LateBind(w: World, tid: Tid)
    requires tid in w.threads && w.threads[tid].req.Bind? && w.threads[tid].pc.StoringBind?
    requires w.threads[tid].req.binding !in w.sys.db.binds && w.threads[tid].req.id in w.sys.db.instances
    ensures var v := Next(w, Call(tid, Okay)); var q, pc := w.threads[tid].req, w.threads[tid].pc;
      && v.sys == w.sys.(db := w.sys.db.(binds := w.sys.db.binds[q.binding :=
           BindRow(q.id, pc.platformApp, q.service, q.plan, IsCreateServiceKey(q.app))]))
      && v.threads == w.threads[tid := Thread(q, Done(Bound(pc.resource, pc.keys, false)))]
  {}

  /**
   * A repeated Bind is answered without keys exactly when none were ever issued for the resource it
   * read, or that resource has since lost its row.
   */
  lemma EmptyKeysExactlyWhen(apim: Remote, events: seq<Event>, i: Tid)
    requires Sane(apim)
    requires var w := Reached(apim, events);
      i in w.threads && w.threads[i].req.Bind? && w.threads[i].pc.ReadingApplication? && w.threads[i].pc.same
    ensures var w := Reached(apim, events); var r := w.threads[i].pc.resource;
      Next(w, Call(i, Okay)).threads[i].pc ==
        Done(Bound(r, if r in w.hist.issued && Names(w.sys, w.threads[i].req.id, r) then w.hist.issued[r] else NO_KEYS, true))
  {
    EveryRunKeepsInv(apim, events);
    var w := Reached(apim, events);
    hide After, ThreadsOk, ResourcesOk, RowsOk, OneClaim, Integrity, StoredOk;
    Knows(w.sys, w.hist, w.threads, i);
    ReferencedIsNamed(w, w.threads[i].pc.resource);
  }

  /** An Application row is there only as long as the instance it belongs to. */
  lemma ReferencedIsNamed(w: World, r: ResourceId)
    requires Inv(w)
    ensures r in w.sys.db.applications ==> r in w.hist.stored && Names(w.sys, w.hist.stored[r], r)
  {
    assert r in w.sys.db.applications ==> References(w.sys.db, r);
    hide ThreadsOk, ResourcesOk, RowsOk, OneClaim, Integrity, StoredOk;
    RowsAreStored(w.sys, w.hist, w.threads);
  }

  /** It does happen: the Bind of that run, sent again, is answered without keys. */
  lemma EmptyKeysAreHandedOut() returns (events: seq<Event>)
    ensures var w := Reached(Remote(map[], {}), events);
      && 1 in w.threads && w.threads[1] == Thread(A_BIND, Done(Bound(10, SOME_KEYS, false)))
      && 4 in w.threads && w.threads[4] == Thread(A_BIND, Done(Bound(11, NO_KEYS, true)))
  {
    hide Next, Exec, After;
    var init := Init(Remote(map[], {}));
    events := KeylessBindingExists();
    var xs := PlayRepeatedBind(After(init, events), 4, A_BIND);
    AfterConcat(init, events, xs);
    events := events + xs;
  }

  lemma PlayRepeatedBind(w: World, tid: Tid, q: Request) returns (events: seq<Event>)
    requires tid !in w.threads && q.Bind? && q.plan.ApplicationPlan? && !IsCreateServiceKey(q.app)
    requires q.binding in w.sys.db.binds && IsBindWithAttributes(w.sys.db.binds[q.binding], q)
    requires q.id in w.sys.db.instances && !HasKeys(w.sys, q.id)
    ensures var v := After(w, events);
      v.threads == w.threads[tid := Thread(q, Done(Bound(w.sys.db.instances[q.id].resource, NO_KEYS, true)))]
  {
    hide After;
    events := [Arrive(tid, q), Call(tid, Okay), Call(tid, Okay)];
    AfterThree(w, Arrive(tid, q), Call(tid, Okay), Call(tid, Okay));
    hide Next;
    PlayLookups(w, tid, q);
    AfterOne(w, events, Call(tid, Okay));
    PlayEmptyAnswer(After(w, events), tid, q);
    events := events + [Call(tid, Okay)];
  }

  lemma PlayEmptyAnswer(w: World, tid: Tid, q: Request)
    requires tid in w.threads && w.threads[tid].req == q && q.Bind? && w.threads[tid].pc.ReadingApplication?
    requires w.threads[tid].pc.same && w.threads[tid].pc.resource !in w.sys.db.applications
    ensures Next(w, Call(tid, Okay)).threads == w.threads[tid := Thread(q, Done(Bound(w.threads[tid].pc.resource, NO_KEYS, true)))]
  {}

  /** An application's Deprovision while a binding is left, with every call answered as a success. */
  lemma PlayRefusedDeprovision(w: World, tid: Tid, q: Request) returns (events: seq<Event>)
    requires tid !in w.threads && q.Deprovision? && q.plan.ApplicationPlan? && q.id in w.sys.db.instances
    requires HasBinding(w.sys.db, q.id)
    requires var r := w.sys.db.instances[q.id].resource; r in w.sys.apim.live && w.sys.apim.live[r] == Application
    ensures var v := After(w, events); var r := w.sys.db.instances[q.id].resource;
      && v.sys == w.sys.(apim := w.sys.apim.(live := w.sys.apim.live - {r}))
      && v.threads == w.threads[tid := Thread(q, Done(Refused(Internal(DeleteInstanceRow))))]
      && r in v.hist.dangling
    ensures NothingFails(events)
  {
    hide Next, After;
    var row := w.sys.db.instances[q.id];
    AfterThree(w, Arrive(tid, q), Call(tid, Okay), Call(tid, Okay));
    events := [Arrive(tid, q), Call(tid, Okay), Call(tid, Okay)];
    PlayRemove(w, tid, q);
    AfterOne(w, events, Call(tid, Okay));
    PlayRowDelete(After(w, events), tid, q, row);
    events := events + [Call(tid, Okay)];
  }

  /** Provision, bind, deprovision, one after the other and no call failing: the row stays and its resource is gone. */
  lemma DanglingExists() returns (events: seq<Event>)
    ensures var w := Reached(Remote(map[], {}), events);
      && Names(w.sys, 1, 10) && 10 !in w.sys.apim.live && 10 in w.hist.dangling
      && NothingFails(events)
  {
    hide Next, Exec, After, NothingFails;
    var init := Init(Remote(map[], {}));
    events := PlayProvision(init, 0, A_PROVISION, 10);
    var xs := PlayFirstBind(After(init, events), 1, A_BIND, SOME_KEYS);
    AfterConcat(init, events, xs);
    NothingFailsConcat(events, xs);
    events := events + xs;
    AfterOne(init, events, Call(1, Okay));
    LateBind(After(init, events), 1);
    OneOkay();
    NothingFailsConcat(events, [Call(1, Okay)]);
    events := events + [Call(1, Okay)];
    assert HasBinding(After(init, events).sys.db, 1) by {
      assert 7 in After(init, events).sys.db.binds;
    }
    xs := PlayRefusedDeprovision(After(init, events), 2, Deprovision(1, ApplicationPlan));
    AfterConcat(init, events, xs);
    NothingFailsConcat(events, xs);
    events := events + xs;
  }

  // ---------------------------------------------------------------- when no instance is replaced under a Bind

  /** A Bind in flight that counts on the instance row: it has read it, or found its binding stored. */
  predicate Binding(t: Thread) {
    match t.pc
    case Naming(same) => same
    case ReadingInstance(same, _) => same
    case _ => t.req.Bind? && !t.pc.Start? && !t.pc.Done?
  }

  /** Whether this call deletes an instance row: no binding refers to it, and the delete works. */
  predicate RowGoes(w: World, e: Event) {
    e.Call? && DeletesRow(w, e.tid) && e.answer.Okay? && !HasBinding(w.sys.db, w.threads[e.tid].req.id)
  }

  /** No row goes from under a Bind; so it is when requests are serialised per instance. */
  ghost predicate Apart(w: World, e: Event) {
    RowGoes(w, e) ==>
      forall i :: i in w.threads && Binding(w.threads[i]) ==> w.threads[i].req.id != w.threads[e.tid].req.id
  }

  ghost predicate ApartThroughout(w: World, events: seq<Event>) {
    forall i :: 0 <= i < |events| ==> Apart(After(w, events[..i]), events[i])
  }

  /** What a Bind in flight knows of its instance, and what an answered one has handed out. */
  ghost predicate BindKnows(s: Sys, h: History, t: Thread)
    requires t.req.Bind?
  {
    match t.pc
    case Naming(same) => same ==> HasKeys(s, t.req.id)
    case ReadingInstance(same, _) => same ==> HasKeys(s, t.req.id)
    case ReadingApplication(same, _, r) => Names(s, t.req.id, r) && (same ==> HasKeys(s, t.req.id))
    case GeneratingKeys(_, r) => Names(s, t.req.id, r)
    case StoringKeys(_, r, _) => Names(s, t.req.id, r)
    case StoringBind(_, r, _) => Names(s, t.req.id, r) && HasKeys(s, t.req.id)
    case Done(resp) => resp.Bound? ==> resp.resource in h.issued && h.issued[resp.resource] == resp.keys
    case _ => true
  }

  ghost predicate BindsInOrder(w: World) {
    && BoundHaveKeys(w.sys)
    && (forall tid :: tid in w.threads && w.threads[tid].req.Bind? ==> BindKnows(w.sys, w.hist, w.threads[tid]))
  }

  lemma KnowledgeFollows(s: Sys, h: History, s': Sys, h': History, t: Thread)
    requires t.req.Bind? && BindKnows(s, h, t) && Extends(h.issued, h'.issued)
    requires Binding(t) ==>
      (t.req.id in s.db.instances ==>
        && t.req.id in s'.db.instances && s'.db.instances[t.req.id] == s.db.instances[t.req.id]
        && (HasKeys(s, t.req.id) ==> HasKeys(s', t.req.id)))
    ensures BindKnows(s', h', t)
  {}

  /** Deleting the row of one instance leaves the keys of every other in place. */
  lemma OtherRowsStay(w: World, tid: Tid, a: Answer, id: InstanceId)
    requires tid in w.threads && id in w.sys.db.instances && Integrity(w.sys.db)
    requires RowGoes(w, Call(tid, a)) ==> w.threads[tid].req.id != id
    ensures var v := Act(w, tid, a);
      && id in v.sys.db.instances && v.sys.db.instances[id] == w.sys.db.instances[id]
      && (HasKeys(w.sys, id) ==> HasKeys(v.sys, id))
  {
    if !DeletesRow(w, tid) { TablesGrow(w, tid, a); }
  }

  lemma BinderLearns(w: World, tid: Tid, a: Answer)
    requires tid in w.threads && w.threads[tid].req.Bind? && BindKnows(w.sys, w.hist, w.threads[tid])
    requires BoundHaveKeys(w.sys) && Inv(w)
    ensures var v := Act(w, tid, a); BindKnows(v.sys, v.hist, v.threads[tid])
  {
    hide ThreadsOk, ResourcesOk, RowsOk, OneClaim, StoredOk, Integrity;
    Knows(w.sys, w.hist, w.threads, tid);
  }

  lemma IssuedGrows(w: World, tid: Tid, a: Answer)
    requires tid in w.threads && Inv(w)
    ensures Extends(w.hist.issued, Act(w, tid, a).hist.issued)
  {
    hide ThreadOk, ThreadsOk, ResourcesOk, RowsOk, OneClaim, StoredOk, Integrity, KeysOk;
    if w.threads[tid].req.Bind? && w.threads[tid].pc.StoringKeys? {
      IssuedOnce(w, tid, a);
    } else {
      assert w.threads[tid].pc.StoringKeys? ==> !ThreadOk(w.sys, w.hist, tid, w.threads[tid]) by {
        OnlyBindsStoreKeys(w.sys, w.hist, tid, w.threads[tid]);
      }
      Knows(w.sys, w.hist, w.threads, tid);
      hide Exec;
    }
  }

  lemma OnlyBindsStoreKeys(s: Sys, h: History, tid: Tid, t: Thread)
    ensures t.pc.StoringKeys? && !t.req.Bind? ==> !ThreadOk(s, h, tid, t)
  {}

  lemma NextKeepsOrder(w: World, e: Event)
    requires Apart(w, e) && BindsInOrder(w) && Inv(w)
    ensures BindsInOrder(Next(w, e))
  {
    hide ThreadOk, ThreadsOk, ResourcesOk, RowsOk, OneClaim, StoredOk, KeysOk;
    OnlyReplacedInstancesBreak(w, e);
    hide BoundHaveKeys;
    if e.Call? && e.tid in w.threads {
      var v := Act(w, e.tid, e.answer);
      assert v.threads.Keys == w.threads.Keys;
      assert forall c :: c in w.threads && c != e.tid ==> v.threads[c] == w.threads[c];
      assert v.threads[e.tid].req == w.threads[e.tid].req;
      IssuedGrows(w, e.tid, e.answer);
      if w.threads[e.tid].req.Bind? { BinderLearns(w, e.tid, e.answer); }
      hide Act;
      forall c | c in v.threads && v.threads[c].req.Bind? ensures BindKnows(v.sys, v.hist, v.threads[c]) {
        if c != e.tid { OtherBinderFollows(w, e.tid, e.answer, c); }
      }
    }
  }

  lemma OtherBinderFollows(w: World, tid: Tid, a: Answer, c: Tid)
    requires tid in w.threads && c in w.threads && c != tid && w.threads[c].req.Bind?
    requires BindKnows(w.sys, w.hist, w.threads[c])
    requires Apart(w, Call(tid, a)) && Integrity(w.sys.db)
    requires Extends(w.hist.issued, Act(w, tid, a).hist.issued)
    ensures var v := Act(w, tid, a); BindKnows(v.sys, v.hist, w.threads[c])
  {
    var id := w.threads[c].req.id;
    if Binding(w.threads[c]) && id in w.sys.db.instances { OtherRowsStay(w, tid, a, id); }
    var v := Act(w, tid, a);
    hide Act;
    KnowledgeFollows(w.sys, w.hist, v.sys, v.hist, w.threads[c]);
  }

  /**
   * In every run in which no row goes from under a Bind, whatever fails: every binding has its
   * instance row and that instance's resource its Application row, every answered Bind handed out
   * the keys first stored for its resource, and so all bindings of a resource agree.
   */
  lemma {:induction false} BoundInstancesHaveKeys(apim: Remote, events: seq<Event>)
    requires Sane(apim) && ApartThroughout(Init(apim), events)
    ensures BindsInOrder(Reached(apim, events))
  {
    if events != [] {
      var before, e := events[..|events| - 1], events[|events| - 1];
      assert forall i :: 0 <= i <= |before| ==> before[..i] == events[..i];
      BoundInstancesHaveKeys(apim, before);
      assert Apart(After(Init(apim), events[..|before|]), events[|before|]);
      EveryRunKeepsInv(apim, before);
      var w := Reached(apim, before);
      assert Reached(apim, events) == Next(w, e);
      hide After, Inv, Apart, BindsInOrder, Act;
      NextKeepsOrder(w, e);
    }
  }
}
