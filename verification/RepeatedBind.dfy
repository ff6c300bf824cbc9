/** A repeated Bind hands out exactly what the original Bind did. */
module RepeatedBind {
  import opened Domain
  import opened Tables
  import opened ApiManager
  import opened Requests
  import opened Interleaving
  import opened SagaInvariant
  import opened Lifecycle
  import opened Bindings

  /** The request whose call put the present row of binding `b` into the database. */
  function Storer(w: World, events: seq<Event>, b: BindingId): Option<Tid> {
    if events == [] then None
    else
      var before, e := events[..|events| - 1], events[|events| - 1];
      var u := After(w, before);
      if b !in u.sys.db.binds && b in Next(u, e).sys.db.binds then Some(e.tid) else Storer(w, before, b)
  }

  /** The original Bind is answered, and the instance still has the resource it was answered with. */
  ghost predicate StoredBy(w: World, b: BindingId, j: Tid)
    requires b in w.sys.db.binds
  {
    && j in w.threads && w.threads[j].req.Bind? && w.threads[j].req.binding == b
    && w.threads[j].req.id == w.sys.db.binds[b].instance
    && w.threads[j].pc.Done? && w.threads[j].pc.response.Bound? && !w.threads[j].pc.response.alreadyExists
    && Names(w.sys, w.threads[j].req.id, w.threads[j].pc.response.resource)
  }

  lemma StoreNamesStorer(w: World, e: Event, b: BindingId)
    requires b !in w.sys.db.binds && b in Next(w, e).sys.db.binds
    requires BindsInOrder(w)
    ensures StoredBy(Next(w, e), b, e.tid)
  {
    hide BoundHaveKeys;
  }

  lemma BoundRowStays(w: World, e: Event, b: BindingId)
    requires b in w.sys.db.binds && b in Next(w, e).sys.db.binds && Integrity(w.sys.db)
    ensures var v, id := Next(w, e), w.sys.db.binds[b].instance;
      && v.sys.db.binds[b] == w.sys.db.binds[b]
      && id in v.sys.db.instances && v.sys.db.instances[id] == w.sys.db.instances[id]
  {
    if e.Call? && e.tid in w.threads && !DeletesRow(w, e.tid) {
      TablesGrow(w, e.tid, e.answer);
    }
  }

  lemma DoneStays(w: World, e: Event, j: Tid)
    requires j in w.threads && w.threads[j].pc.Done?
    ensures j in Next(w, e).threads && Next(w, e).threads[j] == w.threads[j]
  {}

  lemma StorerStays(w: World, e: Event, b: BindingId, j: Tid)
    requires b in w.sys.db.binds && b in Next(w, e).sys.db.binds && Integrity(w.sys.db)
    requires StoredBy(w, b, j)
    ensures StoredBy(Next(w, e), b, j)
  {
    hide Next, Integrity;
    BoundRowStays(w, e, b);
    DoneStays(w, e, j);
  }

  lemma StorerSnoc(w: World, xs: seq<Event>, e: Event, b: BindingId)
    ensures Storer(w, xs + [e], b) ==
      if b !in After(w, xs).sys.db.binds && b in Next(After(w, xs), e).sys.db.binds then Some(e.tid) else Storer(w, xs, b)
  {
    hide After, Next;
    assert (xs + [e])[..|xs|] == xs;
  }

  lemma {:induction false} BindingHasStorer(apim: Remote, events: seq<Event>, b: BindingId)
    requires Sane(apim) && ApartThroughout(Init(apim), events)
    requires b in Reached(apim, events).sys.db.binds
    ensures Storer(Init(apim), events, b).Some?
    ensures StoredBy(Reached(apim, events), b, Storer(Init(apim), events, b).value)
  {
    hide Inv, Next, BindsInOrder, ApartThroughout, StoredBy, Storer;
    if events != [] {
      var before, e := events[..|events| - 1], events[|events| - 1];
      assert before + [e] == events;
      PrefixApart(Init(apim), before, [e]);
      EveryRunKeepsInv(apim, before);
      BoundInstancesHaveKeys(apim, before);
      StorerSnoc(Init(apim), before, e, b);
      var w := Reached(apim, before);
      assert Reached(apim, events) == Next(w, e);
      hide After;
      if b in w.sys.db.binds {
        BindingHasStorer(apim, before, b);
        TablesSound(w);
        StorerStays(w, e, b, Storer(Init(apim), before, b).value);
      } else {
        StoreNamesStorer(w, e, b);
      }
    }
  }

  lemma TablesSound(w: World)
    requires Inv(w)
    ensures Integrity(w.sys.db)
  {}

  lemma PrefixApart(w: World, xs: seq<Event>, ys: seq<Event>)
    requires ApartThroughout(w, xs + ys)
    ensures ApartThroughout(w, xs)
  {
    forall i | 0 <= i < |xs| ensures Apart(After(w, xs[..i]), xs[i]) {
      assert xs[..i] == (xs + ys)[..i] && xs[i] == (xs + ys)[i];
    }
  }

  /** A Bind that found its own binding, on its way to answering with resource `r`. */
  ghost predicate OnItsWay(w: World, i: Tid, r: ResourceId) {
    && i in w.threads && w.threads[i].req.Bind?
    && var t := w.threads[i];
       match t.pc
       case Naming(same) => same && Names(w.sys, t.req.id, r)
       case ReadingInstance(same, _) => same && Names(w.sys, t.req.id, r)
       case ReadingApplication(same, _, q) => same && Names(w.sys, t.req.id, r) && q == r
       case Done(resp) => resp.Bound? ==> resp.alreadyExists && resp.resource == r
       case _ => false
  }

  lemma StaysOnItsWay(w: World, e: Event, i: Tid, r: ResourceId)
    requires OnItsWay(w, i, r) && Apart(w, e) && Integrity(w.sys.db)
    ensures OnItsWay(Next(w, e), i, r)
  {
    if e.Call? && e.tid in w.threads && e.tid != i {
      var id := w.threads[i].req.id;
      if Binding(w.threads[i]) { OtherRowsStay(w, e.tid, e.answer, id); }
      assert Next(w, e).threads[i] == w.threads[i];
      hide Act;
    }
  }

  lemma {:induction false} ArrivesThere(w: World, more: seq<Event>, i: Tid, r: ResourceId, j: Tid)
    requires OnItsWay(w, i, r) && Inv(w)
    requires ApartThroughout(w, more)
    requires j in w.threads && w.threads[j].pc.Done?
    ensures OnItsWay(After(w, more), i, r) && Inv(After(w, more))
    ensures j in After(w, more).threads && After(w, more).threads[j] == w.threads[j]
  {
    if more != [] {
      var before, e := more[..|more| - 1], more[|more| - 1];
      assert before + [e] == more;
      PrefixApart(w, before, [e]);
      assert more[..|before|] == before;
      assert Apart(After(w, before), e);
      ArrivesThere(w, before, i, r, j);
      var u := After(w, before);
      assert After(w, more) == Next(u, e);
      hide After, Inv, Next, OnItsWay, Apart;
      NextKeepsInv(u, e);
      TablesSound(u);
      StaysOnItsWay(u, e, i, r);
      DoneStays(u, e, j);
    }
  }

  lemma SuffixApart(w: World, xs: seq<Event>, ys: seq<Event>)
    requires ApartThroughout(w, xs + ys)
    ensures ApartThroughout(After(w, xs), ys)
  {
    forall i | 0 <= i < |ys| ensures Apart(After(After(w, xs), ys[..i]), ys[i]) {
      AfterConcat(w, xs, ys[..i]);
      assert (xs + ys)[|xs| + i] == ys[i];
      assert xs + ys[..i] == (xs + ys)[..|xs| + i];
    }
  }

  /**
   * A Bind that finds its binding stored, with its attributes, is answered "already exists" with
   * the very resource and keys the original Bind returned, if it is answered with success at all.
   * An Unbind in the meantime makes no difference.
   */
  lemma RepeatedBindAgrees(apim: Remote, events: seq<Event>, more: seq<Event>, i: Tid) returns (j: Tid)
    requires Sane(apim) && ApartThroughout(Init(apim), events + [Call(i, Okay)] + more)
    requires var w := Reached(apim, events);
      && i in w.threads && w.threads[i].req.Bind? && w.threads[i].pc.Start? && w.threads[i].req.plan.ApplicationPlan?
      && var q := w.threads[i].req;
      && q.binding in w.sys.db.binds && w.sys.db.binds[q.binding].instance == q.id
      && (q.app.None? || q.app.value == "" || q.app.value == w.sys.db.binds[q.binding].platformApp)
    requires var v := Reached(apim, events + [Call(i, Okay)] + more);
      i in v.threads && v.threads[i].pc.Done? && v.threads[i].pc.response.Bound?
    ensures var w, v := Reached(apim, events), Reached(apim, events + [Call(i, Okay)] + more);
      && Storer(Init(apim), events, w.threads[i].req.binding) == Some(j)
      && j in w.threads && w.threads[j].req.Bind? && w.threads[j].pc.Done? && w.threads[j].pc.response.Bound?
      && v.threads[i].pc.response == w.threads[j].pc.response.(alreadyExists := true)
  {
    var init, w := Init(apim), Reached(apim, events);
    var first := events + [Call(i, Okay)];
    PrefixApart(init, first, more);
    PrefixApart(init, events, [Call(i, Okay)]);
    SuffixApart(init, first, more);
    BoundInstancesHaveKeys(apim, first + more);
    EveryRunKeepsInv(apim, events);
    EveryRunKeepsInv(apim, first);
    AfterOne(init, events, Call(i, Okay));
    AfterConcat(init, first, more);
    hide After, Inv, ApartThroughout;
    BindingHasStorer(apim, events, w.threads[i].req.binding);
    j := Storer(init, events, w.threads[i].req.binding).value;
    var u, r := Reached(apim, first), w.threads[j].pc.response.resource;
    SetsOut(w, i, r);
    DoneStays(w, Call(i, Okay), j);
    ArrivesThere(u, more, i, r, j);
    SameKeys(Reached(apim, first + more), i, j, r);
  }

  lemma SetsOut(w: World, i: Tid, r: ResourceId)
    requires i in w.threads && w.threads[i].req.Bind? && w.threads[i].pc.Start? && w.threads[i].req.plan.ApplicationPlan?
    requires w.threads[i].req.binding in w.sys.db.binds
    requires IsBindWithAttributes(w.sys.db.binds[w.threads[i].req.binding], w.threads[i].req)
    requires Names(w.sys, w.threads[i].req.id, r)
    ensures OnItsWay(Next(w, Call(i, Okay)), i, r)
  {}

  lemma SameKeys(v: World, i: Tid, j: Tid, r: ResourceId)
    requires BindsInOrder(v) && OnItsWay(v, i, r)
    requires v.threads[i].pc.Done? && v.threads[i].pc.response.Bound?
    requires j in v.threads && v.threads[j].req.Bind? && v.threads[j].pc.Done? && v.threads[j].pc.response.Bound?
    requires v.threads[j].pc.response.resource == r
    ensures v.threads[i].pc.response.keys == v.threads[j].pc.response.keys
    ensures v.threads[i].pc.response.alreadyExists && v.threads[i].pc.response.resource == r
  {
    hide BoundHaveKeys;
  }
}
