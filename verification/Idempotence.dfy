/** What hashing makes of "the same request": the parameters meet the stored row. */
module Idempotence {
  import opened Domain
  import opened ByteStrings
  import opened Hash
  import opened Params
  import opened ApiManager
  import opened Requests
  import opened Interleaving
  import opened SagaInvariant
  import opened Lifecycle
  import opened Bindings

  /**
   * Provisioning an API again, with its lists in another order, another version or other unhashed
   * fields, is answered "already exists", as long as its row lives.
   */
  lemma ReorderedProvisionExists(apim: Remote, events: seq<Event>, tid: Tid, p: ApiSpec, p0: ApiSpec)
    requires Sane(apim) && Reordered(p, p0)
    requires var w := Reached(apim, events);
      && tid in w.threads && WellFormed(w.threads[tid].req) && w.threads[tid].pc.Start?
      && w.threads[tid].req.id in w.sys.db.instances && Inv(w)
    requires var w := Reached(apim, events); var q := w.threads[tid].req; var q0 := CreatorOf(w, q.id);
      && q0.Provision? && q.params == ValidatedApi(p) && q0.params == ValidatedApi(p0)
      && q.space == q0.space && q.org == q0.org
    ensures var w := Reached(apim, events); var v := Act(w, tid, Okay);
      v.sys == w.sys && v.threads[tid].pc == Done(AlreadyProvisioned)
  {
    hide After, Inv, Act, ApiStream, CreatorOf, Reordered;
    ProvisionIsIdempotent(apim, events, tid);
    ApiStreamIgnoresOrder(p, p0);
  }

  lemma SortedStays(s: seq<Bytes>)
    requires Sorted(s)
    ensures Sort(s) == s
  {
    SortSorts(s);
    SortedIsUnique(Sort(s), s);
  }

  const AN_APP := AppSpec([97], [98], [99], [100])
  const A_SUBSCRIPTION := SubsSpec([97], [98], [99, 100])

  /** Without separators, an application and a subscription can hash alike. */
  lemma PlansCollide()
    ensures ValidatedApp(AN_APP).Valid? && ValidatedApp(AN_APP) == ValidatedSubs(A_SUBSCRIPTION)
  {
    AppBytes();
    SubsBytes();
    hide AppStream, SubsStream;
  }

  /** A sorted list grows at its end by a string no less than its last. */
  lemma Snoc(s: seq<Bytes>, x: Bytes)
    requires Sorted(s) && (s != [] ==> Leq(s[|s| - 1], x))
    ensures Sorted(s + [x]) && Concat(s + [x]) == Concat(s) + x
  {
    assert (s + [x])[..|s|] == s;
    forall i | 0 <= i < |s| ensures Leq(s[i], x) {
      if i < |s| - 1 { LeqTransitive(s[i], s[|s| - 1], x); }
    }
    hide Leq;
  }

  lemma LeqByFirst(a: Bytes, b: Bytes)
    requires a != [] && b != [] && a[0] < b[0]
    ensures Leq(a, b)
  {}

  lemma AppBytes()
    ensures AppStream(AN_APP) == [97, 98, 99, 100]
  {
    hide Concat, Sorted, Sort, Leq;
    TwoStrings();
    LeqByFirst([98], [99]);
    LeqByFirst([99], [100]);
    Snoc([[97], [98]], [99]);
    assert [[97], [98]] + [[99]] == [[97], [98], [99]];
    Snoc([[97], [98], [99]], [100]);
    assert [[97], [98], [99]] + [[100]] == [[97], [98], [99], [100]];
    SortedStays([[97], [98], [99], [100]]);
  }

  lemma SubsBytes()
    ensures SubsStream(A_SUBSCRIPTION) == [97, 98, 99, 100]
  {
    hide Concat, Sorted, Sort, Leq;
    TwoStrings();
    LeqByFirst([98], [99, 100]);
    Snoc([[97], [98]], [99, 100]);
    assert [[97], [98]] + [[99, 100]] == [[97], [98], [99, 100]];
    SortedStays([[97], [98], [99, 100]]);
  }

  lemma OneString(x: Bytes)
    ensures Sorted([x]) && Concat([x]) == x
  {
    assert [x][..0] == [] && Concat([x]) == Concat([x][..0]) + x;
  }

  lemma TwoStrings()
    ensures Sorted([[97], [98]]) && Concat([[97], [98]]) == [97, 98]
  {
    hide Concat, Sorted, Leq;
    OneString([97]);
    LeqByFirst([97], [98]);
    Snoc([[97]], [98]);
    assert [[97]] + [[98]] == [[97], [98]];
  }

  /**
   * The plan takes no part in the comparison: a subscription is answered "already exists" because
   * an application has the instance ID, the space, the organization and the same bytes.
   */
  lemma OtherPlanExists() returns (events: seq<Event>)
    ensures var w := Reached(Remote(map[], {}), events);
      && 1 in w.sys.db.instances && w.sys.db.instances[1].plan == ApplicationPlan
      && 1 in w.threads && w.threads[1].req.Provision? && w.threads[1].req.plan == SubscriptionPlan
      && w.threads[1].req.id == 1 && w.threads[1].pc == Done(AlreadyProvisioned)
  {
    hide Next, After, ValidatedApp, ValidatedSubs;
    PlansCollide();
    var params := ValidatedApp(AN_APP);
    events := PlayTwoPlans(Provision(1, "svc", ApplicationPlan, "space", "org", params),
                           Provision(1, "svc", SubscriptionPlan, "space", "org", params));
  }

  lemma PlayTwoPlans(app: Request, subs: Request) returns (events: seq<Event>)
    requires app.Provision? && app.plan == ApplicationPlan && WellFormed(app)
    requires subs == Provision(app.id, app.service, SubscriptionPlan, app.space, app.org, app.params)
    ensures var w := Reached(Remote(map[], {}), events);
      && app.id in w.sys.db.instances && w.sys.db.instances[app.id].plan == ApplicationPlan
      && 1 in w.threads && w.threads[1] == Thread(subs, Done(AlreadyProvisioned))
  {
    hide Next, After;
    var init := Init(Remote(map[], {}));
    events := PlayProvision(init, 0, app, 10);
    var w := After(init, events);
    assert w.sys.db.instances[app.id] == RowOf(app, 10);
    AfterTwo(init, events, Arrive(1, subs), Call(1, Okay));
    SecondProvision(w, 1, subs);
    events := events + [Arrive(1, subs), Call(1, Okay)];
  }

  lemma AfterTwo(w: World, xs: seq<Event>, e0: Event, e1: Event)
    ensures After(w, xs + [e0, e1]) == Next(Next(After(w, xs), e0), e1)
  {
    hide Next, After;
    AfterOne(w, xs, e0);
    AfterOne(w, xs + [e0], e1);
    assert xs + [e0] + [e1] == xs + [e0, e1];
  }

  lemma SecondProvision(w: World, tid: Tid, q: Request)
    requires tid !in w.threads && WellFormed(q) && q.id in w.sys.db.instances && SameAttributes(q, w.sys.db.instances[q.id])
    ensures var v := Next(Next(w, Arrive(tid, q)), Call(tid, Okay));
      v.sys == w.sys && tid in v.threads && v.threads[tid] == Thread(q, Done(AlreadyProvisioned))
  {}
}
