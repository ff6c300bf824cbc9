/**
 * The answer to every request served alone, and what it leaves behind, written out on the fields of
 * the request, the rows and the calls' answers.
 */
module Outcomes {
  import opened Domain
  import opened Tables
  import opened ApiManager
  import opened Requests
  import opened Serial

  lemma FirstCall(s: Sys, q: Request, pc: Pc, answers: seq<Answer>)
    requires !pc.Done? && answers != []
    ensures var m := Exec(s, q, pc, answers[0]); Alone(s, q, pc, answers) == Alone(m.sys, q, m.pc, answers[1..])
  {}

  lemma NoMoreCalls(s: Sys, q: Request, pc: Pc, answers: seq<Answer>)
    requires pc.Done?
    ensures Alone(s, q, pc, answers) == Move(s, pc)
  {}

  // ---------------------------------------------------------------- Provision

  /** From the store on. */
  lemma StoreOutcome(s: Sys, q: Request, r: ResourceId, answers: seq<Answer>)
    requires WellFormed(q) && |answers| >= 2 && r in s.apim.live && s.apim.live[r] == KindOf(q.plan) && q.id !in s.db.instances
    ensures var m := Alone(s, q, StoringRow(r), answers); var works := answers[0].Okay? && !References(s.db, r);
      && m.pc == Done(if works then Provisioned(r) else Refused(Internal(StoreInstanceRow)))
      && m.sys.db == (if works then s.db.(instances := s.db.instances[q.id := RowOf(q, r)]) else s.db)
      && m.sys.apim == (if works || !answers[1].Okay? then s.apim else s.apim.(live := s.apim.live - {r}))
  {
    FirstCall(s, q, StoringRow(r), answers);
    var m := Exec(s, q, StoringRow(r), answers[0]);
    if m.pc.Done? {
      NoMoreCalls(m.sys, q, m.pc, answers[1..]);
    } else {
      LastCall(m.sys, q, m.pc, answers[1..]);
    }
  }

  /** From the publish on. */
  lemma PublishOutcome(s: Sys, q: Request, r: ResourceId, answers: seq<Answer>)
    requires WellFormed(q) && q.plan.ApiPlan? && |answers| >= 3
    requires r in s.apim.live && s.apim.live[r] == Api && q.id !in s.db.instances
    ensures var m := Alone(s, q, Publishing(r), answers);
      var works := answers[0].Okay? && answers[1].Okay? && !References(s.db, r);
      var cleans := if answers[0].Okay? then answers[2].Okay? else answers[1].Okay?;
      && m.pc == Done(if !answers[0].Okay? then Refused(Internal(PublishApi))
                      else if works then Provisioned(r) else Refused(Internal(StoreInstanceRow)))
      && m.sys.db == (if works then s.db.(instances := s.db.instances[q.id := RowOf(q, r)]) else s.db)
      && m.sys.apim == (if works || !cleans then s.apim else s.apim.(live := s.apim.live - {r}))
  {
    FirstCall(s, q, Publishing(r), answers);
    if answers[0].Okay? {
      StoreOutcome(s, q, r, answers[1..]);
    } else {
      LastCall(s, q, CleaningUp(r, Internal(PublishApi)), answers[1..]);
    }
  }

  /** What a Provision is answered before it creates anything, if it gets no further. */
  lemma LookupOutcome(s: Sys, q: Request, script: Script)
    requires q.Provision?
    ensures var m := Alone(s, q, Start, script); var subs := q.plan.SubscriptionPlan?;
      if q.space == "" || q.org == "" then m == Move(s, Done(Refused(InvalidSpaceOrOrg)))
      else if q.plan.UnknownPlan? then m == Move(s, Done(Refused(InvalidPlan)))
      else if q.params.Missing? then m == Move(s, Done(Refused(RawParamsInvalid)))
      else if !q.params.Valid? then m == Move(s, Done(Refused(InvalidParams)))
      else if !script[0].Okay? then m == Move(s, Done(Refused(Internal(QueryInstance))))
      else if q.id in s.db.instances then
        var row := s.db.instances[q.id];
        m == Move(s, Done(if row.hash == q.params.hash && row.space == q.space && row.org == q.org
                          then AlreadyProvisioned else Refused(InstanceAlreadyExists)))
      else if subs && !script[1].Id? then m == Move(s, Done(Refused(Internal(SearchApi))))
      else if subs && !script[2].Id? then m == Move(s, Done(Refused(Internal(SearchApplication))))
      else m == Alone(s, q, Creating, script[if subs then 3 else 1..])
  {
    FirstCall(s, q, Start, script);
    var m := Exec(s, q, Start, script[0]);
    if m.pc.Done? {
      NoMoreCalls(m.sys, q, m.pc, script[1..]);
    } else if q.plan.SubscriptionPlan? {
      FirstCall(s, q, SearchingApi, script[1..]);
      if script[1].Id? {
        assert script[1..][1..] == script[2..];
        FirstCall(s, q, SearchingApp, script[2..]);
        assert script[2..][1..] == script[3..];
        if !script[2].Id? { LastCall(s, q, SearchingApp, script[2..]); }
      } else {
        LastCall(s, q, SearchingApi, script[1..]);
      }
    }
  }

  lemma CreateFails(s: Sys, q: Request, answers: seq<Answer>)
    requires WellFormed(q) && answers != [] && !(answers[0].Id? && answers[0].id !in s.apim.used)
    ensures Alone(s, q, Creating, answers) == Move(s, Done(Refused(Internal(
      if q.plan.SubscriptionPlan? then CreateSubscription
      else CreateResource(answers[0].Failed? && answers[0].status == 409)))))
  {
    LastCall(s, q, Creating, answers);
  }

  lemma CreateWorks(s: Sys, q: Request, answers: seq<Answer>)
    requires WellFormed(q) && answers != [] && answers[0].Id? && answers[0].id !in s.apim.used
    ensures var r := answers[0].id; var kind := if q.plan.ApiPlan? then Api else if q.plan.ApplicationPlan? then Application else Subscription;
      Alone(s, q, Creating, answers)
      == Alone(s.(apim := Remote(s.apim.live[r := kind], s.apim.used + {r})), q,
               if q.plan.ApiPlan? then Publishing(r) else StoringRow(r), answers[1..])
  {
    FirstCall(s, q, Creating, answers);
  }

  /** What a Provision is answered once it has created its resource. */
  lemma CreatedOutcome(s: Sys, q: Request, r: ResourceId, answers: seq<Answer>)
    requires WellFormed(q) && q.id !in s.db.instances && |answers| >= 3
    requires r in s.apim.live && s.apim.live[r] == KindOf(q.plan)
    ensures var api := q.plan.ApiPlan?; var store, cleanUp := answers[if api then 1 else 0], answers[if api && answers[0].Okay? then 2 else 1];
      var m := Alone(s, q, if api then Publishing(r) else StoringRow(r), answers);
      var works := (api ==> answers[0].Okay?) && store.Okay? && !References(s.db, r);
      && m.pc == Done(if api && !answers[0].Okay? then Refused(Internal(PublishApi))
                      else if works then Provisioned(r) else Refused(Internal(StoreInstanceRow)))
      && m.sys.db == (if works then s.db.(instances := s.db.instances[q.id := RowOf(q, r)]) else s.db)
      && m.sys.apim == (if works || !cleanUp.Okay? then s.apim else s.apim.(live := s.apim.live - {r}))
  {
    hide Alone;
    if q.plan.ApiPlan? {
      PublishOutcome(s, q, r, answers);
    } else {
      StoreOutcome(s, q, r, answers);
    }
  }

  /** From the create on, once the lookups have gone well. */
  lemma CreateOutcome(s: Sys, q: Request, answers: seq<Answer>)
    requires WellFormed(q) && q.id !in s.db.instances && |answers| >= 4
    ensures var m := Alone(s, q, Creating, answers); var api := q.plan.ApiPlan?; var create := answers[0];
      if !create.Id? || create.id in s.apim.used then
        m == Move(s, Done(Refused(Internal(
          if q.plan.SubscriptionPlan? then CreateSubscription else CreateResource(create.Failed? && create.status == 409)))))
      else
        var r := create.id; var store, cleanUp := answers[if api then 2 else 1], answers[if api && answers[1].Okay? then 3 else 2];
        var works := (api ==> answers[1].Okay?) && store.Okay? && !References(s.db, r);
        var kept := s.apim.live[r := KindOf(q.plan)];
        && m.pc == Done(if api && !answers[1].Okay? then Refused(Internal(PublishApi))
                        else if works then Provisioned(r) else Refused(Internal(StoreInstanceRow)))
        && m.sys.db == (if works then s.db.(instances := s.db.instances[q.id := RowOf(q, r)]) else s.db)
        && m.sys.apim == Remote(if works || !cleanUp.Okay? then kept else kept - {r}, s.apim.used + {r})
  {
    var create := answers[0];
    if !create.Id? || create.id in s.apim.used {
      CreateFails(s, q, answers);
    } else {
      CreateWorks(s, q, answers);
      hide Alone;
      CreatedOutcome(s.(apim := Remote(s.apim.live[create.id := KindOf(q.plan)], s.apim.used + {create.id})), q, create.id, answers[1..]);
    }
  }

  /** The answer to a Provision alone, case by case. */
  lemma ProvisionIsAnswered(s: Sys, q: Request, script: Script)
    requires q.Provision?
    ensures var api, subs := q.plan.ApiPlan?, q.plan.SubscriptionPlan?;
      var create := script[if subs then 3 else 1];
      var store := script[if api then 3 else if subs then 4 else 2];
      Alone(s, q, Start, script).pc == Done(
        if q.space == "" || q.org == "" then Refused(InvalidSpaceOrOrg)
        else if q.plan.UnknownPlan? then Refused(InvalidPlan)
        else if q.params.Missing? then Refused(RawParamsInvalid)
        else if !q.params.Valid? then Refused(InvalidParams)
        else if !script[0].Okay? then Refused(Internal(QueryInstance))
        else if q.id in s.db.instances then
          var row := s.db.instances[q.id];
          if row.hash == q.params.hash && row.space == q.space && row.org == q.org
          then AlreadyProvisioned else Refused(InstanceAlreadyExists)
        else if subs && !script[1].Id? then Refused(Internal(SearchApi))
        else if subs && !script[2].Id? then Refused(Internal(SearchApplication))
        else if !create.Id? || create.id in s.apim.used then
          Refused(Internal(if subs then CreateSubscription else CreateResource(create.Failed? && create.status == 409)))
        else if api && !script[2].Okay? then Refused(Internal(PublishApi))
        else if store.Okay? && forall id :: id in s.db.instances ==> s.db.instances[id].resource != create.id
        then Provisioned(create.id) else Refused(Internal(StoreInstanceRow)))
  {
    LookupOutcome(s, q, script);
    hide Alone;
    if LookupsWork(s, q, script) { CreateOutcome(s, q, script[if q.plan.SubscriptionPlan? then 3 else 1..]); }
  }

  /** The instance is absent, and every call before the create works. */
  predicate LookupsWork(s: Sys, q: Request, script: Script) {
    && q.Provision? && q.space != "" && q.org != "" && !q.plan.UnknownPlan? && q.params.Valid?
    && script[0].Okay? && q.id !in s.db.instances
    && (q.plan.SubscriptionPlan? ==> script[1].Id? && script[2].Id?)
  }

  /**
   * A Provision alone succeeds exactly when its instance is absent and every call works; it then
   * adds one row and one live resource. Otherwise no row is added, and a resource is left over
   * exactly when one was created and its compensation failed too.
   */
  lemma ProvisionSucceedsExactlyWhen(s: Sys, q: Request, script: Script)
    requires q.Provision?
    ensures var m := Alone(s, q, Start, script);
      var api, subs := q.plan.ApiPlan?, q.plan.SubscriptionPlan?;
      var create := script[if subs then 3 else 1];
      var store := script[if api then 3 else if subs then 4 else 2];
      var cleanUp := script[if subs then 5 else if api && script[2].Okay? then 4 else 3];
      if q.space == "" || q.org == "" || q.plan.UnknownPlan? || !q.params.Valid?
         || !script[0].Okay? || q.id in s.db.instances || (subs && !(script[1].Id? && script[2].Id?))
         || !create.Id? || create.id in s.apim.used
      then m.sys == s && m.pc.Done? && !m.pc.response.Provisioned?
      else
        var r := create.id;
        var live := s.apim.live[r := if api then Api else if subs then Subscription else Application];
        if (api ==> script[2].Okay?) && store.Okay? && forall id :: id in s.db.instances ==> s.db.instances[id].resource != r then
          && m.pc == Done(Provisioned(r))
          && m.sys.db == s.db.(instances :=
               s.db.instances[q.id := Instance(q.service, q.plan, r, q.params.hash, q.space, q.org)])
          && m.sys.apim == Remote(live, s.apim.used + {r})
        else
          && m.pc.Done? && m.pc.response.Refused?
          && m.sys.db == s.db
          && m.sys.apim == Remote(if cleanUp.Okay? then live - {r} else live, s.apim.used + {r})
  {
    LookupOutcome(s, q, script);
    hide Alone;
    if LookupsWork(s, q, script) { CreateOutcome(s, q, script[if q.plan.SubscriptionPlan? then 3 else 1..]); }
  }

  // ---------------------------------------------------------------- Deprovision

  /** The answer to a Deprovision alone, case by case, and what it leaves behind. */
  lemma DeprovisionIsAnswered(s: Sys, q: Request, script: Script)
    requires q.Deprovision?
    ensures var m := Alone(s, q, Start, script);
      var kind := if q.plan.ApiPlan? then Api else if q.plan.ApplicationPlan? then Application else Subscription;
      if q.plan.UnknownPlan? then m == Move(s, Done(Refused(InvalidPlan)))
      else if !script[0].Okay? then m == Move(s, Done(Refused(Internal(QueryInstance))))
      else if q.id !in s.db.instances then m == Move(s, Done(Refused(InstanceDoesNotExist)))
      else
        var r := s.db.instances[q.id].resource;
        if !script[1].Okay? || r !in s.apim.live || s.apim.live[r] != kind
        then m == Move(s, Done(Refused(Internal(DeleteResource))))
        else
          && m.sys.apim == Remote(s.apim.live - {r}, s.apim.used)
          && if script[2].Okay? && forall b :: b in s.db.binds ==> s.db.binds[b].instance != q.id
             then m.pc == Done(Deprovisioned)
                  && m.sys.db == Tables(s.db.instances - {q.id}, s.db.applications - {r}, s.db.binds)
             else m.pc == Done(Refused(Internal(DeleteInstanceRow))) && m.sys.db == s.db
  {
    FirstCall(s, q, Start, script);
    var m := Exec(s, q, Start, script[0]);
    if m.pc.Done? {
      NoMoreCalls(m.sys, q, m.pc, script[1..]);
    } else {
      RemoveOutcome(s, q, s.db.instances[q.id], script[1..]);
    }
  }

  lemma RemoveOutcome(s: Sys, q: Request, row: Instance, answers: seq<Answer>)
    requires q.Deprovision? && !q.plan.UnknownPlan? && |answers| >= 2 && q.id in s.db.instances && s.db.instances[q.id] == row
    ensures var m := Alone(s, q, RemovingResource(row), answers); var r := row.resource;
      var kind := if q.plan.ApiPlan? then Api else if q.plan.ApplicationPlan? then Application else Subscription;
      if !answers[0].Okay? || r !in s.apim.live || s.apim.live[r] != kind
      then m == Move(s, Done(Refused(Internal(DeleteResource))))
      else
        && m.sys.apim == Remote(s.apim.live - {r}, s.apim.used)
        && if answers[1].Okay? && forall b :: b in s.db.binds ==> s.db.binds[b].instance != q.id
           then m.pc == Done(Deprovisioned)
                && m.sys.db == Tables(s.db.instances - {q.id}, s.db.applications - {r}, s.db.binds)
           else m.pc == Done(Refused(Internal(DeleteInstanceRow))) && m.sys.db == s.db
  {
    var m := Exec(s, q, RemovingResource(row), answers[0]);
    if m.pc.Done? {
      LastCall(s, q, RemovingResource(row), answers);
    } else {
      FirstCall(s, q, RemovingResource(row), answers);
      LastCall(m.sys, q, m.pc, answers[1..]);
    }
  }

  // ---------------------------------------------------------------- Bind

  /** What a Bind is answered before it looks up its instance, if it gets no further. */
  lemma BindLookupOutcome(s: Sys, q: Request, script: Script)
    requires q.Bind?
    ensures var m := Alone(s, q, Start, script); var unnamed := q.app.None? || q.app.value == "";
      if !q.plan.ApplicationPlan? then m == Move(s, Done(Refused(InvalidPlan)))
      else if !script[0].Okay? then m == Move(s, Done(Refused(Internal(GetBind))))
      else if q.binding in s.db.binds
              && (s.db.binds[q.binding].instance != q.id || (!unnamed && s.db.binds[q.binding].platformApp != q.app.value))
      then m == Move(s, Done(Refused(BindingAlreadyExists)))
      else if unnamed && !script[1].Uuid? then m == Move(s, Done(Refused(Internal(GenerateUuid))))
      else m == Alone(s, q, ReadingInstance(q.binding in s.db.binds, if unnamed then script[1].uuid else q.app.value),
                      script[if unnamed then 2 else 1..])
  {
    var same := q.binding in s.db.binds;
    FirstCall(s, q, Start, script);
    var m := Exec(s, q, Start, script[0]);
    if m.pc.Done? {
      NoMoreCalls(m.sys, q, m.pc, script[1..]);
    } else if m.pc.Naming? {
      FirstCall(s, q, Naming(same), script[1..]);
      assert script[1..][1..] == script[2..];
      if !script[1].Uuid? { LastCall(s, q, Naming(same), script[1..]); }
    }
  }

  /** The two lookups between the binding's and the decision. */
  lemma InstanceOutcome(s: Sys, q: Request, same: bool, app: string, answers: seq<Answer>)
    requires q.Bind? && |answers| >= 2
    ensures var m := Alone(s, q, ReadingInstance(same, app), answers);
      if !answers[0].Okay? then m == Move(s, Done(Refused(Internal(QueryInstance))))
      else if q.id !in s.db.instances then m == Move(s, Done(Refused(InstanceDoesNotExist)))
      else if !answers[1].Okay? then m == Move(s, Done(Refused(Internal(GetApplication))))
      else m == Alone(s, q, ReadingApplication(same, app, s.db.instances[q.id].resource), answers[1..])
  {
    FirstCall(s, q, ReadingInstance(same, app), answers);
    if answers[0].Okay? && q.id in s.db.instances {
      if !answers[1].Okay? {
        LastCall(s, q, ReadingApplication(same, app, s.db.instances[q.id].resource), answers[1..]);
      }
    } else {
      LastCall(s, q, ReadingInstance(same, app), answers);
    }
  }

  /** The last step: the binding's row, or a refusal that leaves the keys already stored in place. */
  lemma StoreBindOutcome(s: Sys, q: Request, app: string, r: ResourceId, keys: Keys, answers: seq<Answer>)
    requires q.Bind? && answers != [] && q.id in s.db.instances && q.binding !in s.db.binds
    ensures Alone(s, q, StoringBind(app, r, keys), answers) ==
      if answers[0].Okay?
      then Move(s.(db := s.db.(binds := s.db.binds[q.binding :=
                  BindRow(q.id, app, q.service, q.plan, q.app.None? || q.app.value == "")])),
                Done(Bound(r, keys, false)))
      else Move(s, Done(Refused(Internal(StoreBindRow))))
  {
    LastCall(s, q, StoringBind(app, r, keys), answers);
  }

  lemma FreshKeysOutcome(s: Sys, q: Request, app: string, r: ResourceId, answers: seq<Answer>)
    requires q.Bind? && |answers| >= 3 && Names(s, q.id, r) && r !in s.db.applications && q.binding !in s.db.binds
    ensures var m := Alone(s, q, GeneratingKeys(app, r), answers);
      if !answers[0].Keyed? then m == Move(s, Done(Refused(Internal(GenerateKeys))))
      else if !answers[1].Okay? then m == Move(s, Done(Refused(Internal(StoreApplicationRow))))
      else m == Alone(s.(db := s.db.(applications := s.db.applications[r := answers[0].keys])), q,
                      StoringBind(app, r, answers[0].keys), answers[2..])
  {
    assert References(s.db, r);
    FirstCall(s, q, GeneratingKeys(app, r), answers);
    if answers[0].Keyed? {
      var keys := answers[0].keys;
      FirstCall(s, q, StoringKeys(app, r, keys), answers[1..]);
      assert answers[1..][1..] == answers[2..];
      if !answers[1].Okay? { LastCall(s, q, StoringKeys(app, r, keys), answers[1..]); }
    } else {
      LastCall(s, q, GeneratingKeys(app, r), answers);
    }
  }

  /** From the Application row's lookup on. */
  lemma KeysOutcome(s: Sys, q: Request, app: string, r: ResourceId, answers: seq<Answer>)
    requires q.Bind? && |answers| >= 4 && answers[0].Okay? && Names(s, q.id, r)
    ensures var same, stored := q.binding in s.db.binds, r in s.db.applications;
      var m := Alone(s, q, ReadingApplication(same, app, r), answers);
      if same then m == Move(s, Done(Bound(r, if stored then s.db.applications[r] else Keys("", "", ""), true)))
      else if !stored && !answers[1].Keyed? then m == Move(s, Done(Refused(Internal(GenerateKeys))))
      else if !stored && !answers[2].Okay? then m == Move(s, Done(Refused(Internal(StoreApplicationRow))))
      else
        var keys := if stored then s.db.applications[r] else answers[1].keys;
        && m.pc == Done(if answers[if stored then 1 else 3].Okay? then Bound(r, keys, false) else Refused(Internal(StoreBindRow)))
        && m.sys.apim == s.apim && m.sys.db.instances == s.db.instances
        && m.sys.db.applications == (if stored then s.db.applications else s.db.applications[r := keys])
        && m.sys.db.binds == (if m.pc.response.Bound?
             then s.db.binds[q.binding := BindRow(q.id, app, q.service, q.plan, q.app.None? || q.app.value == "")]
             else s.db.binds)
  {
    var same := q.binding in s.db.binds;
    FirstCall(s, q, ReadingApplication(same, app, r), answers);
    var m := Exec(s, q, ReadingApplication(same, app, r), answers[0]);
    if same {
      NoMoreCalls(m.sys, q, m.pc, answers[1..]);
    } else if r in s.db.applications {
      StoreBindOutcome(s, q, app, r, s.db.applications[r], answers[1..]);
    } else {
      FreshKeysOutcome(s, q, app, r, answers[1..]);
      if answers[1].Keyed? && answers[2].Okay? {
        var u := s.(db := s.db.(applications := s.db.applications[r := answers[1].keys]));
        assert answers[1..][2..] == answers[3..];
        hide Alone, Exec;
        StoreBindOutcome(u, q, app, r, answers[1].keys, answers[3..]);
      }
    }
  }

  /** The answer to a Bind alone, case by case. A Bind without an application makes one call more. */
  lemma BindIsAnswered(s: Sys, q: Request, script: Script)
    requires q.Bind?
    ensures var unnamed := q.app.None? || q.app.value == ""; var at := if unnamed then 2 else 1;
      Alone(s, q, Start, script).pc == Done(
        if !q.plan.ApplicationPlan? then Refused(InvalidPlan)
        else if !script[0].Okay? then Refused(Internal(GetBind))
        else if q.binding in s.db.binds
                && (s.db.binds[q.binding].instance != q.id || (!unnamed && s.db.binds[q.binding].platformApp != q.app.value))
        then Refused(BindingAlreadyExists)
        else if unnamed && !script[1].Uuid? then Refused(Internal(GenerateUuid))
        else if !script[at].Okay? then Refused(Internal(QueryInstance))
        else if q.id !in s.db.instances then Refused(InstanceDoesNotExist)
        else if !script[at + 1].Okay? then Refused(Internal(GetApplication))
        else
          var r := s.db.instances[q.id].resource;
          if q.binding in s.db.binds
          then Bound(r, if r in s.db.applications then s.db.applications[r] else Keys("", "", ""), true)
          else if r in s.db.applications
          then if script[at + 2].Okay? then Bound(r, s.db.applications[r], false) else Refused(Internal(StoreBindRow))
          else if !script[at + 2].Keyed? then Refused(Internal(GenerateKeys))
          else if !script[at + 3].Okay? then Refused(Internal(StoreApplicationRow))
          else if !script[at + 4].Okay? then Refused(Internal(StoreBindRow))
          else Bound(r, script[at + 2].keys, false))
  {
    BindLookupOutcome(s, q, script);
    hide Alone;
    if LooksUpInstance(s, q, script) { BindOutcome(s, q, script); }
  }

  /** The binding is absent or the same, and the Bind has an application to name. */
  predicate LooksUpInstance(s: Sys, q: Request, script: Script)
    requires q.Bind?
  {
    var unnamed := q.app.None? || q.app.value == "";
    && q.plan.ApplicationPlan? && script[0].Okay?
    && (q.binding in s.db.binds ==>
          s.db.binds[q.binding].instance == q.id && (unnamed || s.db.binds[q.binding].platformApp == q.app.value))
    && (unnamed ==> script[1].Uuid?)
  }

  /** From the instance's lookup on. */
  lemma BindOutcome(s: Sys, q: Request, script: Script)
    requires q.Bind? && LooksUpInstance(s, q, script)
    ensures var unnamed := q.app.None? || q.app.value == ""; var at := if unnamed then 2 else 1;
      var app, same := if unnamed then script[1].uuid else q.app.value, q.binding in s.db.binds;
      var m := Alone(s, q, ReadingInstance(same, app), script[at..]);
      if !script[at].Okay? then m == Move(s, Done(Refused(Internal(QueryInstance))))
      else if q.id !in s.db.instances then m == Move(s, Done(Refused(InstanceDoesNotExist)))
      else if !script[at + 1].Okay? then m == Move(s, Done(Refused(Internal(GetApplication))))
      else
        var r := s.db.instances[q.id].resource; var stored := r in s.db.applications;
        if same then m == Move(s, Done(Bound(r, if stored then s.db.applications[r] else Keys("", "", ""), true)))
        else if !stored && !script[at + 2].Keyed? then m == Move(s, Done(Refused(Internal(GenerateKeys))))
        else if !stored && !script[at + 3].Okay? then m == Move(s, Done(Refused(Internal(StoreApplicationRow))))
        else
          var keys := if stored then s.db.applications[r] else script[at + 2].keys;
          && m.pc == Done(if script[if stored then at + 2 else at + 4].Okay? then Bound(r, keys, false) else Refused(Internal(StoreBindRow)))
          && m.sys.apim == s.apim && m.sys.db.instances == s.db.instances
          && m.sys.db.applications == (if stored then s.db.applications else s.db.applications[r := keys])
          && m.sys.db.binds == (if m.pc.response.Bound?
               then s.db.binds[q.binding := BindRow(q.id, app, q.service, q.plan, unnamed)] else s.db.binds)
  {
    hide Alone;
    var unnamed := q.app.None? || q.app.value == "";
    var at, app := if unnamed then 2 else 1, if unnamed then script[1].uuid else q.app.value;
    InstanceOutcome(s, q, q.binding in s.db.binds, app, script[at..]);
    if script[at].Okay? && q.id in s.db.instances && script[at + 1].Okay? {
      assert script[at..][1..] == script[at + 1..];
      KeysOutcome(s, q, app, s.db.instances[q.id].resource, script[at + 1..]);
    }
  }

  /**
   * A Bind alone touches neither API-M nor the instances. It stores its binding exactly when it is
   * answered with success for the first time, and new keys as soon as there are some to store.
   */
  lemma BindLeaves(s: Sys, q: Request, script: Script)
    requires q.Bind?
    ensures var m := Alone(s, q, Start, script);
      var unnamed := q.app.None? || q.app.value == ""; var at := if unnamed then 2 else 1;
      && m.pc.Done? && m.sys.apim == s.apim && m.sys.db.instances == s.db.instances
      && var first := m.pc.response.Bound? && !m.pc.response.alreadyExists;
      && (first && unnamed ==> script[1].Uuid?)
      && m.sys.db.binds == (if first
           then s.db.binds[q.binding := BindRow(q.id, if unnamed then script[1].uuid else q.app.value, q.service, q.plan, unnamed)]
           else s.db.binds)
      && m.sys.db.applications ==
           if (first || m.pc.response == Refused(Internal(StoreBindRow)))
              && q.id in s.db.instances && s.db.instances[q.id].resource !in s.db.applications && script[at + 2].Keyed?
           then s.db.applications[s.db.instances[q.id].resource := script[at + 2].keys]
           else s.db.applications
  {
    BindLookupOutcome(s, q, script);
    hide Alone;
    if LooksUpInstance(s, q, script) { BindOutcome(s, q, script); }
  }

  // ---------------------------------------------------------------- Unbind and Update

  /** The answer to an Unbind alone, case by case, and what it leaves behind. */
  lemma UnbindIsAnswered(s: Sys, q: Request, script: Script)
    requires q.Unbind?
    ensures Alone(s, q, Start, script) ==
      if !q.plan.ApplicationPlan? then Move(s, Done(Refused(InvalidPlan)))
      else if !script[0].Okay? then Move(s, Done(Refused(Internal(GetBind))))
      else if q.binding !in s.db.binds then Move(s, Done(Refused(BindingDoesNotExist)))
      else if !script[1].Okay? then Move(s, Done(Refused(Internal(DeleteBindRow))))
      else Move(s.(db := s.db.(binds := s.db.binds - {q.binding})), Done(Unbound))
  {
    FirstCall(s, q, Start, script);
    var m := Exec(s, q, Start, script[0]);
    if m.pc.Done? {
      NoMoreCalls(m.sys, q, m.pc, script[1..]);
    } else {
      LastCall(s, q, RemovingBind, script[1..]);
    }
  }

  /**
   * The answer to an Update alone, case by case. It changes neither store, so a row keeps the hash of
   * its creation. That the resource is missing is reported for APIs, and never for applications.
   */
  lemma UpdateIsAnswered(s: Sys, q: Request, script: Script)
    requires q.Update?
    ensures Alone(s, q, Start, script) == Move(s, Done(
      if q.plan.SubscriptionPlan? then Refused(NotSupported)
      else if q.plan.UnknownPlan? then Refused(InvalidPlan)
      else if !script[0].Okay? then Refused(Internal(QueryInstance))
      else if q.id !in s.db.instances then Refused(InstanceDoesNotExist)
      else if q.params.Missing? then Refused(RawParamsInvalid)
      else if !q.params.Valid? then Refused(InvalidParams)
      else if !script[1].Okay?
      then Refused(Internal(UpdateResource(q.plan.ApiPlan? && script[1].Failed? && script[1].status == 404)))
      else Updated))
  {
    FirstCall(s, q, Start, script);
    var m := Exec(s, q, Start, script[0]);
    if m.pc.Done? {
      NoMoreCalls(m.sys, q, m.pc, script[1..]);
    } else {
      LastCall(s, q, m.pc, script[1..]);
    }
  }
}
