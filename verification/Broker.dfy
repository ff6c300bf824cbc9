/**
 * The broker's handlers as they are written: a sequence of calls with an early return at each
 * failure. Each handler is proved to do what its request does alone, call for call; `answers` are
 * what its remaining calls will answer.
 */
module Broker {
  import opened Domain
  import opened Tables
  import opened ApiManager
  import opened Requests
  import opened Serial

  class APIM {
    const db: Database
    const apim: Server

    constructor (db: Database, apim: Server)
      ensures this.db == db && this.apim == apim
    {
      this.db, this.apim := db, apim;
    }

    function Stores(): Sys
      reads this, db, apim
    {
      Sys(db.Contents(), apim.Contents())
    }

    // -------------------------------------------------------------- Provision

    method Provision(q: Request, script: Script) returns (resp: Response)
      requires q.Provision?
      modifies db, apim
      ensures Move(Stores(), Done(resp)) == Alone(old(Stores()), q, Start, script)
    {
      if !ValidSpaceOrg(q.space, q.org) {
        return Refused(InvalidSpaceOrOrg);
      }
      match q.plan {
        case ApiPlan => resp := CreateApiServiceInstance(q, script);
        case ApplicationPlan => resp := CreateAppServiceInstance(q, script);
        case SubscriptionPlan => resp := CreateSubscriptionServiceInstance(q, script);
        case UnknownPlan(_) => resp := Refused(InvalidPlan);
      }
    }

    /** The early answer, if the instance exists or cannot be looked up. */
    method CheckInstanceWithAttributes(q: Request, a: Answer) returns (answer: Option<Response>)
      requires WellFormed(q)
      ensures var m := StartProvision(Stores(), q, a);
        answer == if m.pc.Done? then Some(m.pc.response) else None
    {
      var row, ok := db.RetrieveInstance(q.id, a.Okay?);
      if !ok {
        return Some(Refused(Internal(QueryInstance)));
      }
      if row.Some? {
        if q.params.hash == row.value.hash && q.space == row.value.space && q.org == row.value.org {
          return Some(AlreadyProvisioned);
        }
        return Some(Refused(InstanceAlreadyExists));
      }
      return None;
    }

    method CreateApiServiceInstance(q: Request, answers: seq<Answer>) returns (resp: Response)
      requires q.Provision? && q.plan.ApiPlan? && ValidSpaceOrg(q.space, q.org) && |answers| >= 5
      modifies db, apim
      ensures Move(Stores(), Done(resp)) == Alone(old(Stores()), q, Start, answers)
    {
      if !q.params.Valid? {
        return Refused(ParamsFailure(q.params).value);
      }
      var early := CheckInstanceWithAttributes(q, answers[0]);
      if early.Some? {
        return early.value;
      }
      assert Alone(Stores(), q, Start, answers) == Alone(Stores(), q, Creating, answers[1..]);
      var id := apim.CreateResource(Api, answers[1]);
      if id.None? {
        LastCall(old(Stores()), q, Creating, answers[1..]);
        return Refused(Internal(CreateResource(HasStatus(answers[1], CONFLICT))));
      }
      assert Alone(old(Stores()), q, Creating, answers[1..]) == Alone(Stores(), q, Publishing(id.value), answers[1..][1..]);
      assert answers[1..][1..] == answers[2..];
      var failure := PublishApi(q, id.value, answers[2..]);
      if failure.Some? {
        return Refused(failure.value);
      }
      assert answers[2..][1..] == answers[3..];
      resp := StoreServiceInstance(q, id.value, answers[3..]);
    }

    /** Publishes, or deletes the API it could not publish. */
    method PublishApi(q: Request, r: ResourceId, answers: seq<Answer>) returns (failure: Option<Failure>)
      requires WellFormed(q) && q.plan.ApiPlan? && |answers| >= 2
      modifies apim
      ensures failure.None? ==> Stores() == old(Stores())
      ensures failure.None? ==>
        Alone(old(Stores()), q, Publishing(r), answers) == Alone(Stores(), q, StoringRow(r), answers[1..])
      ensures failure.Some? ==>
        Move(Stores(), Done(Refused(failure.value))) == Alone(old(Stores()), q, Publishing(r), answers)
    {
      if !answers[0].Okay? {
        assert Alone(Stores(), q, Publishing(r), answers)
            == Alone(Stores(), q, CleaningUp(r, Internal(Action.PublishApi)), answers[1..]);
        LastCall(Stores(), q, CleaningUp(r, Internal(Action.PublishApi)), answers[1..]);
        var deleted := apim.DeleteResource(Api, r, answers[1]);
        return Some(Internal(Action.PublishApi));
      }
      return None;
    }

    /** Stores the row, or deletes the resource it could not store. */
    method StoreServiceInstance(q: Request, r: ResourceId, answers: seq<Answer>) returns (resp: Response)
      requires WellFormed(q) && |answers| >= 2
      modifies db, apim
      ensures Move(Stores(), Done(resp)) == Alone(old(Stores()), q, StoringRow(r), answers)
    {
      var stored := db.InsertInstance(q.id, RowOf(q, r), answers[0].Okay?);
      if !stored {
        assert Alone(old(Stores()), q, StoringRow(r), answers)
            == Alone(Stores(), q, CleaningUp(r, Internal(StoreInstanceRow)), answers[1..]);
        LastCall(Stores(), q, CleaningUp(r, Internal(StoreInstanceRow)), answers[1..]);
        var deleted := apim.DeleteResource(KindOf(q.plan), r, answers[1]);
        return Refused(Internal(StoreInstanceRow));
      }
      return Provisioned(r);
    }

    method CreateAppServiceInstance(q: Request, answers: seq<Answer>) returns (resp: Response)
      requires q.Provision? && q.plan.ApplicationPlan? && ValidSpaceOrg(q.space, q.org) && |answers| >= 4
      modifies db, apim
      ensures Move(Stores(), Done(resp)) == Alone(old(Stores()), q, Start, answers)
    {
      if !q.params.Valid? {
        return Refused(ParamsFailure(q.params).value);
      }
      var early := CheckInstanceWithAttributes(q, answers[0]);
      if early.Some? {
        return early.value;
      }
      assert Alone(Stores(), q, Start, answers) == Alone(Stores(), q, Creating, answers[1..]);
      var id := apim.CreateResource(Application, answers[1]);
      if id.None? {
        LastCall(old(Stores()), q, Creating, answers[1..]);
        return Refused(Internal(CreateResource(HasStatus(answers[1], CONFLICT))));
      }
      assert Alone(old(Stores()), q, Creating, answers[1..]) == Alone(Stores(), q, StoringRow(id.value), answers[1..][1..]);
      assert answers[1..][1..] == answers[2..];
      resp := StoreServiceInstance(q, id.value, answers[2..]);
    }

    method CreateSubscriptionServiceInstance(q: Request, answers: seq<Answer>) returns (resp: Response)
      requires q.Provision? && q.plan.SubscriptionPlan? && ValidSpaceOrg(q.space, q.org) && |answers| >= 6
      modifies db, apim
      ensures Move(Stores(), Done(resp)) == Alone(old(Stores()), q, Start, answers)
    {
      if !q.params.Valid? {
        return Refused(ParamsFailure(q.params).value);
      }
      var early := CheckInstanceWithAttributes(q, answers[0]);
      if early.Some? {
        return early.value;
      }
      assert Alone(Stores(), q, Start, answers) == Alone(Stores(), q, Pc.SearchingApi, answers[1..]);
      if !answers[1].Id? {
        LastCall(Stores(), q, Pc.SearchingApi, answers[1..]);
        return Refused(Internal(Action.SearchApi));
      }
      assert Alone(Stores(), q, Pc.SearchingApi, answers[1..]) == Alone(Stores(), q, Pc.SearchingApp, answers[1..][1..]);
      assert answers[1..][1..] == answers[2..];
      if !answers[2].Id? {
        LastCall(Stores(), q, Pc.SearchingApp, answers[2..]);
        return Refused(Internal(Action.SearchApplication));
      }
      assert Alone(Stores(), q, Pc.SearchingApp, answers[2..]) == Alone(Stores(), q, Creating, answers[2..][1..]);
      assert answers[2..][1..] == answers[3..];
      var id := apim.CreateResource(Subscription, answers[3]);
      if id.None? {
        LastCall(old(Stores()), q, Creating, answers[3..]);
        return Refused(Internal(CreateSubscription));
      }
      assert Alone(old(Stores()), q, Creating, answers[3..]) == Alone(Stores(), q, StoringRow(id.value), answers[3..][1..]);
      assert answers[3..][1..] == answers[4..];
      resp := StoreServiceInstance(q, id.value, answers[4..]);
    }

    // -------------------------------------------------------------- Deprovision

    method Deprovision(q: Request, script: Script) returns (resp: Response)
      requires q.Deprovision?
      modifies db, apim
      ensures Move(Stores(), Done(resp)) == Alone(old(Stores()), q, Start, script)
    {
      match q.plan {
        case ApiPlan => resp := DeleteService(q, Api, script);
        case ApplicationPlan => resp := DeleteService(q, Application, script);
        case SubscriptionPlan => resp := DeleteService(q, Subscription, script);
        case UnknownPlan(_) => resp := Refused(InvalidPlan);
      }
    }

    method GetInstanceFromDB(id: InstanceId, a: Answer) returns (row: Option<Instance>, failure: Failure)
      ensures row.Some? <==> a.Okay? && id in db.instances
      ensures row.Some? ==> row.value == db.instances[id]
      ensures row.None? ==> failure == if a.Okay? then InstanceDoesNotExist else Internal(QueryInstance)
    {
      var ok;
      row, ok := db.RetrieveInstance(id, a.Okay?);
      failure := if ok then InstanceDoesNotExist else Internal(QueryInstance);
    }

    method DeleteService(q: Request, kind: Kind, answers: seq<Answer>) returns (resp: Response)
      requires q.Deprovision? && Known(q.plan) && KindOf(q.plan) == kind && |answers| >= 3
      modifies db, apim
      ensures Move(Stores(), Done(resp)) == Alone(old(Stores()), q, Start, answers)
    {
      var row, failure := GetInstanceFromDB(q.id, answers[0]);
      if row.None? {
        return Refused(failure);
      }
      assert Alone(Stores(), q, Start, answers) == Alone(Stores(), q, RemovingResource(row.value), answers[1..]);
      var removed := apim.DeleteResource(kind, row.value.resource, answers[1]);
      if !removed {
        LastCall(old(Stores()), q, RemovingResource(row.value), answers[1..]);
        return Refused(Internal(Action.DeleteResource));
      }
      assert Alone(old(Stores()), q, RemovingResource(row.value), answers[1..])
          == Alone(Stores(), q, RemovingRow(row.value), answers[1..][1..]);
      assert answers[1..][1..] == answers[2..];
      LastCall(Stores(), q, RemovingRow(row.value), answers[2..]);
      var deleted := db.RemoveInstance(q.id, answers[2].Okay?);
      resp := if deleted then Deprovisioned else Refused(Internal(DeleteInstanceRow));
    }

    // -------------------------------------------------------------- Bind and Unbind

    method Bind(q: Request, script: Script) returns (resp: Response)
      requires q.Bind?
      modifies db
      ensures Move(Stores(), Done(resp)) == Alone(old(Stores()), q, Start, script)
    {
      if !q.plan.ApplicationPlan? {
        return Refused(InvalidPlan);
      }
      var bind, ok := db.RetrieveBind(q.binding, script[0].Okay?);
      if !ok {
        return Refused(Internal(GetBind));
      }
      var same := false;
      if bind.Some? {
        same := IsBindWithAttributes(bind.value, q);
        if !same {
          return Refused(BindingAlreadyExists);
        }
      }
      if IsCreateServiceKey(q.app) {
        assert Alone(Stores(), q, Start, script) == Alone(Stores(), q, Naming(same), script[1..]);
        if !script[1].Uuid? {
          LastCall(Stores(), q, Naming(same), script[1..]);
          return Refused(Internal(GenerateUuid));
        }
        assert Alone(Stores(), q, Naming(same), script[1..]) == Alone(Stores(), q, ReadingInstance(same, script[1].uuid), script[1..][1..]);
        assert script[1..][1..] == script[2..];
        resp := BindToInstance(q, same, script[1].uuid, script[2..]);
      } else {
        assert Alone(Stores(), q, Start, script) == Alone(Stores(), q, ReadingInstance(same, q.app.value), script[1..]);
        resp := BindToInstance(q, same, q.app.value, script[1..]);
      }
    }

    method BindToInstance(q: Request, same: bool, platformApp: string, answers: seq<Answer>) returns (resp: Response)
      requires q.Bind? && |answers| >= 5
      modifies db
      ensures Move(Stores(), Done(resp)) == Alone(old(Stores()), q, ReadingInstance(same, platformApp), answers)
    {
      var row, failure := GetInstanceFromDB(q.id, answers[0]);
      if row.None? {
        return Refused(failure);
      }
      var r := row.value.resource;
      assert Alone(Stores(), q, ReadingInstance(same, platformApp), answers)
          == Alone(Stores(), q, ReadingApplication(same, platformApp, r), answers[1..]);
      var application, ok := db.RetrieveApplication(r, answers[1].Okay?);
      if !ok {
        LastCall(Stores(), q, ReadingApplication(same, platformApp, r), answers[1..]);
        return Refused(Internal(GetApplication));
      }
      var keys := if application.Some? then application.value else NO_KEYS;
      if same {
        LastCall(Stores(), q, ReadingApplication(same, platformApp, r), answers[1..]);
        return Bound(r, keys, true);
      }
      if application.None? {
        assert Alone(Stores(), q, ReadingApplication(same, platformApp, r), answers[1..])
            == Alone(Stores(), q, GeneratingKeys(platformApp, r), answers[1..][1..]);
        assert answers[1..][1..] == answers[2..];
        var init, initFailure := InitApplication(q, platformApp, r, answers[2..]);
        if init.None? {
          return Refused(initFailure);
        }
        keys := init.value;
        assert answers[2..][2..] == answers[4..];
        resp := StoreBinding(q, platformApp, r, keys, answers[4..]);
      } else {
        assert Alone(Stores(), q, ReadingApplication(same, platformApp, r), answers[1..])
            == Alone(Stores(), q, StoringBind(platformApp, r, keys), answers[1..][1..]);
        assert answers[1..][1..] == answers[2..];
        resp := StoreBinding(q, platformApp, r, keys, answers[2..]);
      }
    }

    /** Generates keys for the application and stores them, on its first binding. */
    method InitApplication(q: Request, platformApp: string, r: ResourceId, answers: seq<Answer>)
      returns (keys: Option<Keys>, failure: Failure)
      requires q.Bind? && |answers| >= 2
      modifies db
      ensures keys.Some? ==>
        Alone(old(Stores()), q, GeneratingKeys(platformApp, r), answers)
        == Alone(Stores(), q, StoringBind(platformApp, r, keys.value), answers[2..])
      ensures keys.None? ==>
        Move(Stores(), Done(Refused(failure))) == Alone(old(Stores()), q, GeneratingKeys(platformApp, r), answers)
    {
      failure := Internal(Action.GenerateKeys);
      if !answers[0].Keyed? {
        LastCall(Stores(), q, GeneratingKeys(platformApp, r), answers);
        return None, failure;
      }
      var generated := answers[0].keys;
      assert Alone(Stores(), q, GeneratingKeys(platformApp, r), answers)
          == Alone(Stores(), q, StoringKeys(platformApp, r, generated), answers[1..]);
      var stored := db.InsertApplication(r, generated, answers[1].Okay?);
      if !stored {
        LastCall(old(Stores()), q, StoringKeys(platformApp, r, generated), answers[1..]);
        return None, Internal(StoreApplicationRow);
      }
      assert Alone(old(Stores()), q, StoringKeys(platformApp, r, generated), answers[1..])
          == Alone(Stores(), q, StoringBind(platformApp, r, generated), answers[1..][1..]);
      assert answers[1..][1..] == answers[2..];
      return Some(generated), failure;
    }

    method StoreBinding(q: Request, platformApp: string, r: ResourceId, keys: Keys, answers: seq<Answer>) returns (resp: Response)
      requires q.Bind? && |answers| >= 1
      modifies db
      ensures Move(Stores(), Done(resp)) == Alone(old(Stores()), q, StoringBind(platformApp, r, keys), answers)
    {
      var row := BindRow(q.id, platformApp, q.service, q.plan, IsCreateServiceKey(q.app));
      var stored := db.InsertBind(q.binding, row, answers[0].Okay?);
      if !stored {
        return Refused(Internal(StoreBindRow));
      }
      return Bound(r, keys, false);
    }

    method Unbind(q: Request, script: Script) returns (resp: Response)
      requires q.Unbind?
      modifies db
      ensures Move(Stores(), Done(resp)) == Alone(old(Stores()), q, Start, script)
    {
      if !q.plan.ApplicationPlan? {
        return Refused(InvalidPlan);
      }
      var bind, ok := db.RetrieveBind(q.binding, script[0].Okay?);
      if !ok {
        return Refused(Internal(GetBind));
      }
      if bind.None? {
        return Refused(BindingDoesNotExist);
      }
      assert Alone(Stores(), q, Start, script) == Alone(Stores(), q, RemovingBind, script[1..]);
      LastCall(Stores(), q, RemovingBind, script[1..]);
      var deleted := db.RemoveBind(q.binding, script[1].Okay?);
      resp := if deleted then Unbound else Refused(Internal(DeleteBindRow));
    }

    // -------------------------------------------------------------- Update

    method Update(q: Request, script: Script) returns (resp: Response)
      requires q.Update?
      ensures Move(Stores(), Done(resp)) == Alone(Stores(), q, Start, script)
    {
      match q.plan {
        case ApiPlan => resp := UpdateService(q, script);
        case ApplicationPlan => resp := UpdateService(q, script);
        case SubscriptionPlan => resp := Refused(NotSupported);
        case UnknownPlan(_) => resp := Refused(InvalidPlan);
      }
    }

    method UpdateService(q: Request, answers: seq<Answer>) returns (resp: Response)
      requires q.Update? && (q.plan.ApiPlan? || q.plan.ApplicationPlan?) && |answers| >= 2
      ensures Move(Stores(), Done(resp)) == Alone(Stores(), q, Start, answers)
    {
      var row, failure := GetInstanceFromDB(q.id, answers[0]);
      if row.None? {
        return Refused(failure);
      }
      if !q.params.Valid? {
        return Refused(ParamsFailure(q.params).value);
      }
      assert Alone(Stores(), q, Start, answers) == Alone(Stores(), q, UpdatingResource(row.value), answers[1..]);
      LastCall(Stores(), q, UpdatingResource(row.value), answers[1..]);
      if !answers[1].Okay? {
        return Refused(UpdateFailure(q.plan, answers[1]));
      }
      return Updated;
    }
  }
}
