/**
 * The five Open Service Broker requests, one external call at a time. A request is a program
 * counter with its locals; Exec takes it over its next call to the database, to API-M or to the
 * UUID generator, together with the local code up to the call after it.
 */
module Requests {
  import opened Domain
  import opened Tables
  import opened ApiManager

  /** What validation makes of the raw parameters; the hash is the stream fed to the digest. */
  datatype Params = Missing | Malformed | Incomplete | Valid(hash: Bytes)

  datatype Request =
    | Provision(id: InstanceId, service: string, plan: Plan, space: string, org: string, params: Params)
    | Deprovision(id: InstanceId, plan: Plan)
    | Bind(id: InstanceId, binding: BindingId, service: string, plan: Plan, app: Option<string>)
    | Unbind(id: InstanceId, binding: BindingId, plan: Plan)
    | Update(id: InstanceId, plan: Plan, params: Params)

  datatype Failure =
    | InvalidSpaceOrOrg
    | InvalidPlan
    | RawParamsInvalid
    | InvalidParams
    | NotSupported
    | InstanceAlreadyExists
    | InstanceDoesNotExist
    | BindingAlreadyExists
    | BindingDoesNotExist
    | Internal(action: Action)

  datatype Action =
    | QueryInstance | CreateResource(conflict: bool) | PublishApi | SearchApi | SearchApplication
    | CreateSubscription | StoreInstanceRow | DeleteResource | DeleteInstanceRow
    | GetBind | GenerateUuid | GetApplication | GenerateKeys | StoreApplicationRow | StoreBindRow
    | DeleteBindRow | UpdateResource(notFound: bool)

  /** The resource named by a success is bookkeeping; the platform sees only the rest. */
  datatype Response =
    | Provisioned(resource: ResourceId)
    | AlreadyProvisioned
    | Deprovisioned
    | Bound(resource: ResourceId, keys: Keys, alreadyExists: bool)
    | Unbound
    | Updated
    | Refused(failure: Failure)

  datatype Pc =
    | Start
    // Provision
    | SearchingApi
    | SearchingApp
    | Creating
    | Publishing(resource: ResourceId)
    | StoringRow(resource: ResourceId)
    | CleaningUp(resource: ResourceId, failure: Failure)
    // Deprovision
    | RemovingResource(row: Instance)
    | RemovingRow(row: Instance)
    // Bind
    | Naming(same: bool)
    | ReadingInstance(same: bool, platformApp: string)
    | ReadingApplication(same: bool, platformApp: string, resource: ResourceId)
    | GeneratingKeys(platformApp: string, resource: ResourceId)
    | StoringKeys(platformApp: string, resource: ResourceId, keys: Keys)
    | StoringBind(platformApp: string, resource: ResourceId, keys: Keys)
    // Unbind
    | RemovingBind
    // Update
    | UpdatingResource(row: Instance)
    | Done(response: Response)

  /** Everything that outlives a request. */
  datatype Sys = Sys(db: Tables, apim: Remote)

  datatype Move = Move(sys: Sys, pc: Pc)

  /** The row of instance `id` names resource `r`. */
  predicate Names(s: Sys, id: InstanceId, r: ResourceId) {
    id in s.db.instances && s.db.instances[id].resource == r
  }

  function Refuse(s: Sys, f: Failure): Move {
    Move(s, Done(Refused(f)))
  }

  function Respond(s: Sys, r: Response): Move {
    Move(s, Done(r))
  }

  /** The outcome of the parameter checks, in the order the handlers make them. */
  function ParamsFailure(p: Params): Option<Failure> {
    match p
    case Missing => Some(RawParamsInvalid)
    case Malformed => Some(InvalidParams)
    case Incomplete => Some(InvalidParams)
    case Valid(_) => None
  }

  predicate ValidSpaceOrg(space: string, org: string) {
    space != "" && org != ""
  }

  /** A valid Provision: one that gets as far as looking up its instance. */
  predicate WellFormed(q: Request) {
    q.Provision? && ValidSpaceOrg(q.space, q.org) && Known(q.plan) && q.params.Valid?
  }

  /** The row a Provision stores for the resource it created. */
  function RowOf(q: Request, r: ResourceId): Instance
    requires WellFormed(q)
  {
    Instance(q.service, q.plan, r, q.params.hash, q.space, q.org)
  }

  predicate SameAttributes(q: Request, row: Instance)
    requires WellFormed(q)
  {
    q.params.hash == row.hash && q.space == row.space && q.org == row.org
  }

  function StartProvision(s: Sys, q: Request, a: Answer): Move
    requires q.Provision?
  {
    if !ValidSpaceOrg(q.space, q.org) then Refuse(s, InvalidSpaceOrOrg)
    else if !Known(q.plan) then Refuse(s, InvalidPlan)
    else if ParamsFailure(q.params).Some? then Refuse(s, ParamsFailure(q.params).value)
    else if !a.Okay? then Refuse(s, Internal(QueryInstance))
    else if q.id in s.db.instances then
      if SameAttributes(q, s.db.instances[q.id]) then Respond(s, AlreadyProvisioned)
      else Refuse(s, InstanceAlreadyExists)
    else Move(s, if q.plan.SubscriptionPlan? then SearchingApi else Creating)
  }

  function CreateFailure(plan: Plan, a: Answer): Failure {
    if plan.SubscriptionPlan? then Internal(CreateSubscription)
    else Internal(CreateResource(HasStatus(a, CONFLICT)))
  }

  function ExecProvision(s: Sys, q: Request, pc: Pc, a: Answer): Move
    requires q.Provision?
  {
    match pc
    case Start => StartProvision(s, q, a)
    case SearchingApi => if a.Id? then Move(s, SearchingApp) else Refuse(s, Internal(SearchApi))
    case SearchingApp => if a.Id? then Move(s, Creating) else Refuse(s, Internal(SearchApplication))
    case Creating =>
      if !Known(q.plan) || !Creates(s.apim, a) then Refuse(s, CreateFailure(q.plan, a))
      else Move(s.(apim := Create(s.apim, KindOf(q.plan), a)),
                if q.plan.ApiPlan? then Publishing(a.id) else StoringRow(a.id))
    case Publishing(r) =>
      Move(s, if a.Okay? then StoringRow(r) else CleaningUp(r, Internal(PublishApi)))
    case StoringRow(r) =>
      if !WellFormed(q) then Move(s, pc)
      else
        var stored := StoreInstance(s.db, q.id, RowOf(q, r), a.Okay?);
        Move(s.(db := stored.tables),
             if stored.ok then Done(Provisioned(r)) else CleaningUp(r, Internal(StoreInstanceRow)))
    case CleaningUp(r, f) =>
      if !Known(q.plan) then Move(s, pc)
      else Refuse(s.(apim := Delete(s.apim, KindOf(q.plan), r, a)), f)
    case _ => Move(s, pc)
  }

  function ExecDeprovision(s: Sys, q: Request, pc: Pc, a: Answer): Move
    requires q.Deprovision?
  {
    match pc
    case Start =>
      if !Known(q.plan) then Refuse(s, InvalidPlan)
      else if !a.Okay? then Refuse(s, Internal(QueryInstance))
      else if q.id !in s.db.instances then Refuse(s, InstanceDoesNotExist)
      else Move(s, RemovingResource(s.db.instances[q.id]))
    case RemovingResource(row) =>
      if !Known(q.plan) || !Deletes(s.apim, KindOf(q.plan), row.resource, a)
      then Refuse(s, Internal(DeleteResource))
      else Move(s.(apim := Delete(s.apim, KindOf(q.plan), row.resource, a)), RemovingRow(row))
    case RemovingRow(row) =>
      var deleted := DeleteInstance(s.db, q.id, a.Okay?);
      Move(s.(db := deleted.tables),
           Done(if deleted.ok then Deprovisioned else Refused(Internal(DeleteInstanceRow))))
    case _ => Move(s, pc)
  }

  predicate IsCreateServiceKey(app: Option<string>) {
    app.None? || app.value == ""
  }

  predicate IsBindWithAttributes(row: BindRow, q: Request)
    requires q.Bind?
  {
    q.id == row.instance && (IsCreateServiceKey(q.app) || q.app.value == row.platformApp)
  }

  function ExecBind(s: Sys, q: Request, pc: Pc, a: Answer): Move
    requires q.Bind?
  {
    match pc
    case Start =>
      if !q.plan.ApplicationPlan? then Refuse(s, InvalidPlan)
      else if !a.Okay? then Refuse(s, Internal(GetBind))
      else if q.binding in s.db.binds && !IsBindWithAttributes(s.db.binds[q.binding], q)
      then Refuse(s, BindingAlreadyExists)
      else
        var same := q.binding in s.db.binds;
        Move(s, if IsCreateServiceKey(q.app) then Naming(same) else ReadingInstance(same, q.app.value))
    case Naming(same) =>
      if a.Uuid? then Move(s, ReadingInstance(same, a.uuid)) else Refuse(s, Internal(GenerateUuid))
    case ReadingInstance(same, platformApp) =>
      if !a.Okay? then Refuse(s, Internal(QueryInstance))
      else if q.id !in s.db.instances then Refuse(s, InstanceDoesNotExist)
      else Move(s, ReadingApplication(same, platformApp, s.db.instances[q.id].resource))
    case ReadingApplication(same, platformApp, r) =>
      if !a.Okay? then Refuse(s, Internal(GetApplication))
      else
        var keys := if r in s.db.applications then s.db.applications[r] else NO_KEYS;
        Move(s, if same then Done(Bound(r, keys, true))
                else if r in s.db.applications then StoringBind(platformApp, r, keys)
                else GeneratingKeys(platformApp, r))
    case GeneratingKeys(platformApp, r) =>
      if a.Keyed? then Move(s, StoringKeys(platformApp, r, a.keys)) else Refuse(s, Internal(GenerateKeys))
    case StoringKeys(platformApp, r, keys) =>
      var stored := StoreApplication(s.db, r, keys, a.Okay?);
      Move(s.(db := stored.tables),
           if stored.ok then StoringBind(platformApp, r, keys)
           else Done(Refused(Internal(StoreApplicationRow))))
    case StoringBind(platformApp, r, keys) =>
      var row := BindRow(q.id, platformApp, q.service, q.plan, IsCreateServiceKey(q.app));
      var stored := StoreBind(s.db, q.binding, row, a.Okay?);
      Move(s.(db := stored.tables),
           Done(if stored.ok then Bound(r, keys, false) else Refused(Internal(StoreBindRow))))
    case _ => Move(s, pc)
  }

  function ExecUnbind(s: Sys, q: Request, pc: Pc, a: Answer): Move
    requires q.Unbind?
  {
    match pc
    case Start =>
      if !q.plan.ApplicationPlan? then Refuse(s, InvalidPlan)
      else if !a.Okay? then Refuse(s, Internal(GetBind))
      else if q.binding !in s.db.binds then Refuse(s, BindingDoesNotExist)
      else Move(s, RemovingBind)
    case RemovingBind =>
      var deleted := DeleteBind(s.db, q.binding, a.Okay?);
      Move(s.(db := deleted.tables),
           Done(if deleted.ok then Unbound else Refused(Internal(DeleteBindRow))))
    case _ => Move(s, pc)
  }

  /** An application update passes the wrong error on, so only API updates report a missing resource. */
  function UpdateFailure(plan: Plan, a: Answer): Failure {
    Internal(UpdateResource(plan.ApiPlan? && HasStatus(a, NOT_FOUND)))
  }

  function ExecUpdate(s: Sys, q: Request, pc: Pc, a: Answer): Move
    requires q.Update?
  {
    match pc
    case Start =>
      if q.plan.SubscriptionPlan? then Refuse(s, NotSupported)
      else if !Known(q.plan) then Refuse(s, InvalidPlan)
      else if !a.Okay? then Refuse(s, Internal(QueryInstance))
      else if q.id !in s.db.instances then Refuse(s, InstanceDoesNotExist)
      else if ParamsFailure(q.params).Some? then Refuse(s, ParamsFailure(q.params).value)
      else Move(s, UpdatingResource(s.db.instances[q.id]))
    case UpdatingResource(row) =>
      if a.Okay? then Respond(s, Updated) else Refuse(s, UpdateFailure(q.plan, a))
    case _ => Move(s, pc)
  }

  function Exec(s: Sys, q: Request, pc: Pc, a: Answer): Move {
    match q
    case Provision(_, _, _, _, _, _) => ExecProvision(s, q, pc, a)
    case Deprovision(_, _) => ExecDeprovision(s, q, pc, a)
    case Bind(_, _, _, _, _) => ExecBind(s, q, pc, a)
    case Unbind(_, _, _) => ExecUnbind(s, q, pc, a)
    case Update(_, _, _) => ExecUpdate(s, q, pc, a)
  }
}
