/** The broker's relational store: three tables, their keys and their foreign keys. */
module Tables {
  import opened Domain

  datatype Tables = Tables(instances: map<InstanceId, Instance>,
                           applications: map<ResourceId, Keys>,
                           binds: map<BindingId, BindRow>)

  const EMPTY := Tables(map[], map[], map[])

  /** The outcome of a statement: the tables after it, and whether it succeeded. */
  datatype Result = Result(tables: Tables, ok: bool)

  predicate References(t: Tables, r: ResourceId) {
    exists id :: id in t.instances && t.instances[id].resource == r
  }

  predicate HasBinding(t: Tables, id: InstanceId) {
    exists b :: b in t.binds && t.binds[b].instance == id
  }

  /** INSERT: refused by the primary key, or by the unique resource id. */
  function StoreInstance(t: Tables, id: InstanceId, row: Instance, up: bool): Result {
    if up && id !in t.instances && !References(t, row.resource)
    then Result(t.(instances := t.instances[id := row]), true)
    else Result(t, false)
  }

  /** INSERT: refused by the primary key, or by the foreign key to an instance's resource id. */
  function StoreApplication(t: Tables, r: ResourceId, keys: Keys, up: bool): Result {
    if up && r !in t.applications && References(t, r)
    then Result(t.(applications := t.applications[r := keys]), true)
    else Result(t, false)
  }

  /** INSERT: refused by the primary key, or by the foreign key to an instance. */
  function StoreBind(t: Tables, b: BindingId, row: BindRow, up: bool): Result {
    if up && b !in t.binds && row.instance in t.instances
    then Result(t.(binds := t.binds[b := row]), true)
    else Result(t, false)
  }

  /**
   * DELETE by primary key: bindings RESTRICT it, the application row CASCADEs, and deleting an
   * absent row succeeds without effect.
   */
  function DeleteInstance(t: Tables, id: InstanceId, up: bool): Result {
    if !up || HasBinding(t, id) then Result(t, false)
    else if id !in t.instances then Result(t, true)
    else Result(t.(instances := t.instances - {id},
                   applications := t.applications - {t.instances[id].resource}), true)
  }

  /** DELETE by primary key: deleting an absent row succeeds without effect. */
  function DeleteBind(t: Tables, b: BindingId, up: bool): Result {
    if up then Result(t.(binds := t.binds - {b}), true) else Result(t, false)
  }

  /** What the declared constraints promise of every database state. */
  ghost predicate Integrity(t: Tables) {
    && (forall i, j :: i in t.instances && j in t.instances && i != j
                       ==> t.instances[i].resource != t.instances[j].resource)
    && (forall r :: r in t.applications ==> References(t, r))
    && (forall b :: b in t.binds ==> t.binds[b].instance in t.instances)
  }

  /** Growing the instances, or shrinking the applications, keeps every application referenced. */
  lemma ReferencesFollow(t: Tables, u: Tables)
    requires forall r :: r in t.applications ==> References(t, r)
    requires u.applications.Keys <= t.applications.Keys
    requires forall id :: id in t.instances && t.instances[id].resource in u.applications
                          ==> id in u.instances && u.instances[id] == t.instances[id]
    ensures forall r :: r in u.applications ==> References(u, r)
  {
    forall r | r in u.applications ensures References(u, r) {
      var id :| id in t.instances && t.instances[id].resource == r;
      assert id in u.instances && u.instances[id].resource == r;
    }
  }

  lemma StoreInstanceKeepsIntegrity(t: Tables, id: InstanceId, row: Instance, up: bool)
    requires Integrity(t)
    ensures Integrity(StoreInstance(t, id, row, up).tables)
  {
    if StoreInstance(t, id, row, up).ok {
      ReferencesFollow(t, StoreInstance(t, id, row, up).tables);
    }
  }

  lemma StoreApplicationKeepsIntegrity(t: Tables, r: ResourceId, keys: Keys, up: bool)
    requires Integrity(t)
    ensures Integrity(StoreApplication(t, r, keys, up).tables)
  {
    var u := StoreApplication(t, r, keys, up).tables;
    forall q | q in u.applications ensures References(u, q) {
      assert References(t, q);
    }
  }

  lemma StoreBindKeepsIntegrity(t: Tables, b: BindingId, row: BindRow, up: bool)
    requires Integrity(t)
    ensures Integrity(StoreBind(t, b, row, up).tables)
  {
    ReferencesFollow(t, StoreBind(t, b, row, up).tables);
  }

  /** Needs both foreign-key rules: without CASCADE or RESTRICT a child row would dangle. */
  lemma DeleteInstanceKeepsIntegrity(t: Tables, id: InstanceId, up: bool)
    requires Integrity(t)
    ensures Integrity(DeleteInstance(t, id, up).tables)
  {
    ReferencesFollow(t, DeleteInstance(t, id, up).tables);
  }

  lemma DeleteBindKeepsIntegrity(t: Tables, b: BindingId, up: bool)
    requires Integrity(t)
    ensures Integrity(DeleteBind(t, b, up).tables)
  {
    ReferencesFollow(t, DeleteBind(t, b, up).tables);
  }

  /** The database connection: the tables live in its fields and every statement updates them. */
  class Database {
    var instances: map<InstanceId, Instance>
    var applications: map<ResourceId, Keys>
    var binds: map<BindingId, BindRow>

    function Contents(): (t: Tables)
      reads this
    {
      Tables(instances, applications, binds)
    }

    /** Creating the three tables and their foreign keys. */
    constructor ()
      ensures Contents() == EMPTY
    {
      instances, applications, binds := map[], map[], map[];
    }

    method RetrieveInstance(id: InstanceId, up: bool) returns (row: Option<Instance>, ok: bool)
      ensures ok == up
      ensures row == if up && id in instances then Some(instances[id]) else None
    {
      ok := up;
      row := if up && id in instances then Some(instances[id]) else None;
    }

    method RetrieveApplication(r: ResourceId, up: bool) returns (row: Option<Keys>, ok: bool)
      ensures ok == up
      ensures row == if up && r in applications then Some(applications[r]) else None
    {
      ok := up;
      row := if up && r in applications then Some(applications[r]) else None;
    }

    method RetrieveBind(b: BindingId, up: bool) returns (row: Option<BindRow>, ok: bool)
      ensures ok == up
      ensures row == if up && b in binds then Some(binds[b]) else None
    {
      ok := up;
      row := if up && b in binds then Some(binds[b]) else None;
    }

    method InsertInstance(id: InstanceId, row: Instance, up: bool) returns (ok: bool)
      modifies this
      ensures Result(Contents(), ok) == StoreInstance(old(Contents()), id, row, up)
    {
      ok := up && id !in instances && forall k :: k in instances ==> instances[k].resource != row.resource;
      if ok {
        instances := instances[id := row];
      }
    }

    method InsertApplication(r: ResourceId, keys: Keys, up: bool) returns (ok: bool)
      modifies this
      ensures Result(Contents(), ok) == StoreApplication(old(Contents()), r, keys, up)
    {
      ok := up && r !in applications && exists k :: k in instances && instances[k].resource == r;
      if ok {
        applications := applications[r := keys];
      }
    }

    method InsertBind(b: BindingId, row: BindRow, up: bool) returns (ok: bool)
      modifies this
      ensures Result(Contents(), ok) == StoreBind(old(Contents()), b, row, up)
    {
      ok := up && b !in binds && row.instance in instances;
      if ok {
        binds := binds[b := row];
      }
    }

    method RemoveInstance(id: InstanceId, up: bool) returns (ok: bool)
      modifies this
      ensures Result(Contents(), ok) == DeleteInstance(old(Contents()), id, up)
    {
      ok := up && forall b :: b in binds ==> binds[b].instance != id;
      if ok && id in instances {
        applications := applications - {instances[id].resource};
        instances := instances - {id};
      }
    }

    method RemoveBind(b: BindingId, up: bool) returns (ok: bool)
      modifies this
      ensures Result(Contents(), ok) == DeleteBind(old(Contents()), b, up)
    {
      ok := up;
      if ok {
        binds := binds - {b};
      }
    }
  }
}
