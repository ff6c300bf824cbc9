/** WSO2 API Manager as the broker sees it: a set of live resources and a supply of unused ids. */
module ApiManager {
  import opened Domain

  /** `used` holds every id ever given out, by the broker or by anyone else. */
  datatype Remote = Remote(live: map<ResourceId, Kind>, used: set<ResourceId>)

  ghost predicate Sane(m: Remote) {
    m.live.Keys <= m.used
  }

  /** What one remote or local call answers; a call reads only the variant it can return. */
  datatype Answer =
    | Failed(status: int)
    | Okay
    | Id(id: ResourceId)
    | Keyed(keys: Keys)
    | Uuid(uuid: string)

  const CONFLICT := 409
  const NOT_FOUND := 404

  predicate HasStatus(a: Answer, status: int) {
    a.Failed? && a.status == status
  }

  /** A create succeeds only with an id nobody has seen before. */
  predicate Creates(m: Remote, a: Answer) {
    a.Id? && a.id !in m.used
  }

  function Create(m: Remote, kind: Kind, a: Answer): Remote {
    if Creates(m, a) then Remote(m.live[a.id := kind], m.used + {a.id}) else m
  }

  /** A delete succeeds only on a live resource of the kind its endpoint serves. */
  predicate Deletes(m: Remote, kind: Kind, r: ResourceId, a: Answer) {
    a.Okay? && r in m.live && m.live[r] == kind
  }

  function Delete(m: Remote, kind: Kind, r: ResourceId, a: Answer): Remote {
    if Deletes(m, kind, r, a) then m.(live := m.live - {r}) else m
  }

  class Server {
    var live: map<ResourceId, Kind>
    var used: set<ResourceId>

    function Contents(): Remote
      reads this
    {
      Remote(live, used)
    }

    constructor (live: map<ResourceId, Kind>, used: set<ResourceId>)
      ensures Contents() == Remote(live, used)
    {
      this.live, this.used := live, used;
    }

    method CreateResource(kind: Kind, a: Answer) returns (id: Option<ResourceId>)
      modifies this
      ensures Contents() == Create(old(Contents()), kind, a)
      ensures id == if Creates(old(Contents()), a) then Some(a.id) else None
    {
      id := None;
      if a.Id? && a.id !in used {
        live, used := live[a.id := kind], used + {a.id};
        id := Some(a.id);
      }
    }

    method DeleteResource(kind: Kind, r: ResourceId, a: Answer) returns (ok: bool)
      modifies this
      ensures Contents() == Delete(old(Contents()), kind, r, a)
      ensures ok == Deletes(old(Contents()), kind, r, a)
    {
      ok := a.Okay? && r in live && live[r] == kind;
      if ok {
        live := live - {r};
      }
    }
  }
}
