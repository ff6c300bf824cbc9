/**
 * Any number of requests in flight at once. The server takes no lock between the calls of a
 * request, so a run is an arbitrary sequence of arrivals and single calls, each call answering as
 * it likes. The history is bookkeeping: no call reads it.
 */
module Interleaving {
  import opened Domain
  import opened Tables
  import opened ApiManager
  import opened Requests

  type Tid = nat

  datatype Thread = Thread(req: Request, pc: Pc)

  datatype History = History(
    creator: map<ResourceId, Tid>,       // the request that created a resource
    stored: map<ResourceId, InstanceId>, // the instance ID a resource was stored under, even if since deleted
    orphaned: set<ResourceId>,           // compensation failed: live, but in no row
    dangling: set<ResourceId>,           // the remote delete worked and the row delete failed
    issued: map<ResourceId, Keys>)       // the keys stored for an application, even if since deleted

  /** Counters over key generation: successful generations, and generations whose store failed. */
  datatype Tally = Tally(generated: multiset<ResourceId>, lost: multiset<ResourceId>)

  datatype World = World(sys: Sys, threads: map<Tid, Thread>, hist: History, tally: Tally)

  datatype Event = Arrive(tid: Tid, req: Request) | Call(tid: Tid, answer: Answer)

  const NO_HISTORY := History(map[], map[], {}, {}, map[])

  function Init(apim: Remote): World {
    World(Sys(EMPTY, apim), map[], NO_HISTORY, Tally(multiset{}, multiset{}))
  }

  function Record(h: History, tid: Tid, q: Request, pc: Pc, m: Move): History {
    match pc
    case Creating =>
      (match m.pc
       case Publishing(r) => h.(creator := h.creator[r := tid])
       case StoringRow(r) => h.(creator := h.creator[r := tid])
       case _ => h)
    case StoringRow(r) => if m.pc == Done(Provisioned(r)) then h.(stored := h.stored[r := q.id]) else h
    case CleaningUp(r, _) => if m.pc.Done? && r in m.sys.apim.live then h.(orphaned := h.orphaned + {r}) else h
    case RemovingRow(row) =>
      if m.pc.Done? && m.pc.response.Refused? then h.(dangling := h.dangling + {row.resource}) else h
    case StoringKeys(_, r, keys) => if m.pc.StoringBind? then h.(issued := h.issued[r := keys]) else h
    case _ => h
  }

  function Count(n: Tally, pc: Pc, next: Pc): Tally {
    match pc
    case GeneratingKeys(_, r) => if next.StoringKeys? then n.(generated := n.generated + multiset{r}) else n
    case StoringKeys(_, r, _) => if next.Done? then n.(lost := n.lost + multiset{r}) else n
    case _ => n
  }

  function Act(w: World, tid: Tid, a: Answer): World
    requires tid in w.threads
  {
    var t := w.threads[tid];
    var m := Exec(w.sys, t.req, t.pc, a);
    World(m.sys, w.threads[tid := Thread(t.req, m.pc)], Record(w.hist, tid, t.req, t.pc, m),
          Count(w.tally, t.pc, m.pc))
  }

  function Next(w: World, e: Event): World {
    match e
    case Arrive(tid, q) => if tid in w.threads then w else w.(threads := w.threads[tid := Thread(q, Start)])
    case Call(tid, a) => if tid in w.threads then Act(w, tid, a) else w
  }

  function After(w: World, events: seq<Event>): World {
    if events == [] then w else Next(After(w, events[..|events| - 1]), events[|events| - 1])
  }
}
