/**
 * Any number of callers of Token(), a step at a time: one lock operation, one look at the stored
 * token, or one end of the remote call per step. Time passes in between.
 */
module TokenSteps {
  import opened Domain

  const MAX_DURATION := 0x7FFF_FFFF_FFFF_FFFF

  /** How long a token is still taken for good after its expiry. */
  const GRACE := 10 * SECOND

  datatype Token = Token(access: string, refresh: string, expires: int)

  /** What the token endpoint grants; the validity is in seconds. */
  datatype Grant = Grant(access: string, refresh: string, validity: int)

  datatype Reply = Denied | Granted(grant: Grant)

  predicate IsExpired(now: int, expires: int) {
    now - expires > GRACE
  }

  /** Parsing the validity fails when it overflows a 64-bit duration; the failure is ignored, and the duration zero. */
  function Duration(validity: int): int {
    if -MAX_DURATION <= validity * SECOND <= MAX_DURATION then validity * SECOND else 0
  }

  datatype Result = Returned(token: string) | Failed

  datatype Pc =
    | Start
    | Reading                // holds the read lock
    | Read(token: string)    // found it unexpired, about to release the read lock
    | SawExpired             // found it expired, about to release the read lock
    | WantsWrite             // holds nothing, about to ask for the write lock
    | Draining               // keeps new readers out, waits for the old ones
    | Writing                // holds the write lock
    | FoundFresh             // somebody else refreshed it, about to release the write lock
    | Released               // has released the write lock, about to read the token without it
    | Refreshing             // found it still expired, about to call the endpoint
    | Waiting                // the call is out
    | Storing(grant: Grant)
    | Stored(token: string)  // about to release the write lock
    | Failing                // about to release the write lock
    | Done(result: Result)

  type Cid = nat

  /** A write-preferring read/write lock: an announced writer keeps new readers out. */
  datatype Shared = Shared(token: Token, readers: set<Cid>, writer: Option<Cid>)

  datatype Move = Move(shared: Shared, pc: Pc)

  /** One step of caller `i`; a step that is blocked changes nothing. */
  function Exec(s: Shared, i: Cid, pc: Pc, now: int, reply: Reply): Move {
    match pc
    case Start => if s.writer.None? then Move(s.(readers := s.readers + {i}), Reading) else Move(s, pc)
    case Reading => Move(s, if IsExpired(now, s.token.expires) then SawExpired else Read(s.token.access))
    case Read(t) => Move(s.(readers := s.readers - {i}), Done(Returned(t)))
    case SawExpired => Move(s.(readers := s.readers - {i}), WantsWrite)
    case WantsWrite => if s.writer.None? then Move(s.(writer := Some(i)), Draining) else Move(s, pc)
    case Draining => Move(s, if s.readers == {} then Writing else pc)
    case Writing => Move(s, if IsExpired(now, s.token.expires) then Refreshing else FoundFresh)
    case FoundFresh => Move(s.(writer := None), Released)
    case Released => Move(s, Done(Returned(s.token.access)))
    case Refreshing => Move(s, Waiting)
    case Waiting => Move(s, if reply.Granted? then Storing(reply.grant) else Failing)
    case Storing(g) =>
      Move(s.(token := Token(g.access, g.refresh, now + Duration(g.validity))), Stored(g.access))
    case Stored(t) => Move(s.(writer := None), Done(Returned(t)))
    case Failing => Move(s.(writer := None), Done(Failed))
    case Done(_) => Move(s, pc)
  }

  predicate Blocked(s: Shared, pc: Pc) {
    match pc
    case Start => s.writer.Some?
    case WantsWrite => s.writer.Some?
    case Draining => s.readers != {}
    case _ => false
  }

  /** What the clock shows and the endpoint answers at one step. */
  datatype Moment = Moment(now: int, reply: Reply)

  /** The steps of one call with nobody else about, from the `k`-th moment of the script on. */
  function Alone(s: Shared, i: Cid, pc: Pc, script: seq<Moment>, k: nat): Move
    requires k <= |script|
    decreases |script| - k
  {
    if pc.Done? || k == |script| then Move(s, pc)
    else
      var m := Exec(s, i, pc, script[k].now, script[k].reply);
      Alone(m.shared, i, m.pc, script, k + 1)
  }

  lemma LastStep(s: Shared, i: Cid, pc: Pc, script: seq<Moment>, k: nat)
    requires !pc.Done? && k < |script| && Exec(s, i, pc, script[k].now, script[k].reply).pc.Done?
    ensures Alone(s, i, pc, script, k) == Exec(s, i, pc, script[k].now, script[k].reply)
  {
    var m := Exec(s, i, pc, script[k].now, script[k].reply);
    assert Alone(m.shared, i, m.pc, script, k + 1) == m;
  }

  // ---------------------------------------------------------------- runs, and what they leave behind

  /** What happened at the token endpoint and to the stored token. No step reads it. */
  datatype Entry =
    | Sent(refresh: string, at: int)
    | Answered(reply: Reply)
    | Kept(at: int)          // the latest grant became the stored token

  /** A caller, and which stored token was current when its call began. */
  datatype Caller = Caller(pc: Pc, began: nat)

  datatype World = World(shared: Shared, now: int, callers: seq<Caller>, log: seq<Entry>)

  datatype Event = Tick(ns: nat) | Go(caller: Cid, reply: Reply)

  /** How many tokens have been stored so far, Init's included. */
  function Generation(log: seq<Entry>): nat {
    if log == [] then 0
    else Generation(log[..|log| - 1]) + if log[|log| - 1].Kept? then 1 else 0
  }

  function Record(log: seq<Entry>, s: Shared, pc: Pc, now: int, reply: Reply): seq<Entry> {
    match pc
    case Refreshing => log + [Sent(s.token.refresh, now)]
    case Waiting => log + [Answered(reply)]
    case Storing(_) => log + [Kept(now)]
    case _ => log
  }

  function Act(w: World, i: Cid, reply: Reply): World
    requires i < |w.callers|
  {
    var c := w.callers[i];
    var m := Exec(w.shared, i, c.pc, w.now, reply);
    var began := if c.pc.Start? then Generation(w.log) else c.began;
    World(m.shared, w.now, w.callers[i := Caller(m.pc, began)], Record(w.log, w.shared, c.pc, w.now, reply))
  }

  function Next(w: World, e: Event): World {
    match e
    case Tick(ns) => w.(now := w.now + ns)
    case Go(i, reply) => if i < |w.callers| then Act(w, i, reply) else w
  }

  function After(w: World, events: seq<Event>): World {
    if events == [] then w else Next(After(w, events[..|events| - 1]), events[|events| - 1])
  }

  /** Init has stored its first grant, and `n` calls are to come. */
  function Init(grant: Grant, now: int, n: nat): World {
    World(Shared(Token(grant.access, grant.refresh, now + Duration(grant.validity)), {}, None),
          now, seq(n, _ => Caller(Start, 0)), [Answered(Granted(grant)), Kept(now)])
  }
}
