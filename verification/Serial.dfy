/**
 * Requests served one after the other. A request run alone takes its calls' answers from a script,
 * and a serial run is one particular interleaving, so everything proved of interleavings holds.
 */
module Serial {
  import opened Domain
  import opened Tables
  import opened ApiManager
  import opened Requests
  import opened Interleaving
  import opened SagaInvariant
  import opened Lifecycle
  import opened Bindings

  /** No request makes more calls than a first Bind that creates a service key. */
  const MAX_CALLS := 7

  type Script = a: seq<Answer> | |a| == MAX_CALLS witness seq(MAX_CALLS, _ => Okay)

  /** Runs a request from `pc` until it is answered or the answers run out. */
  function Alone(s: Sys, q: Request, pc: Pc, answers: seq<Answer>): Move
    decreases |answers|
  {
    if pc.Done? || answers == [] then Move(s, pc)
    else
      var m := Exec(s, q, pc, answers[0]);
      Alone(m.sys, q, m.pc, answers[1..])
  }

  /** A call that answers the request is its last. */
  lemma LastCall(s: Sys, q: Request, pc: Pc, answers: seq<Answer>)
    requires !pc.Done? && answers != [] && Exec(s, q, pc, answers[0]).pc.Done?
    ensures Alone(s, q, pc, answers) == Exec(s, q, pc, answers[0])
  {
    var m := Exec(s, q, pc, answers[0]);
    assert Alone(m.sys, q, m.pc, answers[1..]) == m;
  }

  // ---------------------------------------------------------------- every request is answered

  /** The most calls a request can still make. */
  function CallsLeft(pc: Pc): nat {
    match pc
    case Start => 7
    case SearchingApi => 6
    case SearchingApp => 5
    case Creating => 4
    case Publishing(_) => 3
    case StoringRow(_) => 2
    case CleaningUp(_, _) => 1
    case RemovingResource(_) => 2
    case RemovingRow(_) => 1
    case Naming(_) => 6
    case ReadingInstance(_, _) => 5
    case ReadingApplication(_, _, _) => 4
    case GeneratingKeys(_, _) => 3
    case StoringKeys(_, _, _) => 2
    case StoringBind(_, _, _) => 1
    case RemovingBind => 1
    case UpdatingResource(_) => 1
    case Done(_) => 0
  }

  /** The program counters a request of each kind goes through. */
  predicate Proper(q: Request, pc: Pc) {
    pc.Start? || pc.Done? ||
    match q
    case Provision(_, _, _, _, _, _) =>
      WellFormed(q) && (pc.SearchingApi? || pc.SearchingApp? || pc.Creating? || pc.Publishing? || pc.StoringRow? || pc.CleaningUp?)
    case Deprovision(_, plan) => Known(plan) && (pc.RemovingResource? || pc.RemovingRow?)
    case Bind(_, _, _, _, _) => pc.Naming? || pc.ReadingInstance? || pc.ReadingApplication? || pc.GeneratingKeys?
                                || pc.StoringKeys? || pc.StoringBind?
    case Unbind(_, _, _) => pc.RemovingBind?
    case Update(_, _, _) => pc.UpdatingResource?
  }

  lemma CallsRunOut(s: Sys, q: Request, pc: Pc, a: Answer)
    requires Proper(q, pc) && !pc.Done?
    ensures var m := Exec(s, q, pc, a); Proper(q, m.pc) && CallsLeft(m.pc) < CallsLeft(pc)
  {}

  function CallsOf(events: seq<Event>, tid: Tid): nat {
    if events == [] then 0
    else
      var e := events[|events| - 1];
      CallsOf(events[..|events| - 1], tid) + if e.Call? && e.tid == tid then 1 else 0
  }

  /** However requests interleave and fail, each is answered after a bounded number of its own calls. */
  lemma {:induction false} EveryRequestIsAnswered(w: World, events: seq<Event>, tid: Tid)
    requires tid in w.threads && Proper(w.threads[tid].req, w.threads[tid].pc)
    ensures var v := After(w, events);
      && tid in v.threads && v.threads[tid].req == w.threads[tid].req
      && Proper(v.threads[tid].req, v.threads[tid].pc)
      && (v.threads[tid].pc.Done? || CallsLeft(v.threads[tid].pc) + CallsOf(events, tid) <= CallsLeft(w.threads[tid].pc))
  {
    if events != [] {
      var before, e := events[..|events| - 1], events[|events| - 1];
      EveryRequestIsAnswered(w, before, tid);
      var u := After(w, before);
      assert After(w, events) == Next(u, e);
      hide After;
      if e.Call? && e.tid == tid && !u.threads[tid].pc.Done? {
        CallsRunOut(u.sys, u.threads[tid].req, u.threads[tid].pc, e.answer);
      }
      hide Proper, CallsLeft;
      if e.Call? && e.tid == tid && u.threads[tid].pc.Done? {
        assert Exec(u.sys, u.threads[tid].req, u.threads[tid].pc, e.answer).pc == u.threads[tid].pc;
      }
      hide Exec;
    }
  }

  /** Seven calls of its own answer any request, from its arrival on. */
  lemma SevenCallsAreEnough(w: World, events: seq<Event>, tid: Tid)
    requires tid in w.threads && w.threads[tid].pc.Start? && CallsOf(events, tid) >= 7
    ensures var v := After(w, events); tid in v.threads && v.threads[tid].pc.Done?
  {
    EveryRequestIsAnswered(w, events, tid);
    hide After, CallsOf;
  }

  lemma {:induction false} AloneIsAnswered(s: Sys, q: Request, pc: Pc, answers: seq<Answer>)
    requires Proper(q, pc) && |answers| >= CallsLeft(pc)
    ensures Alone(s, q, pc, answers).pc.Done?
    decreases |answers|
  {
    if !pc.Done? {
      assert answers != [] by {
        assert CallsLeft(pc) > 0;
      }
      CallsRunOut(s, q, pc, answers[0]);
      var m := Exec(s, q, pc, answers[0]);
      hide Exec, Proper, CallsLeft;
      AloneIsAnswered(m.sys, q, m.pc, answers[1..]);
    }
  }

  // ---------------------------------------------------------------- a serial run is an interleaving

  datatype Job = Job(req: Request, script: Script)

  function Calls(tid: Tid, answers: seq<Answer>): (events: seq<Event>)
    ensures |events| == |answers|
  {
    seq(|answers|, i requires 0 <= i < |answers| => Call(tid, answers[i]))
  }

  function Events(tid: Tid, job: Job): seq<Event> {
    [Arrive(tid, job.req)] + Calls(tid, job.script)
  }

  /** The jobs in order, each run to its end before the next arrives. */
  function Schedule(jobs: seq<Job>): seq<Event> {
    if jobs == [] then []
    else Schedule(jobs[..|jobs| - 1]) + Events(|jobs| - 1, jobs[|jobs| - 1])
  }

  /** What the stores become when each job runs alone. */
  function ServedInTurn(s: Sys, jobs: seq<Job>): Sys {
    if jobs == [] then s
    else Alone(ServedInTurn(s, jobs[..|jobs| - 1]), jobs[|jobs| - 1].req, Start, jobs[|jobs| - 1].script).sys
  }

  lemma {:induction false} CallsRunAlone(w: World, tid: Tid, answers: seq<Answer>)
    requires tid in w.threads
    decreases |answers|
    ensures var v := After(w, Calls(tid, answers)); var t := w.threads[tid];
      var m := Alone(w.sys, t.req, t.pc, answers);
      && v.sys == m.sys && v.threads == w.threads[tid := Thread(t.req, m.pc)]
  {
    var t := w.threads[tid];
    if answers == [] {
      assert w.threads == w.threads[tid := t];
    } else {
      var e := Call(tid, answers[0]);
      var u := Next(w, e);
      assert Calls(tid, answers) == [e] + Calls(tid, answers[1..]);
      AfterConcat(w, [e], Calls(tid, answers[1..]));
      AfterOne(w, [], e);
      assert [] + [e] == [e];
      if t.pc.Done? {
        assert u.sys == w.sys && u.threads == w.threads;
      }
      CallsRunAlone(u, tid, answers[1..]);
      hide After, Exec, Record, Calls;
      if t.pc.Done? {
        assert Alone(u.sys, t.req, t.pc, answers[1..]) == Move(w.sys, t.pc);
      }
    }
  }

  ghost predicate AllDone(w: World) {
    forall tid :: tid in w.threads ==> w.threads[tid].pc.Done?
  }

  /** Each job's thread is answered as it would be alone, after the jobs before it. */
  ghost predicate Answered(s: Sys, jobs: seq<Job>, threads: map<Tid, Thread>) {
    && (forall tid :: tid in threads ==> 0 <= tid < |jobs|)
    && (forall tid :: 0 <= tid < |jobs| ==>
          tid in threads && threads[tid] == Thread(jobs[tid].req, Alone(ServedInTurn(s, jobs[..tid]), jobs[tid].req, Start, jobs[tid].script).pc))
  }

  lemma {:induction false} ScheduleServesInTurn(apim: Remote, jobs: seq<Job>)
    ensures var w := Reached(apim, Schedule(jobs));
      w.sys == ServedInTurn(Sys(EMPTY, apim), jobs) && AllDone(w) && Answered(Sys(EMPTY, apim), jobs, w.threads)
  {
    if jobs != [] {
      var before, tid, job := jobs[..|jobs| - 1], |jobs| - 1, jobs[|jobs| - 1];
      ScheduleServesInTurn(apim, before);
      var w := Reached(apim, Schedule(before));
      hide Alone, Answered, After, Events;
      AfterConcat(Init(apim), Schedule(before), Events(tid, job));
      assert tid !in w.threads by { NobodyYet(Sys(EMPTY, apim), before, w.threads); }
      EventsRunAlone(w, tid, job);
      AnsweredExtends(Sys(EMPTY, apim), jobs, w.threads, Reached(apim, Schedule(jobs)).threads);
    }
  }

  lemma NobodyYet(s: Sys, jobs: seq<Job>, threads: map<Tid, Thread>)
    requires Answered(s, jobs, threads)
    ensures |jobs| !in threads
  {}

  lemma AnsweredExtends(s: Sys, jobs: seq<Job>, threads: map<Tid, Thread>, threads': map<Tid, Thread>)
    requires jobs != [] && Answered(s, jobs[..|jobs| - 1], threads)
    requires var tid := |jobs| - 1;
      var m := Alone(ServedInTurn(s, jobs[..tid]), jobs[tid].req, Start, jobs[tid].script);
      threads' == threads[tid := Thread(jobs[tid].req, m.pc)]
    ensures Answered(s, jobs, threads')
  {
    hide Alone, ServedInTurn;
    var before := jobs[..|jobs| - 1];
    forall i | 0 <= i < |before| ensures before[..i] == jobs[..i] && before[i] == jobs[i] {}
  }

  lemma EventsRunAlone(w: World, tid: Tid, job: Job)
    requires tid !in w.threads
    ensures var v := After(w, Events(tid, job)); var m := Alone(w.sys, job.req, Start, job.script);
      && m.pc.Done?
      && v.sys == m.sys && v.threads == w.threads[tid := Thread(job.req, m.pc)]
  {
    var u := Next(w, Arrive(tid, job.req));
    AfterConcat(w, [Arrive(tid, job.req)], Calls(tid, job.script));
    AfterOne(w, [], Arrive(tid, job.req));
    assert [] + [Arrive(tid, job.req)] == [Arrive(tid, job.req)];
    hide After;
    CallsRunAlone(u, tid, job.script);
    AloneIsAnswered(w.sys, job.req, Start, job.script);
  }

  // ---------------------------------------------------------------- nothing goes from under a Bind

  ghost predicate OnlyBusy(w: World, tid: Tid) {
    forall i :: i in w.threads && i != tid ==> w.threads[i].pc.Done?
  }

  lemma {:induction false} OnlyOneBusy(w: World, tid: Tid, events: seq<Event>)
    requires OnlyBusy(w, tid)
    requires forall i :: 0 <= i < |events| ==> events[i].tid == tid
    ensures OnlyBusy(After(w, events), tid)
  {
    hide Exec, Record;
    if events != [] {
      OnlyOneBusy(w, tid, events[..|events| - 1]);
    }
  }

  lemma BusyIsApart(w: World, e: Event)
    requires OnlyBusy(w, e.tid)
    ensures Apart(w, e)
  {}

  lemma {:induction false} ScheduleIsApart(apim: Remote, jobs: seq<Job>)
    ensures ApartThroughout(Init(apim), Schedule(jobs))
  {
    if jobs != [] {
      var before, tid, job := jobs[..|jobs| - 1], |jobs| - 1, jobs[|jobs| - 1];
      ScheduleIsApart(apim, before);
      ScheduleServesInTurn(apim, before);
      hide Alone, ServedInTurn, Answered, ApartThroughout;
      assert OnlyBusy(Reached(apim, Schedule(before)), tid);
      EventsCarryTid(tid, job);
      hide After, Events, AllDone, OnlyBusy;
      ApartExtends(Init(apim), Schedule(before), Events(tid, job), tid);
    }
  }

  lemma EventsCarryTid(tid: Tid, job: Job)
    ensures forall i :: 0 <= i < |Events(tid, job)| ==> Events(tid, job)[i].tid == tid
  {}

  lemma ApartExtends(w: World, xs: seq<Event>, ys: seq<Event>, tid: Tid)
    requires ApartThroughout(w, xs)
    requires OnlyBusy(After(w, xs), tid) && forall i :: 0 <= i < |ys| ==> ys[i].tid == tid
    ensures ApartThroughout(w, xs + ys)
  {
    hide After, OnlyBusy, Apart;
    forall i | 0 <= i < |xs + ys| ensures Apart(After(w, (xs + ys)[..i]), (xs + ys)[i]) {
      if i < |xs| {
        assert (xs + ys)[..i] == xs[..i];
      } else {
        assert (xs + ys)[..i] == xs + ys[..i - |xs|];
        AfterConcat(w, xs, ys[..i - |xs|]);
        OnlyOneBusy(After(w, xs), tid, ys[..i - |xs|]);
        BusyIsApart(After(w, (xs + ys)[..i]), (xs + ys)[i]);
      }
    }
  }

  /** Key generations less lost ones: one for an application that has its row, none for one that has not. */
  ghost predicate KeysBalance(w: World) {
    forall id :: id in w.sys.db.instances ==>
      var r := w.sys.db.instances[id].resource;
      w.tally.generated[r] == w.tally.lost[r] + if r in w.sys.db.applications then 1 else 0
  }

  /**
   * Between serial requests: the invariant of all interleavings, keys behind every binding, and one
   * unlost key generation for each application that has its row.
   */
  lemma SerialRunsAreInOrder(apim: Remote, jobs: seq<Job>)
    requires Sane(apim)
    ensures var w := Reached(apim, Schedule(jobs));
      && w.sys == ServedInTurn(Sys(EMPTY, apim), jobs)
      && AllDone(w) && Inv(w) && BoundHaveKeys(w.sys) && KeysBalance(w)
  {
    hide After, Alone, ServedInTurn, Inv, BoundHaveKeys, Schedule, Answered, ApartThroughout, Sane;
    var w := Reached(apim, Schedule(jobs));
    EveryRunKeepsInv(apim, Schedule(jobs));
    ScheduleIsApart(apim, jobs);
    BoundInstancesHaveKeys(apim, Schedule(jobs));
    ScheduleServesInTurn(apim, jobs);
    forall id | id in w.sys.db.instances
      ensures var r := w.sys.db.instances[id].resource;
        w.tally.generated[r] == w.tally.lost[r] + if r in w.sys.db.applications then 1 else 0
    {
      KeyGenerationsBalance(apim, Schedule(jobs), id);
      assert KeyHolders(w.threads, w.sys.db.instances[id].resource) == {};
    }
  }
}
