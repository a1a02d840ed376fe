/**
 The scheduling backend the bookmark scheduler drives, as a recording fake:
 it keeps the calls it completed, in order, and the jobs those calls leave
 behind (one per key; scheduling under a key replaces what was there and
 unscheduling a key that has no job does nothing). Whether the backend
 completes or rejects a call is an arbitrary function of the calls it has
 completed so far and the call itself.
 */
module WorkflowScheduling {
  import opened Bookmarks

  /** A pending job: the request to dispatch and when. */
  datatype Job = Job(request: DispatchRequest, at: int)

  /** A call to the backend. */
  datatype Call =
    | ScheduleAt(key: string, request: DispatchRequest, at: int)
    | Unschedule(key: string)

  /** Decides whether the backend completes `call` after `history`. */
  type Acceptance = (seq<Call>, Call) -> bool

  function Apply(jobs: map<string, Job>, c: Call): map<string, Job> {
    match c
    case ScheduleAt(key, request, at) => jobs[key := Job(request, at)]
    case Unschedule(key) => jobs - {key}
  }

  /** The jobs left after the backend completed `calls`, in order, on `jobs`. */
  function Replay(jobs: map<string, Job>, calls: seq<Call>): map<string, Job>
    decreases calls
  {
    if calls == [] then jobs else Replay(Apply(jobs, calls[0]), calls[1..])
  }

  function Keys(calls: seq<Call>): (r: seq<string>)
    ensures |r| == |calls|
    ensures forall j :: 0 <= j < |calls| ==> r[j] == calls[j].key
  {
    if calls == [] then [] else [calls[0].key] + Keys(calls[1..])
  }

  predicate AllSchedule(calls: seq<Call>) {
    forall j :: 0 <= j < |calls| ==> calls[j].ScheduleAt?
  }

  predicate AllUnschedule(calls: seq<Call>) {
    forall j :: 0 <= j < |calls| ==> calls[j].Unschedule?
  }

  /** Completing `a` and then `b` leaves what completing `a + b` leaves. */
  lemma {:induction false} ReplayAppend(jobs: map<string, Job>, a: seq<Call>, b: seq<Call>)
    ensures Replay(jobs, a + b) == Replay(Replay(jobs, a), b)
    decreases a
  {
    if a == [] {
      assert a + b == b;
    } else {
      assert (a + b)[0] == a[0];
      assert (a + b)[1..] == a[1..] + b;
      ReplayAppend(Apply(jobs, a[0]), a[1..], b);
    }
  }

  /** Completing one more call applies it to what the earlier calls left. */
  lemma ReplayStep(jobs: map<string, Job>, calls: seq<Call>, c: Call)
    ensures Replay(jobs, calls + [c]) == Apply(Replay(jobs, calls), c)
  {
    ReplayAppend(jobs, calls, [c]);
    assert [c][1..] == [];
  }

  /** A key no call mentions keeps its job, or keeps having none. */
  lemma {:induction false} ReplayOutside(jobs: map<string, Job>, calls: seq<Call>, k: string)
    requires k !in Keys(calls)
    ensures k in Replay(jobs, calls) <==> k in jobs
    ensures k in jobs ==> Replay(jobs, calls)[k] == jobs[k]
    decreases calls
  {
    if calls != [] {
      assert Keys(calls) == [calls[0].key] + Keys(calls[1..]);
      ReplayOutside(Apply(jobs, calls[0]), calls[1..], k);
    }
  }

  /** A run of unschedule calls removes exactly the keys it names. */
  lemma {:induction false} ReplayUnschedules(jobs: map<string, Job>, calls: seq<Call>)
    requires AllUnschedule(calls)
    ensures Replay(jobs, calls) == jobs - (set k | k in Keys(calls))
    decreases calls
  {
    if calls == [] {
      assert (set k | k in Keys(calls)) == {};
    } else {
      ReplayUnschedules(Apply(jobs, calls[0]), calls[1..]);
      assert Keys(calls) == [calls[0].key] + Keys(calls[1..]);
      assert (set k | k in Keys(calls)) == {calls[0].key} + (set k | k in Keys(calls[1..]));
    }
  }

  /** Unscheduling every key of `ids` after calls that touch only keys of
      `ids` leaves the jobs outside `ids` as they were and none inside. */
  lemma UnscheduleAfterCalls(jobs: map<string, Job>, calls: seq<Call>, unschedules: seq<Call>, ids: set<string>)
    requires forall k :: k in Keys(calls) ==> k in ids
    requires AllUnschedule(unschedules)
    requires forall k :: k in ids <==> k in Keys(unschedules)
    ensures Replay(Replay(jobs, calls), unschedules) == jobs - ids
  {
    var mid := Replay(jobs, calls);
    ReplayUnschedules(mid, unschedules);
    assert (set k | k in Keys(unschedules)) == ids;
    forall k | k !in ids
      ensures (k in mid <==> k in jobs) && (k in jobs ==> mid[k] == jobs[k])
    {
      ReplayOutside(jobs, calls, k);
    }
    assert mid - ids == jobs - ids;
  }

  /** Schedule calls only overwrite: the jobs they leave on top of `jobs + w`
      are `jobs` overridden by what they leave on top of `w`. */
  lemma {:induction false} ReplaySchedulesOverride(jobs: map<string, Job>, w: map<string, Job>, calls: seq<Call>)
    requires AllSchedule(calls)
    ensures Replay(jobs + w, calls) == jobs + Replay(w, calls)
    decreases calls
  {
    if calls != [] {
      var c := calls[0];
      assert c.ScheduleAt?;
      assert Apply(jobs + w, c) == jobs + Apply(w, c);
      ReplaySchedulesOverride(jobs, Apply(w, c), calls[1..]);
    }
  }

  /** Completing the same schedule calls a second time changes nothing:
      each key keeps a single job, the one the last call under it set. */
  lemma ReplaySchedulesIdempotent(jobs: map<string, Job>, calls: seq<Call>)
    requires AllSchedule(calls)
    ensures Replay(Replay(jobs, calls), calls) == Replay(jobs, calls)
  {
    var w := Replay(map[], calls);
    ReplaySchedulesOverride(jobs, map[], calls);
    assert jobs + map[] == jobs;
    ReplaySchedulesOverride(jobs + w, map[], calls);
    assert (jobs + w) + map[] == jobs + w;
    assert (jobs + w) + w == jobs + w;
  }

  /** The backend, as a fake that records what it completed. */
  class RecordingWorkflowScheduler {
    const accepts: Acceptance
    var trace: seq<Call>
    var jobs: map<string, Job>

    constructor (accepts: Acceptance, jobs: map<string, Job>)
      ensures this.accepts == accepts && this.jobs == jobs && trace == []
    {
      this.accepts := accepts;
      this.jobs := jobs;
      trace := [];
    }

    /** Arrange for `request` to be dispatched at `at` under `key`. */
    method ScheduleAtAsync(key: string, request: DispatchRequest, at: int) returns (ok: bool)
      modifies this
      ensures ok == accepts(old(trace), ScheduleAt(key, request, at))
      ensures trace == if ok then old(trace) + [ScheduleAt(key, request, at)] else old(trace)
      ensures jobs == if ok then old(jobs)[key := Job(request, at)] else old(jobs)
    {
      var call := ScheduleAt(key, request, at);
      ok := accepts(trace, call);
      if ok {
        trace := trace + [call];
        jobs := Apply(jobs, call);
      }
    }

    /** Cancel the job under `key`, if any. */
    method UnscheduleAsync(key: string) returns (ok: bool)
      modifies this
      ensures ok == accepts(old(trace), Unschedule(key))
      ensures trace == if ok then old(trace) + [Unschedule(key)] else old(trace)
      ensures jobs == if ok then old(jobs) - {key} else old(jobs)
    {
      var call := Unschedule(key);
      ok := accepts(trace, call);
      if ok {
        trace := trace + [call];
        jobs := Apply(jobs, call);
      }
    }
  }
}
