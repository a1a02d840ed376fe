/**
 A worked batch: a delay, a timer and a signal bookmark of instance `wf-1`,
 on a backend that completes every call. Scheduling it schedules the delay
 and then the timer, each at its payload's time; the signal bookmark plays
 no part; unscheduling it cancels the same two keys and nothing else.
 */
module Scenario {
  import opened Wrappers
  import opened Bookmarks
  import opened Serialization
  import opened WorkflowScheduling
  import opened SchedulePlan

  const b1 := Bookmark("b1", Delay, "in 5 minutes")
  const b2 := Bookmark("b2", Timer, "in 1 hour")
  const b3 := Bookmark("b3", Other("Signal"), "signal")

  /** Decodes the two time-based payloads of the batch, to the times 5 and
      60, and nothing else. */
  function ScenarioCodec(): Codec {
    Codec(
      data => if data == "in 5 minutes" then Some(DelayPayload(5)) else None,
      data => None,
      data => if data == "in 1 hour" then Some(TimerBookmarkPayload(60)) else None)
  }

  /** A backend that completes every call. */
  const AcceptAll: Acceptance := (h, c) => true

  /** The batch holds one delay, no start-at and one timer. */
  lemma FilterScenario()
    ensures Filter([b1, b2, b3], Delay) == [b1]
    ensures Filter([b1, b2, b3], StartAt) == []
    ensures Filter([b1, b2, b3], Timer) == [b2]
  {
    var bs := [b1, b2, b3];
    assert bs[1..] == [b2, b3] && bs[1..][1..] == [b3] && bs[1..][1..][1..] == [];
    forall k | IsTimeBased(k) ensures Filter([b3], k) == [] {
      assert Filter([b3], k) == Filter([], k);
    }
    assert Filter([b2, b3], Delay) == [];
    assert Filter([b2, b3], StartAt) == [];
    assert Filter([b2, b3], Timer) == [b2] + Filter([b3], Timer);
  }

  /** Scheduling the batch decodes the delay's and the timer's payloads and
      schedules them, in that order, each under its id at its time. */
  lemma ScheduleScenario(jobs: map<string, Job>)
    ensures var r := ScheduleBookmarks("wf-1", [b1, b2, b3], ScenarioCodec(), AcceptAll, []);
      && r.outcome == Completed
      && r.calls == [ScheduleAt("b1", DispatchRequest("wf-1", "b1"), 5),
                     ScheduleAt("b2", DispatchRequest("wf-1", "b2"), 60)]
      && r.decoded == [DecodeRequest(DelayPayloadType, "in 5 minutes"),
                       DecodeRequest(TimerBookmarkPayloadType, "in 1 hour")]
      && Replay(jobs, r.calls) ==
           jobs["b1" := Job(DispatchRequest("wf-1", "b1"), 5)]["b2" := Job(DispatchRequest("wf-1", "b2"), 60)]
  {
    var codec := ScenarioCodec();
    var c1 := ScheduleAt("b1", DispatchRequest("wf-1", "b1"), 5);
    var c2 := ScheduleAt("b2", DispatchRequest("wf-1", "b2"), 60);
    var d1 := DecodeRequest(DelayPayloadType, "in 5 minutes");
    var d2 := DecodeRequest(TimerBookmarkPayloadType, "in 1 hour");
    FilterScenario();
    ScheduleBookmarksIsOneRun("wf-1", [b1, b2, b3], codec, AcceptAll, []);
    assert Selected([b1, b2, b3]) == [b1, b2];
    assert [b1, b2][1..] == [b2] && [b2][1..] == [];
    assert ResumeTime(codec, b1) == Some(5) && ResumeTime(codec, b2) == Some(60);
    ScheduleRunStep("wf-1", [b1, b2], codec, AcceptAll, []);
    ScheduleRunStep("wf-1", [b2], codec, AcceptAll, [c1]);
    assert ScheduleCall("wf-1", b1, 5) == c1 && ScheduleCall("wf-1", b2, 60) == c2;
    assert [] + [c1] == [c1];
    assert ScheduleRun("wf-1", [b2], codec, AcceptAll, [c1]) == Run([d2], [c2], Completed);
    assert ScheduleRun("wf-1", [b1, b2], codec, AcceptAll, []) == Run([d1] + [d2], [c1] + [c2], Completed);
    assert [c1] + [c2] == [c1, c2] && [d1] + [d2] == [d1, d2];
    assert [c1, c2][0] == c1 && [c1, c2][1..] == [c2] && [c2][1..] == [];
    assert Replay(jobs, [c1, c2]) == Replay(Apply(jobs, c1), [c2]);
  }

  /** Unscheduling the batch cancels the delay's and the timer's keys, in
      that order, and decodes nothing. */
  lemma UnscheduleScenario()
    ensures UnscheduleBookmarks([b1, b2, b3], AcceptAll, []) ==
            Run([], [Unschedule("b1"), Unschedule("b2")], Completed)
  {
    FilterScenario();
    assert Selected([b1, b2, b3]) == [b1, b2];
    assert [b1, b2][1..] == [b2] && [b2][1..] == [];
    UnscheduleRunStep([b1, b2], AcceptAll, []);
    UnscheduleRunStep([b2], AcceptAll, [] + [Unschedule("b1")]);
    assert [] + [Unschedule("b1")] == [Unschedule("b1")];
    assert [Unschedule("b1")] + [Unschedule("b2")] == [Unschedule("b1"), Unschedule("b2")];
  }
}
