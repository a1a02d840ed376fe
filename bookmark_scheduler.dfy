/**
 The default bookmark scheduler: it turns the time-based bookmarks of a
 workflow instance into jobs on the workflow scheduler, and removes them
 again. It holds no state of its own; each method is a sequence of calls on
 the serializer and the scheduler it was given, proved equal to the run
 `SchedulePlan` describes.
 */
module BookmarkScheduler {
  import opened Wrappers
  import opened Bookmarks
  import opened Serialization
  import opened WorkflowScheduling
  import opened SchedulePlan

  class DefaultBookmarkScheduler {
    const workflowScheduler: RecordingWorkflowScheduler
    const bookmarkPayloadSerializer: PayloadSerializer

    constructor (workflowScheduler: RecordingWorkflowScheduler, bookmarkPayloadSerializer: PayloadSerializer)
      ensures this.workflowScheduler == workflowScheduler
      ensures this.bookmarkPayloadSerializer == bookmarkPayloadSerializer
    {
      this.workflowScheduler := workflowScheduler;
      this.bookmarkPayloadSerializer := bookmarkPayloadSerializer;
    }

    /** Schedule every delay, then every start-at, then every timer bookmark
        of `bookmarks` at the time its payload gives, stopping at the first
        payload that does not decode or call that fails. */
    method ScheduleAsync(workflowInstanceId: string, bookmarks: seq<Bookmark>) returns (outcome: Outcome)
      modifies workflowScheduler, bookmarkPayloadSerializer
      ensures var run := ScheduleBookmarks(workflowInstanceId, bookmarks, bookmarkPayloadSerializer.codec,
                                           workflowScheduler.accepts, old(workflowScheduler.trace));
        && outcome == run.outcome
        && workflowScheduler.trace == old(workflowScheduler.trace) + run.calls
        && workflowScheduler.jobs == Replay(old(workflowScheduler.jobs), run.calls)
        && bookmarkPayloadSerializer.log == old(bookmarkPayloadSerializer.log) + run.decoded
    {
      var bookmarkList := bookmarks;
      var delayBookmarks := Filter(bookmarkList, Delay);
      var startAtBookmarks := Filter(bookmarkList, StartAt);
      var timerBookmarks := Filter(bookmarkList, Timer);

      ghost var codec := bookmarkPayloadSerializer.codec;
      ghost var accepts := workflowScheduler.accepts;
      ghost var history := workflowScheduler.trace;
      ghost var jobs := workflowScheduler.jobs;
      ghost var log := bookmarkPayloadSerializer.log;

      outcome := ScheduleDelayBookmarks(workflowInstanceId, delayBookmarks);
      if outcome.Completed? {
        ghost var rd := ScheduleRun(workflowInstanceId, delayBookmarks, codec, accepts, history);
        outcome := ScheduleStartAtBookmarks(workflowInstanceId, startAtBookmarks);
        ghost var rs := ScheduleRun(workflowInstanceId, startAtBookmarks, codec, accepts, history + rd.calls);
        RunsCompose(history, log, jobs, rd, rs);
        if outcome.Completed? {
          ghost var rds := Prepend(rd.decoded, rd.calls, rs);
          outcome := ScheduleTimerBookmarks(workflowInstanceId, timerBookmarks);
          ghost var rt := ScheduleRun(workflowInstanceId, timerBookmarks, codec, accepts, history + rds.calls);
          RunsCompose(history, log, jobs, rds, rt);
        }
      }
    }

    /** The loop over the Delay bookmarks: decode each payload, build the
        dispatch request and schedule it at the payload's `resumeAt`. */
    method ScheduleDelayBookmarks(workflowInstanceId: string, bookmarks: seq<Bookmark>) returns (outcome: Outcome)
      requires forall b :: b in bookmarks ==> b.kind == Delay
      modifies workflowScheduler, bookmarkPayloadSerializer
      ensures var run := ScheduleRun(workflowInstanceId, bookmarks, bookmarkPayloadSerializer.codec,
                                     workflowScheduler.accepts, old(workflowScheduler.trace));
        && outcome == run.outcome
        && workflowScheduler.trace == old(workflowScheduler.trace) + run.calls
        && workflowScheduler.jobs == Replay(old(workflowScheduler.jobs), run.calls)
        && bookmarkPayloadSerializer.log == old(bookmarkPayloadSerializer.log) + run.decoded
    {
      ghost var codec := bookmarkPayloadSerializer.codec;
      ghost var accepts := workflowScheduler.accepts;
      ghost var history := workflowScheduler.trace;
      ghost var jobs := workflowScheduler.jobs;
      ghost var log := bookmarkPayloadSerializer.log;
      ghost var run := ScheduleRun(workflowInstanceId, bookmarks, codec, accepts, history);
      ghost var calls: seq<Call> := [];
      ghost var decoded: seq<DecodeRequest> := [];
      assert bookmarks[0..] == bookmarks;

      for i := 0 to |bookmarks|
        invariant workflowScheduler.trace == history + calls
        invariant workflowScheduler.jobs == Replay(jobs, calls)
        invariant bookmarkPayloadSerializer.log == log + decoded
        invariant run == Prepend(decoded, calls,
          ScheduleRun(workflowInstanceId, bookmarks[i..], codec, accepts, history + calls))
      {
        ghost var rest := bookmarks[i..];
        var bookmark := bookmarks[i];
        assert rest[0] == bookmark && rest[1..] == bookmarks[i + 1..];
        assert bookmark.kind == Delay;
        var payload := bookmarkPayloadSerializer.DeserializeDelay(bookmark.data);
        assert ResumeTime(codec, bookmark) == if payload.None? then None else Some(payload.value.resumeAt);
        ScheduleRunStep(workflowInstanceId, rest, codec, accepts, history + calls);
        ghost var decode := DecodeRequest(DelayPayloadType, bookmark.data);
        if payload.None? {
          outcome := Failed(PayloadDecodeError(bookmark.id, bookmark.kind));
          RunsCompose(history, log, jobs, Run(decoded, calls, Completed), Run([decode], [], outcome));
          return;
        }
        var resumeAt := payload.value.resumeAt;
        var request := DispatchRequest(workflowInstanceId, bookmark.id);
        var ok := workflowScheduler.ScheduleAtAsync(bookmark.id, request, resumeAt);
        if !ok {
          outcome := Failed(SchedulingBackendError(bookmark.id));
          RunsCompose(history, log, jobs, Run(decoded, calls, Completed), Run([decode], [], outcome));
          return;
        }
        ghost var call := ScheduleAt(bookmark.id, request, resumeAt);
        RunStep(history, log, jobs, decoded, calls, [decode], call,
          ScheduleRun(workflowInstanceId, rest[1..], codec, accepts, history + calls + [call]));
        calls := calls + [call];
        decoded := decoded + [decode];
      }
      outcome := Completed;
      assert calls + [] == calls && decoded + [] == decoded;
    }

    /** The loop over the StartAt bookmarks: decode each payload, build the
        dispatch request and schedule it at the payload's `executeAt`. */
    method ScheduleStartAtBookmarks(workflowInstanceId: string, bookmarks: seq<Bookmark>) returns (outcome: Outcome)
      requires forall b :: b in bookmarks ==> b.kind == StartAt
      modifies workflowScheduler, bookmarkPayloadSerializer
      ensures var run := ScheduleRun(workflowInstanceId, bookmarks, bookmarkPayloadSerializer.codec,
                                     workflowScheduler.accepts, old(workflowScheduler.trace));
        && outcome == run.outcome
        && workflowScheduler.trace == old(workflowScheduler.trace) + run.calls
        && workflowScheduler.jobs == Replay(old(workflowScheduler.jobs), run.calls)
        && bookmarkPayloadSerializer.log == old(bookmarkPayloadSerializer.log) + run.decoded
    {
      ghost var codec := bookmarkPayloadSerializer.codec;
      ghost var accepts := workflowScheduler.accepts;
      ghost var history := workflowScheduler.trace;
      ghost var jobs := workflowScheduler.jobs;
      ghost var log := bookmarkPayloadSerializer.log;
      ghost var run := ScheduleRun(workflowInstanceId, bookmarks, codec, accepts, history);
      ghost var calls: seq<Call> := [];
      ghost var decoded: seq<DecodeRequest> := [];
      assert bookmarks[0..] == bookmarks;

      for i := 0 to |bookmarks|
        invariant workflowScheduler.trace == history + calls
        invariant workflowScheduler.jobs == Replay(jobs, calls)
        invariant bookmarkPayloadSerializer.log == log + decoded
        invariant run == Prepend(decoded, calls,
          ScheduleRun(workflowInstanceId, bookmarks[i..], codec, accepts, history + calls))
      {
        ghost var rest := bookmarks[i..];
        var bookmark := bookmarks[i];
        assert rest[0] == bookmark && rest[1..] == bookmarks[i + 1..];
        assert bookmark.kind == StartAt;
        var payload := bookmarkPayloadSerializer.DeserializeStartAt(bookmark.data);
        assert ResumeTime(codec, bookmark) == if payload.None? then None else Some(payload.value.executeAt);
        ScheduleRunStep(workflowInstanceId, rest, codec, accepts, history + calls);
        ghost var decode := DecodeRequest(StartAtPayloadType, bookmark.data);
        if payload.None? {
          outcome := Failed(PayloadDecodeError(bookmark.id, bookmark.kind));
          RunsCompose(history, log, jobs, Run(decoded, calls, Completed), Run([decode], [], outcome));
          return;
        }
        var executeAt := payload.value.executeAt;
        var request := DispatchRequest(workflowInstanceId, bookmark.id);
        var ok := workflowScheduler.ScheduleAtAsync(bookmark.id, request, executeAt);
        if !ok {
          outcome := Failed(SchedulingBackendError(bookmark.id));
          RunsCompose(history, log, jobs, Run(decoded, calls, Completed), Run([decode], [], outcome));
          return;
        }
        ghost var call := ScheduleAt(bookmark.id, request, executeAt);
        RunStep(history, log, jobs, decoded, calls, [decode], call,
          ScheduleRun(workflowInstanceId, rest[1..], codec, accepts, history + calls + [call]));
        calls := calls + [call];
        decoded := decoded + [decode];
      }
      outcome := Completed;
      assert calls + [] == calls && decoded + [] == decoded;
    }

    /** The loop over the Timer bookmarks: decode each payload, build the
        dispatch request and schedule it at the payload's `resumeAt`. */
    method ScheduleTimerBookmarks(workflowInstanceId: string, bookmarks: seq<Bookmark>) returns (outcome: Outcome)
      requires forall b :: b in bookmarks ==> b.kind == Timer
      modifies workflowScheduler, bookmarkPayloadSerializer
      ensures var run := ScheduleRun(workflowInstanceId, bookmarks, bookmarkPayloadSerializer.codec,
                                     workflowScheduler.accepts, old(workflowScheduler.trace));
        && outcome == run.outcome
        && workflowScheduler.trace == old(workflowScheduler.trace) + run.calls
        && workflowScheduler.jobs == Replay(old(workflowScheduler.jobs), run.calls)
        && bookmarkPayloadSerializer.log == old(bookmarkPayloadSerializer.log) + run.decoded
    {
      ghost var codec := bookmarkPayloadSerializer.codec;
      ghost var accepts := workflowScheduler.accepts;
      ghost var history := workflowScheduler.trace;
      ghost var jobs := workflowScheduler.jobs;
      ghost var log := bookmarkPayloadSerializer.log;
      ghost var run := ScheduleRun(workflowInstanceId, bookmarks, codec, accepts, history);
      ghost var calls: seq<Call> := [];
      ghost var decoded: seq<DecodeRequest> := [];
      assert bookmarks[0..] == bookmarks;

      for i := 0 to |bookmarks|
        invariant workflowScheduler.trace == history + calls
        invariant workflowScheduler.jobs == Replay(jobs, calls)
        invariant bookmarkPayloadSerializer.log == log + decoded
        invariant run == Prepend(decoded, calls,
          ScheduleRun(workflowInstanceId, bookmarks[i..], codec, accepts, history + calls))
      {
        ghost var rest := bookmarks[i..];
        var bookmark := bookmarks[i];
        assert rest[0] == bookmark && rest[1..] == bookmarks[i + 1..];
        assert bookmark.kind == Timer;
        var payload := bookmarkPayloadSerializer.DeserializeTimer(bookmark.data);
        assert ResumeTime(codec, bookmark) == if payload.None? then None else Some(payload.value.resumeAt);
        ScheduleRunStep(workflowInstanceId, rest, codec, accepts, history + calls);
        ghost var decode := DecodeRequest(TimerBookmarkPayloadType, bookmark.data);
        if payload.None? {
          outcome := Failed(PayloadDecodeError(bookmark.id, bookmark.kind));
          RunsCompose(history, log, jobs, Run(decoded, calls, Completed), Run([decode], [], outcome));
          return;
        }
        var resumeAt := payload.value.resumeAt;
        var request := DispatchRequest(workflowInstanceId, bookmark.id);
        var ok := workflowScheduler.ScheduleAtAsync(bookmark.id, request, resumeAt);
        if !ok {
          outcome := Failed(SchedulingBackendError(bookmark.id));
          RunsCompose(history, log, jobs, Run(decoded, calls, Completed), Run([decode], [], outcome));
          return;
        }
        ghost var call := ScheduleAt(bookmark.id, request, resumeAt);
        RunStep(history, log, jobs, decoded, calls, [decode], call,
          ScheduleRun(workflowInstanceId, rest[1..], codec, accepts, history + calls + [call]));
        calls := calls + [call];
        decoded := decoded + [decode];
      }
      outcome := Completed;
      assert calls + [] == calls && decoded + [] == decoded;
    }

    /** Unschedule every delay, then every start-at, then every timer bookmark
        of `bookmarks`, stopping at the first call that fails. The serializer
        is not touched. */
    method UnscheduleAsync(workflowInstanceId: string, bookmarks: seq<Bookmark>) returns (outcome: Outcome)
      modifies workflowScheduler
      ensures var run := UnscheduleBookmarks(bookmarks, workflowScheduler.accepts, old(workflowScheduler.trace));
        && outcome == run.outcome
        && workflowScheduler.trace == old(workflowScheduler.trace) + run.calls
        && workflowScheduler.jobs == Replay(old(workflowScheduler.jobs), run.calls)
      ensures unchanged(bookmarkPayloadSerializer)
    {
      var bookmarkList := bookmarks;
      var delayBookmarks := Filter(bookmarkList, Delay);
      var startAtBookmarks := Filter(bookmarkList, StartAt);
      var timerBookmarks := Filter(bookmarkList, Timer);
      var bookmarksToUnschedule := delayBookmarks + startAtBookmarks + timerBookmarks;
      outcome := UnscheduleEach(bookmarksToUnschedule);
    }

    /** The loop over the concatenated bookmarks: cancel the job under each
        bookmark's id. */
    method UnscheduleEach(bookmarks: seq<Bookmark>) returns (outcome: Outcome)
      modifies workflowScheduler
      ensures var run := UnscheduleRun(bookmarks, workflowScheduler.accepts, old(workflowScheduler.trace));
        && outcome == run.outcome
        && workflowScheduler.trace == old(workflowScheduler.trace) + run.calls
        && workflowScheduler.jobs == Replay(old(workflowScheduler.jobs), run.calls)
    {
      ghost var accepts := workflowScheduler.accepts;
      ghost var history := workflowScheduler.trace;
      ghost var jobs := workflowScheduler.jobs;
      ghost var run := UnscheduleRun(bookmarks, accepts, history);
      ghost var calls: seq<Call> := [];
      assert bookmarks[0..] == bookmarks;

      for i := 0 to |bookmarks|
        invariant workflowScheduler.trace == history + calls
        invariant workflowScheduler.jobs == Replay(jobs, calls)
        invariant run == Prepend([], calls, UnscheduleRun(bookmarks[i..], accepts, history + calls))
      {
        ghost var rest := bookmarks[i..];
        var bookmark := bookmarks[i];
        assert rest[0] == bookmark && rest[1..] == bookmarks[i + 1..];
        UnscheduleRunStep(rest, accepts, history + calls);
        var ok := workflowScheduler.UnscheduleAsync(bookmark.id);
        if !ok {
          outcome := Failed(SchedulingBackendError(bookmark.id));
          assert calls + [] == calls;
          return;
        }
        ghost var call := Unschedule(bookmark.id);
        RunStep(history, [], jobs, [], calls, [], call, UnscheduleRun(rest[1..], accepts, history + calls + [call]));
        calls := calls + [call];
      }
      outcome := Completed;
      assert calls + [] == calls;
    }
  }
}
