/**
 What one call of the bookmark scheduler does, as values: the decode
 requests it makes, the backend calls that complete, and how it ends. The
 scheduler object's methods are proved to produce exactly this; the lemmas
 here state what it means.
 */
module SchedulePlan {
  import opened Wrappers
  import opened Bookmarks
  import opened Serialization
  import opened WorkflowScheduling

  /** Why a batch stopped: a payload that did not decode, or a backend call
      that failed. Either names the bookmark it happened on. */
  datatype SchedulingError =
    | PayloadDecodeError(bookmarkId: string, kind: Kind)
    | SchedulingBackendError(key: string)

  datatype Outcome = Completed | Failed(error: SchedulingError)

  /** The observable effect of one batch: decode requests made, backend calls
      completed (both in order) and the outcome. */
  datatype Run = Run(decoded: seq<DecodeRequest>, calls: seq<Call>, outcome: Outcome)

  /** `r` preceded by decode requests and completed calls that came first. */
  function Prepend(decoded: seq<DecodeRequest>, calls: seq<Call>, r: Run): Run {
    Run(decoded + r.decoded, calls + r.calls, r.outcome)
  }

  /** The backend call for bookmark `b` resuming at `at`: keyed by the
      bookmark id, dispatching the instance at that bookmark. */
  function ScheduleCall(workflowInstanceId: string, b: Bookmark, at: int): Call {
    ScheduleAt(b.id, DispatchRequest(workflowInstanceId, b.id), at)
  }

  predicate AllTimeBased(bs: seq<Bookmark>) {
    forall b :: b in bs ==> IsTimeBased(b.kind)
  }

  /** Scheduling the time-based bookmarks `bs`, one after the other, on a
      backend that has completed `history`: decode, build the call, issue
      it; stop at the first failure. */
  function ScheduleRun(workflowInstanceId: string, bs: seq<Bookmark>, codec: Codec,
                       accepts: Acceptance, history: seq<Call>): Run
    requires AllTimeBased(bs)
    decreases bs
  {
    if bs == [] then Run([], [], Completed)
    else
      var b := bs[0];
      var request := DecodeRequest(PayloadTypeOf(b.kind), b.data);
      match ResumeTime(codec, b)
      case None => Run([request], [], Failed(PayloadDecodeError(b.id, b.kind)))
      case Some(at) =>
        var call := ScheduleCall(workflowInstanceId, b, at);
        if !accepts(history, call) then Run([request], [], Failed(SchedulingBackendError(b.id)))
        else Prepend([request], [call], ScheduleRun(workflowInstanceId, bs[1..], codec, accepts, history + [call]))
  }

  /** Unscheduling the bookmarks `bs`, one after the other; stop at the
      first failure. No payload is decoded. */
  function UnscheduleRun(bs: seq<Bookmark>, accepts: Acceptance, history: seq<Call>): (r: Run)
    ensures r.decoded == []
    decreases bs
  {
    if bs == [] then Run([], [], Completed)
    else
      var call := Unschedule(bs[0].id);
      if !accepts(history, call) then Run([], [], Failed(SchedulingBackendError(bs[0].id)))
      else Prepend([], [call], UnscheduleRun(bs[1..], accepts, history + [call]))
  }

  lemma SelectedAllTimeBased(bookmarks: seq<Bookmark>)
    ensures AllTimeBased(Selected(bookmarks))
  {
    SelectedGroupedByKind(bookmarks);
  }

  /** Scheduling three groups of bookmarks one group after the other; a
      group is reached only when every group before it completed. */
  function ScheduleGroups(workflowInstanceId: string, d: seq<Bookmark>, s: seq<Bookmark>, t: seq<Bookmark>,
                          codec: Codec, accepts: Acceptance, history: seq<Call>): Run
    requires AllTimeBased(d) && AllTimeBased(s) && AllTimeBased(t)
  {
    var rd := ScheduleRun(workflowInstanceId, d, codec, accepts, history);
    if rd.outcome != Completed then rd
    else
      var rs := ScheduleRun(workflowInstanceId, s, codec, accepts, history + rd.calls);
      if rs.outcome != Completed then Prepend(rd.decoded, rd.calls, rs)
      else
        var rt := ScheduleRun(workflowInstanceId, t, codec, accepts, history + (rd.calls + rs.calls));
        Prepend(rd.decoded + rs.decoded, rd.calls + rs.calls, rt)
  }

  /** What scheduling a batch of bookmarks does: its delays, then its
      start-ats, then its timers. */
  function ScheduleBookmarks(workflowInstanceId: string, bookmarks: seq<Bookmark>, codec: Codec,
                             accepts: Acceptance, history: seq<Call>): Run
  {
    ScheduleGroups(workflowInstanceId, Filter(bookmarks, Delay), Filter(bookmarks, StartAt),
                   Filter(bookmarks, Timer), codec, accepts, history)
  }

  /** What unscheduling a batch of bookmarks does. */
  function UnscheduleBookmarks(bookmarks: seq<Bookmark>, accepts: Acceptance, history: seq<Call>): Run {
    UnscheduleRun(Selected(bookmarks), accepts, history)
  }

  /** The calls that complete are those of the first `n` bookmarks, in order,
      one each: keyed by the bookmark's id, carrying the instance id and the
      bookmark's id, at the time its payload gives. */
  lemma {:induction false} ScheduleRunCalls(workflowInstanceId: string, bs: seq<Bookmark>, codec: Codec,
                                            accepts: Acceptance, history: seq<Call>)
    requires AllTimeBased(bs)
    ensures var r := ScheduleRun(workflowInstanceId, bs, codec, accepts, history);
      && |r.calls| <= |bs|
      && forall j :: 0 <= j < |r.calls| ==>
           ResumeTime(codec, bs[j]).Some? &&
           r.calls[j] == ScheduleCall(workflowInstanceId, bs[j], ResumeTime(codec, bs[j]).value)
    decreases bs
  {
    if bs != [] && ResumeTime(codec, bs[0]).Some? {
      var call := ScheduleCall(workflowInstanceId, bs[0], ResumeTime(codec, bs[0]).value);
      if accepts(history, call) {
        var rest := ScheduleRun(workflowInstanceId, bs[1..], codec, accepts, history + [call]);
        assert ScheduleRun(workflowInstanceId, bs, codec, accepts, history).calls == [call] + rest.calls;
        ScheduleRunCalls(workflowInstanceId, bs[1..], codec, accepts, history + [call]);
      }
    }
  }

  /** Each of `calls` was accepted by the backend after `history` and the
      calls before it. */
  ghost predicate AcceptedInOrder(accepts: Acceptance, history: seq<Call>, calls: seq<Call>) {
    forall j :: 0 <= j < |calls| ==> accepts(history + calls[..j], calls[j])
  }

  lemma AcceptedInOrderCons(accepts: Acceptance, history: seq<Call>, call: Call, calls: seq<Call>)
    requires accepts(history, call) && AcceptedInOrder(accepts, history + [call], calls)
    ensures AcceptedInOrder(accepts, history, [call] + calls)
  {
    var all := [call] + calls;
    forall j | 0 <= j < |all| ensures accepts(history + all[..j], all[j]) {
      if j == 0 {
        assert history + all[..0] == history;
      } else {
        assert all[..j] == [call] + calls[..j - 1];
        assert history + all[..j] == (history + [call]) + calls[..j - 1];
        assert all[j] == calls[j - 1];
      }
    }
  }

  /** Each call that completed was accepted by the backend after the calls
      completed before it. */
  lemma {:induction false} ScheduleRunAccepted(workflowInstanceId: string, bs: seq<Bookmark>, codec: Codec,
                                               accepts: Acceptance, history: seq<Call>)
    requires AllTimeBased(bs)
    ensures AcceptedInOrder(accepts, history, ScheduleRun(workflowInstanceId, bs, codec, accepts, history).calls)
    decreases bs
  {
    if bs != [] && ResumeTime(codec, bs[0]).Some? {
      var call := ScheduleCall(workflowInstanceId, bs[0], ResumeTime(codec, bs[0]).value);
      if accepts(history, call) {
        var rest := ScheduleRun(workflowInstanceId, bs[1..], codec, accepts, history + [call]);
        assert ScheduleRun(workflowInstanceId, bs, codec, accepts, history).calls == [call] + rest.calls;
        ScheduleRunAccepted(workflowInstanceId, bs[1..], codec, accepts, history + [call]);
        AcceptedInOrderCons(accepts, history, call, rest.calls);
      }
    }
  }

  /** Fail-fast: the batch completes exactly when every bookmark was
      scheduled; otherwise it stops at the first bookmark not scheduled,
      whose payload did not decode or whose call the backend refused, and
      reports that bookmark. */
  lemma {:induction false} ScheduleRunOutcome(workflowInstanceId: string, bs: seq<Bookmark>, codec: Codec,
                                              accepts: Acceptance, history: seq<Call>)
    requires AllTimeBased(bs)
    ensures var r := ScheduleRun(workflowInstanceId, bs, codec, accepts, history);
      var n := |r.calls|;
      && (r.outcome == Completed <==> n == |bs|)
      && (n < |bs| && ResumeTime(codec, bs[n]).None? ==>
            r.outcome == Failed(PayloadDecodeError(bs[n].id, bs[n].kind)))
      && (n < |bs| && ResumeTime(codec, bs[n]).Some? ==>
            r.outcome == Failed(SchedulingBackendError(bs[n].id)) &&
            !accepts(history + r.calls, ScheduleCall(workflowInstanceId, bs[n], ResumeTime(codec, bs[n]).value)))
    decreases bs
  {
    ScheduleRunCalls(workflowInstanceId, bs, codec, accepts, history);
    assert history + [] == history;
    if bs != [] && ResumeTime(codec, bs[0]).Some? {
      var call := ScheduleCall(workflowInstanceId, bs[0], ResumeTime(codec, bs[0]).value);
      if accepts(history, call) {
        var rest := ScheduleRun(workflowInstanceId, bs[1..], codec, accepts, history + [call]);
        var r := ScheduleRun(workflowInstanceId, bs, codec, accepts, history);
        assert r.calls == [call] + rest.calls && r.outcome == rest.outcome;
        ScheduleRunOutcome(workflowInstanceId, bs[1..], codec, accepts, history + [call]);
        var n := |rest.calls|;
        if n < |bs| - 1 {
          assert bs[n + 1] == bs[1..][n];
        }
        assert history + r.calls == (history + [call]) + rest.calls;
      }
    }
  }

  /** The serializer is asked, in order, for the payload of every bookmark
      up to and including the one the batch stopped at, each in the payload
      type of its kind, and for nothing else. */
  lemma {:induction false} ScheduleRunDecodes(workflowInstanceId: string, bs: seq<Bookmark>, codec: Codec,
                                              accepts: Acceptance, history: seq<Call>)
    requires AllTimeBased(bs)
    ensures var r := ScheduleRun(workflowInstanceId, bs, codec, accepts, history);
      && |r.decoded| == (if r.outcome == Completed then |r.calls| else |r.calls| + 1)
      && |r.decoded| <= |bs|
      && (forall j :: 0 <= j < |r.decoded| ==>
            r.decoded[j] == DecodeRequest(PayloadTypeOf(bs[j].kind), bs[j].data))
    decreases bs
  {
    if bs != [] && ResumeTime(codec, bs[0]).Some? {
      var call := ScheduleCall(workflowInstanceId, bs[0], ResumeTime(codec, bs[0]).value);
      if accepts(history, call) {
        ScheduleRunDecodes(workflowInstanceId, bs[1..], codec, accepts, history + [call]);
      }
    }
  }

  /** Unscheduling cancels the first `n` bookmarks, in order, one call each
      keyed by the bookmark id; it completes exactly when all were cancelled
      and otherwise reports the bookmark whose cancellation failed. */
  lemma {:induction false} UnscheduleRunCalls(bs: seq<Bookmark>, accepts: Acceptance, history: seq<Call>)
    ensures var r := UnscheduleRun(bs, accepts, history);
      var n := |r.calls|;
      && n <= |bs|
      && (forall j :: 0 <= j < n ==> r.calls[j] == Unschedule(bs[j].id))
      && (r.outcome == Completed <==> n == |bs|)
      && (n < |bs| ==>
            r.outcome == Failed(SchedulingBackendError(bs[n].id)) &&
            !accepts(history + r.calls, Unschedule(bs[n].id)))
    decreases bs
  {
    assert history + [] == history;
    if bs != [] {
      var call := Unschedule(bs[0].id);
      if accepts(history, call) {
        var rest := UnscheduleRun(bs[1..], accepts, history + [call]);
        var r := UnscheduleRun(bs, accepts, history);
        assert r.calls == [call] + rest.calls && r.outcome == rest.outcome;
        UnscheduleRunCalls(bs[1..], accepts, history + [call]);
        var n := |rest.calls|;
        if n < |bs| - 1 {
          assert bs[n + 1] == bs[1..][n];
        }
        assert history + r.calls == (history + [call]) + rest.calls;
      }
    }
  }

  /** Each unschedule call that completed was accepted by the backend after
      the calls completed before it. */
  lemma {:induction false} UnscheduleRunAccepted(bs: seq<Bookmark>, accepts: Acceptance, history: seq<Call>)
    ensures AcceptedInOrder(accepts, history, UnscheduleRun(bs, accepts, history).calls)
    decreases bs
  {
    if bs != [] {
      var call := Unschedule(bs[0].id);
      if accepts(history, call) {
        var rest := UnscheduleRun(bs[1..], accepts, history + [call]);
        assert UnscheduleRun(bs, accepts, history).calls == [call] + rest.calls;
        UnscheduleRunAccepted(bs[1..], accepts, history + [call]);
        AcceptedInOrderCons(accepts, history, call, rest.calls);
      }
    }
  }

  /** The keys a scheduling run used, as a prefix of its bookmarks' ids. */
  lemma ScheduleRunKeys(workflowInstanceId: string, bs: seq<Bookmark>, codec: Codec,
                        accepts: Acceptance, history: seq<Call>)
    requires AllTimeBased(bs)
    ensures var r := ScheduleRun(workflowInstanceId, bs, codec, accepts, history);
      && |r.calls| <= |bs|
      && Keys(r.calls) == Ids(bs)[..|r.calls|]
      && AllSchedule(r.calls)
      && (r.outcome == Completed <==> |r.calls| == |bs|)
  {
    ScheduleRunCalls(workflowInstanceId, bs, codec, accepts, history);
    ScheduleRunOutcome(workflowInstanceId, bs, codec, accepts, history);
  }

  /** The keys an unscheduling run used, as a prefix of its bookmarks' ids. */
  lemma UnscheduleRunKeys(bs: seq<Bookmark>, accepts: Acceptance, history: seq<Call>)
    ensures var r := UnscheduleRun(bs, accepts, history);
      && |r.calls| <= |bs|
      && Keys(r.calls) == Ids(bs)[..|r.calls|]
      && AllUnschedule(r.calls)
      && (r.outcome == Completed <==> |r.calls| == |bs|)
  {
    UnscheduleRunCalls(bs, accepts, history);
  }

  /** What scheduling a batch sends to the backend: one call for each
      selected bookmark, in selection order, keyed by its id, dispatching
      the instance at that bookmark, at the time its kind's payload gives;
      all of them exactly when the batch completes, else those before the
      bookmark it stopped at. */
  lemma ScheduleBookmarksCalls(workflowInstanceId: string, bookmarks: seq<Bookmark>, codec: Codec,
                               accepts: Acceptance, history: seq<Call>)
    ensures var bs := Selected(bookmarks);
      var r := ScheduleBookmarks(workflowInstanceId, bookmarks, codec, accepts, history);
      && AllTimeBased(bs)
      && |r.calls| <= |bs|
      && (r.outcome == Completed <==> |r.calls| == |bs|)
      && forall j :: 0 <= j < |r.calls| ==>
           ResumeTime(codec, bs[j]).Some? &&
           r.calls[j] == ScheduleAt(bs[j].id, DispatchRequest(workflowInstanceId, bs[j].id), ResumeTime(codec, bs[j]).value)
  {
    ScheduleBookmarksIsOneRun(workflowInstanceId, bookmarks, codec, accepts, history);
    ScheduleRunCalls(workflowInstanceId, Selected(bookmarks), codec, accepts, history);
    ScheduleRunOutcome(workflowInstanceId, Selected(bookmarks), codec, accepts, history);
  }

  /** What unscheduling a batch sends to the backend: one unschedule call for
      each selected bookmark, in selection order, keyed by its id; all of
      them exactly when the batch completes. Nothing is decoded. */
  lemma UnscheduleBookmarksCalls(bookmarks: seq<Bookmark>, accepts: Acceptance, history: seq<Call>)
    ensures var bs := Selected(bookmarks);
      var r := UnscheduleBookmarks(bookmarks, accepts, history);
      && r.decoded == []
      && |r.calls| <= |bs|
      && (r.outcome == Completed <==> |r.calls| == |bs|)
      && forall j :: 0 <= j < |r.calls| ==> r.calls[j] == Unschedule(bs[j].id)
  {
    UnscheduleRunCalls(Selected(bookmarks), accepts, history);
  }

  /** Scheduling and unscheduling the same batch act on the same keys, in the
      same order: the ids of the selected bookmarks. A batch that stopped
      early has acted on a prefix of them. */
  lemma ScheduleAndUnscheduleKeysMatch(workflowInstanceId: string, bookmarks: seq<Bookmark>, codec: Codec,
                                       scheduleAccepts: Acceptance, scheduleHistory: seq<Call>,
                                       unscheduleAccepts: Acceptance, unscheduleHistory: seq<Call>)
    ensures var s := ScheduleBookmarks(workflowInstanceId, bookmarks, codec, scheduleAccepts, scheduleHistory);
      var u := UnscheduleBookmarks(bookmarks, unscheduleAccepts, unscheduleHistory);
      && Keys(s.calls) <= Ids(Selected(bookmarks))
      && Keys(u.calls) <= Ids(Selected(bookmarks))
      && (s.outcome == Completed && u.outcome == Completed ==>
            Keys(s.calls) == Keys(u.calls) == Ids(Selected(bookmarks)))
  {
    ScheduleBookmarksIsOneRun(workflowInstanceId, bookmarks, codec, scheduleAccepts, scheduleHistory);
    var bs := Selected(bookmarks);
    SelectedAllTimeBased(bookmarks);
    ScheduleRunKeys(workflowInstanceId, bs, codec, scheduleAccepts, scheduleHistory);
    UnscheduleRunKeys(bs, unscheduleAccepts, unscheduleHistory);
  }

  /** A batch with no time-based bookmark makes no call of either kind and
      completes; and scheduling asks the serializer for nothing exactly when
      the batch has no time-based bookmark. */
  lemma NoTimeBasedBookmarksNoCalls(workflowInstanceId: string, bookmarks: seq<Bookmark>, codec: Codec,
                                    accepts: Acceptance, history: seq<Call>)
    ensures (forall b :: b in bookmarks ==> !IsTimeBased(b.kind)) <==>
      ScheduleBookmarks(workflowInstanceId, bookmarks, codec, accepts, history).decoded == []
    ensures (forall b :: b in bookmarks ==> !IsTimeBased(b.kind)) ==>
      && ScheduleBookmarks(workflowInstanceId, bookmarks, codec, accepts, history) == Run([], [], Completed)
      && UnscheduleBookmarks(bookmarks, accepts, history) == Run([], [], Completed)
  {
    ScheduleBookmarksIsOneRun(workflowInstanceId, bookmarks, codec, accepts, history);
    SelectedEmpty(bookmarks);
    SelectedAllTimeBased(bookmarks);
  }

  /** Unscheduling every bookmark of `bs` after scheduling some prefix of
      them removes the jobs under their ids and leaves every other key as
      it was. */
  lemma ScheduleThenUnscheduleRun(workflowInstanceId: string, bs: seq<Bookmark>, codec: Codec,
                                  scheduleAccepts: Acceptance, scheduleHistory: seq<Call>,
                                  unscheduleAccepts: Acceptance, unscheduleHistory: seq<Call>,
                                  jobs: map<string, Job>)
    requires AllTimeBased(bs)
    requires UnscheduleRun(bs, unscheduleAccepts, unscheduleHistory).outcome == Completed
    ensures var s := ScheduleRun(workflowInstanceId, bs, codec, scheduleAccepts, scheduleHistory);
      var u := UnscheduleRun(bs, unscheduleAccepts, unscheduleHistory);
      Replay(Replay(jobs, s.calls), u.calls) == jobs - (set j | 0 <= j < |bs| :: bs[j].id)
  {
    var ids := set j | 0 <= j < |bs| :: bs[j].id;
    var s := ScheduleRun(workflowInstanceId, bs, codec, scheduleAccepts, scheduleHistory).calls;
    var u := UnscheduleRun(bs, unscheduleAccepts, unscheduleHistory).calls;
    ScheduleRunKeys(workflowInstanceId, bs, codec, scheduleAccepts, scheduleHistory);
    UnscheduleRunKeys(bs, unscheduleAccepts, unscheduleHistory);
    IdsPrefix(bs, Keys(s));
    IdsPrefix(bs, Keys(u));
    UnscheduleAfterCalls(jobs, s, u, ids);
  }

  /** Unscheduling a batch after scheduling it leaves no job under any of its
      time-based bookmarks' ids and every other key as it was, even when
      scheduling stopped early. */
  lemma ScheduleThenUnscheduleRemovesJobs(workflowInstanceId: string, bookmarks: seq<Bookmark>, codec: Codec,
                                          scheduleAccepts: Acceptance, scheduleHistory: seq<Call>,
                                          unscheduleAccepts: Acceptance, unscheduleHistory: seq<Call>,
                                          jobs: map<string, Job>)
    requires UnscheduleBookmarks(bookmarks, unscheduleAccepts, unscheduleHistory).outcome == Completed
    ensures var s := ScheduleBookmarks(workflowInstanceId, bookmarks, codec, scheduleAccepts, scheduleHistory);
      var u := UnscheduleBookmarks(bookmarks, unscheduleAccepts, unscheduleHistory);
      Replay(Replay(jobs, s.calls), u.calls) == jobs - TimeBasedIds(bookmarks)
  {
    ScheduleBookmarksIsOneRun(workflowInstanceId, bookmarks, codec, scheduleAccepts, scheduleHistory);
    SelectedIds(bookmarks);
    ScheduleThenUnscheduleRun(workflowInstanceId, Selected(bookmarks), codec, scheduleAccepts, scheduleHistory,
                              unscheduleAccepts, unscheduleHistory, jobs);
  }

  /** Scheduling the same batch a second time issues the same calls and
      leaves the same jobs as scheduling it once: one job per key. */
  lemma RescheduleIsIdempotent(workflowInstanceId: string, bookmarks: seq<Bookmark>, codec: Codec,
                               accepts: Acceptance, history: seq<Call>, history': seq<Call>,
                               jobs: map<string, Job>)
    requires ScheduleBookmarks(workflowInstanceId, bookmarks, codec, accepts, history).outcome == Completed
    requires ScheduleBookmarks(workflowInstanceId, bookmarks, codec, accepts, history').outcome == Completed
    ensures var s := ScheduleBookmarks(workflowInstanceId, bookmarks, codec, accepts, history);
      var s' := ScheduleBookmarks(workflowInstanceId, bookmarks, codec, accepts, history');
      && s'.calls == s.calls
      && Replay(Replay(jobs, s.calls), s'.calls) == Replay(jobs, s.calls)
  {
    ScheduleBookmarksIsOneRun(workflowInstanceId, bookmarks, codec, accepts, history);
    ScheduleBookmarksIsOneRun(workflowInstanceId, bookmarks, codec, accepts, history');
    var bs := Selected(bookmarks);
    SelectedAllTimeBased(bookmarks);
    var s := ScheduleRun(workflowInstanceId, bs, codec, accepts, history);
    var s' := ScheduleRun(workflowInstanceId, bs, codec, accepts, history');
    ScheduleRunCalls(workflowInstanceId, bs, codec, accepts, history);
    ScheduleRunOutcome(workflowInstanceId, bs, codec, accepts, history);
    ScheduleRunCalls(workflowInstanceId, bs, codec, accepts, history');
    ScheduleRunOutcome(workflowInstanceId, bs, codec, accepts, history');
    assert s'.calls == s.calls;
    ReplaySchedulesIdempotent(jobs, s.calls);
  }

  /** `r` preceded by decode requests and calls, twice, in one go. */
  lemma PrependPrepend(d1: seq<DecodeRequest>, c1: seq<Call>, d2: seq<DecodeRequest>, c2: seq<Call>, r: Run)
    ensures Prepend(d1, c1, Prepend(d2, c2, r)) == Prepend(d1 + d2, c1 + c2, r)
  {
    assert d1 + (d2 + r.decoded) == (d1 + d2) + r.decoded;
    assert c1 + (c2 + r.calls) == (c1 + c2) + r.calls;
  }

  /** One step of a scheduling run: the first bookmark's payload does not
      decode, or its call is refused, or it is scheduled and the run goes on
      with the rest. */
  lemma ScheduleRunStep(workflowInstanceId: string, bs: seq<Bookmark>, codec: Codec,
                        accepts: Acceptance, history: seq<Call>)
    requires AllTimeBased(bs) && bs != []
    ensures var b := bs[0];
      var r := ScheduleRun(workflowInstanceId, bs, codec, accepts, history);
      var request := DecodeRequest(PayloadTypeOf(b.kind), b.data);
      && (ResumeTime(codec, b).None? ==> r == Run([request], [], Failed(PayloadDecodeError(b.id, b.kind))))
      && (ResumeTime(codec, b).Some? && !accepts(history, ScheduleCall(workflowInstanceId, b, ResumeTime(codec, b).value)) ==>
            r == Run([request], [], Failed(SchedulingBackendError(b.id))))
      && (ResumeTime(codec, b).Some? && accepts(history, ScheduleCall(workflowInstanceId, b, ResumeTime(codec, b).value)) ==>
            r == Prepend([request], [ScheduleCall(workflowInstanceId, b, ResumeTime(codec, b).value)],
                   ScheduleRun(workflowInstanceId, bs[1..], codec, accepts,
                               history + [ScheduleCall(workflowInstanceId, b, ResumeTime(codec, b).value)])))
  {
  }

  /** One step of an unscheduling run. */
  lemma UnscheduleRunStep(bs: seq<Bookmark>, accepts: Acceptance, history: seq<Call>)
    requires bs != []
    ensures UnscheduleRun(bs, accepts, history) ==
      if accepts(history, Unschedule(bs[0].id))
      then Prepend([], [Unschedule(bs[0].id)], UnscheduleRun(bs[1..], accepts, history + [Unschedule(bs[0].id)]))
      else Run([], [], Failed(SchedulingBackendError(bs[0].id)))
  {
  }

  /** Scheduling `xs + ys` is scheduling `xs` and, only if that completed,
      then scheduling `ys`: once a group of bookmarks fails, no bookmark of a
      later group is decoded or scheduled. */
  lemma {:induction false} ScheduleRunAppend(workflowInstanceId: string, xs: seq<Bookmark>, ys: seq<Bookmark>,
                                             codec: Codec, accepts: Acceptance, history: seq<Call>)
    requires AllTimeBased(xs) && AllTimeBased(ys)
    ensures AllTimeBased(xs + ys)
    ensures var rx := ScheduleRun(workflowInstanceId, xs, codec, accepts, history);
      ScheduleRun(workflowInstanceId, xs + ys, codec, accepts, history) ==
        if rx.outcome == Completed
        then Prepend(rx.decoded, rx.calls, ScheduleRun(workflowInstanceId, ys, codec, accepts, history + rx.calls))
        else rx
    decreases xs
  {
    if xs == [] {
      assert xs + ys == ys;
      assert history + [] == history;
    } else {
      var b := xs[0];
      assert (xs + ys)[0] == b && (xs + ys)[1..] == xs[1..] + ys;
      ScheduleRunStep(workflowInstanceId, xs, codec, accepts, history);
      ScheduleRunStep(workflowInstanceId, xs + ys, codec, accepts, history);
      if ResumeTime(codec, b).Some? {
        var call := ScheduleCall(workflowInstanceId, b, ResumeTime(codec, b).value);
        if accepts(history, call) {
          var request := DecodeRequest(PayloadTypeOf(b.kind), b.data);
          ScheduleRunAppend(workflowInstanceId, xs[1..], ys, codec, accepts, history + [call]);
          var rest := ScheduleRun(workflowInstanceId, xs[1..], codec, accepts, history + [call]);
          if rest.outcome == Completed {
            PrependPrepend([request], [call], rest.decoded, rest.calls,
              ScheduleRun(workflowInstanceId, ys, codec, accepts, history + [call] + rest.calls));
            assert history + [call] + rest.calls == history + ([call] + rest.calls);
          }
        }
      }
    }
  }

  /** Scheduling three groups in turn is one run over their concatenation. */
  lemma ScheduleGroupsAppend(workflowInstanceId: string, d: seq<Bookmark>, s: seq<Bookmark>, t: seq<Bookmark>,
                             codec: Codec, accepts: Acceptance, history: seq<Call>)
    requires AllTimeBased(d) && AllTimeBased(s) && AllTimeBased(t)
    ensures AllTimeBased(d + (s + t))
    ensures ScheduleGroups(workflowInstanceId, d, s, t, codec, accepts, history) ==
            ScheduleRun(workflowInstanceId, d + (s + t), codec, accepts, history)
  {
    var rd := ScheduleRun(workflowInstanceId, d, codec, accepts, history);
    ScheduleRunAppend(workflowInstanceId, d, s + t, codec, accepts, history);
    ScheduleRunAppend(workflowInstanceId, s, t, codec, accepts, history + rd.calls);
    var rs := ScheduleRun(workflowInstanceId, s, codec, accepts, history + rd.calls);
    assert history + rd.calls + rs.calls == history + (rd.calls + rs.calls);
    PrependPrepend(rd.decoded, rd.calls, rs.decoded, rs.calls,
      ScheduleRun(workflowInstanceId, t, codec, accepts, history + (rd.calls + rs.calls)));
  }

  /** Scheduling a batch group by group is one run over its selection: the
      batch behaves as a single fail-fast pass over the selected bookmarks. */
  lemma ScheduleBookmarksIsOneRun(workflowInstanceId: string, bookmarks: seq<Bookmark>, codec: Codec,
                                  accepts: Acceptance, history: seq<Call>)
    ensures AllTimeBased(Selected(bookmarks))
    ensures ScheduleBookmarks(workflowInstanceId, bookmarks, codec, accepts, history) ==
            ScheduleRun(workflowInstanceId, Selected(bookmarks), codec, accepts, history)
  {
    var d, s, t := Filter(bookmarks, Delay), Filter(bookmarks, StartAt), Filter(bookmarks, Timer);
    assert Selected(bookmarks) == d + (s + t);
    ScheduleGroupsAppend(workflowInstanceId, d, s, t, codec, accepts, history);
  }

  /** The effect of `r1` followed by `r2` on a trace, a log and a job map is
      that of `Prepend(r1.decoded, r1.calls, r2)`. */
  lemma RunsCompose(history: seq<Call>, log: seq<DecodeRequest>, jobs: map<string, Job>, r1: Run, r2: Run)
    ensures var r := Prepend(r1.decoded, r1.calls, r2);
      && history + r1.calls + r2.calls == history + r.calls
      && log + r1.decoded + r2.decoded == log + r.decoded
      && Replay(Replay(jobs, r1.calls), r2.calls) == Replay(jobs, r.calls)
  {
    ReplayAppend(jobs, r1.calls, r2.calls);
    assert history + r1.calls + r2.calls == history + (r1.calls + r2.calls);
    assert log + r1.decoded + r2.decoded == log + (r1.decoded + r2.decoded);
  }

  /** One more bookmark done: the decode requests it made and its call move
      from the rest of the run to what came before, on the run, the trace,
      the log and the job map alike. */
  lemma RunStep(history: seq<Call>, log: seq<DecodeRequest>, jobs: map<string, Job>,
                decoded: seq<DecodeRequest>, calls: seq<Call>, requests: seq<DecodeRequest>, call: Call, rest: Run)
    ensures Prepend(decoded, calls, Prepend(requests, [call], rest)) == Prepend(decoded + requests, calls + [call], rest)
    ensures history + calls + [call] == history + (calls + [call])
    ensures log + decoded + requests == log + (decoded + requests)
    ensures Replay(jobs, calls + [call]) == Apply(Replay(jobs, calls), call)
  {
    PrependPrepend(decoded, calls, requests, [call], rest);
    ReplayStep(jobs, calls, call);
  }
}
