# Elsa bookmark scheduler, modelled in Dafny

This project models `DefaultBookmarkScheduler`, the Elsa workflow engine's
bridge between time-based bookmarks and its job scheduler. When a workflow
instance suspends on a `Delay`, `StartAt` or `Timer` activity, it leaves a
bookmark whose payload holds the absolute time at which to resume.

- `ScheduleAsync` picks out the bookmarks of those three kinds. For each one
  it decodes the payload, builds a dispatch request (this instance, this
  bookmark) and asks the workflow scheduler to run it at the payload's time,
  under the bookmark's id.
- `UnscheduleAsync` picks out the same bookmarks and cancels the job under
  each id. It decodes nothing.

Modules, one concept each:

- `Bookmarks` (`bookmarks.dfy`) holds the records and the kind selection.
  `Filter` keeps the bookmarks of one kind, in order. `Selected` is all
  delays, then all start-ats, then all timers.
- `Serialization` (`serialization.dfy`) holds the payload serializer. A
  `Codec` is an arbitrary partial decoder per payload type.
  `PayloadSerializer` is a class that decodes with it and logs every
  request it receives. `ResumeTime` reads the time field of each kind's
  payload: `ResumeAt`, `ExecuteAt` or `ResumeAt`.
- `WorkflowScheduling` (`workflow_scheduling.dfy`) holds the backend.
  `RecordingWorkflowScheduler` is a fake with a trace of the calls it
  completed and a map from key to job. An `Acceptance` function of the
  trace and the call decides whether a call completes. `Replay` gives the
  jobs a sequence of calls leaves behind.
- `SchedulePlan` (`schedule_plan.dfy`) gives, as values, what one call of
  the bookmark scheduler does. `ScheduleRun` and `UnscheduleRun` describe
  one fail-fast pass over a list. `ScheduleBookmarks` is the three groups
  in turn, and `UnscheduleBookmarks` is one pass over the concatenation.
  The module's lemmas state the promised properties.
- `BookmarkScheduler` (`bookmark_scheduler.dfy`) holds the class itself.
  It keeps the two collaborators in fields, and its methods are loops that
  call them. Each method is proved to leave the backend's trace and jobs,
  and the serializer's log, exactly as the plan says.
- `Scenario` (`scenario.dfy`) is a worked batch of a delay, a timer and an
  unrelated bookmark.

An exception in the source ends the current method at once. Here a failure
is an `Outcome` value: `Failed(PayloadDecodeError(id, kind))` or
`Failed(SchedulingBackendError(key))`. The effects made up to that point
stay, so nothing is rolled back. The trace records only the calls the
backend completed, so a failed call leaves no entry.

The code processes the three kinds as three separate groups: every delay,
then every start-at, then every timer. Within each group the input order is
kept. So the calls follow kind order, not input order.

## Model

| member | source | states |
|---|---|---|
| `Bookmarks.Filter` | src/modules/Elsa.Scheduling/Services/DefaultBookmarkScheduler.cs:33-39 | the selection of a kind holds exactly the input's bookmarks of that kind and is no longer than the input |
| `Bookmarks.Selected` | src/modules/Elsa.Scheduling/Services/DefaultBookmarkScheduler.cs:84 | the bookmarks both operations act on: the delay, start-at and timer selections concatenated in that order. Its ensures says a bookmark is in it if and only if it is an input bookmark of a time-based kind |
| `Bookmarks.SelectedCount` | src/modules/Elsa.Scheduling/Services/DefaultBookmarkScheduler.cs:33-39 | each bookmark occurs in the selection exactly as often as in the input when its kind is time-based, and never otherwise |
| `Bookmarks.SelectedGroupedByKind` | src/modules/Elsa.Scheduling/Services/DefaultBookmarkScheduler.cs:42-66 | along the selection the kinds never go back: all delays, then all start-ats, then all timers; every selected bookmark is time-based |
| `Bookmarks.SelectedKeepsInputOrder` | src/modules/Elsa.Scheduling/Services/DefaultBookmarkScheduler.cs:33-39 | for each time-based kind, the selection's bookmarks of that kind are the input's, in input order |
| `Bookmarks.FilterFilter` | src/modules/Elsa.Scheduling/Services/DefaultBookmarkScheduler.cs:33-39 | selecting a kind again changes nothing; selecting another kind from it leaves nothing |
| `Bookmarks.SelectedEmpty` | src/modules/Elsa.Scheduling/Services/DefaultBookmarkScheduler.cs:30-39 | the selection is empty if and only if no input bookmark is time-based |
| `Bookmarks.SelectedIds` | src/modules/Elsa.Scheduling/Services/DefaultBookmarkScheduler.cs:72-84 | the ids in the selection are exactly the ids of the input's time-based bookmarks |
| `Serialization.PayloadSerializer.DeserializeDelay` | src/modules/Elsa.Scheduling/Services/DefaultBookmarkScheduler.cs:44 | yields the codec's delay payload for the data, or none, and logs one delay-payload request for that data |
| `Serialization.PayloadSerializer.DeserializeStartAt` | src/modules/Elsa.Scheduling/Services/DefaultBookmarkScheduler.cs:53 | yields the codec's start-at payload for the data, or none, and logs one start-at-payload request for that data |
| `Serialization.PayloadSerializer.DeserializeTimer` | src/modules/Elsa.Scheduling/Services/DefaultBookmarkScheduler.cs:62 | yields the codec's timer payload for the data, or none, and logs one timer-payload request for that data |
| `Serialization.PayloadTypeOf` | src/modules/Elsa.Scheduling/Services/DefaultBookmarkScheduler.cs:44-62 | definition, no contract: the payload type asked of the serializer for each time-based kind (delay, start-at and timer payloads at lines 44, 53 and 62); `ScheduleRunDecodes` states that every decode request uses it |
| `Serialization.ResumeTime` | src/modules/Elsa.Scheduling/Services/DefaultBookmarkScheduler.cs:44-63 | definition, no contract: the time a bookmark is scheduled at, read from `ResumeAt` for delays, `ExecuteAt` for start-ats and `ResumeAt` for timers (lines 45, 54 and 63), or none when the payload does not decode; `ScheduleRunCalls` and `ScheduleRunOutcome` state how the calls and the failure depend on it |
| `WorkflowScheduling.RecordingWorkflowScheduler.ScheduleAtAsync` | src/modules/Elsa.Scheduling/Services/DefaultBookmarkScheduler.cs:47 | completes as the acceptance decides; when it completes, the call is appended to the trace and the key's job is replaced; otherwise nothing changes |
| `WorkflowScheduling.RecordingWorkflowScheduler.UnscheduleAsync` | src/modules/Elsa.Scheduling/Services/DefaultBookmarkScheduler.cs:88 | completes as the acceptance decides; when it completes, the call is appended to the trace and the key has no job; otherwise nothing changes |
| `WorkflowScheduling.Apply` | src/modules/Elsa.Scheduling/Services/DefaultBookmarkScheduler.cs:47-88 | definition, no contract: the fake backend's job map after one completed call; a schedule call sets the job under its key, an unschedule call removes the key. The ensures of the two backend methods state this same update |
| `WorkflowScheduling.Replay` | src/modules/Elsa.Scheduling/Services/DefaultBookmarkScheduler.cs:47-88 | definition, no contract: the jobs a sequence of completed calls leaves, applied in order; its properties are the `Replay…` lemmas below |
| `WorkflowScheduling.ReplayAppend` | src/modules/Elsa.Scheduling/Services/DefaultBookmarkScheduler.cs:42-88 | completing two sequences of calls one after the other leaves the jobs that completing their concatenation leaves |
| `WorkflowScheduling.ReplaySchedulesOverride` | src/modules/Elsa.Scheduling/Services/DefaultBookmarkScheduler.cs:47 | schedule calls only overwrite: starting from `jobs + w`, they leave `jobs` overridden by what they leave on top of `w` |
| `WorkflowScheduling.ReplayOutside` | src/modules/Elsa.Scheduling/Services/DefaultBookmarkScheduler.cs:47 | calls that never name a key leave that key's job, or its absence, as it was |
| `WorkflowScheduling.ReplayUnschedules` | src/modules/Elsa.Scheduling/Services/DefaultBookmarkScheduler.cs:88 | a run of unschedule calls removes exactly the keys it names |
| `WorkflowScheduling.ReplaySchedulesIdempotent` | src/modules/Elsa.Scheduling/Services/DefaultBookmarkScheduler.cs:47 | completing the same schedule calls a second time leaves the same jobs: one job per key |
| `WorkflowScheduling.UnscheduleAfterCalls` | src/modules/Elsa.Scheduling/Services/DefaultBookmarkScheduler.cs:87-88 | unscheduling every key of a set, after calls that touch only keys of it, leaves the jobs outside the set as they were and none inside |
| `SchedulePlan.UnscheduleRun` | src/modules/Elsa.Scheduling/Services/DefaultBookmarkScheduler.cs:87-88 | the reference definition of the unscheduling pass: one unschedule call per bookmark, in order, stopping at the first refused one; its properties are in `UnscheduleRunCalls`. Its own ensures says only that the pass produces no decode requests. The promise that unscheduling never decodes is carried by the frame of `DefaultBookmarkScheduler.UnscheduleAsync`, which leaves the serializer unchanged |
| `SchedulePlan.ScheduleCall` | src/modules/Elsa.Scheduling/Services/DefaultBookmarkScheduler.cs:46-47 | definition, no contract: the backend call for one bookmark, keyed by the bookmark id, dispatching (instance id, bookmark id) at the given time; `ScheduleBookmarksCalls` spells these fields out for every call a batch makes |
| `SchedulePlan.ScheduleRun` | src/modules/Elsa.Scheduling/Services/DefaultBookmarkScheduler.cs:42-66 | definition, no contract: the reference definition of one scheduling loop; for each bookmark in turn decode its payload, build its call and issue it, stopping at the first decode failure or refused call. Its properties are `ScheduleRunCalls`, `ScheduleRunAccepted`, `ScheduleRunOutcome` and `ScheduleRunDecodes`, and the three loop methods are proved equal to it |
| `SchedulePlan.ScheduleGroups` | src/modules/Elsa.Scheduling/Services/DefaultBookmarkScheduler.cs:42-66 | definition, no contract: the three loops in turn. The start-at group runs only if the delay group completed, the timer group only if both completed. `ScheduleGroupsAppend` proves it is one pass over the concatenation |
| `SchedulePlan.ScheduleBookmarks` | src/modules/Elsa.Scheduling/Services/DefaultBookmarkScheduler.cs:30-66 | definition, no contract: what `ScheduleAsync` does, namely `ScheduleGroups` on the delay, start-at and timer selections of the batch. `ScheduleAsync` is proved to produce it, and `ScheduleBookmarksCalls` and `ScheduleBookmarksIsOneRun` state its properties |
| `SchedulePlan.UnscheduleBookmarks` | src/modules/Elsa.Scheduling/Services/DefaultBookmarkScheduler.cs:72-88 | definition, no contract: what `UnscheduleAsync` does, namely one unscheduling pass over the selection. `UnscheduleAsync` is proved to produce it, and `UnscheduleBookmarksCalls` states its properties |
| `SchedulePlan.ScheduleRunCalls` | src/modules/Elsa.Scheduling/Services/DefaultBookmarkScheduler.cs:42-48 | the completed calls are those of a prefix of the bookmarks, one each, in order; each is keyed by the bookmark id, dispatches (instance id, bookmark id) and runs at the time its payload decodes to |
| `SchedulePlan.ScheduleRunAccepted` | src/modules/Elsa.Scheduling/Services/DefaultBookmarkScheduler.cs:42-48 | each completed call was accepted by the backend after exactly the calls completed before it |
| `SchedulePlan.ScheduleRunOutcome` | src/modules/Elsa.Scheduling/Services/DefaultBookmarkScheduler.cs:42-48 | fail-fast: the pass completes if and only if every bookmark was scheduled; otherwise it reports the first bookmark not scheduled, because its payload did not decode or the backend refused its call |
| `SchedulePlan.ScheduleRunDecodes` | src/modules/Elsa.Scheduling/Services/DefaultBookmarkScheduler.cs:44-45 | the serializer is asked, in order, for the payload of every bookmark up to the one the pass stopped at, each in its kind's payload type, and nothing else |
| `SchedulePlan.UnscheduleRunCalls` | src/modules/Elsa.Scheduling/Services/DefaultBookmarkScheduler.cs:87-88 | the completed calls unschedule a prefix of the bookmarks, one call each, keyed by id; the pass completes if and only if all were cancelled, and otherwise reports the refused key |
| `SchedulePlan.UnscheduleRunAccepted` | src/modules/Elsa.Scheduling/Services/DefaultBookmarkScheduler.cs:87-88 | each completed unschedule call was accepted after exactly the calls completed before it |
| `SchedulePlan.ScheduleRunKeys` | src/modules/Elsa.Scheduling/Services/DefaultBookmarkScheduler.cs:47 | the keys scheduled are a prefix of the bookmarks' ids, all of them exactly when the pass completes, and every call is a schedule call |
| `SchedulePlan.UnscheduleRunKeys` | src/modules/Elsa.Scheduling/Services/DefaultBookmarkScheduler.cs:88 | the keys cancelled are a prefix of the bookmarks' ids, all of them exactly when the pass completes, and every call is an unschedule call |
| `SchedulePlan.ScheduleRunAppend` | src/modules/Elsa.Scheduling/Services/DefaultBookmarkScheduler.cs:42-66 | a pass over two lists is a pass over the first followed, only when that completed, by a pass over the second |
| `SchedulePlan.ScheduleGroupsAppend` | src/modules/Elsa.Scheduling/Services/DefaultBookmarkScheduler.cs:42-66 | scheduling three groups in turn, each reached only if the ones before completed, is one pass over their concatenation |
| `SchedulePlan.ScheduleBookmarksIsOneRun` | src/modules/Elsa.Scheduling/Services/DefaultBookmarkScheduler.cs:30-66 | scheduling the three groups of a batch is one fail-fast pass over its selection |
| `SchedulePlan.ScheduleBookmarksCalls` | src/modules/Elsa.Scheduling/Services/DefaultBookmarkScheduler.cs:30-66 | a batch sends one schedule call per selected bookmark, in selection order, with its id as key, (instance id, bookmark id) as request and its kind's payload time; all of them exactly when it completes |
| `SchedulePlan.UnscheduleBookmarksCalls` | src/modules/Elsa.Scheduling/Services/DefaultBookmarkScheduler.cs:72-88 | a batch sends one unschedule call per selected bookmark, in selection order, keyed by id; all of them exactly when it completes; it decodes nothing |
| `SchedulePlan.ScheduleAndUnscheduleKeysMatch` | src/modules/Elsa.Scheduling/Services/DefaultBookmarkScheduler.cs:42-88 | the keys scheduled and the keys cancelled are both prefixes of the selection's ids, and equal to them when both batches complete |
| `SchedulePlan.NoTimeBasedBookmarksNoCalls` | src/modules/Elsa.Scheduling/Services/DefaultBookmarkScheduler.cs:30-88 | a batch without time-based bookmarks makes no call of either kind and completes; scheduling decodes nothing if and only if there is no time-based bookmark |
| `SchedulePlan.ScheduleThenUnscheduleRun` | src/modules/Elsa.Scheduling/Services/DefaultBookmarkScheduler.cs:42-88 | a completed unscheduling of a list, after any scheduling pass over it, removes the jobs under its ids and keeps every other key as it was |
| `SchedulePlan.ScheduleThenUnscheduleRemovesJobs` | src/modules/Elsa.Scheduling/Services/DefaultBookmarkScheduler.cs:30-88 | after scheduling a batch, even partway, a completed unscheduling of it leaves exactly the earlier jobs minus those under its time-based bookmarks' ids |
| `SchedulePlan.RescheduleIsIdempotent` | src/modules/Elsa.Scheduling/Services/DefaultBookmarkScheduler.cs:42-66 | scheduling a batch twice, both completing, issues the same calls and leaves the same jobs as scheduling it once |
| `BookmarkScheduler.DefaultBookmarkScheduler.constructor` | src/modules/Elsa.Scheduling/Services/DefaultBookmarkScheduler.cs:21-25 | the scheduler keeps exactly the workflow scheduler and the payload serializer it is given |
| `BookmarkScheduler.DefaultBookmarkScheduler.ScheduleAsync` | src/modules/Elsa.Scheduling/Services/DefaultBookmarkScheduler.cs:28-67 | the outcome, the backend's new trace and jobs, and the serializer's new log are those of `ScheduleBookmarks` on the old trace |
| `BookmarkScheduler.DefaultBookmarkScheduler.ScheduleDelayBookmarks` | src/modules/Elsa.Scheduling/Services/DefaultBookmarkScheduler.cs:42-48 | the delay loop leaves the outcome, trace, jobs and log of a fail-fast pass over the delay bookmarks |
| `BookmarkScheduler.DefaultBookmarkScheduler.ScheduleStartAtBookmarks` | src/modules/Elsa.Scheduling/Services/DefaultBookmarkScheduler.cs:51-57 | the start-at loop leaves the outcome, trace, jobs and log of a fail-fast pass over the start-at bookmarks |
| `BookmarkScheduler.DefaultBookmarkScheduler.ScheduleTimerBookmarks` | src/modules/Elsa.Scheduling/Services/DefaultBookmarkScheduler.cs:60-66 | the timer loop leaves the outcome, trace, jobs and log of a fail-fast pass over the timer bookmarks |
| `BookmarkScheduler.DefaultBookmarkScheduler.UnscheduleAsync` | src/modules/Elsa.Scheduling/Services/DefaultBookmarkScheduler.cs:70-89 | the outcome and the backend's new trace and jobs are those of `UnscheduleBookmarks` on the old trace; the serializer is untouched |
| `BookmarkScheduler.DefaultBookmarkScheduler.UnscheduleEach` | src/modules/Elsa.Scheduling/Services/DefaultBookmarkScheduler.cs:87-88 | the unschedule loop leaves the outcome, trace and jobs of a fail-fast unscheduling pass over its list |
| `Scenario.ScheduleScenario` | src/modules/Elsa.Scheduling/Services/DefaultBookmarkScheduler.cs:30-66 | for a delay, a timer and an unrelated bookmark, on a backend that completes every call, scheduling decodes and schedules the delay and then the timer at their times, and nothing for the third |
| `Scenario.UnscheduleScenario` | src/modules/Elsa.Scheduling/Services/DefaultBookmarkScheduler.cs:72-88 | for the same batch, unscheduling cancels exactly the delay's and the timer's keys, in that order |

## Left out

- Async and cancellation: `Task` and `await` become plain sequential calls. The `CancellationToken` is not modelled, so nothing is proved about cancelling mid-batch.
- Exceptions: a failure is an `Outcome` value, not a thrown exception. The `SchedulingError` names the bookmark or key; the source propagates whatever the collaborator threw.
- Serializer internals: how `IBookmarkPayloadSerializer` parses data is not modelled. Three cases fold into one `None`: a payload that does not decode, a `null` result (the `!` at lines 44, 53 and 62 followed by a field read), and `null` bookmark data (`bookmark.Data!`).
- Backend behaviour: `IWorkflowScheduler` is a recording fake. Whether a call completes is an arbitrary function of the completed calls and the call. Durability, firing times and concurrent callers are not modelled.
- `Filter<T>()` and activity-type names: the extension is not part of this model. It is modelled as an order-preserving selection by an equal kind tag, like a LINQ `Where` on the activity type.
- `DateTimeOffset` is an unbounded integer, because the code does no arithmetic on it.
- The three `foreach` loops of `ScheduleAsync` and the loop of `UnscheduleAsync` are separate helper methods (`ScheduleDelayBookmarks`, `ScheduleStartAtBookmarks`, `ScheduleTimerBookmarks`, `UnscheduleEach`). The calls they make, and their order, are those of the source.
- `ToList()` copies are modelled as immutable sequences, so no aliasing can arise.
- The `workflowInstanceId` parameter of `UnscheduleAsync` is accepted and unused, as in the source.
