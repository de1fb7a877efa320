# Release-daemon build scheduling, modelled in Dafny

The release daemon starts continuous-integration builds on a Jenkins server
for two release tracks, "internal" (dev) and "open". This project models its
two Jenkins client files:

- `ci-open.js`: the open-track client. It has two write-once caches (the
  running builds of the `create-a-release` job, and the build queue). It has
  `startBuild`, which POSTs one trigger and settles on the reply, and
  `scheduleBuilds`, a two-cursor machine over (project → commit list) that
  sends one trigger at a time. Each trigger waits for the previous one to be
  acknowledged, and the first rejection stops the run.
- `ci-build.js`: the internal client. It has the same two caches for the
  `create-an-internal-release` job, the two start-build requests
  (`ciOpenStartBuild`, `ciDevStartBuild`) and a two-track `scheduleBuilds`.
  That scheduler is modelled as written, including three defects (see
  "## Findings").

Modules:

- `Wrappers`: `Option` and `Result`.
- `Protocol`: what both files share.
  - The build record.
  - The outcome of a GET or a POST.
  - The in-progress filter (`result === null`).
  - The one-shot cache rule `Serve`, with lemmas about repeated calls.
  - The 2xx acceptance test for a trigger.
- `Cursor`: the single-track cursor machine `RunTrack`, and `Flatten`, the
  in-order list of `(projects[i], commits[i][j])` that it is proved against.
- `CiOpen`: ci-open.js.
  - Class `OpenClient` holds the caches.
  - `StartBuild` and `StartBuildRequest` model `startBuild` and its query.
  - `ScheduleBuilds` models `scheduleBuilds`.
- `CiBuild`: ci-build.js.
  - Class `BuildClient` holds the caches.
  - The two start-build functions and their requests.
  - Class `Scheduler` holds the three shared cursors. Its per-step methods
    are specified by the pure `DevStep` and `OpenStep`. `StartNextBuild` runs
    the synchronous re-entry (`startNextBuild` called from an advance) and is
    specified by `Cascade`. `Acknowledge` takes an in-flight trigger's reply.
- `CiBuildFindings`: concrete as-written runs of ci-build.js that show the
  defects, and `ScheduleTracks`, the intended per-track schedule.

External effects are parameters:

- A GET is given as its outcome: a transport error, or a status code with the
  parsed record list.
- A POST is given as a transport error or a status.
- In ci-open.js's scheduler, `respond(k)` is the reply to the k-th trigger.
- In ci-build.js, the caller of `Acknowledge` chooses which in-flight trigger
  answers next. This covers every acknowledgement order.

The model follows the code as written:

- A GET fails unless its status is exactly 200, so a 201 or 204 reply fails too.
- `getQueuedBuilds` rejects with the status query's message.
- In ci-build.js, one `commitIndex` is shared by both tracks. The open step
  reads its commit list and project name at the dev cursor. An advance on
  either track re-enters both tracks, so the tracks are not independent
  sequences with their own cursors.

## Model

| member | source | states |
|---|---|---|
| `Protocol.InProgress` | ci-open.js:35-36 | The kept builds are exactly the records whose `result` is null, and there are no more of them than records |
| `Protocol.InProgressAppend` | ci-build.js:46-47 | Filtering distributes over concatenation, so the running builds keep their relative order from the reply |
| `Protocol.InProgressKeepsRunning` | ci-open.js:35 | A reply in which every build is running is kept whole |
| `Protocol.InProgressDropsFinished` | ci-build.js:46 | A reply with no running build filters to the empty list (which is still a valid cache value) |
| `Protocol.InProgressExample` | ci-open.js:35-37 | Records null, "SUCCESS", null give exactly the two null-result records |
| `Protocol.Serve` | ci-open.js:16-38 | A GET is sent iff the cache is unset. The cache is set afterwards iff it was set or the GET succeeded. The reply resolves iff the cache is set, with the cached list; otherwise it rejects with the failure message |
| `Protocol.ServeStoresSelection` | ci-open.js:31-37 | A successful GET stores exactly the in-progress builds of a job reply, or every queue item in order (same length, same positions) |
| `Protocol.ServeTwice` | ci-build.js:27-49 | After a success, a second call sends no GET and returns the identical list. After a failure, the second call sends the GET again |
| `Protocol.ServeAll` | ci-open.js:14-44 | A run of calls on one client gives one outcome per call. The first call starts from the given cache, and each later call is `Serve` on the cache the previous call left |
| `Protocol.ServeAllLatched` | ci-open.js:53-56 | Once the cache is set, every later call in any run sends no request and answers with the same list |
| `Protocol.ServeAllFirstSuccessWins` | ci-build.js:64-84 | From an unset cache, the first success wins. Exactly k+1 GETs are sent, where k is the index of the first success. Earlier calls reject and leave the cache unset. Every later call answers with what the first success stored |
| `Protocol.TriggerAcceptedIff` | ci-open.js:113 | A trigger is accepted iff there is no transport error and the status is in 200..299 |
| `Cursor.PairsExtend` | ci-open.js:155-158 | Sending commit `commitIndex` and incrementing the cursor extends the project's trigger list by exactly that one trigger |
| `Cursor.FlattenExtend` | ci-open.js:148-153 | Skipping an exhausted project (project cursor + 1, commit cursor 0) adds that project's triggers to the completed part |
| `Cursor.FlattenPrefix` | ci-open.js:142-153 | The triggers of the first i projects are a prefix of the whole flattening |
| `Cursor.DoneIsPrefix` | ci-open.js:145-158 | Every in-range cursor position marks a prefix of the whole flattening |
| `Cursor.FlattenLength` | ci-open.js:139-163 | The full run sends one trigger per commit over all projects |
| `Cursor.FlattenMembers` | ci-open.js:155-156 | A trigger is in the flattening iff it pairs `projects[i]` with some commit of `commits[i]` |
| `Cursor.FlattenExample` | ci-open.js:134-164 | Projects A, B with commits [c1, c2], [c3] give exactly (A,c1), (A,c2), (B,c3) in that order |
| `Cursor.RunTrack` | ci-open.js:139-161 | The cursor machine. The log is always a prefix of the flattening. Every trigger but the last was acknowledged before the next was sent. The run completes iff the log is the whole flattening and every trigger was acknowledged; otherwise the last trigger was rejected and nothing was sent after it. Empty and exhausted projects send nothing, and the loop terminates on (projects left, commits left) |
| `CiOpen.StartBuildRequest` | ci-open.js:96-109 | The POST goes to `create-a-release`, with exactly `ARTIFACT_NAME = project` and `RELEASE_CANDIDATE_VERSION = hash` |
| `CiOpen.StartBuildRequestInjective` | ci-open.js:104-108 | Distinct (project, hash) pairs send distinct requests |
| `CiOpen.StartBuild` | ci-open.js:111-124 | Resolves with no value iff the reply has a 2xx status. Otherwise it rejects with the message naming the project and the hash |
| `CiOpen.ScheduleBuilds` | ci-open.js:134-164 | Runs the cursor machine with acceptance by `startBuild`. Resolution means the log is the whole flattening, all acknowledged. Rejection carries `startBuild`'s message for the last (rejected) trigger. If every trigger is accepted, the log is the whole flattening. When the flattening is empty (no projects, or only empty commit lists), nothing is sent and the source returns a bare `null` instead of a promise; the outcome is then `None`, and only then |
| `CiOpen.OpenClient.constructor` | ci-open.js:8 | A fresh client has both caches unset and has sent no request |
| `CiOpen.OpenClient.GetCurrentBuildStatus` | ci-open.js:10-45 | The reply, the new status cache and the GETs sent are as `Serve` gives for the `create-a-release` job. The queue cache is untouched |
| `CiOpen.OpenClient.GetQueuedBuilds` | ci-open.js:47-90 | The same for the queue. Every item is mapped and the status cache is untouched |
| `CiBuild.CiOpenStartBuildRequest` | ci-build.js:107-121 | `ciOpenStartBuild` sends exactly `ARTIFACT_NAME = project`, `RELEASE_CANDIDATE_VERSION = commit` and `RELEASE_TYPE = "MINOR"` to `create-a-release` |
| `CiBuild.CiDevStartBuildRequest` | ci-build.js:150-163 | `ciDevStartBuild` sends exactly `ARTIFACT_NAME = project` and `GIT_COMMIT_ID = commit` to `create-an-internal-release` |
| `CiBuild.StartBuildRequestsDiffer` | ci-build.js:107-163 | No open request equals a dev request, and on each track distinct (project, commit) pairs send distinct requests |
| `CiBuild.CiOpenStartBuild` | ci-build.js:123-136 | Resolves iff the reply has a 2xx status. Otherwise it rejects naming the project and the commit |
| `CiBuild.CiDevStartBuild` | ci-build.js:165-178 | The same acceptance rule for the dev track's trigger |
| `CiBuild.Settle` | ci-build.js:123-178 | A trigger on either track settles Ok iff its POST reply has a 2xx status, and otherwise rejects with the message naming its project and commit |
| `CiBuild.BuildClient.constructor` | ci-build.js:8 | A fresh client has both caches unset and has sent no request |
| `CiBuild.BuildClient.GetInternalCurrentBuildStatus` | ci-build.js:21-56 | The reply, the new status cache and the GETs sent are as `Serve` gives for `create-an-internal-release`. The queue cache is untouched |
| `CiBuild.BuildClient.GetQueuedBuilds` | ci-build.js:58-101 | The same for the queue. The status cache is untouched |
| `CiBuild.DevStep` | ci-build.js:224-246 | Finishes iff the dev cursor has reached the end, changing nothing. On an exhausted list it advances (dev + 1, shared commit cursor 0, fewer projects left). Otherwise it sends exactly one dev trigger `(ciDevProjects[dev], list[commitIndex])` and adds 1 to the shared cursor. It never throws |
| `CiBuild.OpenStep` | ci-build.js:200-222 | The end test uses the open cursor. If the dev cursor is past the open lists it throws, changing nothing. On an exhausted list it advances. The list and the project name are read at the dev cursor |
| `CiBuild.Cascade` | ci-build.js:194-198 | A synchronous run of steps keeps both project cursors in range and never raises the projects left. It only appends to the log. It sends at most one trigger per pending step plus one per project advance |
| `CiBuild.ChainWithoutAdvanceSendsOne` | ci-build.js:221 | A continuation that moves no project cursor sends at most one trigger |
| `CiBuild.Scheduler.constructor` | ci-build.js:190-192 | All three cursors start at 0, and nothing has been sent or is in flight |
| `CiBuild.Scheduler.TriggerDev` | ci-build.js:224-246 | The new cursors and the result are `DevStep`'s. A sent trigger is appended to the log and to the in-flight list |
| `CiBuild.Scheduler.TriggerOpen` | ci-build.js:200-222 | The new cursors and the result are `OpenStep`'s. A sent trigger is appended to the log and to the in-flight list |
| `CiBuild.Scheduler.RunSteps` | ci-build.js:209-213 | Running a pending call stack, with advances re-entering `startNextBuild`, ends in the state, log and throw flag `Cascade` gives. Every new trigger is in flight |
| `CiBuild.Scheduler.StartNextBuild` | ci-build.js:194-198 | The dev step, then the open step, with all re-entries, as `Cascade` gives from `[Dev, Open]` |
| `CiBuild.Scheduler.Acknowledge` | ci-build.js:245 | The acknowledged trigger leaves the in-flight list and settles by its track's start-build rule. A rejection changes nothing else. A success re-runs only that track's step, as `Cascade` gives |
| `CiBuild.ScheduleBuilds` | ci-build.js:188-249 | Fresh cursors, then one `startNextBuild`. Every trigger sent is in flight |
| `CiBuildFindings.SharedCommitIndexSkipsCommit` | ci-build.js:219 | As written: with dev `[["d1"]]` and open `[["o1","o2"]]`, the first pass sends (A,d1) then (X,o2), skipping o1 |
| `CiBuildFindings.OpenStepReadsDevCursor` | ci-build.js:206-216 | As written: with no dev projects and open `[["o1"],["o2"]]`, the open track sends (X,o1) twice, finishes, and never sends (Y,o2) |
| `CiBuildFindings.EmptyDevProjectThrows` | ci-build.js:206-209 | As written: with dev `[[]]` and open `[["o1"]]`, the dev advance moves the dev cursor to 1, the open step reads an undefined commit list, and the first pass throws with nothing sent |
| `CiBuildFindings.AdvanceReentersBothTracks` | ci-build.js:213 | As written: with dev `[["d1"]]` and open `[["o1"]]`, the first pass sends (A,d1) twice, both in flight, and never sends o1 |
| `CiBuildFindings.OpenAdvanceResendsDevCommit` | ci-build.js:213-221 | As written: with dev `[["d1"]]` and open `[["o1","o2","o3"]]`, the first pass sends (A,d1), (X,o2); continuing the open track sends (X,o3), and its advance then sends (A,d1) again |
| `CiBuildFindings.RejectedDevCommitIsResent` | ci-build.js:213-245 | As written, on a `Scheduler`: the (A,d1) trigger is rejected with its start-build message, and after (X,o2) and (X,o3) are acknowledged (A,d1) has been sent a second time and is in flight, so a rejection does not stop its own track |
| `CiBuildFindings.ScheduleTracks` | ci-build.js:188-249 | Intended: each track runs `RunTrack` over its own lists with its own cursors. Each log is a prefix of that track's own flattening, and is all of it iff every trigger on that track was acknowledged. A rejection stops that track only |
| `CiBuildFindings.IntendedLogs` | ci-build.js:188-249 | On the three inputs above, the intended schedule sends each commit once, in order |

## Findings

| source | as written | input that shows it | evidently intended | confidence | as-written member | corrected member |
|---|---|---|---|---|---|---|
| ci-build.js:192 | One `commitIndex` is shared by the dev and open steps (incremented at lines 219 and 243) | dev `["A"]` / `[["d1"]]`, open `["X"]` / `[["o1","o2"]]`: the first pass sends (A,d1), (X,o2) | Each track has its own commit cursor, so the open track starts at o1 | not executed | `CiBuildFindings.SharedCommitIndexSkipsCommit` | `CiBuildFindings.ScheduleTracks` |
| ci-build.js:206 | The open step reads `ciOpenProjectsGitCommits` and `config.ciOpenProjects` at `ciDevProjectIndex` (lines 206, 216) | no dev projects, open `["X","Y"]` / `[["o1"],["o2"]]`: sends (X,o1) twice, then finishes; dev `["A"]` / `[[]]`, open `["X"]` / `[["o1"]]`: the first pass throws with nothing sent | Read at `ciOpenProjectIndex`, to send (X,o1) then (Y,o2), and (X,o1) in the second input | not executed | `CiBuildFindings.OpenStepReadsDevCursor`, `CiBuildFindings.EmptyDevProjectThrows` | `CiBuildFindings.ScheduleTracks` |
| ci-build.js:213 | An advance on either track calls `startNextBuild`, which re-enters both steps (lines 213, 237) | dev `["A"]` / `[["d1"]]`, open `["X"]` / `[["o1"]]`: (A,d1) is sent twice with both in flight; with open `[["o1","o2","o3"]]` instead, rejecting (A,d1) and acknowledging (X,o2), (X,o3) still sends (A,d1) again | An advance re-invokes only its own track, so at most one trigger per track is in flight and a rejection stops its own track | not executed | `CiBuildFindings.AdvanceReentersBothTracks`, `CiBuildFindings.RejectedDevCommitIsResent` | `CiBuildFindings.ScheduleTracks` |

The `Scheduler` class models ci-build.js as written, because that is what the
program does. `ScheduleTracks` is the reference that the three as-written runs
are compared against.

## Left out

- HTTP transport (`request`, `request.get`), `authenticate` and URL building are left out. Each exchange is an outcome value passed in. The GETs a client sends are recorded by endpoint only.
- `JSON.parse` and the `BuildStatus` constructor are left out, because ./model/BuildStatus is not part of this model. Records arrive as `Build` values, and the `new BuildStatus(...)` mapping is the identity. A malformed payload, which would throw, is not modelled.
- The `buildsInProgress ? ... : null` branch is left out: `filter` always returns an array, so the null arm cannot be taken.
- The `q` deferreds are left out. A settled promise is a `Result`, and a `.then` continuation is a loop iteration (ci-open.js) or `Acknowledge` (ci-build.js).
- Logging and `chalk` colouring are left out; they have no effect on control flow.
- In ci-build.js, `getCurrentBuildStatus` (it calls unbound globals) and the empty `getOpenCurrentBuildStatus` are left out. Neither has behaviour to state.
- The POST check reads `response.status`, as written, while the GETs read `statusCode`. The model takes the POST status value as given, and the real field layout of the HTTP library is not part of this model.
- CiOpen.OpenClient.constructor, CiBuild.BuildClient.constructor: each client is built by `new Jenkins(...)` (ci-open.js:8, ci-build.js:8), and ./jenkins is not part of this model. That both caches start unset and no request has been sent is assumed, not read from that constructor.
- Protocol.Serve: each call and its GET reply are modelled as one step that finishes before the next call begins, and so are the client methods and `ServeAll` built on it. In the source the cache is tested when the call is made (ci-open.js:16, 53; ci-build.js:27, 64) but assigned in the reply callback (ci-open.js:36, 72; ci-build.js:47, 83). Two calls made before the first reply therefore both send a GET, each successful reply overwrites the cache, and the last reply wins rather than the first; overlapping calls are not represented. The promise resolves with the cache array itself, so a caller that mutates it changes later answers; the model's lists are values and do not capture that aliasing.
- CiOpen.ScheduleBuilds: the triggers are returned as a log rather than recorded on an `OpenClient`. The POST body for a trigger `t` is `StartBuildRequest(t.project, t.commit)`.
- CiOpen.ScheduleBuilds: requires `|projectsGitCommits| <= |configProjects|` (`configProjects` is `config.projects`). With fewer names, the source sends `undefined` as the project name, and the model does not represent that. `CiBuild.Lists.Wellformed` does the same for both tracks.
- CiBuild.ScheduleBuilds: the whole-run interleaving of the promise chains is not fixed. It depends on acknowledgement timing, and the caller of `Acknowledge` supplies it. The promise the source returns (`undefined`, since `startNextBuild` returns nothing) is not modelled. A throw is reported as a flag: it escapes `scheduleBuilds` on the first pass, and otherwise rejects that chain.
