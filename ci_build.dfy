/** The internal-track client of ci-build.js: its write-once caches, the two
    start-build requests, and the two-track `scheduleBuilds` as written, with
    its shared commit cursor. */
module CiBuild {
  import opened Wrappers
  import opened Protocol
  import opened Cursor

  const InternalReleaseJob := "create-an-internal-release"
  const OpenReleaseJob := "create-a-release"

  /** The rejection message of both GETs (the queue reuses the status text). */
  const RequestFailure := "The request to get current build status has failed."

  /** The rejection message of a failed trigger, on either track. */
  function StartBuildFailure(projectName: string, gitCommit: string): string
  {
    "Could not start build for \"" + projectName + "\" with commit sha \"" + gitCommit + "\"."
  }

  /** The POST `ciOpenStartBuild` sends: the open release job with the
      project, the commit and a minor release type. */
  function CiOpenStartBuildRequest(projectName: string, gitCommit: string): (r: PostRequest)
    ensures r.job == OpenReleaseJob
    ensures r.qs.Keys == {"ARTIFACT_NAME", "RELEASE_CANDIDATE_VERSION", "RELEASE_TYPE"}
    ensures r.qs["ARTIFACT_NAME"] == projectName && r.qs["RELEASE_CANDIDATE_VERSION"] == gitCommit &&
            r.qs["RELEASE_TYPE"] == "MINOR"
  {
    PostRequest(OpenReleaseJob, map["ARTIFACT_NAME" := projectName, "RELEASE_CANDIDATE_VERSION" := gitCommit,
                                    "RELEASE_TYPE" := "MINOR"])
  }

  /** The POST `ciDevStartBuild` sends: the internal release job with the
      project and the commit. */
  function CiDevStartBuildRequest(projectName: string, gitCommit: string): (r: PostRequest)
    ensures r.job == InternalReleaseJob
    ensures r.qs.Keys == {"ARTIFACT_NAME", "GIT_COMMIT_ID"}
    ensures r.qs["ARTIFACT_NAME"] == projectName && r.qs["GIT_COMMIT_ID"] == gitCommit
  {
    PostRequest(InternalReleaseJob, map["ARTIFACT_NAME" := projectName, "GIT_COMMIT_ID" := gitCommit])
  }

  /** The two tracks' requests never coincide, and each determines its
      project and commit. */
  lemma StartBuildRequestsDiffer(projectName: string, gitCommit: string, otherProject: string, otherCommit: string)
    ensures CiOpenStartBuildRequest(projectName, gitCommit) != CiDevStartBuildRequest(otherProject, otherCommit)
    ensures CiOpenStartBuildRequest(projectName, gitCommit) == CiOpenStartBuildRequest(otherProject, otherCommit) ==>
            projectName == otherProject && gitCommit == otherCommit
    ensures CiDevStartBuildRequest(projectName, gitCommit) == CiDevStartBuildRequest(otherProject, otherCommit) ==>
            projectName == otherProject && gitCommit == otherCommit
  {
    assert OpenReleaseJob[10] != InternalReleaseJob[10];
  }

  /** The settlement of `ciOpenStartBuild` once the POST has answered. */
  function CiOpenStartBuild(projectName: string, gitCommit: string, response: PostResponse): (r: Result<()>)
    ensures r.Ok? <==> response.PostReply? && 200 <= response.status <= 299
    ensures r.Err? ==> r.error == StartBuildFailure(projectName, gitCommit)
  {
    if !TriggerAccepted(response) then Err(StartBuildFailure(projectName, gitCommit)) else Ok(())
  }

  /** The settlement of `ciDevStartBuild` once the POST has answered. */
  function CiDevStartBuild(projectName: string, gitCommit: string, response: PostResponse): (r: Result<()>)
    ensures r.Ok? <==> response.PostReply? && 200 <= response.status <= 299
    ensures r.Err? ==> r.error == StartBuildFailure(projectName, gitCommit)
  {
    if !TriggerAccepted(response) then Err(StartBuildFailure(projectName, gitCommit)) else Ok(())
  }

  /** The internal client object. `requests` records the GETs sent. */
  class BuildClient {
    var statusCache: Option<seq<Build>>
    var queueCache: Option<seq<Build>>
    var requests: seq<Endpoint>

    constructor ()
      ensures statusCache == None && queueCache == None && requests == []
    {
      statusCache, queueCache, requests := None, None, [];
    }

    /** `getInternalCurrentBuildStatus`; `response` is what the GET would receive. */
    method GetInternalCurrentBuildStatus(response: GetResponse) returns (r: Result<seq<Build>>)
      modifies this
      ensures var f := Serve(old(statusCache), JobBuilds(InternalReleaseJob), response, RequestFailure);
              r == f.reply && statusCache == f.cache &&
              requests == old(requests) + (if f.requested then [JobBuilds(InternalReleaseJob)] else [])
      ensures queueCache == old(queueCache)
    {
      if statusCache.Some? {
        r := Ok(statusCache.value);
      } else {
        requests := requests + [JobBuilds(InternalReleaseJob)];
        if response.GetError? || response.statusCode != 200 {
          r := Err(RequestFailure);
        } else {
          var buildsInProgress := InProgress(response.records);
          statusCache := Some(buildsInProgress);
          r := Ok(buildsInProgress);
        }
      }
    }

    /** `getQueuedBuilds`; independent of the status cache. */
    method GetQueuedBuilds(response: GetResponse) returns (r: Result<seq<Build>>)
      modifies this
      ensures var f := Serve(old(queueCache), Queue, response, RequestFailure);
              r == f.reply && queueCache == f.cache &&
              requests == old(requests) + (if f.requested then [Queue] else [])
      ensures statusCache == old(statusCache)
    {
      if queueCache.Some? {
        r := Ok(queueCache.value);
      } else {
        requests := requests + [Queue];
        if response.GetError? || response.statusCode != 200 {
          r := Err(RequestFailure);
        } else {
          queueCache := Some(response.records);
          r := Ok(response.records);
        }
      }
    }
  }

  // ---------------------------------------------------------------------
  // scheduleBuilds, as written

  datatype Track = Dev | Open

  /** A trigger sent on one track. */
  datatype Issued = Issued(track: Track, trigger: Trigger)

  /** The two tracks' inputs: `config.ciDevProjects`, `ciDevProjectsGitCommits`,
      `config.ciOpenProjects`, `ciOpenProjectsGitCommits`. */
  datatype Lists = Lists(devProjects: seq<string>, devCommits: seq<seq<string>>,
                         openProjects: seq<string>, openCommits: seq<seq<string>>)
  {
    /** Every commit list has a project name beside it. */
    predicate Wellformed()
    {
      |devCommits| <= |devProjects| && |openCommits| <= |openProjects|
    }
  }

  /** The three variables the two step closures share. */
  datatype Shared = Shared(devProjectIndex: nat, openProjectIndex: nat, commitIndex: nat)

  /** Neither project cursor runs past its own list. */
  predicate InRange(lists: Lists, c: Shared)
  {
    c.devProjectIndex <= |lists.devCommits| && c.openProjectIndex <= |lists.openCommits|
  }

  /** The projects left on both tracks; every advance lowers it. */
  function Measure(lists: Lists, c: Shared): nat
    requires InRange(lists, c)
  {
    (|lists.devCommits| - c.devProjectIndex) + (|lists.openCommits| - c.openProjectIndex)
  }

  /** What one step invocation did and what the source runs next: nothing
      (`return null`), both steps again (`return startNextBuild()`), the same
      step after the trigger is acknowledged (`.then(...)`), or nothing because
      it threw. */
  datatype StepResult = Finished | Advanced | Started(issued: Issued) | Threw

  datatype Stepped = Stepped(result: StepResult, next: Shared)

  /** `triggerBuildForCiDevProject`, up to its continuation. */
  function DevStep(lists: Lists, c: Shared): (r: Stepped)
    requires lists.Wellformed() && InRange(lists, c)
    ensures InRange(lists, r.next)
    ensures r.result.Finished? <==> c.devProjectIndex == |lists.devCommits|
    ensures r.result.Finished? ==> r.next == c
    ensures r.result.Advanced? <==> c.devProjectIndex < |lists.devCommits| &&
                                    c.commitIndex >= |lists.devCommits[c.devProjectIndex]|
    ensures r.result.Advanced? ==> r.next == Shared(c.devProjectIndex + 1, c.openProjectIndex, 0) &&
                                   Measure(lists, r.next) < Measure(lists, c)
    ensures r.result.Started? ==>
              r.next == c.(commitIndex := c.commitIndex + 1) &&
              r.result.issued == Issued(Dev, Trigger(lists.devProjects[c.devProjectIndex],
                                                     lists.devCommits[c.devProjectIndex][c.commitIndex]))
    ensures !r.result.Threw?
  {
    if c.devProjectIndex >= |lists.devCommits| then Stepped(Finished, c)
    else
      var gitCommits := lists.devCommits[c.devProjectIndex];
      if c.commitIndex >= |gitCommits| then
        Stepped(Advanced, Shared(c.devProjectIndex + 1, c.openProjectIndex, 0))
      else
        var projectName := lists.devProjects[c.devProjectIndex];
        Stepped(Started(Issued(Dev, Trigger(projectName, gitCommits[c.commitIndex]))),
                c.(commitIndex := c.commitIndex + 1))
  }

  /** `triggerBuildForCiOpenProject`, up to its continuation. The end test
      uses the open cursor, but the commit list and the project name are read
      at the dev cursor; when the dev cursor is past the open commit lists,
      `gitCommits` is undefined and reading its length throws. */
  function OpenStep(lists: Lists, c: Shared): (r: Stepped)
    requires lists.Wellformed() && InRange(lists, c)
    ensures InRange(lists, r.next)
    ensures r.result.Finished? <==> c.openProjectIndex == |lists.openCommits|
    ensures r.result.Threw? <==> c.openProjectIndex < |lists.openCommits| &&
                                 c.devProjectIndex >= |lists.openCommits|
    ensures r.result.Finished? || r.result.Threw? ==> r.next == c
    ensures r.result.Advanced? <==> c.openProjectIndex < |lists.openCommits| &&
                                    c.devProjectIndex < |lists.openCommits| &&
                                    c.commitIndex >= |lists.openCommits[c.devProjectIndex]|
    ensures r.result.Advanced? ==> r.next == Shared(c.devProjectIndex, c.openProjectIndex + 1, 0) &&
                                   Measure(lists, r.next) < Measure(lists, c)
    ensures r.result.Started? ==>
              r.next == c.(commitIndex := c.commitIndex + 1) &&
              r.result.issued == Issued(Open, Trigger(lists.openProjects[c.devProjectIndex],
                                                      lists.openCommits[c.devProjectIndex][c.commitIndex]))
  {
    if c.openProjectIndex >= |lists.openCommits| then Stepped(Finished, c)
    else if c.devProjectIndex >= |lists.openCommits| then Stepped(Threw, c)
    else
      var gitCommits := lists.openCommits[c.devProjectIndex];
      if c.commitIndex >= |gitCommits| then
        Stepped(Advanced, Shared(c.devProjectIndex, c.openProjectIndex + 1, 0))
      else
        var projectName := lists.openProjects[c.devProjectIndex];
        Stepped(Started(Issued(Open, Trigger(projectName, gitCommits[c.commitIndex]))),
                c.(commitIndex := c.commitIndex + 1))
  }

  function Step(lists: Lists, c: Shared, track: Track): (r: Stepped)
    requires lists.Wellformed() && InRange(lists, c)
  {
    match track
    case Dev => DevStep(lists, c)
    case Open => OpenStep(lists, c)
  }

  /** The state after a synchronous run, the triggers sent so far, and
      whether the run ended in a throw. */
  datatype Synced = Synced(state: Shared, log: seq<Issued>, threw: bool)

  /** A synchronous run of step invocations. `pending` is the JavaScript call
      stack still to run, innermost first: `startNextBuild` pushes the dev
      step and then the open step, an advance re-enters `startNextBuild`, a
      trigger leaves its continuation to the acknowledgement, and a throw
      unwinds everything that is pending. */
  function Cascade(lists: Lists, c: Shared, pending: seq<Track>, log: seq<Issued>): (r: Synced)
    requires lists.Wellformed() && InRange(lists, c)
    ensures InRange(lists, r.state) && Measure(lists, r.state) <= Measure(lists, c)
    ensures log <= r.log
    ensures |r.log| - |log| <= |pending| + (Measure(lists, c) - Measure(lists, r.state))
    decreases Measure(lists, c), |pending|
  {
    if pending == [] then Synced(c, log, false)
    else
      var s := Step(lists, c, pending[0]);
      match s.result
      case Finished => Cascade(lists, s.next, pending[1..], log)
      case Started(i) => Cascade(lists, s.next, pending[1..], log + [i])
      case Advanced => Cascade(lists, s.next, [Dev, Open] + pending[1..], log)
      case Threw => Synced(c, log, true)
  }

  /** A continuation that does not move a project cursor sends at most one
      trigger: within one step chain, a trigger waits for the previous
      acknowledgement. */
  lemma ChainWithoutAdvanceSendsOne(lists: Lists, c: Shared, track: Track, log: seq<Issued>)
    requires lists.Wellformed() && InRange(lists, c)
    requires var r := Cascade(lists, c, [track], log);
             r.state.devProjectIndex == c.devProjectIndex && r.state.openProjectIndex == c.openProjectIndex
    ensures |Cascade(lists, c, [track], log).log| <= |log| + 1
  {
  }

  function Issues(result: StepResult): (r: seq<Issued>)
  {
    if result.Started? then [result.issued] else []
  }

  /** The settlement of an in-flight trigger once its POST has answered. */
  function Settle(i: Issued, response: PostResponse): (r: Result<()>)
    ensures r.Ok? <==> TriggerAccepted(response)
    ensures r.Err? ==> r.error == StartBuildFailure(i.trigger.project, i.trigger.commit)
  {
    match i.track
    case Dev => CiDevStartBuild(i.trigger.project, i.trigger.commit, response)
    case Open => CiOpenStartBuild(i.trigger.project, i.trigger.commit, response)
  }

  /** The closure state of one `scheduleBuilds` call. `log` lists every
      trigger sent, `inFlight` those not yet acknowledged. */
  class Scheduler {
    const lists: Lists
    var devProjectIndex: nat
    var openProjectIndex: nat
    var commitIndex: nat
    var log: seq<Issued>
    var inFlight: seq<Issued>

    function State(): Shared
      reads this
    {
      Shared(devProjectIndex, openProjectIndex, commitIndex)
    }

    ghost predicate Valid()
      reads this
    {
      lists.Wellformed() && InRange(lists, State())
    }

    constructor (lists: Lists)
      requires lists.Wellformed()
      ensures Valid() && this.lists == lists
      ensures State() == Shared(0, 0, 0) && log == [] && inFlight == []
    {
      this.lists := lists;
      devProjectIndex, openProjectIndex, commitIndex := 0, 0, 0;
      log, inFlight := [], [];
    }

    /** One invocation of the dev step; an `Advanced` result is where the
        source calls `startNextBuild`. */
    method TriggerDev() returns (r: StepResult)
      requires Valid()
      modifies this
      ensures Valid()
      ensures Stepped(r, State()) == DevStep(lists, old(State()))
      ensures log == old(log) + Issues(r) && inFlight == old(inFlight) + Issues(r)
    {
      if devProjectIndex >= |lists.devCommits| {
        return Finished;
      }
      var gitCommits := lists.devCommits[devProjectIndex];
      if commitIndex >= |gitCommits| {
        devProjectIndex := devProjectIndex + 1;
        commitIndex := 0;
        return Advanced;
      }
      var projectName := lists.devProjects[devProjectIndex];
      var commitSHA := gitCommits[commitIndex];
      commitIndex := commitIndex + 1;
      var issued := Issued(Dev, Trigger(projectName, commitSHA));
      log, inFlight := log + [issued], inFlight + [issued];
      return Started(issued);
    }

    /** One invocation of the open step, reading at the dev cursor as the
        source does. */
    method TriggerOpen() returns (r: StepResult)
      requires Valid()
      modifies this
      ensures Valid()
      ensures Stepped(r, State()) == OpenStep(lists, old(State()))
      ensures log == old(log) + Issues(r) && inFlight == old(inFlight) + Issues(r)
    {
      if openProjectIndex >= |lists.openCommits| {
        return Finished;
      }
      if devProjectIndex >= |lists.openCommits| {
        return Threw;
      }
      var gitCommits := lists.openCommits[devProjectIndex];
      if commitIndex >= |gitCommits| {
        openProjectIndex := openProjectIndex + 1;
        commitIndex := 0;
        return Advanced;
      }
      var projectName := lists.openProjects[devProjectIndex];
      var commitSHA := gitCommits[commitIndex];
      commitIndex := commitIndex + 1;
      var issued := Issued(Open, Trigger(projectName, commitSHA));
      log, inFlight := log + [issued], inFlight + [issued];
      return Started(issued);
    }

    /** Runs step invocations until the synchronous call stack `stack` is
        empty or a step throws. */
    method RunSteps(stack: seq<Track>) returns (threw: bool)
      requires Valid()
      modifies this
      ensures Valid()
      ensures Synced(State(), log, threw) == Cascade(lists, old(State()), stack, old(log))
      ensures inFlight == old(inFlight) + log[|old(log)|..]
    {
      var pending := stack;
      while pending != []
        invariant Valid()
        invariant Cascade(lists, State(), pending, log) == Cascade(lists, old(State()), stack, old(log))
        invariant old(log) <= log && inFlight == old(inFlight) + log[|old(log)|..]
        decreases Measure(lists, State()), |pending|
      {
        ghost var before, pre := log, State();
        var r;
        if pending[0] == Dev {
          r := TriggerDev();
        } else {
          r := TriggerOpen();
        }
        assert Stepped(r, State()) == Step(lists, pre, pending[0]);
        assert log[|old(log)|..] == before[|old(log)|..] + Issues(r);
        match r
        case Threw =>
          return true;
        case Advanced =>
          assert log == before;
          pending := [Dev, Open] + pending[1..];
        case Started(i) =>
          pending := pending[1..];
        case Finished =>
          assert log == before;
          pending := pending[1..];
      }
      return false;
    }

    /** `startNextBuild`: the dev step, then the open step. */
    method StartNextBuild() returns (threw: bool)
      requires Valid()
      modifies this
      ensures Valid()
      ensures Synced(State(), log, threw) == Cascade(lists, old(State()), [Dev, Open], old(log))
      ensures inFlight == old(inFlight) + log[|old(log)|..]
    {
      threw := RunSteps([Dev, Open]);
    }

    /** The POST of in-flight trigger `i` answers with `response`: the trigger
        settles, and on success the same track's step runs again. The caller
        picks `i`, so every acknowledgement order is covered. */
    method Acknowledge(i: nat, response: PostResponse) returns (outcome: Result<()>, threw: bool)
      requires Valid() && i < |inFlight|
      modifies this
      ensures Valid()
      ensures outcome == Settle(old(inFlight[i]), response)
      ensures outcome.Err? ==> State() == old(State()) && log == old(log) && !threw &&
                               inFlight == old(inFlight[..i] + inFlight[i + 1..])
      ensures outcome.Ok? ==>
                Synced(State(), log, threw) == Cascade(lists, old(State()), [old(inFlight[i]).track], old(log)) &&
                inFlight == old(inFlight[..i] + inFlight[i + 1..]) + log[|old(log)|..]
    {
      var done := inFlight[i];
      inFlight := inFlight[..i] + inFlight[i + 1..];
      outcome := Settle(done, response);
      threw := false;
      if outcome.Ok? {
        threw := RunSteps([done.track]);
      }
    }
  }

  /** `scheduleBuilds(ciDevProjectsGitCommits, ciOpenProjectsGitCommits)`:
      fresh cursors at zero, then `startNextBuild`. */
  method ScheduleBuilds(lists: Lists) returns (s: Scheduler, threw: bool)
    requires lists.Wellformed()
    ensures fresh(s) && s.Valid() && s.lists == lists
    ensures Synced(s.State(), s.log, threw) == Cascade(lists, Shared(0, 0, 0), [Dev, Open], [])
    ensures s.inFlight == s.log
  {
    s := new Scheduler(lists);
    threw := s.StartNextBuild();
  }
}

