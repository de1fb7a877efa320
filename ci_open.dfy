/** The open-track client of ci-open.js: the write-once status and queue
    caches, the start-build request and its acceptance, and `scheduleBuilds`. */
module CiOpen {
  import opened Wrappers
  import opened Protocol
  import opened Cursor

  /** The job both the status query and the trigger go to. */
  const ReleaseJob := "create-a-release"

  /** The rejection message of both GETs (the queue reuses the status text). */
  const RequestFailure := "[Open] The request to get current build status has failed."

  /** The rejection message of a failed trigger. */
  function StartBuildFailure(projectName: string, versionGitHash: string): string
  {
    "[Open] Could not start build for \"" + projectName + "\" with git version hash \"" + versionGitHash + "\"."
  }

  /** The POST `startBuild` sends: the release job, with exactly the two
      parameters from which the project and the hash are read back. */
  function StartBuildRequest(projectName: string, versionGitHash: string): (r: PostRequest)
    ensures r.job == ReleaseJob
    ensures r.qs.Keys == {"ARTIFACT_NAME", "RELEASE_CANDIDATE_VERSION"}
    ensures r.qs["ARTIFACT_NAME"] == projectName && r.qs["RELEASE_CANDIDATE_VERSION"] == versionGitHash
  {
    PostRequest(ReleaseJob, map["ARTIFACT_NAME" := projectName, "RELEASE_CANDIDATE_VERSION" := versionGitHash])
  }

  /** Distinct triggers send distinct requests. */
  lemma StartBuildRequestInjective(p1: string, h1: string, p2: string, h2: string)
    requires StartBuildRequest(p1, h1) == StartBuildRequest(p2, h2)
    ensures p1 == p2 && h1 == h2
  {
    assert StartBuildRequest(p1, h1).qs["ARTIFACT_NAME"] == p1;
    assert StartBuildRequest(p2, h2).qs["ARTIFACT_NAME"] == p2;
    assert StartBuildRequest(p1, h1).qs["RELEASE_CANDIDATE_VERSION"] == h1;
    assert StartBuildRequest(p2, h2).qs["RELEASE_CANDIDATE_VERSION"] == h2;
  }

  /** The settlement of `startBuild` once the POST has answered: resolved with
      no value on a 2xx reply, rejected naming project and hash otherwise. */
  function StartBuild(projectName: string, versionGitHash: string, response: PostResponse): (r: Result<()>)
    ensures r.Ok? <==> response.PostReply? && 200 <= response.status <= 299
    ensures r.Err? ==> r.error == StartBuildFailure(projectName, versionGitHash)
  {
    if !TriggerAccepted(response) then Err(StartBuildFailure(projectName, versionGitHash)) else Ok(())
  }

  /** `scheduleBuilds(projectsGitCommits)` with `config.projects` as
      `configProjects`; `respond(k)` is the reply to the k-th trigger. `sent`
      lists the triggers in the order they were sent. `outcome` is `None`
      when the first synchronous pass sends no trigger, where the source
      returns a bare `null` instead of a promise; otherwise it is how the
      returned promise settles. */
  method ScheduleBuilds(configProjects: seq<string>, projectsGitCommits: seq<seq<string>>, respond: nat -> PostResponse)
    returns (sent: seq<Trigger>, outcome: Option<Result<()>>)
    requires |projectsGitCommits| <= |configProjects|
    ensures sent <= Flatten(configProjects, projectsGitCommits)
    ensures forall k :: 0 <= k < |sent| - 1 ==> TriggerAccepted(respond(k))
    ensures outcome.None? <==> Flatten(configProjects, projectsGitCommits) == []
    ensures outcome.None? ==> sent == []
    ensures outcome == Some(Ok(())) ==> sent == Flatten(configProjects, projectsGitCommits) &&
                                        forall k :: 0 <= k < |sent| ==> TriggerAccepted(respond(k))
    ensures outcome.Some? && outcome.value.Err? ==>
              |sent| > 0 && !TriggerAccepted(respond(|sent| - 1)) &&
              outcome.value == StartBuild(sent[|sent| - 1].project, sent[|sent| - 1].commit, respond(|sent| - 1))
    ensures (forall k :: 0 <= k < TotalCommits(projectsGitCommits) ==> TriggerAccepted(respond(k))) ==>
            sent == Flatten(configProjects, projectsGitCommits) &&
            outcome == (if sent == [] then None else Some(Ok(())))
    ensures projectsGitCommits == [] ==> sent == [] && outcome.None?
  {
    var accepted := (k: nat) => TriggerAccepted(respond(k));
    var completed: bool;
    sent, completed := RunTrack(configProjects, projectsGitCommits, accepted);
    assert forall k: nat :: accepted(k) == TriggerAccepted(respond(k));
    FlattenLength(configProjects, projectsGitCommits);
    if sent == [] {
      outcome := None;
    } else if completed {
      outcome := Some(Ok(()));
    } else {
      var last := sent[|sent| - 1];
      outcome := Some(StartBuild(last.project, last.commit, respond(|sent| - 1)));
    }
  }

  /** The open client object. `requests` records the GETs sent. */
  class OpenClient {
    var statusCache: Option<seq<Build>>
    var queueCache: Option<seq<Build>>
    var requests: seq<Endpoint>

    constructor ()
      ensures statusCache == None && queueCache == None && requests == []
    {
      statusCache, queueCache, requests := None, None, [];
    }

    /** `getCurrentBuildStatus`; `response` is what the GET would receive. */
    method GetCurrentBuildStatus(response: GetResponse) returns (r: Result<seq<Build>>)
      modifies this
      ensures var f := Serve(old(statusCache), JobBuilds(ReleaseJob), response, RequestFailure);
              r == f.reply && statusCache == f.cache &&
              requests == old(requests) + (if f.requested then [JobBuilds(ReleaseJob)] else [])
      ensures queueCache == old(queueCache)
    {
      if statusCache.Some? {
        r := Ok(statusCache.value);
      } else {
        requests := requests + [JobBuilds(ReleaseJob)];
        if response.GetError? || response.statusCode != 200 {
          r := Err(RequestFailure);
        } else {
          var buildsInProgress := InProgress(response.records);
          statusCache := Some(buildsInProgress);
          r := Ok(buildsInProgress);
        }
      }
    }

    /** `getQueuedBuilds`; independent of the status cache. */
    method GetQueuedBuilds(response: GetResponse) returns (r: Result<seq<Build>>)
      modifies this
      ensures var f := Serve(old(queueCache), Queue, response, RequestFailure);
              r == f.reply && queueCache == f.cache &&
              requests == old(requests) + (if f.requested then [Queue] else [])
      ensures statusCache == old(statusCache)
    {
      if queueCache.Some? {
        r := Ok(queueCache.value);
      } else {
        requests := requests + [Queue];
        if response.GetError? || response.statusCode != 200 {
          r := Err(RequestFailure);
        } else {
          queueCache := Some(response.records);
          r := Ok(response.records);
        }
      }
    }
  }
}
