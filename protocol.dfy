/** What the two Jenkins clients share: the build record, the outcome of one
    HTTP exchange, the in-progress filter, the one-shot status/queue cache and
    the start-build acceptance rule. */
module Protocol {
  import opened Wrappers

  /** One build record as returned by the server (the `BuildStatus` value).
      `result == None` is JSON `null`: the build is still running. */
  datatype Build = Build(result: Option<string>, description: Option<string>, parameters: map<string, string>)

  /** The outcome of a GET: a transport error, or a reply with its status code
      and the record list of the payload (`builds` or `items`). */
  datatype GetResponse = GetError | GetReply(statusCode: int, records: seq<Build>)

  /** The outcome of a POST: a transport error, or a reply with its status. */
  datatype PostResponse = PostError | PostReply(status: int)

  /** A GET the client can send: the build list of one job, or the queue. */
  datatype Endpoint = JobBuilds(job: string) | Queue

  /** A POST to `job/<job>/buildWithParameters` with query parameters `qs`. */
  datatype PostRequest = PostRequest(job: string, qs: map<string, string>)

  /** `error || response.statusCode !== 200` is the failure test of a GET. */
  predicate GetSucceeded(response: GetResponse)
  {
    !(response.GetError? || response.statusCode != 200)
  }

  /** `error || response.status < 200 || response.status > 299` is the
      failure test of a POST; the trigger is accepted when this test is false. */
  predicate TriggerAccepted(response: PostResponse)
  {
    !(response.PostError? || response.status < 200 || response.status > 299)
  }

  lemma TriggerAcceptedIff(response: PostResponse)
    ensures TriggerAccepted(response) <==>
            exists s :: response == PostReply(s) && 200 <= s <= 299
  {
    if TriggerAccepted(response) {
      assert response == PostReply(response.status);
    }
  }

  /** The builds whose `result` is null, in their original order
      (`builds.filter(build => build.result === null)`). */
  function InProgress(builds: seq<Build>): (r: seq<Build>)
    ensures |r| <= |builds|
    ensures forall b :: b in r <==> b in builds && b.result.None?
  {
    if builds == [] then []
    else if builds[0].result.None? then [builds[0]] + InProgress(builds[1..])
    else InProgress(builds[1..])
  }

  /** Filtering distributes over concatenation: the relative order of the
      in-progress builds is the order of the source list. */
  lemma {:induction false} InProgressAppend(a: seq<Build>, b: seq<Build>)
    ensures InProgress(a + b) == InProgress(a) + InProgress(b)
  {
    if a == [] {
      assert a + b == b;
    } else {
      assert (a + b)[1..] == a[1..] + b;
      InProgressAppend(a[1..], b);
    }
  }

  /** A list of running builds is kept whole. */
  lemma {:induction false} InProgressKeepsRunning(builds: seq<Build>)
    requires forall i :: 0 <= i < |builds| ==> builds[i].result.None?
    ensures InProgress(builds) == builds
  {
    if builds != [] {
      InProgressKeepsRunning(builds[1..]);
    }
  }

  /** A list of finished builds filters to nothing. */
  lemma {:induction false} InProgressDropsFinished(builds: seq<Build>)
    requires forall i :: 0 <= i < |builds| ==> builds[i].result.Some?
    ensures InProgress(builds) == []
  {
    if builds != [] {
      InProgressDropsFinished(builds[1..]);
    }
  }

  /** Records `[{result:null}, {result:"SUCCESS"}, {result:null}]` give the
      two running ones. */
  lemma InProgressExample(d1: Option<string>, d2: Option<string>, d3: Option<string>)
    ensures var running1 := Build(None, d1, map[]);
            var done := Build(Some("SUCCESS"), d2, map[]);
            var running2 := Build(None, d3, map[]);
            InProgress([running1, done, running2]) == [running1, running2]
  {
  }

  /** What a cache-backed GET keeps: the in-progress builds of a job, or every
      queue item (`items.map(...)`, one entry per item). */
  function Select(endpoint: Endpoint, records: seq<Build>): (r: seq<Build>)
  {
    match endpoint
    case JobBuilds(_) => InProgress(records)
    case Queue => records
  }

  /** The effect of one call on a write-once cache: the promise's settlement,
      the cache afterwards, and whether a GET was sent. */
  datatype Fetched = Fetched(reply: Result<seq<Build>>, cache: Option<seq<Build>>, requested: bool)

  /** One call of `getCurrentBuildStatus` / `getQueuedBuilds`: a set cache
      answers without a request (an empty list is a set cache, as an empty
      array is truthy); otherwise the GET is sent, a failure rejects with
      `failure` and leaves the cache unset, a success stores and returns the
      selected records. */
  function Serve(cache: Option<seq<Build>>, endpoint: Endpoint, response: GetResponse, failure: string): (r: Fetched)
    ensures r.requested <==> cache.None?
    ensures r.cache.Some? <==> cache.Some? || GetSucceeded(response)
    ensures r.reply.Ok? <==> r.cache.Some?
    ensures r.reply.Ok? ==> r.reply.value == r.cache.value
    ensures r.reply.Err? ==> r.reply.error == failure
  {
    if cache.Some? then Fetched(Ok(cache.value), cache, false)
    else if !GetSucceeded(response) then Fetched(Err(failure), None, true)
    else
      var kept := Select(endpoint, response.records);
      Fetched(Ok(kept), Some(kept), true)
  }

  /** A successfully filled status cache holds exactly the running builds of
      the reply, in reply order; a queue cache holds every item. */
  lemma ServeStoresSelection(endpoint: Endpoint, response: GetResponse, failure: string)
    requires GetSucceeded(response)
    ensures var r := Serve(None, endpoint, response, failure);
            r.cache == Some(Select(endpoint, response.records)) &&
            (endpoint.Queue? ==> |r.cache.value| == |response.records| &&
                                 forall i :: 0 <= i < |response.records| ==> r.cache.value[i] == response.records[i]) &&
            (endpoint.JobBuilds? ==> forall b :: b in r.cache.value <==> b in response.records && b.result.None?)
  {
  }

  /** Calling twice in succession sends at most one GET once the first call
      succeeded, and the second call answers with the identical list; after a
      failure the second call retries. */
  lemma ServeTwice(cache: Option<seq<Build>>, endpoint: Endpoint, first: GetResponse, second: GetResponse, failure: string)
    ensures var r1 := Serve(cache, endpoint, first, failure);
            var r2 := Serve(r1.cache, endpoint, second, failure);
            (r1.reply.Ok? ==> r2 == Fetched(r1.reply, r1.cache, false)) &&
            (r1.reply.Err? ==> r2.requested && r2 == Serve(None, endpoint, second, failure))
  {
  }

  /** Replays a run of calls against one cache, one response per call (a
      response is ignored when the cache answers). */
  function ServeAll(cache: Option<seq<Build>>, endpoint: Endpoint, responses: seq<GetResponse>, failure: string): (r: seq<Fetched>)
    ensures |r| == |responses|
    ensures responses != [] ==> r[0] == Serve(cache, endpoint, responses[0], failure)
    ensures forall k :: 0 < k < |r| ==> r[k] == Serve(r[k - 1].cache, endpoint, responses[k], failure)
    decreases |responses|
  {
    if responses == [] then []
    else
      var f := Serve(cache, endpoint, responses[0], failure);
      [f] + ServeAll(f.cache, endpoint, responses[1..], failure)
  }

  /** The number of GETs a run of calls sends. */
  function RequestCount(fs: seq<Fetched>): nat
  {
    if fs == [] then 0 else (if fs[0].requested then 1 else 0) + RequestCount(fs[1..])
  }

  /** A set cache is a latch: every later call answers with the same list,
      sends no request and leaves the cache as it is. */
  lemma {:induction false} ServeAllLatched(v: seq<Build>, endpoint: Endpoint, responses: seq<GetResponse>, failure: string)
    ensures var fs := ServeAll(Some(v), endpoint, responses, failure);
            RequestCount(fs) == 0 &&
            forall i :: 0 <= i < |fs| ==> fs[i] == Fetched(Ok(v), Some(v), false)
  {
    if responses != [] {
      ServeAllLatched(v, endpoint, responses[1..], failure);
    }
  }

  /** From an unset cache, the calls up to and including the first success
      each send one GET; from then on no GET is sent and every call answers
      with what the first success stored. */
  lemma {:induction false} ServeAllFirstSuccessWins(endpoint: Endpoint, responses: seq<GetResponse>, failure: string, k: nat)
    requires k < |responses| && GetSucceeded(responses[k])
    requires forall i :: 0 <= i < k ==> !GetSucceeded(responses[i])
    ensures var fs := ServeAll(None, endpoint, responses, failure);
            var v := Select(endpoint, responses[k].records);
            RequestCount(fs) == k + 1 &&
            (forall i :: 0 <= i < k ==> fs[i] == Fetched(Err(failure), None, true)) &&
            (forall i :: k <= i < |fs| ==> fs[i].reply == Ok(v) && fs[i].cache == Some(v))
  {
    var fs := ServeAll(None, endpoint, responses, failure);
    var v := Select(endpoint, responses[k].records);
    if k == 0 {
      var f := Serve(None, endpoint, responses[0], failure);
      assert f == Fetched(Ok(v), Some(v), true);
      ServeAllLatched(v, endpoint, responses[1..], failure);
      var rest := ServeAll(Some(v), endpoint, responses[1..], failure);
      assert fs == [f] + rest;
      forall i | 0 <= i < |fs| ensures fs[i].reply == Ok(v) && fs[i].cache == Some(v) {
        if i > 0 { assert fs[i] == rest[i - 1]; }
      }
    } else {
      var f := Serve(None, endpoint, responses[0], failure);
      assert f == Fetched(Err(failure), None, true);
      ServeAllFirstSuccessWins(endpoint, responses[1..], failure, k - 1);
      var rest := ServeAll(None, endpoint, responses[1..], failure);
      assert fs == [f] + rest;
      assert fs[1..] == rest;
      forall i | 0 <= i < |fs| ensures i < k ==> fs[i] == Fetched(Err(failure), None, true)
        ensures k <= i ==> fs[i].reply == Ok(v) && fs[i].cache == Some(v) {
        if i > 0 { assert fs[i] == rest[i - 1]; }
      }
    }
  }
}
