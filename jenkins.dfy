/** The Jenkins plugin: turning Jenkins' build data into build records, and
    one pass of the polling loop, which sends a record for every build seen
    for the first time and keeps a cache keyed by (job name, build number).

    The Jenkins server is given as data: the jobs with the build numbers
    their job info lists, and `fetch`, the raw build info Jenkins answers
    for a (job name, build number) during this pass. Times are integer
    milliseconds since the epoch. */
module Jenkins {
  import opened Common

  datatype Status = Scheduled | Running | Successful | Failed | Aborted

  function StatusName(s: Status): string
  {
    match s
    case Scheduled => "SCHEDULED"
    case Running => "RUNNING"
    case Successful => "SUCCESSFUL"
    case Failed => "FAILED"
    case Aborted => "ABORTED"
  }

  /** The status names the loop treats as final. */
  const TerminalNames: seq<string> := ["SUCCESSFUL", "FAILED", "ABORTED"]

  predicate IsTerminal(s: Status)
  {
    StatusName(s) in TerminalNames
  }

  /** The terminal statuses are exactly the three outcomes of a finished build. */
  lemma TerminalStatuses(s: Status)
    ensures IsTerminal(s) <==> s == Successful || s == Failed || s == Aborted
  {
    assert StatusName(Scheduled) != TerminalNames[0] && StatusName(Running) != TerminalNames[0];
  }

  /** Jenkins' `result` values the plugin knows, and the status each becomes. */
  const ResultStatus: map<string, Status> :=
    map["SUCCESS" := Successful, "FAILURE" := Failed, "ABORTED" := Aborted]

  datatype Job = Job(name: string, url: string)

  /** A job together with the build numbers `get_job_info(name)['builds']` lists. */
  datatype JobListing = JobListing(job: Job, builds: seq<int>)

  /** The records `_get_job_builds` yields. */
  datatype BuildRef = BuildRef(name: string, url: string, build: int)

  /** The fields of `get_build_info` the plugin reads; `result` is `None`
      while the build has none. */
  datatype RawBuild = RawBuild(
    timestamp: int,
    result: Option<string>,
    building: bool,
    duration: int,
    estimatedDuration: int)

  /** The record sent to the target and kept in the cache. */
  datatype BuildInfo = BuildInfo(
    name: string,
    url: string,
    build: int,
    status: Status,
    start: Option<int>,
    end: Option<int>)

  /** The `KeyError` the result lookup raises for an unknown result. */
  datatype LookupError = UnknownResult(result: string)

  type BuildKey = (string, int)

  function RefKey(b: BuildRef): BuildKey
  {
    (b.name, b.build)
  }

  function InfoKey(info: BuildInfo): BuildKey
  {
    (info.name, info.build)
  }

  /** Python truthiness of `info['result']`: present and not empty. */
  predicate Truthy(result: Option<string>)
  {
    result.Some? && result.value != ""
  }

  /** A point in time, as milliseconds since the epoch. */
  datatype Instant = Instant(epochMs: int)

  function Later(t: Instant, ms: int): Instant
  {
    Instant(t.epochMs + ms)
  }

  /** `_to_timestamp`: no time stays none; a time becomes its epoch milliseconds. */
  function ToTimestamp(dt: Option<Instant>): (r: Option<int>)
    ensures r.None? <==> dt.None?
    ensures forall ms :: dt == Some(Instant(ms)) ==> r == Some(ms)
  {
    match dt
    case None => None
    case Some(t) => Some(t.epochMs)
  }

  /** `_get_build_info`: the status and the start and end times of a build. */
  function GetBuildInfo(b: BuildRef, raw: RawBuild): (r: Result<BuildInfo, LookupError>)
    ensures r.Ok? ==> r.value.name == b.name && r.value.url == b.url && r.value.build == b.build
    ensures r.Ok? ==> r.value.start == Some(raw.timestamp)
    ensures r.Err? <==> Truthy(raw.result) && raw.result.value !in ResultStatus
    ensures r.Ok? && Truthy(raw.result) ==>
      r.value.status == ResultStatus[raw.result.value] && r.value.end == Some(raw.timestamp + raw.duration)
    ensures r.Ok? && !Truthy(raw.result) && raw.building ==>
      r.value.status == Running && r.value.end == None
    ensures r.Ok? && !Truthy(raw.result) && !raw.building ==>
      r.value.status == Scheduled && r.value.end == Some(raw.timestamp + raw.estimatedDuration)
  {
    var start := Instant(raw.timestamp);
    var outcome: Result<(Status, Option<Instant>), LookupError> :=
      if Truthy(raw.result) then
        if raw.result.value in ResultStatus then Ok((ResultStatus[raw.result.value], Some(Later(start, raw.duration))))
        else Err(UnknownResult(raw.result.value))
      else if raw.building then Ok((Running, None))
      else Ok((Scheduled, Some(Later(start, raw.estimatedDuration))));
    match outcome
    case Err(e) => Err(e)
    case Ok((status, end)) =>
      Ok(BuildInfo(b.name, b.url, b.build, status, ToTimestamp(Some(start)), ToTimestamp(end)))
  }

  /** A finished build is terminal exactly when Jenkins reports a result for
      it, and only a running build has no end time. */
  lemma BuildInfoStatus(b: BuildRef, raw: RawBuild)
    requires GetBuildInfo(b, raw).Ok?
    ensures IsTerminal(GetBuildInfo(b, raw).value.status) <==> Truthy(raw.result)
    ensures GetBuildInfo(b, raw).value.end.None? <==> GetBuildInfo(b, raw).value.status == Running
  {
    var info := GetBuildInfo(b, raw).value;
    TerminalStatuses(info.status);
  }

  /** `_get_job_builds`: one record per listed build, in order, each with the
      job's name and url and the build's number. */
  function JobBuilds(job: Job, numbers: seq<int>): (r: seq<BuildRef>)
    ensures |r| == |numbers|
    ensures forall i :: 0 <= i < |r| ==> r[i] == BuildRef(job.name, job.url, numbers[i])
  {
    if |numbers| == 0 then []
    else JobBuilds(job, numbers[..|numbers| - 1]) + [BuildRef(job.name, job.url, numbers[|numbers| - 1])]
  }

  /** The builds of every job, job by job. */
  function JobsBuilds(jobs: seq<JobListing>): (r: seq<seq<BuildRef>>)
    ensures |r| == |jobs|
    ensures forall j :: 0 <= j < |jobs| ==> r[j] == JobBuilds(jobs[j].job, jobs[j].builds)
  {
    seq(|jobs|, j requires 0 <= j < |jobs| => JobBuilds(jobs[j].job, jobs[j].builds))
  }

  /** The builds one pass visits, in the order it visits them. */
  function PassBuilds(jobs: seq<JobListing>): seq<BuildRef>
  {
    Flatten(JobsBuilds(jobs))
  }

  /** A Python value, as far as the test on a fetched record needs one. */
  datatype PyValue = PyStr(s: string) | PyRecord(info: BuildInfo)

  function PyStrings(names: seq<string>): (r: seq<PyValue>)
    ensures |r| == |names|
    ensures forall i :: 0 <= i < |r| ==> r[i] == PyStr(names[i])
  {
    seq(|names|, i requires 0 <= i < |names| => PyStr(names[i]))
  }

  /** Which test decides whether a re-fetched record of a cached,
      unfinished build replaces the cached one and is sent. */
  datatype RefreshTest =
    | AsWritten   // `info in [...]`: the whole record against the status names
    | StatusTest  // `info['status'] in [...]`: the record's status

  predicate Refreshes(info: BuildInfo, test: RefreshTest)
  {
    match test
    case AsWritten => PyRecord(info) in PyStrings(TerminalNames)
    case StatusTest => StatusName(info.status) in TerminalNames
  }

  /** A record is never equal to a string, so the test as written never passes. */
  lemma AsWrittenNeverRefreshes(info: BuildInfo)
    ensures !Refreshes(info, AsWritten)
  {
    var names := PyStrings(TerminalNames);
    assert forall i :: 0 <= i < |names| ==> names[i].PyStr?;
  }

  /** What a pass has built up: the cache, the records sent to the target,
      and the exception that ended it, if one did. */
  datatype PollState = PollState(cache: map<BuildKey, BuildInfo>, sent: seq<BuildInfo>, raised: Option<LookupError>)

  /** The loop body for one build. */
  function Step(st: PollState, b: BuildRef, fetch: BuildKey -> RawBuild, test: RefreshTest): (r: PollState)
    ensures st.raised.Some? ==> r == st
    ensures st.cache.Keys <= r.cache.Keys <= st.cache.Keys + {RefKey(b)}
    ensures forall k :: k in st.cache && k != RefKey(b) ==> r.cache[k] == st.cache[k]
    ensures |st.sent| <= |r.sent| <= |st.sent| + 1 && r.sent[..|st.sent|] == st.sent
    ensures |r.sent| == |st.sent| ==> r.cache == st.cache
    ensures |r.sent| > |st.sent| ==>
      RefKey(b) in r.cache && r.sent[|st.sent|] == r.cache[RefKey(b)] && InfoKey(r.sent[|st.sent|]) == RefKey(b)
  {
    if st.raised.Some? then st
    else
      var key := RefKey(b);
      if key in st.cache then
        if IsTerminal(st.cache[key].status) then st
        else
          match GetBuildInfo(b, fetch(key))
          case Err(e) => st.(raised := Some(e))
          case Ok(info) =>
            if Refreshes(info, test) then PollState(st.cache[key := info], st.sent + [info], None)
            else st
      else
        match GetBuildInfo(b, fetch(key))
        case Err(e) => st.(raised := Some(e))
        case Ok(info) => PollState(st.cache[key := info], st.sent + [info], None)
  }

  /** The loop body for each of `bs` in turn. */
  function Run(st: PollState, bs: seq<BuildRef>, fetch: BuildKey -> RawBuild, test: RefreshTest): PollState
  {
    if |bs| == 0 then st
    else Step(Run(st, bs[..|bs| - 1], fetch, test), bs[|bs| - 1], fetch, test)
  }

  /** A build seen for the first time is fetched, cached and sent. */
  lemma FirstSighting(st: PollState, b: BuildRef, fetch: BuildKey -> RawBuild, test: RefreshTest)
    requires st.raised.None? && RefKey(b) !in st.cache
    ensures var r := Step(st, b, fetch, test);
      match GetBuildInfo(b, fetch(RefKey(b)))
      case Ok(info) => r == PollState(st.cache[RefKey(b) := info], st.sent + [info], None)
      case Err(e) => r == st.(raised := Some(e))
  {
  }

  /** Once an exception has ended the pass, nothing more happens. */
  lemma {:induction false} RunAfterRaise(st: PollState, bs: seq<BuildRef>, fetch: BuildKey -> RawBuild, test: RefreshTest)
    requires st.raised.Some?
    ensures Run(st, bs, fetch, test) == st
  {
    if |bs| > 0 {
      RunAfterRaise(st, bs[..|bs| - 1], fetch, test);
    }
  }

  /** Running two lists of builds one after the other is running their concatenation. */
  lemma {:induction false} RunAppend(st: PollState, a: seq<BuildRef>, b: seq<BuildRef>, fetch: BuildKey -> RawBuild, test: RefreshTest)
    ensures Run(Run(st, a, fetch, test), b, fetch, test) == Run(st, a + b, fetch, test)
  {
    if |b| == 0 {
      assert a + b == a;
    } else {
      assert (a + b)[..|a + b| - 1] == a + b[..|b| - 1];
      RunAppend(st, a, b[..|b| - 1], fetch, test);
    }
  }

  /** The cache's key set only grows, and what was sent stays sent. */
  lemma {:induction false} RunGrows(st: PollState, bs: seq<BuildRef>, fetch: BuildKey -> RawBuild, test: RefreshTest)
    ensures var r := Run(st, bs, fetch, test);
      st.cache.Keys <= r.cache.Keys && |st.sent| <= |r.sent| && r.sent[..|st.sent|] == st.sent
  {
    if |bs| > 0 {
      RunGrows(st, bs[..|bs| - 1], fetch, test);
    }
  }

  /** A build cached with a terminal status is neither re-fetched nor
      re-sent: its entry stays and no record for it is sent again. */
  lemma {:induction false} TerminalIsFinal(st: PollState, bs: seq<BuildRef>, fetch: BuildKey -> RawBuild, test: RefreshTest, key: BuildKey)
    requires key in st.cache && IsTerminal(st.cache[key].status)
    ensures var r := Run(st, bs, fetch, test);
      && key in r.cache && r.cache[key] == st.cache[key]
      && |st.sent| <= |r.sent|
      && forall i :: |st.sent| <= i < |r.sent| ==> InfoKey(r.sent[i]) != key
  {
    if |bs| > 0 {
      var init := bs[..|bs| - 1];
      TerminalIsFinal(st, init, fetch, test, key);
      var r0 := Run(st, init, fetch, test);
      var r := Step(r0, bs[|bs| - 1], fetch, test);
      if |r.sent| > |r0.sent| {
        assert InfoKey(r.sent[|r0.sent|]) == RefKey(bs[|bs| - 1]);
      }
    }
  }

  /** `info` is for a build `cache` did not hold, and `st` caches it as sent. */
  predicate NewAndCached(cache: map<BuildKey, BuildInfo>, st: PollState, info: BuildInfo)
  {
    InfoKey(info) !in cache && InfoKey(info) in st.cache && st.cache[InfoKey(info)] == info
  }

  /** Every record `st` has sent is new and cached, and no build was sent twice. */
  predicate SentOnceEach(cache: map<BuildKey, BuildInfo>, st: PollState)
  {
    && (forall i :: 0 <= i < |st.sent| ==> NewAndCached(cache, st, st.sent[i]))
    && (forall i, j :: 0 <= i < j < |st.sent| ==> InfoKey(st.sent[i]) != InfoKey(st.sent[j]))
  }

  /** With the test as written, a pass sends a record only for a build the
      cache did not hold, at most once per build, and never changes an entry
      the cache held: an unfinished build is never updated. */
  lemma {:induction false} AsWrittenSendsOnlyNewBuilds(cache: map<BuildKey, BuildInfo>, bs: seq<BuildRef>, fetch: BuildKey -> RawBuild)
    ensures var r := Run(PollState(cache, [], None), bs, fetch, AsWritten);
      && (forall k :: k in cache ==> k in r.cache && r.cache[k] == cache[k])
      && SentOnceEach(cache, r)
  {
    if |bs| > 0 {
      var st := PollState(cache, [], None);
      var init := bs[..|bs| - 1];
      var b := bs[|bs| - 1];
      AsWrittenSendsOnlyNewBuilds(cache, init, fetch);
      var r0 := Run(st, init, fetch, AsWritten);
      var r := Step(r0, b, fetch, AsWritten);
      assert Run(st, bs, fetch, AsWritten) == r;
      if r0.raised.None? && RefKey(b) in r0.cache && !IsTerminal(r0.cache[RefKey(b)].status) {
        match GetBuildInfo(b, fetch(RefKey(b)))
        case Err(_) =>
        case Ok(info) => AsWrittenNeverRefreshes(info);
      }
      if |r.sent| > |r0.sent| {
        var n := |r0.sent|;
        assert RefKey(b) !in r0.cache;
        forall i | 0 <= i < |r.sent|
          ensures NewAndCached(cache, r, r.sent[i])
        {
          if i < n {
            assert r.sent[i] == r0.sent[i];
            assert NewAndCached(cache, r0, r0.sent[i]);
          }
        }
        forall i, j | 0 <= i < j < |r.sent|
          ensures InfoKey(r.sent[i]) != InfoKey(r.sent[j])
        {
          assert r.sent[i] == r0.sent[i];
          assert NewAndCached(cache, r0, r0.sent[i]);
          if j < n {
            assert r.sent[j] == r0.sent[j];
          }
        }
      } else {
        assert r.sent == r0.sent && r.cache == r0.cache;
      }
    }
  }

  /** With the status test, an unfinished cached build that Jenkins now
      reports finished is cached with its final record and sent. */
  lemma CompletionIsForwarded(st: PollState, b: BuildRef, fetch: BuildKey -> RawBuild)
    requires st.raised.None? && RefKey(b) in st.cache && !IsTerminal(st.cache[RefKey(b)].status)
    requires Truthy(fetch(RefKey(b)).result) && fetch(RefKey(b)).result.value in ResultStatus
    ensures var info := GetBuildInfo(b, fetch(RefKey(b))).value;
      && IsTerminal(info.status)
      && Step(st, b, fetch, StatusTest) == PollState(st.cache[RefKey(b) := info], st.sent + [info], None)
  {
    BuildInfoStatus(b, fetch(RefKey(b)));
  }

  /** Build 5 of job "ci" was cached while running and has since succeeded:
      the pass as written sends nothing and keeps it RUNNING, the status
      test sends the SUCCESSFUL record. */
  lemma AsWrittenMissesCompletion()
    ensures var b := BuildRef("ci", "http://jenkins/job/ci/", 5);
      var running := BuildInfo("ci", "http://jenkins/job/ci/", 5, Running, Some(1000), None);
      var fetch := (k: BuildKey) => RawBuild(1000, Some("SUCCESS"), false, 250, 300);
      var st := PollState(map[("ci", 5) := running], [], None);
      var done := BuildInfo("ci", "http://jenkins/job/ci/", 5, Successful, Some(1000), Some(1250));
      && Run(st, [b], fetch, AsWritten) == st
      && Run(st, [b], fetch, StatusTest) == PollState(map[("ci", 5) := done], [done], None)
  {
    var b := BuildRef("ci", "http://jenkins/job/ci/", 5);
    var running := BuildInfo("ci", "http://jenkins/job/ci/", 5, Running, Some(1000), None);
    var fetch := (k: BuildKey) => RawBuild(1000, Some("SUCCESS"), false, 250, 300);
    var st := PollState(map[("ci", 5) := running], [], None);
    assert [b][..0] == [];
    TerminalStatuses(Running);
    AsWrittenNeverRefreshes(GetBuildInfo(b, fetch(RefKey(b))).value);
    TerminalStatuses(Successful);
  }

  /** Running the builds of the first `j + 1` jobs is running those of the
      first `j` jobs and then the builds of job `j`. */
  lemma PassExtends(st: PollState, all: seq<seq<BuildRef>>, j: nat, fetch: BuildKey -> RawBuild, test: RefreshTest)
    requires j < |all|
    ensures Run(st, Flatten(all[..j + 1]), fetch, test) == Run(Run(st, Flatten(all[..j]), fetch, test), all[j], fetch, test)
  {
    assert all[..j + 1][..j] == all[..j];
    RunAppend(st, Flatten(all[..j]), all[j], fetch, test);
  }

  /** A pass whose first `j` jobs end in a raise ends there. */
  lemma PassStopsAtRaise(st: PollState, all: seq<seq<BuildRef>>, j: nat, fetch: BuildKey -> RawBuild, test: RefreshTest)
    requires j <= |all| && Run(st, Flatten(all[..j]), fetch, test).raised.Some?
    ensures Run(st, Flatten(all), fetch, test) == Run(st, Flatten(all[..j]), fetch, test)
  {
    assert all == all[..j] + all[j..];
    FlattenAppend(all[..j], all[j..]);
    RunAfterRaise(Run(st, Flatten(all[..j]), fetch, test), Flatten(all[j..]), fetch, test);
    RunAppend(st, Flatten(all[..j]), Flatten(all[j..]), fetch, test);
  }

  /** The loop body for one build, as run: the cache and the records sent
      so far, and the exception that stops the pass, if one is raised. */
  method PollBuild(cache0: map<BuildKey, BuildInfo>, sent0: seq<BuildInfo>, b: BuildRef, fetch: BuildKey -> RawBuild, test: RefreshTest)
    returns (cache: map<BuildKey, BuildInfo>, sent: seq<BuildInfo>, raised: Option<LookupError>)
    ensures PollState(cache, sent, raised) == Step(PollState(cache0, sent0, None), b, fetch, test)
  {
    cache, sent, raised := cache0, sent0, None;
    var key := (b.name, b.build);
    if key in cache {
      if !IsTerminal(cache[key].status) {
        var info := GetBuildInfo(b, fetch(key));
        if info.Err? {
          raised := Some(info.error);
        } else if Refreshes(info.value, test) {
          cache := cache[key := info.value];
          sent := sent + [info.value];
        }
      }
    } else {
      var info := GetBuildInfo(b, fetch(key));
      if info.Err? {
        raised := Some(info.error);
      } else {
        cache := cache[key := info.value];
        sent := sent + [info.value];
      }
    }
  }

  /** The inner loop of a pass: the builds of one job, from the given
      cache and records sent so far. */
  method PollJob(cache0: map<BuildKey, BuildInfo>, sent0: seq<BuildInfo>, builds: seq<BuildRef>, fetch: BuildKey -> RawBuild, test: RefreshTest)
    returns (cache: map<BuildKey, BuildInfo>, sent: seq<BuildInfo>, raised: Option<LookupError>)
    ensures PollState(cache, sent, raised) == Run(PollState(cache0, sent0, None), builds, fetch, test)
  {
    ghost var st0 := PollState(cache0, sent0, None);
    cache, sent, raised := cache0, sent0, None;
    var k := 0;
    while k < |builds|
      invariant 0 <= k <= |builds|
      invariant raised.None?
      invariant PollState(cache, sent, raised) == Run(st0, builds[..k], fetch, test)
    {
      assert builds[..k + 1][..k] == builds[..k];
      cache, sent, raised := PollBuild(cache, sent, builds[k], fetch, test);
      if raised.Some? {
        assert builds == builds[..k + 1] + builds[k + 1..];
        RunAfterRaise(Run(st0, builds[..k + 1], fetch, test), builds[k + 1..], fetch, test);
        RunAppend(st0, builds[..k + 1], builds[k + 1..], fetch, test);
        return;
      }
      k := k + 1;
    }
    assert builds[..k] == builds;
  }

  /** One pass of `jenkinsLoop` over every build of every job: `cache0` is
      `builds_cache` before the pass; the result is the cache after it, the
      records sent to the target in order, and the `KeyError` that ended the
      pass early, if any. */
  method PollPass(cache0: map<BuildKey, BuildInfo>, jobs: seq<JobListing>, fetch: BuildKey -> RawBuild, test: RefreshTest)
    returns (cache: map<BuildKey, BuildInfo>, sent: seq<BuildInfo>, raised: Option<LookupError>)
    ensures PollState(cache, sent, raised) == Run(PollState(cache0, [], None), PassBuilds(jobs), fetch, test)
  {
    ghost var st0 := PollState(cache0, [], None);
    ghost var all := JobsBuilds(jobs);
    cache, sent, raised := cache0, [], None;
    var j := 0;
    while j < |jobs|
      invariant 0 <= j <= |jobs|
      invariant raised.None?
      invariant PollState(cache, sent, raised) == Run(st0, Flatten(all[..j]), fetch, test)
    {
      var builds := JobBuilds(jobs[j].job, jobs[j].builds);
      PassExtends(st0, all, j, fetch, test);
      cache, sent, raised := PollJob(cache, sent, builds, fetch, test);
      if raised.Some? {
        PassStopsAtRaise(st0, all, j + 1, fetch, test);
        return;
      }
      j := j + 1;
    }
    assert all[..j] == all;
  }
}
