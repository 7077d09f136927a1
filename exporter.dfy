/** The sync-and-flatten engine: for one repository, decide which pages of
    builds are new (`ProcessRepo`), flatten each build into Build, Stage
    and Step points (`ProcessBuilds`), and hand the points to the store
    (`RepoUnit`, one unit of work of the scheduler). */
module Exporter {
  import opened Base
  import opened Drone
  import opened Types
  import InfluxDB

  /** Builds are listed 25 to a page. */
  const PageSize: nat := 25
  /** The status of a build still in flight. */
  const Running: string := "running"

  /** The exporter's view of its configuration and collaborators: the CI
      server's URL (the DroneAddress tag) and the CI client. */
  datatype Exporter = Exporter(droneUrl: string, drone: Client)

  // ---------------------------------------------------------------------
  // Metric derivations
  // ---------------------------------------------------------------------

  /** Time spent waiting to start: from creation to the start, or to the
      last update while the start is unset (0). */
  function WaitTime(created: Int64, started: Int64, updated: Int64): (w: Int64)
    ensures var since := if started == 0 then updated else started;
      (w - (since - created)) % TwoTo64 == 0 &&
      (MinInt64 <= since - created <= MaxInt64 ==> w == since - created)
  {
    if started == 0 then Sub64(updated, created) else Sub64(started, created)
  }

  /** Time spent running: from the start to the end, or to the last
      update while the end is unset (0). */
  function Duration(started: Int64, ended: Int64, updated: Int64): (d: Int64)
    ensures var until := if ended == 0 then updated else ended;
      (d - (until - started)) % TwoTo64 == 0 &&
      (MinInt64 <= until - started <= MaxInt64 ==> d == until - started)
  {
    if ended == 0 then Sub64(updated, started) else Sub64(ended, started)
  }

  /** A step's duration, `stopped - started` floored at zero. */
  function StepDuration(started: Int64, stopped: Int64): (d: Int64)
    ensures d >= 0
    ensures MinInt64 <= stopped - started <= MaxInt64 ==>
      d == if stopped >= started then stopped - started else 0
  {
    var d := Sub64(stopped, started);
    if d < 0 then 0 else d
  }

  /** Lifecycle timestamps in their natural order: creation first, the
      start (when set) after it, and the end (when set) and the last update
      after the start. */
  predicate Ordered(created: Int64, started: Int64, ended: Int64, updated: Int64)
  {
    0 <= created <= updated &&
    (started != 0 ==> created <= started) &&
    started <= updated &&
    (ended != 0 ==> started <= ended)
  }

  /** For a record whose timestamps are in order, the fallback to the last
      update keeps both metrics non-negative, and each one is the plain
      difference of the timestamps it falls back to. */
  lemma OrderedMetricsNonNegative(created: Int64, started: Int64, ended: Int64, updated: Int64)
    requires Ordered(created, started, ended, updated)
    ensures WaitTime(created, started, updated) >= 0
    ensures Duration(started, ended, updated) >= 0
    ensures WaitTime(created, started, updated) == (if started == 0 then updated else started) - created
    ensures Duration(started, ended, updated) == (if ended == 0 then updated else ended) - started
  {
  }

  // ---------------------------------------------------------------------
  // Points of one build
  // ---------------------------------------------------------------------

  /** The detail the CI client returns for a listed build. */
  function Detail(e: Exporter, repo: Repo, build: Build): Build
  {
    e.drone.build(repo, build.number)
  }

  /** The Build point of a listed `build` whose detail is `info`. */
  function BuildPointOf(e: Exporter, repo: Repo, build: Build, info: Build): (p: Point)
    ensures p.BuildPoint? && p.time == info.started && p.number == info.number
    ensures p.status == info.status && p.source == info.source && p.target == info.target
    ensures p.started == info.started && p.created == info.created && p.finished == info.finished
    ensures p.waitTime == WaitTime(info.created, info.started, info.updated)
    ensures p.duration == Duration(info.started, info.finished, info.updated)
    ensures p.buildId == build.number
    ensures p.tags.Keys == {"DroneAddress", "Slug", "Status"}
    ensures p.tags["DroneAddress"] == e.droneUrl && p.tags["Slug"] == repo.slug
    ensures p.tags["Status"] == info.status
  {
    BuildPoint(
      time := info.started, number := info.number, status := info.status,
      waitTime := WaitTime(info.created, info.started, info.updated),
      duration := Duration(info.started, info.finished, info.updated),
      source := info.source, target := info.target,
      started := info.started, created := info.created, finished := info.finished,
      buildId := build.number,
      tags := map["DroneAddress" := e.droneUrl, "Slug" := repo.slug, "Status" := info.status])
  }

  /** The Stage point of one stage of a listed `build`. */
  function StagePointOf(e: Exporter, repo: Repo, build: Build, stage: Stage): (p: Point)
    ensures p.StagePoint? && p.time == stage.started
    ensures p.waitTime == WaitTime(stage.created, stage.started, stage.updated)
    ensures p.duration == Duration(stage.started, stage.stopped, stage.updated)
    ensures p.os == stage.os && p.arch == stage.arch && p.status == stage.status && p.name == stage.name
    ensures p.buildId == build.number
    ensures p.tags.Keys == {"DroneAddress", "Slug", "Sender", "Name", "OS", "Arch", "Status"}
    ensures p.tags["DroneAddress"] == e.droneUrl && p.tags["Slug"] == repo.slug
    ensures p.tags["Sender"] == build.sender && p.tags["Name"] == stage.name
    ensures p.tags["OS"] == stage.os && p.tags["Arch"] == stage.arch && p.tags["Status"] == stage.status
  {
    StagePoint(
      time := stage.started,
      waitTime := WaitTime(stage.created, stage.started, stage.updated),
      duration := Duration(stage.started, stage.stopped, stage.updated),
      os := stage.os, arch := stage.arch, status := stage.status, name := stage.name,
      buildId := build.number,
      tags := map["DroneAddress" := e.droneUrl, "Slug" := repo.slug, "Sender" := build.sender,
                  "Name" := stage.name, "OS" := stage.os, "Arch" := stage.arch,
                  "Status" := stage.status])
  }

  /** The Step point of one step of a listed `build`. */
  function StepPointOf(e: Exporter, repo: Repo, build: Build, step: Step): (p: Point)
    ensures p.StepPoint? && p.time == step.started
    ensures p.duration >= 0 && p.duration == StepDuration(step.started, step.stopped)
    ensures p.name == step.name && p.status == step.status
    ensures p.buildId == build.number
    ensures p.tags.Keys == {"DroneAddress", "Slug", "Sender", "Name", "Status"}
    ensures p.tags["DroneAddress"] == e.droneUrl && p.tags["Slug"] == repo.slug
    ensures p.tags["Sender"] == build.sender && p.tags["Name"] == step.name
    ensures p.tags["Status"] == step.status
  {
    StepPoint(
      time := step.started,
      duration := StepDuration(step.started, step.stopped),
      name := step.name, status := step.status,
      buildId := build.number,
      tags := map["DroneAddress" := e.droneUrl, "Slug" := repo.slug, "Sender" := build.sender,
                  "Name" := step.name, "Status" := step.status])
  }

  /** One Step point per step, in order. */
  function StepPoints(e: Exporter, repo: Repo, build: Build, steps: seq<Step>): seq<Point>
  {
    if steps == [] then []
    else
      StepPoints(e, repo, build, steps[..|steps| - 1])
        + [StepPointOf(e, repo, build, steps[|steps| - 1])]
  }

  /** For each stage in order, its Stage point followed by its Step points. */
  function StagesPoints(e: Exporter, repo: Repo, build: Build, stages: seq<Stage>): seq<Point>
  {
    if stages == [] then []
    else
      var stage := stages[|stages| - 1];
      StagesPoints(e, repo, build, stages[..|stages| - 1])
        + [StagePointOf(e, repo, build, stage)]
        + StepPoints(e, repo, build, stage.steps)
  }

  /** The points of one listed build: none while it is running, otherwise
      its Build point followed by the points of its stages. */
  function BuildPoints(e: Exporter, repo: Repo, build: Build): seq<Point>
  {
    var info := Detail(e, repo, build);
    if info.status == Running then []
    else [BuildPointOf(e, repo, build, info)] + StagesPoints(e, repo, build, info.stages)
  }

  /** The points of a page of builds, build after build. */
  function FlattenBuilds(e: Exporter, repo: Repo, builds: seq<Build>): seq<Point>
  {
    if builds == [] then []
    else
      FlattenBuilds(e, repo, builds[..|builds| - 1])
        + BuildPoints(e, repo, builds[|builds| - 1])
  }

  /** `processBuilds`: for each build fetch its detail, skip it while it
      is running, otherwise emit its Build point and then the points of its
      stages. */
  method ProcessBuilds(e: Exporter, repo: Repo, builds: seq<Build>) returns (points: seq<Point>)
    ensures points == FlattenBuilds(e, repo, builds)
  {
    points := [];
    for b := 0 to |builds|
      invariant points == FlattenBuilds(e, repo, builds[..b])
    {
      var build := builds[b];
      assert builds[..b + 1][..b] == builds[..b];
      var info := e.drone.build(repo, build.number);
      if info.status == Running {
        continue;
      }
      var stagePoints := ProcessStages(e, repo, build, info.stages);
      points := points + ([BuildPointOf(e, repo, build, info)] + stagePoints);
    }
    assert builds[..|builds|] == builds;
  }

  /** The stage loop of `processBuilds`: for each stage of a build its
      Stage point, then the points of its steps. */
  method ProcessStages(e: Exporter, repo: Repo, build: Build, stages: seq<Stage>) returns (points: seq<Point>)
    ensures points == StagesPoints(e, repo, build, stages)
  {
    points := [];
    for s := 0 to |stages|
      invariant points == StagesPoints(e, repo, build, stages[..s])
    {
      var stage := stages[s];
      assert stages[..s + 1][..s] == stages[..s];
      var stepPoints := ProcessSteps(e, repo, build, stage.steps);
      points := points + [StagePointOf(e, repo, build, stage)] + stepPoints;
    }
    assert stages[..|stages|] == stages;
  }

  /** The step loop of `processBuilds`: one Step point per step, in order. */
  method ProcessSteps(e: Exporter, repo: Repo, build: Build, steps: seq<Step>) returns (points: seq<Point>)
    ensures points == StepPoints(e, repo, build, steps)
  {
    points := [];
    for t := 0 to |steps|
      invariant points == StepPoints(e, repo, build, steps[..t])
    {
      assert steps[..t + 1][..t] == steps[..t];
      points := points + [StepPointOf(e, repo, build, steps[t])];
    }
    assert steps[..|steps|] == steps;
  }

  // ---------------------------------------------------------------------
  // What the points of a page say
  // ---------------------------------------------------------------------

  /** The number of steps over a sequence of stages. */
  function StepTotal(stages: seq<Stage>): nat
  {
    if stages == [] then 0 else StepTotal(stages[..|stages| - 1]) + |stages[|stages| - 1].steps|
  }

  /** How many points a build contributes: none while running, otherwise
      one, plus one per stage, plus one per step. */
  function PointCount(info: Build): nat
  {
    if info.status == Running then 0 else 1 + |info.stages| + StepTotal(info.stages)
  }

  function PageCount(e: Exporter, repo: Repo, builds: seq<Build>): nat
  {
    if builds == [] then 0
    else PageCount(e, repo, builds[..|builds| - 1]) + PointCount(Detail(e, repo, builds[|builds| - 1]))
  }

  /** How many Build points there are among `points`. */
  function BuildPointTotal(points: seq<Point>): nat
  {
    if points == [] then 0
    else BuildPointTotal(points[..|points| - 1]) + (if points[|points| - 1].BuildPoint? then 1 else 0)
  }

  /** How many builds of a page are not running. */
  function NotRunningTotal(e: Exporter, repo: Repo, builds: seq<Build>): nat
  {
    if builds == [] then 0
    else
      NotRunningTotal(e, repo, builds[..|builds| - 1])
        + (if Detail(e, repo, builds[|builds| - 1]).status == Running then 0 else 1)
  }

  lemma {:induction false} StepPointsLength(e: Exporter, repo: Repo, build: Build, steps: seq<Step>)
    ensures |StepPoints(e, repo, build, steps)| == |steps|
    ensures BuildPointTotal(StepPoints(e, repo, build, steps)) == 0
    decreases |steps|
  {
    if steps != [] {
      StepPointsLength(e, repo, build, steps[..|steps| - 1]);
      BuildPointTotalAppend(StepPoints(e, repo, build, steps[..|steps| - 1]),
                            [StepPointOf(e, repo, build, steps[|steps| - 1])]);
    }
  }

  lemma {:induction false} StagesPointsLength(e: Exporter, repo: Repo, build: Build, stages: seq<Stage>)
    ensures |StagesPoints(e, repo, build, stages)| == |stages| + StepTotal(stages)
    ensures BuildPointTotal(StagesPoints(e, repo, build, stages)) == 0
    decreases |stages|
  {
    if stages != [] {
      var stage := stages[|stages| - 1];
      var init := StagesPoints(e, repo, build, stages[..|stages| - 1]);
      StagesPointsLength(e, repo, build, stages[..|stages| - 1]);
      StepPointsLength(e, repo, build, stage.steps);
      BuildPointTotalAppend(init, [StagePointOf(e, repo, build, stage)]);
      BuildPointTotalAppend(init + [StagePointOf(e, repo, build, stage)],
                            StepPoints(e, repo, build, stage.steps));
    }
  }

  lemma {:induction false} BuildPointTotalAppend(a: seq<Point>, b: seq<Point>)
    ensures BuildPointTotal(a + b) == BuildPointTotal(a) + BuildPointTotal(b)
    decreases |b|
  {
    if b != [] {
      assert (a + b)[..|a + b| - 1] == a + b[..|b| - 1];
      BuildPointTotalAppend(a, b[..|b| - 1]);
    } else {
      assert a + b == a;
    }
  }

  /** A page yields, over its non-running builds, one point per build,
      stage and step, and among them exactly one Build point per
      non-running build. */
  lemma {:induction false} FlattenBuildsCount(e: Exporter, repo: Repo, builds: seq<Build>)
    ensures |FlattenBuilds(e, repo, builds)| == PageCount(e, repo, builds)
    ensures BuildPointTotal(FlattenBuilds(e, repo, builds)) == NotRunningTotal(e, repo, builds)
    decreases |builds|
  {
    if builds != [] {
      var build := builds[|builds| - 1];
      var info := Detail(e, repo, build);
      FlattenBuildsCount(e, repo, builds[..|builds| - 1]);
      StagesPointsLength(e, repo, build, info.stages);
      if info.status != Running {
        BuildPointTotalAppend([BuildPointOf(e, repo, build, info)], StagesPoints(e, repo, build, info.stages));
        assert [BuildPointOf(e, repo, build, info)][..0] == [];
      }
      BuildPointTotalAppend(FlattenBuilds(e, repo, builds[..|builds| - 1]), BuildPoints(e, repo, build));
    }
  }

  /** What every point of a listed build carries: the build is not
      running; the point's BuildId is the listed build's number; its
      DroneAddress and Slug tags are the exporter's and the repository's;
      a Build point's tags are exactly DroneAddress, Slug and Status; a
      Stage or Step point's Sender tag is the listed build's sender; and a
      Step point's duration is not negative. */
  ghost predicate PointOfBuild(e: Exporter, repo: Repo, build: Build, p: Point)
  {
    Detail(e, repo, build).status != Running &&
    p.buildId == build.number &&
    "DroneAddress" in p.tags && p.tags["DroneAddress"] == e.droneUrl &&
    "Slug" in p.tags && p.tags["Slug"] == repo.slug &&
    (p.BuildPoint? ==> p.tags.Keys == {"DroneAddress", "Slug", "Status"}) &&
    (!p.BuildPoint? ==> "Sender" in p.tags && p.tags["Sender"] == build.sender) &&
    (p.StepPoint? ==> p.duration >= 0)
  }

  lemma {:induction false} StepPointsOfBuild(e: Exporter, repo: Repo, build: Build, steps: seq<Step>)
    requires Detail(e, repo, build).status != Running
    ensures forall p | p in StepPoints(e, repo, build, steps) :: PointOfBuild(e, repo, build, p)
    decreases |steps|
  {
    if steps != [] {
      StepPointsOfBuild(e, repo, build, steps[..|steps| - 1]);
    }
  }

  lemma {:induction false} StagesPointsOfBuild(e: Exporter, repo: Repo, build: Build, stages: seq<Stage>)
    requires Detail(e, repo, build).status != Running
    ensures forall p | p in StagesPoints(e, repo, build, stages) :: PointOfBuild(e, repo, build, p)
    decreases |stages|
  {
    if stages != [] {
      StagesPointsOfBuild(e, repo, build, stages[..|stages| - 1]);
      StepPointsOfBuild(e, repo, build, stages[|stages| - 1].steps);
    }
  }

  /** Every point of a page belongs to one of its builds that is not
      running, and carries that build's identity and tags as
      `PointOfBuild` says; a running build contributes nothing. */
  lemma {:induction false} FlattenBuildsIdentity(e: Exporter, repo: Repo, builds: seq<Build>)
    ensures forall p | p in FlattenBuilds(e, repo, builds) ::
      exists k :: 0 <= k < |builds| && PointOfBuild(e, repo, builds[k], p)
    decreases |builds|
  {
    if builds != [] {
      var last := |builds| - 1;
      var build := builds[last];
      var init := builds[..last];
      FlattenBuildsIdentity(e, repo, init);
      if Detail(e, repo, build).status != Running {
        StagesPointsOfBuild(e, repo, build, Detail(e, repo, build).stages);
      }
      forall p | p in FlattenBuilds(e, repo, builds)
        ensures exists k :: 0 <= k < |builds| && PointOfBuild(e, repo, builds[k], p)
      {
        if p in FlattenBuilds(e, repo, init) {
          var k :| 0 <= k < |init| && PointOfBuild(e, repo, init[k], p);
          assert builds[k] == init[k];
        } else {
          assert p in BuildPoints(e, repo, build);
          assert PointOfBuild(e, repo, builds[last], p);
        }
      }
    }
  }

  // ---------------------------------------------------------------------
  // Pagination
  // ---------------------------------------------------------------------

  /** Page `page` (numbered from 1) of the repository's builds. */
  function PageOf(e: Exporter, repo: Repo, page: nat): seq<Build>
  {
    e.drone.buildList(repo, page)
  }

  /** The first page is non-empty, its newest build is not the cursor, and
      it is full: only then does `ProcessRepo` go on to page 2. */
  predicate Paginates(e: Exporter, repo: Repo, lastBuildId: Int64)
  {
    var first := PageOf(e, repo, 1);
    first != [] && first[0].number != lastBuildId && |first| >= PageSize
  }

  /** When pagination starts, page `bound` (at least 2) is empty, so it
      stops. */
  predicate Terminates(e: Exporter, repo: Repo, lastBuildId: Int64, bound: nat)
  {
    Paginates(e, repo, lastBuildId) ==> 2 <= bound && PageOf(e, repo, bound) == []
  }

  /** The first empty page from `from` on. */
  function FirstEmptyPage(e: Exporter, repo: Repo, from: nat, bound: nat): (k: nat)
    requires from <= bound && PageOf(e, repo, bound) == []
    ensures from <= k <= bound && PageOf(e, repo, k) == []
    ensures forall p | from <= p < k :: PageOf(e, repo, p) != []
    decreases bound - from
  {
    if PageOf(e, repo, from) == [] then from else FirstEmptyPage(e, repo, from + 1, bound)
  }

  /** The first empty page is the one before which every page is non-empty. */
  lemma FirstEmptyPageIs(e: Exporter, repo: Repo, from: nat, bound: nat, k: nat)
    requires from <= k <= bound && PageOf(e, repo, bound) == []
    requires PageOf(e, repo, k) == [] && forall p | from <= p < k :: PageOf(e, repo, p) != []
    ensures FirstEmptyPage(e, repo, from, bound) == k
  {
    var k1 := FirstEmptyPage(e, repo, from, bound);
  }

  /** Which empty page bounds the search does not matter: the first empty
      page is the same. */
  lemma FirstEmptyPageUnique(e: Exporter, repo: Repo, from: nat, bound1: nat, bound2: nat)
    requires from <= bound1 && PageOf(e, repo, bound1) == []
    requires from <= bound2 && PageOf(e, repo, bound2) == []
    ensures FirstEmptyPage(e, repo, from, bound1) == FirstEmptyPage(e, repo, from, bound2)
  {
    var k1 := FirstEmptyPage(e, repo, from, bound1);
    FirstEmptyPageIs(e, repo, from, bound2, k1);
  }

  /** The points of each page, page by page. */
  function PageFlattener(e: Exporter, repo: Repo): nat -> seq<Point>
  {
    (page: nat) => FlattenBuilds(e, repo, PageOf(e, repo, page))
  }

  /** The points of pages `lo` up to (not including) `hi`, in page order. */
  function PagesPoints(e: Exporter, repo: Repo, lo: nat, hi: nat): seq<Point>
  {
    Blocks(PageFlattener(e, repo), lo, hi)
  }

  /** The pages `lo`, `lo + 1`, ..., `hi - 1`. */
  function PageRange(lo: nat, hi: nat): (r: seq<nat>)
    decreases hi
    ensures |r| == if hi <= lo then 0 else hi - lo
    ensures forall k | 0 <= k < |r| :: r[k] == lo + k
  {
    if hi <= lo then [] else PageRange(lo, hi - 1) + [hi - 1]
  }

  /** What `ProcessRepo` returns: no points after a single request when
      page 1 is empty, its newest build is the cursor, or it is short;
      otherwise the points of pages 1 up to the first empty page `k` from
      2 on, in page order, after requesting exactly pages 1 to `k`. */
  ghost predicate IsSyncResult(e: Exporter, repo: Repo, lastBuildId: Int64, bound: nat,
                               points: seq<Point>, fetched: seq<nat>)
    requires Terminates(e, repo, lastBuildId, bound)
  {
    if !Paginates(e, repo, lastBuildId) then
      points == [] && fetched == [1]
    else
      var k := FirstEmptyPage(e, repo, 2, bound);
      points == PagesPoints(e, repo, 1, k) && fetched == PageRange(1, k + 1)
  }

  /** `processRepo`: fetch page 1; stop with no points when it is empty or
      its newest build is the cursor; flatten it; stop with NO points when
      it is short (the flattened points are dropped); otherwise fetch
      pages 2, 3, ... until one comes back empty, flattening each.
      `fetched` lists the pages requested, in order; `bound` is any empty
      page, which makes the loop terminate. */
  method ProcessRepo(e: Exporter, repo: Repo, lastBuildId: Int64, ghost bound: nat)
    returns (points: seq<Point>, fetched: seq<nat>)
    requires Terminates(e, repo, lastBuildId, bound)
    ensures IsSyncResult(e, repo, lastBuildId, bound, points, fetched)
  {
    points := [];
    var page := 1;
    var builds := e.drone.buildList(repo, page);
    fetched := [page];
    if |builds| == 0 {
      return [], fetched;
    }
    if builds[0].number == lastBuildId {
      return [], fetched;
    }
    var ps := ProcessBuilds(e, repo, builds);
    points := points + ps;
    if |builds| < PageSize {
      return [], fetched;
    }
    assert points == PagesPoints(e, repo, 1, 2);
    while |builds| > 0
      invariant 1 <= page <= bound
      invariant builds == PageOf(e, repo, page)
      invariant forall p | 2 <= p < page :: PageOf(e, repo, p) != []
      invariant points == PagesPoints(e, repo, 1, page + 1)
      invariant fetched == PageRange(1, page + 1)
      decreases bound - page
    {
      assert forall p | 2 <= p < page + 1 :: PageOf(e, repo, p) != [] by {
        assert PageOf(e, repo, page) == builds;
      }
      page := page + 1;
      builds := e.drone.buildList(repo, page);
      fetched := fetched + [page];
      assert fetched == PageRange(1, page + 1);
      assert PagesPoints(e, repo, 1, page + 1) == points + FlattenBuilds(e, repo, builds);
      if |builds| == 0 {
        continue;
      }
      ps := ProcessBuilds(e, repo, builds);
      points := points + ps;
      if |builds| < PageSize {
        // a short page does not end the loop: only an empty one does
        continue;
      }
    }
    FirstEmptyPageIs(e, repo, 2, bound, page);
  }

  // ---------------------------------------------------------------------
  // Properties of a sync
  // ---------------------------------------------------------------------

  /** The points of pages `lo..hi` are those before `page`, then those of
      `page`, then those after it. */
  lemma {:induction false} PagesPointsAround(e: Exporter, repo: Repo, lo: nat, page: nat, hi: nat)
    requires lo <= page < hi
    ensures PagesPoints(e, repo, lo, hi) == PagesPoints(e, repo, lo, page)
      + FlattenBuilds(e, repo, PageOf(e, repo, page))
      + PagesPoints(e, repo, page + 1, hi)
  {
    var f := PageFlattener(e, repo);
    BlocksSplit(f, lo, page, hi);
    BlocksSplit(f, page, page + 1, hi);
    assert Blocks(f, page, page + 1) == f(page);
  }

  /** The cutoff is compared with page 1 only: a later page whose builds
      include the cursor is flattened like any other, its points lying
      between those of the pages before and after it; and only an empty
      page ends the sync, so the page after it is requested too, however
      short it is. */
  lemma LaterPagesIgnoreCursor(e: Exporter, repo: Repo, lastBuildId: Int64, bound: nat,
                               points: seq<Point>, fetched: seq<nat>, page: nat)
    requires Terminates(e, repo, lastBuildId, bound)
    requires IsSyncResult(e, repo, lastBuildId, bound, points, fetched)
    requires Paginates(e, repo, lastBuildId)
    requires 2 <= page < FirstEmptyPage(e, repo, 2, bound)
    ensures page in fetched && page + 1 in fetched
    ensures points == PagesPoints(e, repo, 1, page)
      + FlattenBuilds(e, repo, PageOf(e, repo, page))
      + PagesPoints(e, repo, page + 1, FirstEmptyPage(e, repo, 2, bound))
  {
    var k := FirstEmptyPage(e, repo, 2, bound);
    PagesPointsAround(e, repo, 1, page, k);
    assert fetched[page - 1] == page && fetched[page] == page + 1;
  }

  /** A short first page that passes the cutoff loses its points: here
      page 1 holds one finished build, which flattens to one point, and the
      sync still returns none. */
  lemma ShortFirstPageDropsPoints(url: string, repo: Repo, bound: nat,
                                  points: seq<Point>, fetched: seq<nat>)
    requires
      var b := Build(7, "success", "", "", "", 0, 0, 0, 0, []);
      var e := Exporter(url, Client((r: Repo, p: nat) => if p == 1 then [b] else [], (r: Repo, n: Int64) => b));
      IsSyncResult(e, repo, 6, bound, points, fetched)
    ensures points == []
    ensures
      var b := Build(7, "success", "", "", "", 0, 0, 0, 0, []);
      var e := Exporter(url, Client((r: Repo, p: nat) => if p == 1 then [b] else [], (r: Repo, n: Int64) => b));
      |FlattenBuilds(e, repo, PageOf(e, repo, 1))| == 1
  {
    var b := Build(7, "success", "", "", "", 0, 0, 0, 0, []);
    var e := Exporter(url, Client((r: Repo, p: nat) => if p == 1 then [b] else [], (r: Repo, n: Int64) => b));
    assert PageOf(e, repo, 1) == [b];
    assert [b][..0] == [];
    assert !Paginates(e, repo, 6);
  }

  // ---------------------------------------------------------------------
  // One unit of work
  // ---------------------------------------------------------------------

  /** What one unit of work did: the cursor it read, the points it
      produced, the pages it requested, and the outcome of the write when
      it issued one. */
  datatype UnitReport = UnitReport(
    cursor: Int64, points: seq<Point>, fetched: seq<nat>,
    batch: Option<InfluxDB.BatchOutcome>)

  /** One repository's unit of work in a cycle: read the cursor, sync,
      and write the points only when there are some. A failed write is
      only logged: the unit ends normally either way. */
  method RepoUnit(e: Exporter, repo: Repo, reply: InfluxDB.QueryReply, env: InfluxDB.BatchEnv,
                  ghost bound: nat)
    returns (report: UnitReport)
    requires InfluxDB.WellShaped(reply)
    requires Terminates(e, repo, InfluxDB.LastBuildNumber(reply), bound)
    ensures report.cursor == InfluxDB.LastBuildNumber(reply)
    ensures IsSyncResult(e, repo, report.cursor, bound, report.points, report.fetched)
    ensures report.batch.Some? <==> report.points != []
    ensures report.batch.Some? ==> report.batch.value == InfluxDB.BatchSpec(report.points, env)
  {
    var cursor := InfluxDB.LastBuildNumber(reply);
    var points, fetched := ProcessRepo(e, repo, cursor, bound);
    var batch: Option<InfluxDB.BatchOutcome> := None;
    if |points| > 0 {
      var out := InfluxDB.Batch(points, env);
      batch := Some(out);
    }
    report := UnitReport(cursor, points, fetched, batch);
  }
}
