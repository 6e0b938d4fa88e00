/**
 How the index worker shares its slots (services/index_worker/worker.py): the order in which queued
 jobs are claimed, and what a burst of claims leaves for each source and project.
 */
module ClaimFairness {

  import opened Outcome

  type JobId = nat

  datatype Status = Queued | Running | Ended

  datatype Job = Job(source: string, project: string, priority: nat, createdAt: nat, availableAt: Option<nat>, status: Status)

  type Jobs = map<JobId, Job>

  // A job that may be claimed: its time has come, and its source is not being migrated.
  predicate Available(jobs: Jobs, j: JobId, now: nat, migrating: set<string>) {
    && j in jobs && jobs[j].status == Queued
    && (jobs[j].availableAt.None? || jobs[j].availableAt.value <= now)
    && jobs[j].source !in migrating
  }

  function RunningIn(jobs: Jobs, source: string): set<JobId> {
    set j | j in jobs && jobs[j].status == Running && jobs[j].source == source
  }

  function RunningFor(jobs: Jobs, project: string): set<JobId> {
    set j | j in jobs && jobs[j].status == Running && jobs[j].project == project
  }

  // Urgent jobs first; then those of the sources, and of the projects, with the fewest running; then
  // the oldest.
  predicate NoLater(jobs: Jobs, a: JobId, b: JobId)
    requires a in jobs && b in jobs
  {
    var x, y := jobs[a], jobs[b];
    var sx, sy := |RunningIn(jobs, x.source)|, |RunningIn(jobs, y.source)|;
    var px, py := |RunningFor(jobs, x.project)|, |RunningFor(jobs, y.project)|;
    if x.priority != y.priority then x.priority < y.priority
    else if sx != sy then sx < sy
    else if px != py then px < py
    else x.createdAt <= y.createdAt
  }

  ghost predicate Next(jobs: Jobs, j: JobId, now: nat, migrating: set<string>) {
    && Available(jobs, j, now, migrating)
    && forall k :: Available(jobs, k, now, migrating) ==> NoLater(jobs, j, k)
  }

  ghost predicate Claimable(job: Job, now: nat, migrating: set<string>) {
    job.status == Queued && job.source !in migrating && (job.availableAt.Some? ==> job.availableAt.value <= now)
  }

  // The claimed job is queued, due and of a source that is not being migrated. No such job is more urgent;
  // none as urgent is of a source with less running; none of these of a project with less running; and none of
  // these is older.
  lemma ClaimPrefers(jobs: Jobs, j: JobId, k: JobId, now: nat, migrating: set<string>)
    requires Next(jobs, j, now, migrating) && k in jobs && Claimable(jobs[k], now, migrating)
    ensures j in jobs && Claimable(jobs[j], now, migrating)
    ensures var a, b := jobs[j], jobs[k];
      var inA, inB := |RunningIn(jobs, a.source)|, |RunningIn(jobs, b.source)|;
      var forA, forB := |RunningFor(jobs, a.project)|, |RunningFor(jobs, b.project)|;
      && a.priority <= b.priority
      && (a.priority == b.priority ==> inA <= inB)
      && (a.priority == b.priority && inA == inB ==> forA <= forB)
      && (a.priority == b.priority && inA == inB && forA == forB ==> a.createdAt <= b.createdAt)
    ensures forall i, source :: i in RunningIn(jobs, source) <==> i in jobs && jobs[i].status == Running && jobs[i].source == source
    ensures forall i, project :: i in RunningFor(jobs, project) <==> i in jobs && jobs[i].status == Running && jobs[i].project == project
  {
    assert NoLater(jobs, j, k);
  }

  function Started(jobs: Jobs, j: JobId): Jobs
    requires j in jobs
  {
    jobs[j := jobs[j].(status := Running)]
  }

  // ---- Fairness ----------------------------------------------------------------------------

  ghost predicate Waiting(jobs: Jobs, source: string, now: nat, migrating: set<string>) {
    exists j :: Available(jobs, j, now, migrating) && jobs[j].source == source
  }

  ghost predicate WaitingProject(jobs: Jobs, source: string, project: string, now: nat, migrating: set<string>) {
    exists j :: Available(jobs, j, now, migrating) && jobs[j].source == source && jobs[j].project == project
  }

  // No source is more than one job ahead of a source that is still waiting.
  ghost predicate FairToSources(jobs: Jobs, now: nat, migrating: set<string>) {
    forall a, b :: Waiting(jobs, b, now, migrating) ==> |RunningIn(jobs, a)| <= |RunningIn(jobs, b)| + 1
  }

  // Nor is a project ahead of a waiting project of the same source.
  ghost predicate FairToProjects(jobs: Jobs, now: nat, migrating: set<string>) {
    forall j, source, b ::
      j in jobs && jobs[j].source == source && WaitingProject(jobs, source, b, now, migrating) ==>
        |RunningFor(jobs, jobs[j].project)| <= |RunningFor(jobs, b)| + 1
  }

  // A project belongs to one source.
  ghost predicate ProjectsOfOneSource(jobs: Jobs) {
    forall j, k :: j in jobs && k in jobs && jobs[j].project == jobs[k].project ==> jobs[j].source == jobs[k].source
  }

  ghost predicate SamePriority(jobs: Jobs, now: nat, migrating: set<string>) {
    forall j, k :: Available(jobs, j, now, migrating) && Available(jobs, k, now, migrating) ==> jobs[j].priority == jobs[k].priority
  }

  lemma StartedCounts(jobs: Jobs, j: JobId, source: string, project: string)
    requires j in jobs && jobs[j].status == Queued
    ensures |RunningIn(Started(jobs, j), source)| == |RunningIn(jobs, source)| + if jobs[j].source == source then 1 else 0
    ensures |RunningFor(Started(jobs, j), project)| == |RunningFor(jobs, project)| + if jobs[j].project == project then 1 else 0
  {
    SourceCount(jobs, j, source);
    ProjectCount(jobs, j, project);
  }

  lemma SourceCount(jobs: Jobs, j: JobId, source: string)
    requires j in jobs && jobs[j].status == Queued
    ensures |RunningIn(Started(jobs, j), source)| == |RunningIn(jobs, source)| + if jobs[j].source == source then 1 else 0
  {
    var before, after := RunningIn(jobs, source), RunningIn(Started(jobs, j), source);
    assert j !in before;
    if jobs[j].source == source {
      assert after == before + {j};
    } else {
      assert after == before;
    }
  }

  lemma ProjectCount(jobs: Jobs, j: JobId, project: string)
    requires j in jobs && jobs[j].status == Queued
    ensures |RunningFor(Started(jobs, j), project)| == |RunningFor(jobs, project)| + if jobs[j].project == project then 1 else 0
  {
    var before, after := RunningFor(jobs, project), RunningFor(Started(jobs, j), project);
    assert j !in before;
    if jobs[j].project == project {
      assert after == before + {j};
    } else {
      assert after == before;
    }
  }

  lemma StillAvailable(jobs: Jobs, j: JobId, k: JobId, now: nat, migrating: set<string>)
    requires j in jobs && jobs[j].status == Queued
    ensures Available(Started(jobs, j), k, now, migrating) <==> k != j && Available(jobs, k, now, migrating)
  {
  }

  lemma ClaimFairToSources(jobs: Jobs, j: JobId, now: nat, migrating: set<string>)
    requires Next(jobs, j, now, migrating) && SamePriority(jobs, now, migrating) && FairToSources(jobs, now, migrating)
    ensures FairToSources(Started(jobs, j), now, migrating)
  {
    var after := Started(jobs, j);
    forall a, b | Waiting(after, b, now, migrating) ensures |RunningIn(after, a)| <= |RunningIn(after, b)| + 1 {
      var k :| Available(after, k, now, migrating) && after[k].source == b;
      StillAvailable(jobs, j, k, now, migrating);
      assert Available(jobs, k, now, migrating) && jobs[k].source == b && NoLater(jobs, j, k);
      assert Waiting(jobs, b, now, migrating);
      StartedCounts(jobs, j, a, "");
      StartedCounts(jobs, j, b, "");
    }
  }

  lemma ClaimFairToProjects(jobs: Jobs, j: JobId, now: nat, migrating: set<string>)
    requires Next(jobs, j, now, migrating) && SamePriority(jobs, now, migrating) && ProjectsOfOneSource(jobs)
    requires FairToProjects(jobs, now, migrating)
    ensures FairToProjects(Started(jobs, j), now, migrating)
  {
    var after := Started(jobs, j);
    forall i, source, b | i in after && after[i].source == source && WaitingProject(after, source, b, now, migrating)
      ensures |RunningFor(after, after[i].project)| <= |RunningFor(after, b)| + 1
    {
      var k :| Available(after, k, now, migrating) && after[k].source == source && after[k].project == b;
      StillAvailable(jobs, j, k, now, migrating);
      assert Available(jobs, k, now, migrating) && jobs[k].source == source && jobs[k].project == b && NoLater(jobs, j, k);
      assert WaitingProject(jobs, source, b, now, migrating);
      StartedCounts(jobs, j, source, jobs[i].project);
      StartedCounts(jobs, j, source, b);
    }
  }

  // A burst over jobs of one priority that has been fair so far.
  ghost predicate Sharing(jobs: Jobs, now: nat, migrating: set<string>) {
    && SamePriority(jobs, now, migrating) && ProjectsOfOneSource(jobs)
    && FairToSources(jobs, now, migrating) && FairToProjects(jobs, now, migrating)
  }

  // Every claim of the burst keeps it fair.
  lemma ClaimShares(jobs: Jobs, j: JobId, now: nat, migrating: set<string>)
    requires Next(jobs, j, now, migrating) && Sharing(jobs, now, migrating)
    ensures Sharing(Started(jobs, j), now, migrating)
  {
    ClaimFairToSources(jobs, j, now, migrating);
    ClaimFairToProjects(jobs, j, now, migrating);
    forall k | Available(Started(jobs, j), k, now, migrating) ensures Available(jobs, k, now, migrating) {
      StillAvailable(jobs, j, k, now, migrating);
    }
  }

  // A worker that is idle is fair to begin with.
  lemma IdleIsFair(jobs: Jobs, now: nat, migrating: set<string>)
    requires forall j :: j in jobs ==> jobs[j].status != Running
    ensures FairToSources(jobs, now, migrating) && FairToProjects(jobs, now, migrating)
  {
    forall source ensures RunningIn(jobs, source) == {} {}
    forall project ensures RunningFor(jobs, project) == {} {}
  }

  // ---- Bursts ------------------------------------------------------------------------------

  function AllStarted(jobs: Jobs, order: seq<JobId>): Jobs
    decreases |order|
  {
    if order == [] then jobs
    else
      var n := |order| - 1;
      var before := AllStarted(jobs, order[..n]);
      if order[n] in before then Started(before, order[n]) else before
  }

  // One claim after the other, each the next in turn.
  // Exactly the claimed jobs have been started.
  lemma {:induction false} AllStartedAre(jobs: Jobs, order: seq<JobId>, j: JobId)
    requires j in jobs
    ensures j in AllStarted(jobs, order) && AllStarted(jobs, order)[j] == if j in order then jobs[j].(status := Running) else jobs[j]
    decreases |order|
  {
    if order != [] {
      assert order == order[..|order| - 1] + [order[|order| - 1]];
      AllStartedAre(jobs, order[..|order| - 1], j);
    }
  }

  ghost predicate Burst(jobs: Jobs, order: seq<JobId>, now: nat, migrating: set<string>)
    decreases |order|
  {
    order == []
    || (Burst(jobs, order[..|order| - 1], now, migrating)
        && Next(AllStarted(jobs, order[..|order| - 1]), order[|order| - 1], now, migrating))
  }

  // After any burst of claims over jobs of equal priority, starting from an idle worker, no source runs
  // more than one job more than a source that is still waiting, and no project more than a waiting
  // project of its source.
  lemma BurstIsFair(jobs: Jobs, order: seq<JobId>, now: nat, migrating: set<string>)
    requires Burst(jobs, order, now, migrating) && SamePriority(jobs, now, migrating) && ProjectsOfOneSource(jobs)
    requires forall j :: j in jobs ==> jobs[j].status != Running
    ensures FairToSources(AllStarted(jobs, order), now, migrating) && FairToProjects(AllStarted(jobs, order), now, migrating)
  {
    IdleIsFair(jobs, now, migrating);
    BurstShares(jobs, order, now, migrating);
  }

  lemma {:induction false} BurstShares(jobs: Jobs, order: seq<JobId>, now: nat, migrating: set<string>)
    requires Burst(jobs, order, now, migrating) && Sharing(jobs, now, migrating)
    ensures Sharing(AllStarted(jobs, order), now, migrating)
    decreases |order|
  {
    if order != [] {
      var n := |order| - 1;
      BurstShares(jobs, order[..n], now, migrating);
      ClaimShares(AllStarted(jobs, order[..n]), order[n], now, migrating);
    }
  }

  // ---- The worker's slots ------------------------------------------------------------------

  // `active` holds the jobs whose processes this worker has started and not yet collected.
  class Pool {
    var jobs: Jobs
    var active: set<JobId>

    constructor (jobs: Jobs)
      ensures this.jobs == jobs && active == {}
    {
      this.jobs, active := jobs, {};
    }

    method ClaimNextJob(now: nat, migrating: set<string>) returns (claimed: Option<JobId>)
      modifies this`jobs
      ensures claimed.None? <==> forall j :: !Available(old(jobs), j, now, migrating)
      ensures claimed.None? ==> jobs == old(jobs)
      ensures claimed.Some? ==> Next(old(jobs), claimed.value, now, migrating) && jobs == Started(old(jobs), claimed.value)
    {
      var available := set j | j in jobs && Available(jobs, j, now, migrating);
      if available == {} {
        assert forall j :: Available(jobs, j, now, migrating) ==> j in available;
        return None;
      }
      var best :| best in available;
      var rest := available - {best};
      while rest != {}
        invariant best in available && rest <= available
        invariant forall k :: k in available && k !in rest ==> NoLater(jobs, best, k)
        decreases rest
      {
        var k :| k in rest;
        if !NoLater(jobs, best, k) {
          best := k;
        }
        rest := rest - {k};
      }
      assert forall k :: Available(jobs, k, now, migrating) ==> k in available;
      jobs := Started(jobs, best);
      return Some(best);
    }

    // Slots are filled, each with the next job in turn, until none is free or nothing can be claimed.
    method StartQueuedJobs(concurrency: nat, now: nat, migrating: set<string>) returns (started: nat, ghost order: seq<JobId>)
      requires forall j :: j in active ==> j in jobs && jobs[j].status != Queued
      modifies this
      ensures Burst(old(jobs), order, now, migrating) && jobs == AllStarted(old(jobs), order)
      ensures started == |order| && |active| == old(|active|) + started && (started > 0 ==> |active| <= concurrency)
      ensures |active| < concurrency ==> forall j :: !Available(jobs, j, now, migrating)
      ensures forall j :: j in active <==> j in old(active) || j in order
    {
      started, order := 0, [];
      ghost var before, held := jobs, active;
      while |active| < concurrency
        invariant Burst(before, order, now, migrating) && jobs == AllStarted(before, order)
        invariant started == |order| && |active| == |held| + started && (started > 0 ==> |active| <= concurrency)
        invariant forall j :: j in active ==> j in jobs && jobs[j].status != Queued
        invariant forall j :: j in active <==> j in held || j in order
        decreases concurrency - |active|
      {
        var claimed := ClaimNextJob(now, migrating);
        if claimed.None? {
          break;
        }
        assert (order + [claimed.value])[..|order|] == order;
        order := order + [claimed.value];
        active := active + {claimed.value};
        started := started + 1;
      }
    }
  }
}
