/**
 * The admin dashboard's three counters, filled once from `GET /api/users` and `GET /api/jobs`
 * fetched together; both outcomes arrive as one parameter, None when either request fails.
 */
module Dashboard {
  import opened Wrappers
  import opened Records

  datatype Stats = Stats(totalUsers: nat, totalJobs: nat, inProcess: nat)

  /** `useState({ totalUsers: 0, totalJobs: 0, inProcess: 0 })`. */
  const InitialStats: Stats := Stats(0, 0, 0)

  /** `jobs.filter(job => job.status === 'In Process').length`: exact string match only. */
  function CountInProcess(jobs: seq<Job>): (n: nat)
    ensures n <= |jobs|
    ensures n == 0 <==> forall i :: 0 <= i < |jobs| ==> jobs[i].status != InProcess
    ensures n == |jobs| <==> forall i :: 0 <= i < |jobs| ==> jobs[i].status == InProcess
  {
    if jobs == [] then 0
    else
      var rest := CountInProcess(jobs[1..]);
      assert forall i :: 1 <= i < |jobs| ==> jobs[i] == jobs[1..][i - 1];
      (if jobs[0].status == InProcess then 1 else 0) + rest
  }

  /** The count of a concatenation is the sum of the counts: counting does not depend on how the list is split. */
  lemma {:induction false} CountAppend(a: seq<Job>, b: seq<Job>)
    ensures CountInProcess(a + b) == CountInProcess(a) + CountInProcess(b)
  {
    if a != [] {
      assert (a + b)[1..] == a[1..] + b;
      CountAppend(a[1..], b);
    } else {
      assert a + b == b;
    }
  }

  /** Marking an "In Process" job "Done" lowers the in-process count by exactly one. */
  lemma {:induction false} MarkDoneCountsDown(jobs: seq<Job>, i: nat)
    requires i < |jobs| && jobs[i].status == InProcess
    ensures CountInProcess(jobs[i := jobs[i].(status := Done)]) == CountInProcess(jobs) - 1
  {
    var done := jobs[i := jobs[i].(status := Done)];
    assert jobs == jobs[..i] + [jobs[i]] + jobs[i + 1..];
    assert done == jobs[..i] + [done[i]] + jobs[i + 1..];
    CountAppend(jobs[..i] + [jobs[i]], jobs[i + 1..]);
    CountAppend(jobs[..i], [jobs[i]]);
    CountAppend(jobs[..i] + [done[i]], jobs[i + 1..]);
    CountAppend(jobs[..i], [done[i]]);
  }

  /** `fetchStats`: the lengths of both lists and the in-process count; a failure leaves the stats as they were. */
  function AfterFetchStats(s: Stats, outcome: Option<(seq<User>, seq<Job>)>): (r: Stats)
    ensures outcome.None? ==> r == s
    ensures outcome.Some? ==>
              r.totalUsers == |outcome.value.0| && r.totalJobs == |outcome.value.1|
              && r.inProcess == CountInProcess(outcome.value.1) && r.inProcess <= r.totalJobs
  {
    match outcome
    case None => s
    case Some((users, jobs)) => Stats(|users|, |jobs|, CountInProcess(jobs))
  }

  class DashboardView {
    var stats: Stats

    constructor ()
      ensures stats == InitialStats
    {
      stats := InitialStats;
    }

    /** `fetchStats` writes the three counters at once, or nothing when a request fails. */
    method FetchStats(outcome: Option<(seq<User>, seq<Job>)>)
      modifies this
      ensures stats == AfterFetchStats(old(stats), outcome)
    {
      if outcome.Some? {
        stats := Stats(|outcome.value.0|, |outcome.value.1|, CountInProcess(outcome.value.1));
      }
    }
  }
}
