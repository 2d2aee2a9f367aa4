/** The sum of workspace bytes over all jobs does not depend on the order of summation. */
module WorkspaceSum {
  import opened ImportTables

  lemma {:induction false} TakeOut(jobs: Jobs, j: JobId)
    requires j in jobs
    ensures TotalBytes(jobs) == jobs[j].workspaceBytes + TotalBytes(jobs - {j})
    decreases |jobs|
  {
    var i :| i in jobs && TotalBytes(jobs) == jobs[i].workspaceBytes + TotalBytes(jobs - {i});
    if i != j {
      Smaller(jobs, i);
      Smaller(jobs, j);
      TakeOut(jobs - {i}, j);
      TakeOut(jobs - {j}, i);
      assert jobs - {i} - {j} == jobs - {j} - {i};
    }
  }

  lemma Smaller(jobs: Jobs, j: JobId)
    requires j in jobs
    ensures |jobs - {j}| < |jobs|
  {
    assert (jobs - {j}).Keys == jobs.Keys - {j};
  }

  /** Writing one row changes the sum by the change of that row. */
  lemma PutRow(jobs: Jobs, j: JobId, row: JobRow)
    ensures TotalBytes(jobs[j := row]) ==
              TotalBytes(jobs) - (if j in jobs then jobs[j].workspaceBytes else 0) + row.workspaceBytes
  {
    TakeOut(jobs[j := row], j);
    if j in jobs {
      TakeOut(jobs, j);
      assert jobs[j := row] - {j} == jobs - {j};
    } else {
      assert jobs[j := row] - {j} == jobs;
    }
  }

  lemma DropRow(jobs: Jobs, j: JobId)
    ensures TotalBytes(jobs - {j}) == TotalBytes(jobs) - (if j in jobs then jobs[j].workspaceBytes else 0)
  {
    if j in jobs {
      TakeOut(jobs, j);
    } else {
      assert jobs - {j} == jobs;
    }
  }
}
