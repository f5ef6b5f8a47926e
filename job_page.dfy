/**
 * The supervisor's job page: the fetched job cards, the selected card, and the edit state
 * (`defect`, `status`) that `PUT /api/jobs/:id` sends. The outcomes of `GET /api/jobs` and of the
 * update request are parameters.
 */
module JobPage {
  import opened Wrappers
  import opened Records

  /** The edit state `jobData`. */
  datatype JobData = JobData(defect: string, status: string)

  /** `{ defect: job.defect, status: job.status }`. */
  function EditOf(job: Job): JobData {
    JobData(job.defect, job.status)
  }

  /** Everything the page holds. */
  datatype Page = Page(jobs: seq<Job>, selected: Option<Job>, data: JobData, isUpdating: bool, isSearching: bool)

  /** The first render: no jobs, no selection, an empty defect and status "In Process". */
  function InitialPage(): (p: Page)
    ensures p.jobs == [] && p.selected.None? && p.data == JobData("", InProcess)
    ensures !p.isUpdating && !p.isSearching
  {
    Page([], None, JobData("", InProcess), false, false)
  }

  /** The edit state shows the selected card's own defect and status. */
  ghost predicate Synced(p: Page) {
    p.selected.Some? ==> p.data == EditOf(p.selected.value)
  }

  /**
   * `fetchJobs` once the request has settled: a list replaces `jobs`, and a non-empty one
   * selects its first card and loads that card's defect and status; an empty list keeps the
   * selection and edit state; a failure keeps everything but the list as it was. Searching ends.
   */
  function AfterFetch(p: Page, outcome: Result<seq<Job>>): (r: Page)
    ensures !r.isSearching && r.isUpdating == p.isUpdating
    ensures outcome.Ok? ==> r.jobs == outcome.value
    ensures outcome.Ok? && outcome.value != [] ==>
              r.selected == Some(outcome.value[0]) && r.data.defect == outcome.value[0].defect
              && r.data.status == outcome.value[0].status
    ensures outcome.Ok? && outcome.value == [] ==> r.selected == p.selected && r.data == p.data
    ensures outcome.Err? ==> r.jobs == p.jobs && r.selected == p.selected && r.data == p.data
  {
    match outcome
    case Err(_) => p.(isSearching := false)
    case Ok(fetched) =>
      if |fetched| > 0 then p.(jobs := fetched, selected := Some(fetched[0]), data := EditOf(fetched[0]), isSearching := false)
      else p.(jobs := fetched, isSearching := false)
  }

  /** `handleJobSelect(job)`: the card becomes the selection and exactly its defect and status are loaded. */
  function AfterSelect(p: Page, job: Job): (r: Page)
    ensures r.selected == Some(job) && r.data.defect == job.defect && r.data.status == job.status
    ensures r.jobs == p.jobs && r.isUpdating == p.isUpdating && r.isSearching == p.isSearching
  {
    p.(selected := Some(job), data := EditOf(job))
  }

  /** Fetching a non-empty list and selecting a card both leave the edit state in step with the selection. */
  lemma FetchAndSelectSync(p: Page, fetched: seq<Job>, job: Job)
    ensures fetched != [] ==> Synced(AfterFetch(p, Ok(fetched))) && AfterFetch(p, Ok(fetched)).selected.value in fetched
    ensures Synced(AfterSelect(p, job))
    ensures Synced(p) ==> Synced(AfterFetch(p, Ok([]))) && Synced(AfterFetch(p, Err("")))
  {
  }

  /**
   * An empty list does not clear the selection: after a refetch that returns no cards, the
   * page still shows a card that is no longer among its jobs.
   */
  lemma EmptyFetchKeepsStaleSelection(p: Page, job: Job)
    requires p.selected == Some(job)
    ensures AfterFetch(p, Ok([])).selected == Some(job)
    ensures AfterFetch(p, Ok([])).selected.value !in AfterFetch(p, Ok([])).jobs
  {
  }

  /** The request `PUT /api/jobs/:id` sends: the selected card's `_id` and the edit state. */
  datatype UpdateRequest = UpdateRequest(id: string, data: JobData)

  /** `getStatusIcon`: a check for "Done", a pulsing spinner for every other status. */
  function StatusIcon(status: string): (icon: string)
    ensures icon == "fa-check-circle" <==> status == Done
    ensures icon == "fa-spinner fa-pulse" <==> status != Done
  {
    if status == Done then "fa-check-circle" else "fa-spinner fa-pulse"
  }

  class JobPageView {
    var jobs: seq<Job>
    var selected: Option<Job>
    var data: JobData
    var isUpdating: bool
    var isSearching: bool

    function State(): Page
      reads this
    {
      Page(jobs, selected, data, isUpdating, isSearching)
    }

    constructor ()
      ensures State() == InitialPage()
    {
      jobs, selected, data := [], None, JobData("", InProcess);
      isUpdating, isSearching := false, false;
    }

    /** `fetchJobs`: searching is on while the request is out, and off once it settles. */
    method FetchJobs(outcome: Result<seq<Job>>)
      modifies this
      ensures State() == AfterFetch(old(State()), outcome)
    {
      isSearching := true;
      if outcome.Ok? {
        jobs := outcome.value;
        if |outcome.value| > 0 {
          selected := Some(outcome.value[0]);
          data := JobData(outcome.value[0].defect, outcome.value[0].status);
        }
      }
      isSearching := false;
    }

    method HandleJobSelect(job: Job)
      modifies this
      ensures State() == AfterSelect(old(State()), job)
    {
      selected := Some(job);
      data := JobData(job.defect, job.status);
    }

    /** The defect and status inputs: each sets its own field of the edit state only. */
    method EditDefect(defect: string)
      modifies this
      ensures State() == old(State()).(data := old(data).(defect := defect))
    {
      data := data.(defect := defect);
    }

    method EditStatus(status: string)
      modifies this
      ensures State() == old(State()).(data := old(data).(status := status))
    {
      data := data.(status := status);
    }

    /**
     * `handleUpdateJob`: with no selection nothing is sent and nothing changes. Otherwise the
     * selected card's id and the edit state are sent; on success the list is fetched again, on
     * failure it is not. `isUpdating` is false again on every path that sent a request.
     */
    method HandleUpdateJob(update: Result<()>, refetch: Result<seq<Job>>) returns (sent: Option<UpdateRequest>)
      modifies this
      ensures old(selected).None? ==> sent.None? && State() == old(State())
      ensures old(selected).Some? ==> sent == Some(UpdateRequest(old(selected).value.id, old(data)))
      ensures old(selected).Some? && update.Ok? ==> State() == AfterFetch(old(State()), refetch).(isUpdating := false)
      ensures old(selected).Some? && update.Err? ==> State() == old(State()).(isUpdating := false)
    {
      if selected.None? {
        return None;
      }
      isUpdating := true;
      sent := Some(UpdateRequest(selected.value.id, data));
      if update.Ok? {
        FetchJobs(refetch);
      }
      isUpdating := false;
    }
  }
}
