/**
 * The applications store: the listed job applications, the one being viewed,
 * paging and the `loading`/`error` flags, with every reducer case of the
 * applications slice.
 */
module ApplicationsSlice {
  import opened Common
  import ListOps

  /** A job application; `details` stands for every field other than `id` and `status`. */
  datatype Application = Application(id: Id, status: string, details: map<string, string>)

  datatype Request = FetchApplications | FetchApplicationById | CreateApplication | UpdateApplicationStatus

  /** The fixed text each rejected case falls back to. */
  function Fallback(req: Request): (r: string)
    ensures |r| > 0
  {
    match req
    case FetchApplications => "Failed to fetch applications"
    case FetchApplicationById => "Failed to fetch application"
    case CreateApplication => "Failed to create application"
    case UpdateApplicationStatus => "Failed to update application status"
  }
  /** No two requests share a fallback text, so a stored error names the request that failed. */
  lemma FallbackIdentifiesRequest(a: Request, b: Request)
    ensures Fallback(a) == Fallback(b) ==> a == b
  {
  }


  /** `applications.findIndex(app => app.id === id)` */
  function ApplicationIndex(apps: seq<Application>, id: Id): (r: int)
    ensures -1 <= r < |apps|
    ensures r == -1 <==> forall k :: 0 <= k < |apps| ==> apps[k].id != id
    ensures 0 <= r ==> apps[r].id == id && forall k :: 0 <= k < r ==> apps[k].id != id
  {
    ListOps.FindIndex(apps, (a: Application) => a.id == id)
  }

  /** `updateApplicationStatus.fulfilled` on the list: the first application with the same id is replaced. */
  function ReplaceApplication(apps: seq<Application>, app: Application): (r: seq<Application>)
    ensures |r| == |apps|
    ensures ApplicationIndex(apps, app.id) == -1 ==> r == apps
    ensures 0 <= ApplicationIndex(apps, app.id) ==> r[ApplicationIndex(apps, app.id)] == app
    ensures forall k :: 0 <= k < |apps| && k != ApplicationIndex(apps, app.id) ==> r[k] == apps[k]
  {
    ListOps.UpdateFirst(apps, (a: Application) => a.id == app.id, (a: Application) => app)
  }

  /**
   * An update keeps the id at every position of the list, and an application
   * that was listed is still listed afterwards.
   */
  lemma ReplaceKeepsIds(apps: seq<Application>, app: Application)
    ensures forall k :: 0 <= k < |apps| ==> ReplaceApplication(apps, app)[k].id == apps[k].id
    ensures app in apps ==> app in ReplaceApplication(apps, app)
  {
    var r := ReplaceApplication(apps, app);
    var i := ApplicationIndex(apps, app.id);
    if app in apps {
      var j :| 0 <= j < |apps| && apps[j] == app;
      assert 0 <= i <= j;
      assert r[i] == app;
    }
  }

  datatype ApplicationsState = ApplicationsState(
    applications: seq<Application>,
    currentApplication: Option<Application>,
    loading: bool,
    error: Option<string>,
    totalPages: int,
    currentPage: int)

  /** The applications slice; each method is one reducer case and updates the fields in place. */
  class ApplicationsStore {
    var applications: seq<Application>
    var currentApplication: Option<Application>
    var loading: bool
    var error: Option<string>
    var totalPages: int
    var currentPage: int

    function State(): ApplicationsState
      reads this
    {
      ApplicationsState(applications, currentApplication, loading, error, totalPages, currentPage)
    }

    /** `initialState` */
    constructor ()
      ensures State() == ApplicationsState([], None, false, None, 0, 0)
    {
      applications := [];
      currentApplication := None;
      loading := false;
      error := None;
      totalPages := 0;
      currentPage := 0;
    }

    method ClearApplicationError()
      modifies this
      ensures State() == old(State()).(error := None)
    {
      error := None;
    }

    method ClearCurrentApplication()
      modifies this
      ensures State() == old(State()).(currentApplication := None)
    {
      currentApplication := None;
    }

    /** The pending case of every request is the same: start loading, forget the old error. */
    method Pending()
      modifies this
      ensures State() == old(State()).(loading := true, error := None)
    {
      loading := true;
      error := None;
    }

    /** The rejected case of every request: stop loading and record the error. */
    method Rejected(req: Request, payload: Option<ErrorPayload>)
      modifies this
      ensures error == RejectedError(payload, Fallback(req))
      ensures State() == old(State()).(loading := false, error := error)
    {
      loading := false;
      error := RejectedError(payload, Fallback(req));
    }

    /** The fetched page replaces the list and the paging fields. */
    method FetchApplicationsFulfilled(page: Page<Application>)
      modifies this
      ensures State() == old(State()).(loading := false, applications := page.content,
                                       totalPages := page.totalPages, currentPage := page.number)
    {
      loading := false;
      applications := page.content;
      totalPages := page.totalPages;
      currentPage := page.number;
    }

    method FetchApplicationByIdFulfilled(app: Application)
      modifies this
      ensures State() == old(State()).(loading := false, currentApplication := Some(app))
    {
      loading := false;
      currentApplication := Some(app);
    }

    /** A created application goes to the front; the others follow in their order. */
    method CreateApplicationFulfilled(app: Application)
      modifies this
      ensures |applications| == |old(applications)| + 1
      ensures applications[0] == app && applications[1..] == old(applications)
      ensures State() == old(State()).(loading := false, applications := applications)
    {
      loading := false;
      applications := [app] + applications;
    }

    /** The updated application becomes current and replaces its listed copy, if any. */
    method UpdateApplicationStatusFulfilled(app: Application)
      modifies this
      ensures applications == ReplaceApplication(old(applications), app)
      ensures State() == old(State()).(loading := false, currentApplication := Some(app),
                                       applications := applications)
    {
      loading := false;
      currentApplication := Some(app);
      applications := ReplaceApplication(applications, app);
    }
  }
}
