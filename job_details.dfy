/** The job-detail screen: the one lookup it makes for the job named by the
    route, what it keeps of the answer, where it navigates, and how the salary
    and the "Apply Now" link are chosen. */
module JobDetails {
  import opened Web
  import opened Session

  const DefaultBaseUrl := "http://localhost:4000"
  const JobPath := "/api/v1/job/"
  const ApplicationRoute := "/application/"
  const LoginRoute := "/login"
  const NotFoundRoute := "/notfound"
  const EmployerRole := "Employer"

  /** A job as the API returns it; every field may be missing from the JSON. */
  datatype Job = Job(
    id: Option<string>,
    title: Option<string>,
    category: Option<string>,
    country: Option<string>,
    city: Option<string>,
    location: Option<string>,
    description: Option<string>,
    jobPostedOn: Option<string>,
    fixedSalary: Option<int>,
    salaryFrom: Option<int>,
    salaryTo: Option<int>)

  /** The `{}` the screen starts with. */
  const EmptyJob := Job(None, None, None, None, None, None, None, None, None, None, None)

  /** What the HTTP client reported for the lookup. */
  datatype FetchOutcome = Fetched(job: Job) | FetchFailed

  /** Which of the two salary branches is rendered, with what it shows. */
  datatype SalaryView = FixedSalary(amount: int) | SalaryRange(from: Option<int>, to: Option<int>)

  /** The parts of the rendered page that carry decisions. */
  datatype Page = Page(salary: string, applyLink: Option<string>)

  /** `VITE_BASE_URL || "http://localhost:4000"`. */
  function BaseUrl(configured: Option<string>): (r: string)
    ensures r != ""
    ensures TruthyOptText(configured) ==> r == configured.value
    ensures !TruthyOptText(configured) ==> r == DefaultBaseUrl
  {
    if TruthyOptText(configured) then configured.value else DefaultBaseUrl
  }

  function JobUrl(configured: Option<string>, id: string): string {
    BaseUrl(configured) + JobPath + id
  }

  /** The lookup request for the job named by the route. */
  function LookupRequest(configured: Option<string>, id: string): Request {
    Request(Get, JobUrl(configured, id), [])
  }

  /** Distinct route ids are looked up at distinct URLs. */
  lemma JobUrlInjective(configured: Option<string>, id1: string, id2: string)
    requires JobUrl(configured, id1) == JobUrl(configured, id2)
    ensures id1 == id2
  {
    var prefix := BaseUrl(configured) + JobPath;
    assert JobUrl(configured, id1)[|prefix|..] == id1;
    assert JobUrl(configured, id2)[|prefix|..] == id2;
  }

  /** `${job._id}` inside a template literal: an absent id is written as
      "undefined". */
  function IdText(id: Option<string>): string {
    if id.Some? then id.value else "undefined"
  }

  /** The target of the "Apply Now" link. */
  function ApplyTarget(job: Job): string {
    ApplicationRoute + IdText(job.id)
  }

  /** Two jobs with ids get the same application link only if the ids agree. */
  lemma ApplyTargetInjective(j1: Job, j2: Job)
    requires j1.id.Some? && j2.id.Some?
    requires ApplyTarget(j1) == ApplyTarget(j2)
    ensures j1.id == j2.id
  {
    assert ApplyTarget(j1)[|ApplicationRoute|..] == j1.id.value;
    assert ApplyTarget(j2)[|ApplicationRoute|..] == j2.id.value;
  }

  /** The salary branch: a truthy fixed salary alone, otherwise the range. */
  function SalaryDisplay(job: Job): SalaryView {
    if TruthyOptNumber(job.fixedSalary) then FixedSalary(job.fixedSalary.value)
    else SalaryRange(job.salaryFrom, job.salaryTo)
  }

  /** The text React writes for the chosen branch. */
  function SalaryText(v: SalaryView): string {
    match v
    case FixedSalary(amount) => NumberText(amount)
    case SalaryRange(from, to) => OptNumberText(from) + " - " + OptNumberText(to)
  }

  /** `!(user && user.role === "Employer")`. */
  function ShowApply(user: Option<User>): bool {
    !(user.Some? && user.value.role == EmployerRole)
  }

  /** Where the render path navigates, if anywhere. */
  function RedirectTarget(isAuthorized: bool): Option<string> {
    if isAuthorized then None else Some(LoginRoute)
  }

  function RenderPage(job: Job, user: Option<User>): Page {
    Page(SalaryText(SalaryDisplay(job)),
         if ShowApply(user) then Some(ApplyTarget(job)) else None)
  }

  /** The page shows the link, to the job's own application route, exactly
      when the viewer is not an employer, whatever the job holds. */
  lemma ApplyLinkShown(job: Job, user: Option<User>)
    ensures RenderPage(job, user).applyLink.Some? <==>
      !(user.Some? && user.value.role == EmployerRole)
    ensures RenderPage(job, user).applyLink.Some? ==>
      RenderPage(job, user).applyLink.value == ApplicationRoute + IdText(job.id)
  {
  }

  /** A non-zero fixed salary is shown as its own digits and nothing else,
      whoever is viewing. */
  lemma FixedSalaryShownAlone(job: Job, user: Option<User>)
    requires TruthyOptNumber(job.fixedSalary)
    ensures RenderPage(job, user).salary == NumberText(job.fixedSalary.value)
  {
  }

  /** Without a truthy fixed salary (absent, or 0) the range `from - to` is
      shown, whoever is viewing; an absent end is written as nothing. */
  lemma RangeShownWithoutFixedSalary(job: Job, user: Option<User>)
    requires !TruthyOptNumber(job.fixedSalary)
    ensures RenderPage(job, user).salary ==
      OptNumberText(job.salaryFrom) + " - " + OptNumberText(job.salaryTo)
  {
  }

  /** A range from 1000 to 2000 with no fixed salary reads "1000 - 2000". */
  lemma RangeShownAsText(job: Job)
    requires job.fixedSalary == None
    requires job.salaryFrom == Some(1000) && job.salaryTo == Some(2000)
    ensures RenderPage(job, None).salary == "1000 - 2000"
  {
  }

  /** The detail screen's state: the job it shows and the navigations it has
      performed, in order. */
  class Screen {
    const id: string
    var job: Job
    var visited: seq<string>

    constructor (id: string)
      ensures this.id == id && job == EmptyJob && visited == []
    {
      this.id := id;
      job := EmptyJob;
      visited := [];
    }

    /** The fetch effect, run once for the route's id. */
    method Load(configured: Option<string>, outcome: FetchOutcome) returns (request: Request)
      modifies this
      ensures request.verb == Get && request.body == []
      ensures request.url == BaseUrl(configured) + "/api/v1/job/" + id
      ensures outcome.Fetched? ==> job == outcome.job && visited == old(visited)
      ensures outcome.FetchFailed? ==>
        job == old(job) && visited == old(visited) + [NotFoundRoute]
    {
      request := LookupRequest(configured, id);
      match outcome
      case Fetched(fetched) =>
        job := fetched;
      case FetchFailed =>
        visited := visited + [NotFoundRoute];
    }

    /** One render: navigate to the login view when unauthorized, and build
        the page from the current job either way. */
    method Render(context: Context) returns (page: Page)
      modifies this`visited
      ensures visited == old(visited) + (if context.isAuthorized then [] else ["/login"])
      ensures page == RenderPage(job, context.user)
      ensures page.applyLink.Some? <==>
        !(context.user.Some? && context.user.value.role == "Employer")
      ensures page.applyLink.Some? ==> page.applyLink.value == "/application/" + IdText(job.id)
      ensures TruthyOptNumber(job.fixedSalary) ==>
        page.salary == NumberText(job.fixedSalary.value)
      ensures !TruthyOptNumber(job.fixedSalary) ==>
        page.salary == OptNumberText(job.salaryFrom) + " - " + OptNumberText(job.salaryTo)
    {
      var target := RedirectTarget(context.isAuthorized);
      if target.Some? {
        visited := visited + [target.value];
      }
      page := RenderPage(job, context.user);
    }
  }
}
