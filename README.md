# Job board front end: registration and job-detail decisions

This project models the decision logic of two screens of a job-board web
client, stated in Dafny and verified.

- **Registration** (`Register.jsx`). The form has five fields: name, email,
  phone, password and role. Submitting runs three client-side checks in a fixed
  order:
  1. every field is non-empty;
  2. the phone matches `^[0-9]{10}$`;
  3. the password has at least 6 characters.

  Only the first failing check is reported, and no request is sent. When all
  checks pass, one POST is sent to `{base}/api/v1/user/register` with the body
  `{name, phone, email, role, password}`. On success the five fields are
  cleared and the shared context's `isAuthorized` flag is set. On failure the
  fields are kept and an error message is shown. That message is the server's
  message, else the transport's message, else a fixed fallback. An authorized
  visitor is redirected to `/`.
- **Job detail** (`JobDetails.jsx`). The screen starts with an empty job and
  sends one GET to `{base or http://localhost:4000}/api/v1/job/{id}`. A success
  replaces the job; a failure navigates to `/notfound` once. Each render of an
  unauthorized viewer navigates to `/login`. The salary shows a truthy fixed
  salary alone, and otherwise the `from - to` range. "Apply Now" links to
  `/application/{job._id}` unless the user is an employer.

Modules:

- `Web` (web.dfy): optional JSON fields and JavaScript truthiness. It also
  holds the request value handed to the HTTP client and how React writes an
  integer as text.
- `Session` (session.dfy): the shared context (`isAuthorized`, `user`) as a
  class.
- `Register` (register.dfy): the pure checks and message selection, and the
  `Form` class whose `Submit` method updates the fields and the context step by
  step.
- `JobDetails` (job_details.dfy): the pure URL, salary, link and redirect
  choices, and the `Screen` class holding the job and the navigations made.

The network answer is a parameter of `Submit` and `Load`:
`Registered(message) | PostFailed(responseMessage, transportMessage)` and
`Fetched(job) | FetchFailed`. A notification is a returned `Toast` value.
A navigation is a route string appended to `Screen.visited`.

Three behaviours of the code that a reader might not expect are modelled as
they are:

- JavaScript truthiness decides three branches:
  - a fixed salary of `0` falls through to the range;
  - an empty server or transport message falls through to the next candidate;
  - an empty configured base URL falls back to `http://localhost:4000`.
- Before the job arrives, the "Apply Now" link reads `/application/undefined`.
  A template literal writes the missing `_id` that way.
- A successful registration sets `isAuthorized` but leaves the context's `user`
  as it was. `Submit` states this (`context.user == old(context.user)`).

## Model

| member | source | states |
|---|---|---|
| Register.Validate | src/components/Auth/Register.jsx:26-39 | The result is the missing-field error exactly when some field is empty. It is the phone error exactly when all fields are filled and the phone is not ten 0-9 characters. It is the password error exactly when those pass and the password is shorter than 6. Otherwise it passes, so a password of length 6 is accepted. |
| Register.MatchesDigitRunIff | src/components/Auth/Register.jsx:31 | The regex `^[0-9]{n}$`, read character by character, accepts a string exactly when it has length n and every character is a digit. |
| Register.RequestBody | src/components/Auth/Register.jsx:47 | The body has exactly five keys, in the order name, phone, email, role, password. Looking up each key gives the matching field's value. |
| Register.FailureText | src/components/Auth/Register.jsx:64-72 | The error text is never empty. It is the server's message when that is non-empty, else the transport message when that is non-empty, else "Something went wrong. Please try again." |
| Register.Form.constructor | src/components/Auth/Register.jsx:14-18 | All five fields start empty. |
| Register.Form.Clear | src/components/Auth/Register.jsx:57-62 | All five fields are empty afterwards, and the shared context is not touched. |
| Register.Form.Submit | src/components/Auth/Register.jsx:22-73 | A failed check sends nothing, shows that check's message and changes no field or flag. When the checks pass, one POST is sent to the base URL followed by `/api/v1/user/register`, carrying the body built from the fields as they were. A successful POST then shows the server message, blanks all five fields and sets `isAuthorized`, after which the guard redirects to `/`. A failed POST shows `FailureText` and changes nothing. The context's `user` is never changed. |
| Session.Context.SetAuthorized | src/components/Auth/Register.jsx:63 | Sets `isAuthorized` and leaves `user` unchanged. |
| JobDetails.BaseUrl | src/components/Job/JobDetails.jsx:19 | The result is never empty. It is the configured base URL when that is non-empty, and `http://localhost:4000` when it is absent or empty. |
| JobDetails.JobUrlInjective | src/components/Job/JobDetails.jsx:20 | Two route ids give the same lookup URL only if they are equal, so each id is looked up at its own URL. |
| JobDetails.ApplyTargetInjective | src/components/Job/JobDetails.jsx:76 | Two jobs with ids get the same application link only if their ids are equal. |
| JobDetails.FixedSalaryShownAlone | src/components/Job/JobDetails.jsx:65-66 | For any viewer, a truthy fixed salary is rendered as its own number text and nothing else. |
| JobDetails.RangeShownWithoutFixedSalary | src/components/Job/JobDetails.jsx:65-71 | For any viewer, when the fixed salary is absent or 0 the salary text is `salaryFrom`, then " - ", then `salaryTo`, with an absent end written as nothing. |
| JobDetails.RangeShownAsText | src/components/Job/JobDetails.jsx:68-70 | With no fixed salary and a range from 1000 to 2000, the page reads "1000 - 2000". |
| JobDetails.ApplyLinkShown | src/components/Job/JobDetails.jsx:73-77 | The rendered page has an apply link exactly when the viewer is not an employer, whatever the job holds. The link points to `/application/` followed by the job's id. |
| JobDetails.Screen.constructor | src/components/Job/JobDetails.jsx:10-11 | The screen starts with the empty job, no navigations and the route's id. |
| JobDetails.Screen.Load | src/components/Job/JobDetails.jsx:16-31 | Sends one GET with no body to the base URL (configured, else `http://localhost:4000`) followed by `/api/v1/job/` and the screen's id. On success the job is replaced entirely by the fetched one and nothing is navigated. On failure the job is unchanged and exactly one navigation to `/notfound` is added. |
| JobDetails.Screen.Render | src/components/Job/JobDetails.jsx:33-77 | Adds one `/login` navigation exactly when the viewer is unauthorized, and leaves the job unchanged. The page has an apply link exactly when the user is not an employer, and the link is `/application/` followed by the job's id. The salary is the fixed amount alone when it is truthy, otherwise the `from - to` range. |
| Web.DecimalRoundTrip | src/components/Job/JobDetails.jsx:66 | The digits written for a salary read back as the same number. |
| Web.NumberTextInjective | src/components/Job/JobDetails.jsx:66 | Two different integers are never rendered as the same text. |

## Left out

- The HTTP client (axios), its headers and `withCredentials`: foreign I/O. The answer is modelled only as an outcome parameter.
- The toast library and `console.error`: `Submit` returns the notification as a value, and the error log is dropped.
- JSX markup, CSS classes, icons and images. The seven text fields of the job (title, category, country, city, location, description, posting date) are rendered verbatim and are not part of `Page`.
- React hooks, re-render timing, async suspension, and responses that arrive after the visitor has navigated away. These are framework and concurrency semantics. `Load` and `Render` are steps the caller sequences.
- react-router: `Navigate` and `navigateTo` are modelled as route strings (the `View` returned by `Guard`, and `Screen.visited`); `useParams` is the screen's `id`.
- `import.meta.env` is an input. The registration URL is built from the base URL string as given. What JavaScript builds when the variable is unset (`"undefined/api/..."`) is not modelled.
- The HTML `required` attributes and the role `<select>` options: the browser enforces them, and the handler does not.
- The context's initial value comes from the application root, which is not part of this model. `Session.Context` takes it as constructor arguments.
- A success answer with no `job` field, and a registration success with no `message` field, are not modelled. `Fetched` always carries a job, and `Registered` always carries a message.
- Register.Validate: counts password length in Unicode characters, while JavaScript's `length` counts UTF-16 code units. A password of three characters outside the Basic Multilingual Plane is accepted by the source but rejected here.
- Web.NumberText: salaries are integers. Fractional amounts, `NaN` and JavaScript's exponent notation for very large numbers are not modelled.
- JSON values of an unexpected type are not modelled: a salary sent as a string, or a role that is not a string.
