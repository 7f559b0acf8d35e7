/** The remote API (src/network/endpoints.rs): endpoint URL rendering, the unauthenticated
    and authenticated request sides, and the stored authentication token.

    The remote service itself is a fixed oracle `Remote`: for each endpoint and key it holds
    the outcome a request would have (transport, status check and decoding folded in), so the
    same request always gets the same answer. Each request side counts, in a ghost field, the
    requests it has actually sent. */
module Endpoints {
  import opened Keys
  import opened Errors
  import opened Http
  import R = RawModels

  /** The service root. The source lets debug builds override it from the environment; the
      model fixes the release value. */
  const UPSTREAM: string := "https://supernova.nunl.pt"
  const API: string := "/api/"

  // ----------------------------------------------------------------------------------
  // Decimal rendering of numbers in paths
  // ----------------------------------------------------------------------------------

  predicate IsDigit(c: char) { '0' <= c <= '9' }

  function Digit(d: int): (c: char)
    requires 0 <= d < 10
    ensures IsDigit(c) && c as int - '0' as int == d
  {
    "0123456789"[d]
  }

  /** The decimal form `format!("{}", n)` gives a number: digits only, no leading zero. */
  function Decimal(n: nat): (s: string)
    ensures |s| > 0
    ensures forall i :: 0 <= i < |s| ==> IsDigit(s[i])
    ensures |s| > 1 ==> s[0] != '0'
  {
    if n < 10 then [Digit(n)] else Decimal(n / 10) + [Digit(n % 10)]
  }

  function ParseDecimal(s: string): nat
    requires forall i :: 0 <= i < |s| ==> IsDigit(s[i])
  {
    if s == [] then 0
    else
      assert IsDigit(s[|s| - 1]);
      10 * ParseDecimal(s[..|s| - 1]) + (s[|s| - 1] as int - '0' as int)
  }

  lemma {:induction false} DecimalRoundTrip(n: nat)
    ensures ParseDecimal(Decimal(n)) == n
  {
    if n >= 10 {
      var s := Decimal(n);
      assert s[..|s| - 1] == Decimal(n / 10);
      DecimalRoundTrip(n / 10);
    }
  }

  /** Distinct numbers render differently. */
  lemma DecimalInjective(a: nat, b: nat)
    requires Decimal(a) == Decimal(b)
    ensures a == b
  {
    DecimalRoundTrip(a);
    DecimalRoundTrip(b);
  }

  // ----------------------------------------------------------------------------------
  // Endpoints
  // ----------------------------------------------------------------------------------

  datatype Endpoint =
    | Login | Logout | TokenValidation
    | Profile(key: Key)
    | Buildings | Building(key: Key)
    | Places | Place(key: Key)
    | Departments | Department(key: Key)
    | Courses | Course(key: Key)
    | Classes | Class(key: Key)
    | ClassInstance(key: Key)
    | Student(key: Key)
    | Teacher(key: Key)
    | Enrollment(key: Key)
    | Shift(key: Key)
    | Groups | Group(key: Key)
    | EventsPage(page: PageKey)
    | NewsItemPage(page: PageKey)
    | LearningAreas | LearningArea(key: Key) | LearningSubarea(key: Key) | LearningSection(key: Key)
    | Question(key: Key)
    | Transportation | Weather
    | Services | Service(key: Key)

  /** The part of a single-entity path before its decimal key; empty for other endpoints. */
  function EntityPrefix(e: Endpoint): string
  {
    match e
    case Profile(_) => "services/"
    case Building(_) => "building/"
    case Place(_) => "place/"
    case Department(_) => "department/"
    case Course(_) => "course/"
    case Class(_) => "class/"
    case ClassInstance(_) => "class/i/"
    case Student(_) => "student/"
    case Teacher(_) => "teacher/"
    case Enrollment(_) => "enrollment/"
    case Shift(_) => "shift/"
    case Group(_) => "group/"
    case LearningArea(_) => "learning/area/"
    case LearningSubarea(_) => "learning/subarea/"
    case LearningSection(_) => "learning/section/"
    case Question(_) => "learning/question/"
    case Service(_) => "services/"
    case _ => ""
  }

  function PagePath(name: string, page: PageKey): string
  {
    name + "?limit=" + Decimal(page.0) + "&offset=" + Decimal(page.1)
  }

  /** The path below the API root. */
  function Path(e: Endpoint): string
  {
    match e
    case Login => "login"
    case Logout => "logout"
    case TokenValidation => "validation"
    case Buildings => "buildings"
    case Places => "places"
    case Departments => "departments"
    case Courses => "courses"
    case Classes => "classes"
    case Groups => "groups"
    case EventsPage(page) => PagePath("events", page)
    case NewsItemPage(page) => PagePath("news", page)
    case LearningAreas => "learning/areas"
    case Transportation => "transportation/day"
    case Weather => "weather"
    case Services => "services"
    case _ => EntityPrefix(e) + Decimal(e.key)
  }

  /** The `Display` form of an endpoint: its full URL. */
  function Render(e: Endpoint): string
  {
    UPSTREAM + API + Path(e)
  }

  /** Every URL lies below the API root of the service. */
  lemma RenderUnderApiRoot(e: Endpoint)
    ensures |Render(e)| > |UPSTREAM + API|
    ensures Render(e)[..|UPSTREAM + API|] == UPSTREAM + API
  {
    assert |Path(e)| > 0;
  }

  /** A user profile and a service share their URL. */
  lemma ProfileIsService(k: Key)
    ensures Path(Profile(k)) == "services/" + Decimal(k)
    ensures Render(Profile(k)) == Render(Service(k))
  {
  }

  /** Two single-entity endpoints of the same kind have the same URL only for the same key,
      so the URL a cache miss requests identifies the key asked for. */
  lemma RenderKeyInjective(e1: Endpoint, e2: Endpoint)
    requires EntityPrefix(e1) != "" && EntityPrefix(e1) == EntityPrefix(e2)
    requires Render(e1) == Render(e2)
    ensures e1.key == e2.key
  {
    KeyedPath(e1);
    KeyedPath(e2);
    CancelPrefix(UPSTREAM + API, Path(e1), Path(e2));
    CancelPrefix(EntityPrefix(e1), Decimal(e1.key), Decimal(e2.key));
    DecimalInjective(e1.key, e2.key);
  }

  lemma CancelPrefix(p: string, a: string, b: string)
    requires p + a == p + b
    ensures a == b
  {
    assert a == (p + a)[|p|..];
    assert b == (p + b)[|p|..];
  }

  lemma KeyedPath(e: Endpoint)
    requires EntityPrefix(e) != ""
    ensures !e.EventsPage? && !e.NewsItemPage?
    ensures Path(e) == EntityPrefix(e) + Decimal(e.key)
  {
    match e {
      case Profile(_) =>
      case Building(_) =>
      case Place(_) =>
      case Department(_) =>
      case Course(_) =>
      case Class(_) =>
      case ClassInstance(_) =>
      case Student(_) =>
      case Teacher(_) =>
      case Enrollment(_) =>
      case Shift(_) =>
      case Group(_) =>
      case LearningArea(_) =>
      case LearningSubarea(_) =>
      case LearningSection(_) =>
      case Question(_) =>
      case Service(_) =>
      case _ =>
    }
  }

  /** A class URL and a class-instance URL never coincide, although one path extends the
      other's prefix. */
  lemma ClassAndInstanceDiffer(a: Key, b: Key)
    ensures Render(Class(a)) != Render(ClassInstance(b))
  {
    var n := |UPSTREAM + API + "class/"|;
    assert Render(Class(a))[n] == Decimal(a)[0];
    assert Render(ClassInstance(b))[n] == 'i';
  }

  // ----------------------------------------------------------------------------------
  // The remote service
  // ----------------------------------------------------------------------------------

  /** What the service answers. Unauthenticated reads take the key; authenticated ones also
      take the token attached to the request. `logout` gives the transport outcome of the
      logout request (its status, before any check); `validation` gives the decoded body of
      the token validation request; `bytes` answers a download of a URL, with or without a
      token. */
  datatype Remote = Remote(
    login: R.BasicAuthCredentials -> Result<R.TokenResult>,
    validation: R.AuthToken -> Result<string>,
    logout: R.AuthToken -> Result<StatusCode>,
    bytes: (Option<R.AuthToken>, string) -> Result<seq<U8>>,
    departments: Result<seq<R.Department>>,
    buildings: Result<seq<R.Building>>,
    classes: Result<seq<R.Class>>,
    courses: Result<seq<R.Course>>,
    places: Result<seq<R.Place>>,
    groups: Result<seq<R.WeakGroup>>,
    building: Key -> Result<R.Building>,
    place: Key -> Result<R.Place>,
    department: Key -> Result<R.Department>,
    course: Key -> Result<R.Course>,
    klass: Key -> Result<R.Class>,
    group: Key -> Result<R.Group>,
    events: PageKey -> Result<R.EventsPage>,
    news: PageKey -> Result<R.NewsPage>,
    classInstance: (R.AuthToken, Key) -> Result<R.ClassInstance>,
    student: (R.AuthToken, Key) -> Result<R.Student>,
    teacher: (R.AuthToken, Key) -> Result<R.Teacher>,
    enrollment: (R.AuthToken, Key) -> Result<R.Enrollment>,
    shift: (R.AuthToken, Key) -> Result<R.ClassShift>)

  /** The URL a download request goes to: a path starting with `/` is taken relative to the
      service root, anything else is used as given. */
  function DownloadUrl(url: string): string
  {
    if |url| > 0 && url[0] == '/' then UPSTREAM + url else url
  }

  /** A URL that already names the service root is not prefixed a second time, so a
      resource path is fetched from exactly `UPSTREAM + path`. */
  lemma DownloadUrlOfRooted(path: string)
    ensures DownloadUrl(UPSTREAM + path) == UPSTREAM + path
  {
    assert (UPSTREAM + path)[0] == 'h';
  }

  lemma DownloadUrlOfPath(path: string)
    requires |path| > 0 && path[0] == '/'
    ensures DownloadUrl(path) == UPSTREAM + path
  {
  }

  /** The token validation outcome: success exactly when the body reads `Success`. */
  function VerifyOutcome(response: Result<string>): (r: Result<()>)
    ensures r.Ok? <==> response == Ok("Success")
    ensures response.Err? ==> r == Err(response.error)
    ensures response.Ok? && response.value != "Success" ==> r == Err(Authentication)
  {
    match response
    case Err(e) => Err(e)
    case Ok(text) => if text == "Success" then Ok(()) else Err(Authentication)
  }

  /** How the logout handler reads a status that passed the status check. */
  function LogoutStatus(code: StatusCode): Result<()>
  {
    if IsSuccess(code) then Ok(())
    else if IsServerError(code) then Err(Server)
    else if IsClientError(code) then Err(Client)
    else Err(Generic)
  }

  /** The outcome of a logout request whose transport produced `transport`. */
  function LogoutOutcome(transport: Result<StatusCode>): Result<()>
  {
    match Send(transport)
    case Err(e) => Err(e)
    case Ok(code) => LogoutStatus(code)
  }

  /** The complete status table of logout. The status check runs first, so the handler's own
      server-error and client-error arms are never reached: 5xx and 4xx have already become
      `Server`, `ResourceMissing` (404) or `Client`, and the handler only sees 1xx, 2xx and
      600 to 999. */
  lemma LogoutStatusTable(code: StatusCode)
    ensures IsSuccess(code) ==> LogoutOutcome(Ok(code)) == Ok(())
    ensures IsServerError(code) ==> LogoutOutcome(Ok(code)) == Err(Server)
    ensures code == 404 || IsRedirection(code) ==> LogoutOutcome(Ok(code)) == Err(ResourceMissing)
    ensures IsClientError(code) && code != 404 ==> LogoutOutcome(Ok(code)) == Err(Client)
    ensures IsInformational(code) || 600 <= code ==> LogoutOutcome(Ok(code)) == Err(Generic)
    ensures Send(Ok(code)).Ok? ==> LogoutStatus(code) in {Ok(()), Err(Generic)}
  {
  }

  /** What an authenticated read answers: without a stored token, `MissingAuthentication`. */
  function Authorized<T>(credentials: Option<R.AuthToken>, answer: (R.AuthToken, Key) -> Result<T>, key: Key): (r: Result<T>)
    ensures credentials.None? ==> r == Err(MissingAuthentication)
    ensures credentials.Some? ==> r == answer(credentials.value, key)
  {
    match credentials
    case None => Err(MissingAuthentication)
    case Some(token) => answer(token, key)
  }

  /** The authenticated read of one record kind, as a function of the key. */
  function Answer<T(!new)>(credentials: Option<R.AuthToken>, answer: (R.AuthToken, Key) -> Result<T>): (f: Key -> Result<T>)
  {
    (key: Key) => Authorized(credentials, answer, key)
  }

  /** The number of requests an authenticated read sends: none without a token. */
  function AuthCost(credentials: Option<R.AuthToken>): nat
  {
    if credentials.Some? then 1 else 0
  }

  // ----------------------------------------------------------------------------------
  // Request sides
  // ----------------------------------------------------------------------------------

  /** The unauthenticated side. */
  class BaseSupernova {
    const remote: Remote
    ghost var requests: nat

    constructor (remote: Remote)
      ensures this.remote == remote && requests == 0
    {
      this.remote := remote;
      requests := 0;
    }

    /** `fetch_bytes`: one request to the download URL of `url`. */
    method FetchBytes(url: string) returns (r: Result<seq<U8>>)
      modifies this`requests
      ensures requests == old(requests) + 1
      ensures r == remote.bytes(None, DownloadUrl(url))
    {
      requests := requests + 1;
      r := remote.bytes(None, DownloadUrl(url));
    }

    method Login(credentials: R.BasicAuthCredentials) returns (r: Result<R.TokenResult>)
      modifies this`requests
      ensures requests == old(requests) + 1
      ensures r == remote.login(credentials)
    {
      requests := requests + 1;
      r := remote.login(credentials);
    }

    /** `verify`: asks the service whether `token` is valid. */
    method Verify(token: R.AuthToken) returns (r: Result<()>)
      modifies this`requests
      ensures requests == old(requests) + 1
      ensures r.Ok? <==> remote.validation(token) == Ok("Success")
      ensures r == VerifyOutcome(remote.validation(token))
    {
      requests := requests + 1;
      var response := remote.validation(token);
      if response.Err? {
        return Err(response.error);
      }
      if response.value == "Success" {
        r := Ok(());
      } else {
        r := Err(Authentication);
      }
    }

    method FetchDepartments() returns (r: Result<seq<R.Department>>)
      modifies this`requests
      ensures requests == old(requests) + 1 && r == remote.departments
    {
      requests := requests + 1;
      r := remote.departments;
    }

    method FetchBuildings() returns (r: Result<seq<R.Building>>)
      modifies this`requests
      ensures requests == old(requests) + 1 && r == remote.buildings
    {
      requests := requests + 1;
      r := remote.buildings;
    }

    method FetchClasses() returns (r: Result<seq<R.Class>>)
      modifies this`requests
      ensures requests == old(requests) + 1 && r == remote.classes
    {
      requests := requests + 1;
      r := remote.classes;
    }

    method FetchCourses() returns (r: Result<seq<R.Course>>)
      modifies this`requests
      ensures requests == old(requests) + 1 && r == remote.courses
    {
      requests := requests + 1;
      r := remote.courses;
    }

    method FetchPlaces() returns (r: Result<seq<R.Place>>)
      modifies this`requests
      ensures requests == old(requests) + 1 && r == remote.places
    {
      requests := requests + 1;
      r := remote.places;
    }

    method FetchGroups() returns (r: Result<seq<R.WeakGroup>>)
      modifies this`requests
      ensures requests == old(requests) + 1 && r == remote.groups
    {
      requests := requests + 1;
      r := remote.groups;
    }

    method FetchBuilding(key: Key) returns (r: Result<R.Building>)
      modifies this`requests
      ensures requests == old(requests) + 1 && r == remote.building(key)
    {
      requests := requests + 1;
      r := remote.building(key);
    }

    method FetchPlace(key: Key) returns (r: Result<R.Place>)
      modifies this`requests
      ensures requests == old(requests) + 1 && r == remote.place(key)
    {
      requests := requests + 1;
      r := remote.place(key);
    }

    method FetchDepartment(key: Key) returns (r: Result<R.Department>)
      modifies this`requests
      ensures requests == old(requests) + 1 && r == remote.department(key)
    {
      requests := requests + 1;
      r := remote.department(key);
    }

    method FetchCourse(key: Key) returns (r: Result<R.Course>)
      modifies this`requests
      ensures requests == old(requests) + 1 && r == remote.course(key)
    {
      requests := requests + 1;
      r := remote.course(key);
    }

    method FetchClass(key: Key) returns (r: Result<R.Class>)
      modifies this`requests
      ensures requests == old(requests) + 1 && r == remote.klass(key)
    {
      requests := requests + 1;
      r := remote.klass(key);
    }

    method FetchGroup(key: Key) returns (r: Result<R.Group>)
      modifies this`requests
      ensures requests == old(requests) + 1 && r == remote.group(key)
    {
      requests := requests + 1;
      r := remote.group(key);
    }

    method FetchEvents(page: PageKey) returns (r: Result<R.EventsPage>)
      modifies this`requests
      ensures requests == old(requests) + 1 && r == remote.events(page)
    {
      requests := requests + 1;
      r := remote.events(page);
    }

    method FetchNews(page: PageKey) returns (r: Result<R.NewsPage>)
      modifies this`requests
      ensures requests == old(requests) + 1 && r == remote.news(page)
    {
      requests := requests + 1;
      r := remote.news(page);
    }
  }

  /** The authenticated side: the stored token and the reads that need it. */
  class AuthenticatedSupernova {
    const remote: Remote
    var credentials: Option<R.AuthToken>
    ghost var requests: nat

    constructor (remote: Remote)
      ensures this.remote == remote && credentials == None && requests == 0
    {
      this.remote := remote;
      credentials := None;
      requests := 0;
    }

    method SetToken(token: R.AuthToken)
      modifies this`credentials
      ensures credentials == Some(token)
    {
      credentials := Some(token);
    }

    method ClearToken()
      modifies this`credentials
      ensures credentials == None
    {
      credentials := None;
    }

    /** `fetch_bytes`: needs a token, and without one sends nothing. */
    method FetchBytes(url: string) returns (r: Result<seq<U8>>)
      modifies this`requests
      ensures credentials.None? ==> r == Err(MissingAuthentication) && requests == old(requests)
      ensures credentials.Some? ==> r == remote.bytes(credentials, DownloadUrl(url)) && requests == old(requests) + 1
    {
      if credentials.None? {
        return Err(MissingAuthentication);
      }
      requests := requests + 1;
      r := remote.bytes(credentials, DownloadUrl(url));
    }

    /** `logout`: needs a token, and without one sends nothing. */
    method Logout() returns (r: Result<()>)
      modifies this`requests
      ensures credentials.None? ==> r == Err(MissingAuthentication) && requests == old(requests)
      ensures credentials.Some? ==> r == LogoutOutcome(remote.logout(credentials.value)) && requests == old(requests) + 1
    {
      if credentials.None? {
        return Err(MissingAuthentication);
      }
      requests := requests + 1;
      var response := Send(remote.logout(credentials.value));
      if response.Err? {
        return Err(response.error);
      }
      var code := response.value;
      if IsSuccess(code) {
        r := Ok(());
      } else if IsServerError(code) {
        r := Err(Server);
      } else if IsClientError(code) {
        r := Err(Client);
      } else {
        r := Err(Generic);
      }
    }

    method FetchClassInstance(key: Key) returns (r: Result<R.ClassInstance>)
      modifies this`requests
      ensures r == Authorized(credentials, remote.classInstance, key)
      ensures requests == old(requests) + AuthCost(credentials)
    {
      if credentials.None? {
        return Err(MissingAuthentication);
      }
      requests := requests + 1;
      r := remote.classInstance(credentials.value, key);
    }

    method FetchStudent(key: Key) returns (r: Result<R.Student>)
      modifies this`requests
      ensures r == Authorized(credentials, remote.student, key)
      ensures requests == old(requests) + AuthCost(credentials)
    {
      if credentials.None? {
        return Err(MissingAuthentication);
      }
      requests := requests + 1;
      r := remote.student(credentials.value, key);
    }

    method FetchTeacher(key: Key) returns (r: Result<R.Teacher>)
      modifies this`requests
      ensures r == Authorized(credentials, remote.teacher, key)
      ensures requests == old(requests) + AuthCost(credentials)
    {
      if credentials.None? {
        return Err(MissingAuthentication);
      }
      requests := requests + 1;
      r := remote.teacher(credentials.value, key);
    }

    method FetchEnrollment(key: Key) returns (r: Result<R.Enrollment>)
      modifies this`requests
      ensures r == Authorized(credentials, remote.enrollment, key)
      ensures requests == old(requests) + AuthCost(credentials)
    {
      if credentials.None? {
        return Err(MissingAuthentication);
      }
      requests := requests + 1;
      r := remote.enrollment(credentials.value, key);
    }

    method FetchShift(key: Key) returns (r: Result<R.ClassShift>)
      modifies this`requests
      ensures r == Authorized(credentials, remote.shift, key)
      ensures requests == old(requests) + AuthCost(credentials)
    {
      if credentials.None? {
        return Err(MissingAuthentication);
      }
      requests := requests + 1;
      r := remote.shift(credentials.value, key);
    }
  }
}
