/** The client facade `Supernova` (src/lib.rs): a base side, an authenticated side and a
    cache. Every single-record getter is a read-through of one cache map, every listing getter
    a read-through of one map and its populated flag. Locks and `async` are left out: each
    method is one sequential step. */
module IronPlanet {
  import opened Keys
  import opened Errors
  import opened Endpoints
  import opened Cache
  import R = RawModels
  import M = Models
  import C = Conversion

  /** Per-call options; the default reads the cache first. */
  datatype RequestConfig = RequestConfig(evadeCache: bool)

  const DEFAULT_CONFIG := RequestConfig(false)

  const DEFAULT_PAGE_ITEM_LIMIT: U16 := 100

  /** The key of the first page of events or news. */
  const FRONT_PAGE: PageKey := (DEFAULT_PAGE_ITEM_LIMIT, 0)

  /** Following next-page references from the front page visits the offsets 0, 100, 200, ...
      for as long as they fit in 32 bits. */
  lemma FrontPageChain(n: nat)
    requires 100 * n < 0x1_0000_0000
    ensures C.NthPageKey(FRONT_PAGE, n) == (100, 100 * n)
  {
    C.NthPageKeyOffset(FRONT_PAGE, n);
  }

  // ----------------------------------------------------------------------------------
  // Class instances
  // ----------------------------------------------------------------------------------

  /** The maps a class instance read touches. */
  datatype InstanceCache = InstanceCache(
    instances: map<Key, R.ClassInstance>,
    enrollments: map<Key, R.Enrollment>,
    shifts: map<Key, R.ClassShift>)

  /** A class instance read: like a read-through, except that a fetched instance is not filed
      itself; its nested enrollments and shifts are. */
  function ReadInstance(c: InstanceCache, key: Key, evadeCache: bool, answer: Result<R.ClassInstance>): (o: Outcome<InstanceCache, R.ClassInstance>)
    ensures o.fetched <==> evadeCache || key !in c.instances
    ensures !o.fetched ==> o.result == Ok(c.instances[key]) && o.state == c
    ensures o.fetched ==> o.result == answer
    ensures o.result.Err? ==> o.state == c
    ensures o.state.instances == c.instances
    ensures o.fetched && answer.Ok? ==>
      o.state.enrollments == InsertAll(c.enrollments, answer.value.enrollments, R.EnrollmentId) &&
      o.state.shifts == InsertAll(c.shifts, answer.value.shifts, R.ShiftId)
  {
    if !evadeCache && key in c.instances then Outcome(Ok(c.instances[key]), c, false)
    else match answer
      case Err(e) => Outcome(Err(e), c, true)
      case Ok(ci) =>
        Outcome(Ok(ci), InstanceCache(c.instances, InsertAll(c.enrollments, ci.enrollments, R.EnrollmentId),
                                      InsertAll(c.shifts, ci.shifts, R.ShiftId)), true)
  }

  /** A class instance is never served from the cache unless it was there to begin with: a
      second cache-first read of the same key fetches again. Its nested enrollments and
      shifts, on the other hand, are served from the cache from then on. */
  lemma InstanceNeverCachedItself(c: InstanceCache, key: Key, evadeCache: bool, answer: Result<R.ClassInstance>,
                                  later: Result<R.ClassInstance>, e: Key, s: Key, lateE: Result<R.Enrollment>, lateS: Result<R.ClassShift>)
    requires key !in c.instances
    requires answer.Ok?
    requires e in Ids(answer.value.enrollments, R.EnrollmentId)
    requires s in Ids(answer.value.shifts, R.ShiftId)
    ensures var o := ReadInstance(c, key, evadeCache, answer);
      ReadInstance(o.state, key, false, later).fetched &&
      !ReadThrough(o.state.enrollments, e, false, lateE, R.EnrollmentId).fetched &&
      !ReadThrough(o.state.shifts, s, false, lateS, R.ShiftId).fetched
  {
  }

  /** The step of resolving one class instance reference. */
  function InstanceStep(answer: Key -> Result<R.ClassInstance>): (step: (InstanceCache, Key) -> Outcome<InstanceCache, R.ClassInstance>)
  {
    (c: InstanceCache, k: Key) => ReadInstance(c, k, false, answer(k))
  }

  // ----------------------------------------------------------------------------------
  // The facade
  // ----------------------------------------------------------------------------------

  class Supernova {
    const base: BaseSupernova
    const authenticated: AuthenticatedSupernova
    const cache: ClientCache

    predicate Valid()
      reads cache
    {
      cache.Valid()
    }

    /** `Supernova::new`: nothing cached, no token, nothing sent. */
    constructor (remote: Remote)
      ensures Valid() && cache.Empty()
      ensures base.remote == remote && authenticated.remote == remote
      ensures authenticated.credentials.None?
      ensures base.requests == 0 && authenticated.requests == 0
      ensures fresh(base) && fresh(authenticated) && fresh(cache)
    {
      base := new BaseSupernova(remote);
      authenticated := new AuthenticatedSupernova(remote);
      cache := new ClientCache();
    }

    // --- Authentication --------------------------------------------------------------

    /** Logs in and, only on success, stores the token. */
    method Login(username: string, password: string) returns (r: Result<R.AuthToken>)
      modifies base`requests, authenticated`credentials
      ensures base.requests == old(base.requests) + 1
      ensures var answer := base.remote.login(R.BasicAuthCredentials(username, password));
        && (answer.Ok? ==> r == Ok(answer.value.token) && authenticated.credentials == Some(answer.value.token))
        && (answer.Err? ==> r == Err(answer.error) && authenticated.credentials == old(authenticated.credentials))
    {
      var token := base.Login(R.BasicAuthCredentials(username, password));
      if token.Err? {
        return Err(token.error);
      }
      authenticated.SetToken(token.value.token);
      r := Ok(token.value.token);
    }

    /** Logs out and, only on success, forgets the token. */
    method Logout() returns (r: Result<()>)
      modifies authenticated`requests, authenticated`credentials
      ensures old(authenticated.credentials).None? ==> r == Err(MissingAuthentication)
      ensures old(authenticated.credentials).Some? ==>
        r == LogoutOutcome(authenticated.remote.logout(old(authenticated.credentials).value))
      ensures r.Ok? ==> authenticated.credentials.None?
      ensures r.Err? ==> authenticated.credentials == old(authenticated.credentials)
      ensures authenticated.requests == old(authenticated.requests) + AuthCost(old(authenticated.credentials))
    {
      r := authenticated.Logout();
      if r.Err? {
        return;
      }
      authenticated.ClearToken();
    }

    /** Stores a token only after the service has confirmed it. */
    method SetAuthToken(token: R.AuthToken) returns (r: Result<()>)
      modifies base`requests, authenticated`credentials
      ensures r == VerifyOutcome(base.remote.validation(token))
      ensures r.Ok? <==> base.remote.validation(token) == Ok("Success")
      ensures authenticated.credentials == if r.Ok? then Some(token) else old(authenticated.credentials)
      ensures base.requests == old(base.requests) + 1
    {
      r := base.Verify(token);
      if r.Err? {
        return;
      }
      authenticated.SetToken(token);
    }

    function IsAuthenticated(): (b: bool)
      reads authenticated
      ensures b <==> authenticated.credentials.Some?
    {
      authenticated.credentials.Some?
    }

    // --- Listings --------------------------------------------------------------------

    method GetDepartments(conf: RequestConfig) returns (r: Result<seq<M.Department>>, ghost order: seq<Key>)
      requires Valid()
      modifies cache`departments, cache`departmentsPopulated, base`requests
      ensures Valid()
      ensures var o := ReadAll(old(cache.departments), old(cache.departmentsPopulated), conf.evadeCache,
                               base.remote.departments, R.DepartmentId);
        && cache.departments == o.state && cache.departmentsPopulated == o.populated
        && base.requests == old(base.requests) + (if o.fetched then 1 else 0)
        && (r.Ok? <==> o.status.Ok?) && (r.Err? ==> r.error == o.status.error)
      ensures r.Ok? ==> Lists(r.value, order, cache.departments, C.LinkDepartment)
    {
      if !conf.evadeCache && cache.departmentsPopulated {
        var out;
        out, order := LinkedValues(cache.departments, C.LinkDepartment);
        return Ok(out), order;
      }
      ghost var before := cache.departments;
      var fetched := base.FetchDepartments();
      if fetched.Err? {
        return Err(fetched.error), [];
      }
      cache.FileDepartments(fetched.value);
      assert ReadAll(before, old(cache.departmentsPopulated), conf.evadeCache, fetched, R.DepartmentId)
        == BulkOutcome(Ok(()), cache.departments, true, true);
      var out;
      out, order := LinkedValues(cache.departments, C.LinkDepartment);
      r := Ok(out);
    }

    method GetBuildings(conf: RequestConfig) returns (r: Result<seq<M.Building>>, ghost order: seq<Key>)
      requires Valid()
      modifies cache`buildings, cache`buildingsPopulated, base`requests
      ensures Valid()
      ensures var o := ReadAll(old(cache.buildings), old(cache.buildingsPopulated), conf.evadeCache,
                               base.remote.buildings, R.BuildingId);
        && cache.buildings == o.state && cache.buildingsPopulated == o.populated
        && base.requests == old(base.requests) + (if o.fetched then 1 else 0)
        && (r.Ok? <==> o.status.Ok?) && (r.Err? ==> r.error == o.status.error)
      ensures r.Ok? ==> Lists(r.value, order, cache.buildings, C.LinkBuilding)
    {
      if !conf.evadeCache && cache.buildingsPopulated {
        var out;
        out, order := LinkedValues(cache.buildings, C.LinkBuilding);
        return Ok(out), order;
      }
      ghost var before := cache.buildings;
      var fetched := base.FetchBuildings();
      if fetched.Err? {
        return Err(fetched.error), [];
      }
      cache.FileBuildings(fetched.value);
      assert ReadAll(before, old(cache.buildingsPopulated), conf.evadeCache, fetched, R.BuildingId)
        == BulkOutcome(Ok(()), cache.buildings, true, true);
      var out;
      out, order := LinkedValues(cache.buildings, C.LinkBuilding);
      r := Ok(out);
    }

    method GetPlaces(conf: RequestConfig) returns (r: Result<seq<M.Place>>, ghost order: seq<Key>)
      requires Valid()
      modifies cache`places, cache`placesPopulated, base`requests
      ensures Valid()
      ensures var o := ReadAll(old(cache.places), old(cache.placesPopulated), conf.evadeCache,
                               base.remote.places, R.PlaceId);
        && cache.places == o.state && cache.placesPopulated == o.populated
        && base.requests == old(base.requests) + (if o.fetched then 1 else 0)
        && (r.Ok? <==> o.status.Ok?) && (r.Err? ==> r.error == o.status.error)
      ensures r.Ok? ==> Lists(r.value, order, cache.places, C.LinkPlace)
    {
      if !conf.evadeCache && cache.placesPopulated {
        var out;
        out, order := LinkedValues(cache.places, C.LinkPlace);
        return Ok(out), order;
      }
      ghost var before := cache.places;
      var fetched := base.FetchPlaces();
      if fetched.Err? {
        return Err(fetched.error), [];
      }
      cache.FilePlaces(fetched.value);
      assert ReadAll(before, old(cache.placesPopulated), conf.evadeCache, fetched, R.PlaceId)
        == BulkOutcome(Ok(()), cache.places, true, true);
      var out;
      out, order := LinkedValues(cache.places, C.LinkPlace);
      r := Ok(out);
    }

    method GetClasses(conf: RequestConfig) returns (r: Result<seq<M.Class>>, ghost order: seq<Key>)
      requires Valid()
      modifies cache`classes, cache`classesPopulated, base`requests
      ensures Valid()
      ensures var o := ReadAll(old(cache.classes), old(cache.classesPopulated), conf.evadeCache,
                               base.remote.classes, R.ClassId);
        && cache.classes == o.state && cache.classesPopulated == o.populated
        && base.requests == old(base.requests) + (if o.fetched then 1 else 0)
        && (r.Ok? <==> o.status.Ok?) && (r.Err? ==> r.error == o.status.error)
      ensures r.Ok? ==> Lists(r.value, order, cache.classes, C.LinkClass)
    {
      if !conf.evadeCache && cache.classesPopulated {
        var out;
        out, order := LinkedValues(cache.classes, C.LinkClass);
        return Ok(out), order;
      }
      ghost var before := cache.classes;
      var fetched := base.FetchClasses();
      if fetched.Err? {
        return Err(fetched.error), [];
      }
      cache.FileClasses(fetched.value);
      assert ReadAll(before, old(cache.classesPopulated), conf.evadeCache, fetched, R.ClassId)
        == BulkOutcome(Ok(()), cache.classes, true, true);
      var out;
      out, order := LinkedValues(cache.classes, C.LinkClass);
      r := Ok(out);
    }

    method GetCourses(conf: RequestConfig) returns (r: Result<seq<M.Course>>, ghost order: seq<Key>)
      requires Valid()
      modifies cache`courses, cache`coursesPopulated, base`requests
      ensures Valid()
      ensures var o := ReadAll(old(cache.courses), old(cache.coursesPopulated), conf.evadeCache,
                               base.remote.courses, R.CourseId);
        && cache.courses == o.state && cache.coursesPopulated == o.populated
        && base.requests == old(base.requests) + (if o.fetched then 1 else 0)
        && (r.Ok? <==> o.status.Ok?) && (r.Err? ==> r.error == o.status.error)
      ensures r.Ok? ==> Lists(r.value, order, cache.courses, C.LinkCourse)
    {
      if !conf.evadeCache && cache.coursesPopulated {
        var out;
        out, order := LinkedValues(cache.courses, C.LinkCourse);
        return Ok(out), order;
      }
      ghost var before := cache.courses;
      var fetched := base.FetchCourses();
      if fetched.Err? {
        return Err(fetched.error), [];
      }
      cache.FileCourses(fetched.value);
      assert ReadAll(before, old(cache.coursesPopulated), conf.evadeCache, fetched, R.CourseId)
        == BulkOutcome(Ok(()), cache.courses, true, true);
      var out;
      out, order := LinkedValues(cache.courses, C.LinkCourse);
      r := Ok(out);
    }

    /** Groups are listed and cached in their summary form. */
    method GetGroups(conf: RequestConfig) returns (r: Result<seq<M.Group>>, ghost order: seq<Key>)
      requires Valid()
      modifies cache`groups, cache`groupsPopulated, base`requests
      ensures Valid()
      ensures var o := ReadAll(old(cache.groups), old(cache.groupsPopulated), conf.evadeCache,
                               base.remote.groups, R.WeakGroupId);
        && cache.groups == o.state && cache.groupsPopulated == o.populated
        && base.requests == old(base.requests) + (if o.fetched then 1 else 0)
        && (r.Ok? <==> o.status.Ok?) && (r.Err? ==> r.error == o.status.error)
      ensures r.Ok? ==> Lists(r.value, order, cache.groups, C.LinkWeakGroup)
    {
      if !conf.evadeCache && cache.groupsPopulated {
        var out;
        out, order := LinkedValues(cache.groups, C.LinkWeakGroup);
        return Ok(out), order;
      }
      ghost var before := cache.groups;
      var fetched := base.FetchGroups();
      if fetched.Err? {
        return Err(fetched.error), [];
      }
      cache.FileGroups(fetched.value);
      assert ReadAll(before, old(cache.groupsPopulated), conf.evadeCache, fetched, R.WeakGroupId)
        == BulkOutcome(Ok(()), cache.groups, true, true);
      var out;
      out, order := LinkedValues(cache.groups, C.LinkWeakGroup);
      r := Ok(out);
    }

    // --- Single records, unauthenticated ---------------------------------------------

    method GetBuilding(key: Key, conf: RequestConfig) returns (r: Result<M.Building>)
      requires Valid()
      modifies cache`buildings, base`requests
      ensures Valid()
      ensures var o := ReadThrough(old(cache.buildings), key, conf.evadeCache, base.remote.building(key), R.BuildingId);
        && r == o.result.MapValue(C.LinkBuilding) && cache.buildings == o.state
        && base.requests == old(base.requests) + (if o.fetched then 1 else 0)
    {
      if !conf.evadeCache && key in cache.buildings {
        return Ok(C.LinkBuilding(cache.buildings[key]));
      }
      var fetched := base.FetchBuilding(key);
      if fetched.Err? {
        return Err(fetched.error);
      }
      var building := fetched.value;
      r := Ok(C.LinkBuilding(building));
      cache.buildings := cache.buildings[building.id := building];
    }

    method GetPlace(key: Key, conf: RequestConfig) returns (r: Result<M.Place>)
      requires Valid()
      modifies cache`places, base`requests
      ensures Valid()
      ensures var o := ReadThrough(old(cache.places), key, conf.evadeCache, base.remote.place(key), R.PlaceId);
        && r == o.result.MapValue(C.LinkPlace) && cache.places == o.state
        && base.requests == old(base.requests) + (if o.fetched then 1 else 0)
    {
      if !conf.evadeCache && key in cache.places {
        return Ok(C.LinkPlace(cache.places[key]));
      }
      var fetched := base.FetchPlace(key);
      if fetched.Err? {
        return Err(fetched.error);
      }
      var place := fetched.value;
      r := Ok(C.LinkPlace(place));
      cache.places := cache.places[place.id := place];
    }

    method GetDepartment(key: Key, conf: RequestConfig) returns (r: Result<M.Department>)
      requires Valid()
      modifies cache`departments, base`requests
      ensures Valid()
      ensures var o := ReadThrough(old(cache.departments), key, conf.evadeCache, base.remote.department(key), R.DepartmentId);
        && r == o.result.MapValue(C.LinkDepartment) && cache.departments == o.state
        && base.requests == old(base.requests) + (if o.fetched then 1 else 0)
    {
      if !conf.evadeCache && key in cache.departments {
        return Ok(C.LinkDepartment(cache.departments[key]));
      }
      var fetched := base.FetchDepartment(key);
      if fetched.Err? {
        return Err(fetched.error);
      }
      var department := fetched.value;
      r := Ok(C.LinkDepartment(department));
      cache.departments := cache.departments[department.id := department];
    }

    method GetCourse(key: Key, conf: RequestConfig) returns (r: Result<M.Course>)
      requires Valid()
      modifies cache`courses, base`requests
      ensures Valid()
      ensures var o := ReadThrough(old(cache.courses), key, conf.evadeCache, base.remote.course(key), R.CourseId);
        && r == o.result.MapValue(C.LinkCourse) && cache.courses == o.state
        && base.requests == old(base.requests) + (if o.fetched then 1 else 0)
    {
      if !conf.evadeCache && key in cache.courses {
        return Ok(C.LinkCourse(cache.courses[key]));
      }
      var fetched := base.FetchCourse(key);
      if fetched.Err? {
        return Err(fetched.error);
      }
      var course := fetched.value;
      r := Ok(C.LinkCourse(course));
      cache.courses := cache.courses[course.id := course];
    }

    method GetClass(key: Key, conf: RequestConfig) returns (r: Result<M.Class>)
      requires Valid()
      modifies cache`classes, base`requests
      ensures Valid()
      ensures var o := ReadThrough(old(cache.classes), key, conf.evadeCache, base.remote.klass(key), R.ClassId);
        && r == o.result.MapValue(C.LinkClass) && cache.classes == o.state
        && base.requests == old(base.requests) + (if o.fetched then 1 else 0)
    {
      if !conf.evadeCache && key in cache.classes {
        return Ok(C.LinkClass(cache.classes[key]));
      }
      var fetched := base.FetchClass(key);
      if fetched.Err? {
        return Err(fetched.error);
      }
      var klass := fetched.value;
      r := Ok(C.LinkClass(klass));
      cache.classes := cache.classes[klass.id := klass];
    }

    /** A group is fetched and linked in full every time; it is never cached. */
    method GetGroup(key: Key) returns (r: Result<M.Group>)
      modifies base`requests
      ensures r == base.remote.group(key).MapValue(C.LinkGroup)
      ensures base.requests == old(base.requests) + 1
    {
      var fetched := base.FetchGroup(key);
      if fetched.Err? {
        return Err(fetched.error);
      }
      r := Ok(C.LinkGroup(fetched.value));
    }

    // --- Single records, authenticated -----------------------------------------------

    /** A class instance read files the fetched instance's enrollments and shifts, but not
        the instance itself. */
    method GetClassInstance(key: Key, conf: RequestConfig) returns (r: Result<M.ClassInstance>)
      requires Valid()
      modifies cache`enrollments, cache`classShifts, authenticated`requests
      ensures Valid()
      ensures var o := ReadInstance(InstanceCache(old(cache.classInstances), old(cache.enrollments), old(cache.classShifts)),
                                    key, conf.evadeCache, Authorized(authenticated.credentials, authenticated.remote.classInstance, key));
        && r == o.result.MapValue(C.LinkClassInstance)
        && cache.enrollments == o.state.enrollments && cache.classShifts == o.state.shifts
        && authenticated.requests == old(authenticated.requests) + (if o.fetched then AuthCost(authenticated.credentials) else 0)
    {
      ghost var before := InstanceCache(cache.classInstances, cache.enrollments, cache.classShifts);
      if !conf.evadeCache && key in cache.classInstances {
        return Ok(C.LinkClassInstance(cache.classInstances[key]));
      }
      var fetched := authenticated.FetchClassInstance(key);
      ghost var o := ReadInstance(before, key, conf.evadeCache, fetched);
      if fetched.Err? {
        assert o == Outcome(fetched, before, true);
        return Err(fetched.error);
      }
      var instance := fetched.value;
      cache.FileInstanceParts(instance);
      r := Ok(C.LinkClassInstance(instance));
      assert o.state == InstanceCache(before.instances, cache.enrollments, cache.classShifts);
    }

    method GetStudent(key: Key, conf: RequestConfig) returns (r: Result<M.Student>)
      requires Valid()
      modifies cache`students, authenticated`requests
      ensures Valid()
      ensures var o := ReadThrough(old(cache.students), key, conf.evadeCache,
                                   Authorized(authenticated.credentials, authenticated.remote.student, key), R.StudentId);
        && r == o.result.MapValue(C.LinkStudent) && cache.students == o.state
        && authenticated.requests == old(authenticated.requests) + (if o.fetched then AuthCost(authenticated.credentials) else 0)
    {
      if !conf.evadeCache && key in cache.students {
        return Ok(C.LinkStudent(cache.students[key]));
      }
      var fetched := authenticated.FetchStudent(key);
      if fetched.Err? {
        return Err(fetched.error);
      }
      var student := fetched.value;
      r := Ok(C.LinkStudent(student));
      cache.students := cache.students[student.id := student];
    }

    method GetTeacher(key: Key, conf: RequestConfig) returns (r: Result<M.Teacher>)
      requires Valid()
      modifies cache`teachers, authenticated`requests
      ensures Valid()
      ensures var o := ReadThrough(old(cache.teachers), key, conf.evadeCache,
                                   Authorized(authenticated.credentials, authenticated.remote.teacher, key), R.TeacherId);
        && r == o.result.MapValue(C.LinkTeacher) && cache.teachers == o.state
        && authenticated.requests == old(authenticated.requests) + (if o.fetched then AuthCost(authenticated.credentials) else 0)
    {
      if !conf.evadeCache && key in cache.teachers {
        return Ok(C.LinkTeacher(cache.teachers[key]));
      }
      var fetched := authenticated.FetchTeacher(key);
      if fetched.Err? {
        return Err(fetched.error);
      }
      var teacher := fetched.value;
      r := Ok(C.LinkTeacher(teacher));
      cache.teachers := cache.teachers[teacher.id := teacher];
    }

    method GetEnrollment(key: Key, conf: RequestConfig) returns (r: Result<M.Enrollment>)
      requires Valid()
      modifies cache`enrollments, authenticated`requests
      ensures Valid()
      ensures var o := ReadThrough(old(cache.enrollments), key, conf.evadeCache,
                                   Authorized(authenticated.credentials, authenticated.remote.enrollment, key), R.EnrollmentId);
        && r == o.result.MapValue(C.LinkEnrollment) && cache.enrollments == o.state
        && authenticated.requests == old(authenticated.requests) + (if o.fetched then AuthCost(authenticated.credentials) else 0)
    {
      if !conf.evadeCache && key in cache.enrollments {
        return Ok(C.LinkEnrollment(cache.enrollments[key]));
      }
      var fetched := authenticated.FetchEnrollment(key);
      if fetched.Err? {
        return Err(fetched.error);
      }
      var enrollment := fetched.value;
      r := Ok(C.LinkEnrollment(enrollment));
      cache.enrollments := cache.enrollments[enrollment.id := enrollment];
    }

    method GetShift(key: Key, conf: RequestConfig) returns (r: Result<M.ClassShift>)
      requires Valid()
      modifies cache`classShifts, authenticated`requests
      ensures Valid()
      ensures var o := ReadThrough(old(cache.classShifts), key, conf.evadeCache,
                                   Authorized(authenticated.credentials, authenticated.remote.shift, key), R.ShiftId);
        && r == o.result.MapValue(C.LinkShift) && cache.classShifts == o.state
        && authenticated.requests == old(authenticated.requests) + (if o.fetched then AuthCost(authenticated.credentials) else 0)
    {
      if !conf.evadeCache && key in cache.classShifts {
        return Ok(C.LinkShift(cache.classShifts[key]));
      }
      var fetched := authenticated.FetchShift(key);
      if fetched.Err? {
        return Err(fetched.error);
      }
      var shift := fetched.value;
      r := Ok(C.LinkShift(shift));
      cache.classShifts := cache.classShifts[shift.id := shift];
    }

    // --- Pages -----------------------------------------------------------------------

    /** An empty page ends the chain: it is answered as `None`. Pages are never cached. */
    method GetEventsPage(key: PageKey, conf: RequestConfig) returns (r: Result<Option<M.EventsPage>>)
      modifies base`requests
      ensures base.requests == old(base.requests) + 1
      ensures var answer := base.remote.events(key);
        && (answer.Err? ==> r == Err(answer.error))
        && (answer.Ok? ==> r.Ok? && (r.value.None? <==> answer.value.results == []))
        && (answer.Ok? && r.value.Some? ==> r.value.value == C.LinkEventsPage(answer.value, key))
    {
      var fetched := base.FetchEvents(key);
      if fetched.Err? {
        return Err(fetched.error);
      }
      if fetched.value.results == [] {
        r := Ok(None);
      } else {
        r := Ok(Some(C.LinkEventsPage(fetched.value, key)));
      }
    }

    method GetEventsFrontPage(conf: RequestConfig) returns (r: Result<Option<M.EventsPage>>)
      modifies base`requests
      ensures base.requests == old(base.requests) + 1
      ensures var answer := base.remote.events(FRONT_PAGE);
        && (answer.Err? ==> r == Err(answer.error))
        && (answer.Ok? ==> r.Ok? && (r.value.None? <==> answer.value.results == []))
        && (answer.Ok? && r.value.Some? ==> r.value.value == C.LinkEventsPage(answer.value, FRONT_PAGE))
    {
      r := GetEventsPage(FRONT_PAGE, conf);
    }

    method GetNewsPage(key: PageKey, conf: RequestConfig) returns (r: Result<Option<M.NewsPage>>)
      modifies base`requests
      ensures base.requests == old(base.requests) + 1
      ensures var answer := base.remote.news(key);
        && (answer.Err? ==> r == Err(answer.error))
        && (answer.Ok? ==> r.Ok? && (r.value.None? <==> answer.value.results == []))
        && (answer.Ok? && r.value.Some? ==> r.value.value == C.LinkNewsPage(answer.value, key))
    {
      var fetched := base.FetchNews(key);
      if fetched.Err? {
        return Err(fetched.error);
      }
      if fetched.value.results == [] {
        r := Ok(None);
      } else {
        r := Ok(Some(C.LinkNewsPage(fetched.value, key)));
      }
    }

    method GetNewsFrontPage(conf: RequestConfig) returns (r: Result<Option<M.NewsPage>>)
      modifies base`requests
      ensures base.requests == old(base.requests) + 1
      ensures var answer := base.remote.news(FRONT_PAGE);
        && (answer.Err? ==> r == Err(answer.error))
        && (answer.Ok? ==> r.Ok? && (r.value.None? <==> answer.value.results == []))
        && (answer.Ok? && r.value.Some? ==> r.value.value == C.LinkNewsPage(answer.value, FRONT_PAGE))
    {
      r := GetNewsPage(FRONT_PAGE, conf);
    }

    // --- Resources and warm-up -------------------------------------------------------

    /** Downloads `UPSTREAM + url`, with the token when one is stored. */
    method LoadResource(url: string) returns (r: Result<seq<U8>>)
      modifies base`requests, authenticated`requests
      ensures authenticated.credentials.Some? ==>
        && r == authenticated.remote.bytes(authenticated.credentials, UPSTREAM + url)
        && authenticated.requests == old(authenticated.requests) + 1 && base.requests == old(base.requests)
      ensures authenticated.credentials.None? ==>
        && r == base.remote.bytes(None, UPSTREAM + url)
        && base.requests == old(base.requests) + 1 && authenticated.requests == old(authenticated.requests)
    {
      DownloadUrlOfRooted(url);
      if IsAuthenticated() {
        r := authenticated.FetchBytes(UPSTREAM + url);
      } else {
        r := base.FetchBytes(UPSTREAM + url);
      }
    }

    /** Every listing that warm-up reads is populated. */
    predicate Warm()
      reads cache
    {
      && cache.buildingsPopulated && cache.coursesPopulated && cache.classesPopulated
      && cache.departmentsPopulated && cache.placesPopulated && cache.groupsPopulated
    }

    /** One warm-up step: a cache-first listing of buildings, its records dropped. */
    method WarmBuildings() returns (r: Result<()>)
      requires Valid()
      modifies cache`buildings, cache`buildingsPopulated, base`requests
      ensures Valid()
      ensures r.Ok? ==> cache.buildingsPopulated
      ensures old(cache.buildingsPopulated) ==> r.Ok? && base.requests == old(base.requests)
    {
      ghost var order: seq<Key>;
      var listed;
      listed, order := GetBuildings(DEFAULT_CONFIG);
      r := if listed.Ok? then Ok(()) else Err(listed.error);
    }

    /** One warm-up step: a cache-first listing of courses, its records dropped. */
    method WarmCourses() returns (r: Result<()>)
      requires Valid()
      modifies cache`courses, cache`coursesPopulated, base`requests
      ensures Valid()
      ensures r.Ok? ==> cache.coursesPopulated
      ensures old(cache.coursesPopulated) ==> r.Ok? && base.requests == old(base.requests)
    {
      ghost var order: seq<Key>;
      var listed;
      listed, order := GetCourses(DEFAULT_CONFIG);
      r := if listed.Ok? then Ok(()) else Err(listed.error);
    }

    /** One warm-up step: a cache-first listing of classes, its records dropped. */
    method WarmClasses() returns (r: Result<()>)
      requires Valid()
      modifies cache`classes, cache`classesPopulated, base`requests
      ensures Valid()
      ensures r.Ok? ==> cache.classesPopulated
      ensures old(cache.classesPopulated) ==> r.Ok? && base.requests == old(base.requests)
    {
      ghost var order: seq<Key>;
      var listed;
      listed, order := GetClasses(DEFAULT_CONFIG);
      r := if listed.Ok? then Ok(()) else Err(listed.error);
    }

    /** One warm-up step: a cache-first listing of departments, its records dropped. */
    method WarmDepartments() returns (r: Result<()>)
      requires Valid()
      modifies cache`departments, cache`departmentsPopulated, base`requests
      ensures Valid()
      ensures r.Ok? ==> cache.departmentsPopulated
      ensures old(cache.departmentsPopulated) ==> r.Ok? && base.requests == old(base.requests)
    {
      ghost var order: seq<Key>;
      var listed;
      listed, order := GetDepartments(DEFAULT_CONFIG);
      r := if listed.Ok? then Ok(()) else Err(listed.error);
    }

    /** One warm-up step: a cache-first listing of places, its records dropped. */
    method WarmPlaces() returns (r: Result<()>)
      requires Valid()
      modifies cache`places, cache`placesPopulated, base`requests
      ensures Valid()
      ensures r.Ok? ==> cache.placesPopulated
      ensures old(cache.placesPopulated) ==> r.Ok? && base.requests == old(base.requests)
    {
      ghost var order: seq<Key>;
      var listed;
      listed, order := GetPlaces(DEFAULT_CONFIG);
      r := if listed.Ok? then Ok(()) else Err(listed.error);
    }

    /** One warm-up step: a cache-first listing of groups, its records dropped. */
    method WarmGroups() returns (r: Result<()>)
      requires Valid()
      modifies cache`groups, cache`groupsPopulated, base`requests
      ensures Valid()
      ensures r.Ok? ==> cache.groupsPopulated
      ensures old(cache.groupsPopulated) ==> r.Ok? && base.requests == old(base.requests)
    {
      ghost var order: seq<Key>;
      var listed;
      listed, order := GetGroups(DEFAULT_CONFIG);
      r := if listed.Ok? then Ok(()) else Err(listed.error);
    }

    /** The first half of warm-up: buildings, courses and classes, in that order. */
    method WarmTeaching() returns (r: Result<()>)
      requires Valid()
      modifies cache`buildings, cache`buildingsPopulated, cache`courses, cache`coursesPopulated, cache`classes, cache`classesPopulated, base`requests
      ensures Valid()
      ensures r.Ok? ==> cache.buildingsPopulated && cache.coursesPopulated && cache.classesPopulated
      ensures old(cache.buildingsPopulated && cache.coursesPopulated && cache.classesPopulated) ==> r.Ok? && base.requests == old(base.requests)
    {
      r := WarmBuildings();
      if r.Err? { return; }
      r := WarmCourses();
      if r.Err? { return; }
      r := WarmClasses();
      if r.Err? { return; }
    }

    /** The second half of warm-up: departments, places and groups, in that order. */
    method WarmCampus() returns (r: Result<()>)
      requires Valid()
      modifies cache`departments, cache`departmentsPopulated, cache`places, cache`placesPopulated, cache`groups, cache`groupsPopulated, base`requests
      ensures Valid()
      ensures r.Ok? ==> cache.departmentsPopulated && cache.placesPopulated && cache.groupsPopulated
      ensures old(cache.departmentsPopulated && cache.placesPopulated && cache.groupsPopulated) ==> r.Ok? && base.requests == old(base.requests)
    {
      r := WarmDepartments();
      if r.Err? { return; }
      r := WarmPlaces();
      if r.Err? { return; }
      r := WarmGroups();
      if r.Err? { return; }
    }

    /** Lists buildings, courses, classes, departments, places and groups in that order,
        stopping at the first error. */
    method Warmup() returns (r: Result<()>)
      requires Valid()
      modifies cache`buildings, cache`buildingsPopulated, cache`courses, cache`coursesPopulated
      modifies cache`classes, cache`classesPopulated, cache`departments, cache`departmentsPopulated
      modifies cache`places, cache`placesPopulated, cache`groups, cache`groupsPopulated, base`requests
      ensures Valid()
      ensures r.Ok? ==> Warm()
      ensures old(Warm()) ==> r.Ok? && base.requests == old(base.requests)
    {
      r := WarmTeaching();
      if r.Err? { return; }
      r := WarmCampus();
    }
  }
}
