/** The older synchronous facade (src/network/client.rs). It keeps the same cache, but has
    no bypass option: every read consults the cache first. It also differs from the
    asynchronous facade in what a class instance read files: the instance itself, and none
    of the records nested in it. Its authenticated reads unwrap the stored token, so a
    cache miss without a token is a precondition violation rather than an error. */
module LegacyClient {
  import opened Keys
  import opened Errors
  import opened Endpoints
  import opened Cache
  import R = RawModels
  import M = Models
  import C = Conversion
  import IP = IronPlanet

  class NetworkClient {
    const remote: Remote
    var credentials: Option<R.AuthToken>
    ghost var requests: nat
    const cache: ClientCache

    predicate Valid()
      reads cache
    {
      cache.Valid()
    }

    /** `NetworkClient::default()`: nothing cached and no token. */
    constructor (remote: Remote)
      ensures Valid() && cache.Empty()
      ensures this.remote == remote && credentials.None? && requests == 0
      ensures fresh(cache)
    {
      this.remote := remote;
      credentials := None;
      requests := 0;
      cache := new ClientCache();
    }

    /** `NetworkClientAuthenticated::set_token`: the stored token is replaced. */
    method SetToken(token: R.AuthToken)
      modifies this`credentials
      ensures credentials == Some(token)
    {
      credentials := Some(token);
    }

    /** Logs in and stores the token only after a successful login. */
    method Login(creds: R.BasicAuthCredentials) returns (r: Result<R.AuthToken>)
      modifies this`credentials, this`requests
      ensures requests == old(requests) + 1
      ensures var answer := remote.login(creds);
        && (answer.Ok? ==> r == Ok(answer.value.token) && credentials == Some(answer.value.token))
        && (answer.Err? ==> r == Err(answer.error) && credentials == old(credentials))
    {
      requests := requests + 1;
      var token := remote.login(creds);
      if token.Err? {
        return Err(token.error);
      }
      SetToken(token.value.token);
      r := Ok(token.value.token);
    }

    // --- Listings --------------------------------------------------------------------

    /** `fetch_departments`: a populated map is listed without a fetch; a fetch error leaves the
        cache as it was; a fetched listing is filed as a whole and the map is listed. */
    method FetchDepartments() returns (r: Result<seq<M.Department>>, ghost order: seq<Key>)
      requires Valid()
      modifies cache`departments, cache`departmentsPopulated, this`requests
      ensures Valid()
      ensures var o := ReadAll(old(cache.departments), old(cache.departmentsPopulated), false, remote.departments, R.DepartmentId);
        && cache.departments == o.state && cache.departmentsPopulated == o.populated
        && requests == old(requests) + (if o.fetched then 1 else 0)
        && (r.Ok? <==> o.status.Ok?) && (r.Err? ==> r.error == o.status.error)
      ensures r.Ok? ==> Lists(r.value, order, cache.departments, C.LinkDepartment)
    {
      if cache.departmentsPopulated {
        var out;
        out, order := LinkedValues(cache.departments, C.LinkDepartment);
        return Ok(out), order;
      }
      ghost var before := cache.departments;
      requests := requests + 1;
      var fetched := remote.departments;
      if fetched.Err? {
        return Err(fetched.error), [];
      }
      cache.FileDepartments(fetched.value);
      assert ReadAll(before, old(cache.departmentsPopulated), false, fetched, R.DepartmentId)
        == BulkOutcome(Ok(()), cache.departments, true, true);
      var out;
      out, order := LinkedValues(cache.departments, C.LinkDepartment);
      r := Ok(out);
    }

    /** `fetch_buildings`: a populated map is listed without a fetch; a fetch error leaves the
        cache as it was; a fetched listing is filed as a whole and the map is listed. */
    method FetchBuildings() returns (r: Result<seq<M.Building>>, ghost order: seq<Key>)
      requires Valid()
      modifies cache`buildings, cache`buildingsPopulated, this`requests
      ensures Valid()
      ensures var o := ReadAll(old(cache.buildings), old(cache.buildingsPopulated), false, remote.buildings, R.BuildingId);
        && cache.buildings == o.state && cache.buildingsPopulated == o.populated
        && requests == old(requests) + (if o.fetched then 1 else 0)
        && (r.Ok? <==> o.status.Ok?) && (r.Err? ==> r.error == o.status.error)
      ensures r.Ok? ==> Lists(r.value, order, cache.buildings, C.LinkBuilding)
    {
      if cache.buildingsPopulated {
        var out;
        out, order := LinkedValues(cache.buildings, C.LinkBuilding);
        return Ok(out), order;
      }
      ghost var before := cache.buildings;
      requests := requests + 1;
      var fetched := remote.buildings;
      if fetched.Err? {
        return Err(fetched.error), [];
      }
      cache.FileBuildings(fetched.value);
      assert ReadAll(before, old(cache.buildingsPopulated), false, fetched, R.BuildingId)
        == BulkOutcome(Ok(()), cache.buildings, true, true);
      var out;
      out, order := LinkedValues(cache.buildings, C.LinkBuilding);
      r := Ok(out);
    }

    /** `fetch_places`: a populated map is listed without a fetch; a fetch error leaves the
        cache as it was; a fetched listing is filed as a whole and the map is listed. */
    method FetchPlaces() returns (r: Result<seq<M.Place>>, ghost order: seq<Key>)
      requires Valid()
      modifies cache`places, cache`placesPopulated, this`requests
      ensures Valid()
      ensures var o := ReadAll(old(cache.places), old(cache.placesPopulated), false, remote.places, R.PlaceId);
        && cache.places == o.state && cache.placesPopulated == o.populated
        && requests == old(requests) + (if o.fetched then 1 else 0)
        && (r.Ok? <==> o.status.Ok?) && (r.Err? ==> r.error == o.status.error)
      ensures r.Ok? ==> Lists(r.value, order, cache.places, C.LinkPlace)
    {
      if cache.placesPopulated {
        var out;
        out, order := LinkedValues(cache.places, C.LinkPlace);
        return Ok(out), order;
      }
      ghost var before := cache.places;
      requests := requests + 1;
      var fetched := remote.places;
      if fetched.Err? {
        return Err(fetched.error), [];
      }
      cache.FilePlaces(fetched.value);
      assert ReadAll(before, old(cache.placesPopulated), false, fetched, R.PlaceId)
        == BulkOutcome(Ok(()), cache.places, true, true);
      var out;
      out, order := LinkedValues(cache.places, C.LinkPlace);
      r := Ok(out);
    }

    /** `fetch_classes`: a populated map is listed without a fetch; a fetch error leaves the
        cache as it was; a fetched listing is filed as a whole and the map is listed. */
    method FetchClasses() returns (r: Result<seq<M.Class>>, ghost order: seq<Key>)
      requires Valid()
      modifies cache`classes, cache`classesPopulated, this`requests
      ensures Valid()
      ensures var o := ReadAll(old(cache.classes), old(cache.classesPopulated), false, remote.classes, R.ClassId);
        && cache.classes == o.state && cache.classesPopulated == o.populated
        && requests == old(requests) + (if o.fetched then 1 else 0)
        && (r.Ok? <==> o.status.Ok?) && (r.Err? ==> r.error == o.status.error)
      ensures r.Ok? ==> Lists(r.value, order, cache.classes, C.LinkClass)
    {
      if cache.classesPopulated {
        var out;
        out, order := LinkedValues(cache.classes, C.LinkClass);
        return Ok(out), order;
      }
      ghost var before := cache.classes;
      requests := requests + 1;
      var fetched := remote.classes;
      if fetched.Err? {
        return Err(fetched.error), [];
      }
      cache.FileClasses(fetched.value);
      assert ReadAll(before, old(cache.classesPopulated), false, fetched, R.ClassId)
        == BulkOutcome(Ok(()), cache.classes, true, true);
      var out;
      out, order := LinkedValues(cache.classes, C.LinkClass);
      r := Ok(out);
    }

    /** `fetch_courses`: a populated map is listed without a fetch; a fetch error leaves the
        cache as it was; a fetched listing is filed as a whole and the map is listed. */
    method FetchCourses() returns (r: Result<seq<M.Course>>, ghost order: seq<Key>)
      requires Valid()
      modifies cache`courses, cache`coursesPopulated, this`requests
      ensures Valid()
      ensures var o := ReadAll(old(cache.courses), old(cache.coursesPopulated), false, remote.courses, R.CourseId);
        && cache.courses == o.state && cache.coursesPopulated == o.populated
        && requests == old(requests) + (if o.fetched then 1 else 0)
        && (r.Ok? <==> o.status.Ok?) && (r.Err? ==> r.error == o.status.error)
      ensures r.Ok? ==> Lists(r.value, order, cache.courses, C.LinkCourse)
    {
      if cache.coursesPopulated {
        var out;
        out, order := LinkedValues(cache.courses, C.LinkCourse);
        return Ok(out), order;
      }
      ghost var before := cache.courses;
      requests := requests + 1;
      var fetched := remote.courses;
      if fetched.Err? {
        return Err(fetched.error), [];
      }
      cache.FileCourses(fetched.value);
      assert ReadAll(before, old(cache.coursesPopulated), false, fetched, R.CourseId)
        == BulkOutcome(Ok(()), cache.courses, true, true);
      var out;
      out, order := LinkedValues(cache.courses, C.LinkCourse);
      r := Ok(out);
    }

    // --- Single records --------------------------------------------------------------

    /** `fetch_building`: a cached record is linked without a fetch; on a miss the fetched record
        is filed under its own id. */
    method FetchBuilding(key: Key) returns (r: Result<M.Building>)
      requires Valid()
      modifies cache`buildings, this`requests
      ensures Valid()
      ensures var o := ReadThrough(old(cache.buildings), key, false, remote.building(key), R.BuildingId);
        && r == o.result.MapValue(C.LinkBuilding) && cache.buildings == o.state
        && requests == old(requests) + (if o.fetched then 1 else 0)
    {
      if key in cache.buildings {
        return Ok(C.LinkBuilding(cache.buildings[key]));
      }
      requests := requests + 1;
      var fetched := remote.building(key);
      if fetched.Err? {
        return Err(fetched.error);
      }
      var building := fetched.value;
      r := Ok(C.LinkBuilding(building));
      cache.buildings := cache.buildings[building.id := building];
    }

    /** `fetch_place`: a cached record is linked without a fetch; on a miss the fetched record
        is filed under its own id. */
    method FetchPlace(key: Key) returns (r: Result<M.Place>)
      requires Valid()
      modifies cache`places, this`requests
      ensures Valid()
      ensures var o := ReadThrough(old(cache.places), key, false, remote.place(key), R.PlaceId);
        && r == o.result.MapValue(C.LinkPlace) && cache.places == o.state
        && requests == old(requests) + (if o.fetched then 1 else 0)
    {
      if key in cache.places {
        return Ok(C.LinkPlace(cache.places[key]));
      }
      requests := requests + 1;
      var fetched := remote.place(key);
      if fetched.Err? {
        return Err(fetched.error);
      }
      var place := fetched.value;
      r := Ok(C.LinkPlace(place));
      cache.places := cache.places[place.id := place];
    }

    /** `fetch_department`: a cached record is linked without a fetch; on a miss the fetched record
        is filed under its own id. */
    method FetchDepartment(key: Key) returns (r: Result<M.Department>)
      requires Valid()
      modifies cache`departments, this`requests
      ensures Valid()
      ensures var o := ReadThrough(old(cache.departments), key, false, remote.department(key), R.DepartmentId);
        && r == o.result.MapValue(C.LinkDepartment) && cache.departments == o.state
        && requests == old(requests) + (if o.fetched then 1 else 0)
    {
      if key in cache.departments {
        return Ok(C.LinkDepartment(cache.departments[key]));
      }
      requests := requests + 1;
      var fetched := remote.department(key);
      if fetched.Err? {
        return Err(fetched.error);
      }
      var department := fetched.value;
      r := Ok(C.LinkDepartment(department));
      cache.departments := cache.departments[department.id := department];
    }

    /** `fetch_course`: a cached record is linked without a fetch; on a miss the fetched record
        is filed under its own id. */
    method FetchCourse(key: Key) returns (r: Result<M.Course>)
      requires Valid()
      modifies cache`courses, this`requests
      ensures Valid()
      ensures var o := ReadThrough(old(cache.courses), key, false, remote.course(key), R.CourseId);
        && r == o.result.MapValue(C.LinkCourse) && cache.courses == o.state
        && requests == old(requests) + (if o.fetched then 1 else 0)
    {
      if key in cache.courses {
        return Ok(C.LinkCourse(cache.courses[key]));
      }
      requests := requests + 1;
      var fetched := remote.course(key);
      if fetched.Err? {
        return Err(fetched.error);
      }
      var course := fetched.value;
      r := Ok(C.LinkCourse(course));
      cache.courses := cache.courses[course.id := course];
    }

    /** `fetch_class`: a cached record is linked without a fetch; on a miss the fetched record
        is filed under its own id. */
    method FetchClass(key: Key) returns (r: Result<M.Class>)
      requires Valid()
      modifies cache`classes, this`requests
      ensures Valid()
      ensures var o := ReadThrough(old(cache.classes), key, false, remote.klass(key), R.ClassId);
        && r == o.result.MapValue(C.LinkClass) && cache.classes == o.state
        && requests == old(requests) + (if o.fetched then 1 else 0)
    {
      if key in cache.classes {
        return Ok(C.LinkClass(cache.classes[key]));
      }
      requests := requests + 1;
      var fetched := remote.klass(key);
      if fetched.Err? {
        return Err(fetched.error);
      }
      var klass := fetched.value;
      r := Ok(C.LinkClass(klass));
      cache.classes := cache.classes[klass.id := klass];
    }

    /** `fetch_class_instance`: unlike the asynchronous facade, files the fetched instance itself and
        none of the enrollments or shifts nested in it. A miss needs a stored token. */
    method FetchClassInstance(key: Key) returns (r: Result<M.ClassInstance>)
      requires Valid()
      requires key !in cache.classInstances ==> credentials.Some?
      modifies cache`classInstances, this`requests
      ensures Valid()
      ensures var o := ReadThrough(old(cache.classInstances), key, false, Authorized(credentials, remote.classInstance, key), R.ClassInstanceId);
        && r == o.result.MapValue(C.LinkClassInstance) && cache.classInstances == o.state
        && requests == old(requests) + (if o.fetched then 1 else 0)
    {
      if key in cache.classInstances {
        return Ok(C.LinkClassInstance(cache.classInstances[key]));
      }
      requests := requests + 1;
      var fetched := remote.classInstance(credentials.value, key);
      if fetched.Err? {
        return Err(fetched.error);
      }
      var classInstance := fetched.value;
      r := Ok(C.LinkClassInstance(classInstance));
      cache.classInstances := cache.classInstances[classInstance.id := classInstance];
    }

    /** `fetch_student`: a cached record is linked without a fetch; a miss needs a stored token. */
    method FetchStudent(key: Key) returns (r: Result<M.Student>)
      requires Valid()
      requires key !in cache.students ==> credentials.Some?
      modifies cache`students, this`requests
      ensures Valid()
      ensures var o := ReadThrough(old(cache.students), key, false, Authorized(credentials, remote.student, key), R.StudentId);
        && r == o.result.MapValue(C.LinkStudent) && cache.students == o.state
        && requests == old(requests) + (if o.fetched then 1 else 0)
    {
      if key in cache.students {
        return Ok(C.LinkStudent(cache.students[key]));
      }
      requests := requests + 1;
      var fetched := remote.student(credentials.value, key);
      if fetched.Err? {
        return Err(fetched.error);
      }
      var student := fetched.value;
      r := Ok(C.LinkStudent(student));
      cache.students := cache.students[student.id := student];
    }

    /** `fetch_teacher`: a cached record is linked without a fetch; a miss needs a stored token. */
    method FetchTeacher(key: Key) returns (r: Result<M.Teacher>)
      requires Valid()
      requires key !in cache.teachers ==> credentials.Some?
      modifies cache`teachers, this`requests
      ensures Valid()
      ensures var o := ReadThrough(old(cache.teachers), key, false, Authorized(credentials, remote.teacher, key), R.TeacherId);
        && r == o.result.MapValue(C.LinkTeacher) && cache.teachers == o.state
        && requests == old(requests) + (if o.fetched then 1 else 0)
    {
      if key in cache.teachers {
        return Ok(C.LinkTeacher(cache.teachers[key]));
      }
      requests := requests + 1;
      var fetched := remote.teacher(credentials.value, key);
      if fetched.Err? {
        return Err(fetched.error);
      }
      var teacher := fetched.value;
      r := Ok(C.LinkTeacher(teacher));
      cache.teachers := cache.teachers[teacher.id := teacher];
    }

    /** `fetch_enrollment`: a cached record is linked without a fetch; a miss needs a stored token. */
    method FetchEnrollment(key: Key) returns (r: Result<M.Enrollment>)
      requires Valid()
      requires key !in cache.enrollments ==> credentials.Some?
      modifies cache`enrollments, this`requests
      ensures Valid()
      ensures var o := ReadThrough(old(cache.enrollments), key, false, Authorized(credentials, remote.enrollment, key), R.EnrollmentId);
        && r == o.result.MapValue(C.LinkEnrollment) && cache.enrollments == o.state
        && requests == old(requests) + (if o.fetched then 1 else 0)
    {
      if key in cache.enrollments {
        return Ok(C.LinkEnrollment(cache.enrollments[key]));
      }
      requests := requests + 1;
      var fetched := remote.enrollment(credentials.value, key);
      if fetched.Err? {
        return Err(fetched.error);
      }
      var enrollment := fetched.value;
      r := Ok(C.LinkEnrollment(enrollment));
      cache.enrollments := cache.enrollments[enrollment.id := enrollment];
    }

    /** `fetch_shift`: a cached record is linked without a fetch; a miss needs a stored token. */
    method FetchShift(key: Key) returns (r: Result<M.ClassShift>)
      requires Valid()
      requires key !in cache.classShifts ==> credentials.Some?
      modifies cache`classShifts, this`requests
      ensures Valid()
      ensures var o := ReadThrough(old(cache.classShifts), key, false, Authorized(credentials, remote.shift, key), R.ShiftId);
        && r == o.result.MapValue(C.LinkShift) && cache.classShifts == o.state
        && requests == old(requests) + (if o.fetched then 1 else 0)
    {
      if key in cache.classShifts {
        return Ok(C.LinkShift(cache.classShifts[key]));
      }
      requests := requests + 1;
      var fetched := remote.shift(credentials.value, key);
      if fetched.Err? {
        return Err(fetched.error);
      }
      var shift := fetched.value;
      r := Ok(C.LinkShift(shift));
      cache.classShifts := cache.classShifts[shift.id := shift];
    }
  }

  /** What the two facades leave behind after a class instance miss that fetched `ci`: the
      older one has filed the instance, so a second read of it is a hit, and nothing else;
      the asynchronous one has filed its enrollments and shifts, and not the instance. */
  lemma InstanceFilingDiffers(instances: map<Key, R.ClassInstance>, enrollments: map<Key, R.Enrollment>,
                              shifts: map<Key, R.ClassShift>, key: Key, ci: R.ClassInstance, later: Result<R.ClassInstance>)
    requires key !in instances && ci.id == key
    ensures var legacy := ReadThrough(instances, key, false, Ok(ci), R.ClassInstanceId);
      ReadThrough(legacy.state, key, false, later, R.ClassInstanceId) == Outcome(Ok(ci), legacy.state, false)
    ensures var current := IP.ReadInstance(IP.InstanceCache(instances, enrollments, shifts), key, false, Ok(ci));
      && current.state.instances == instances
      && current.state.enrollments == InsertAll(enrollments, ci.enrollments, R.EnrollmentId)
      && current.state.shifts == InsertAll(shifts, ci.shifts, R.ShiftId)
      && IP.ReadInstance(current.state, key, false, later).fetched
  {
  }
}
