/** Resolving a lazy reference (src/coersion.rs): each record kind resolves through its own
    facade getter with the default configuration, so resolution always reads the cache
    first. Page references resolve to an optional page, so following next-page references
    ends with `None` at the first empty page. */
module Coersion {
  import opened Keys
  import opened Errors
  import opened Refs
  import opened Endpoints
  import opened Cache
  import opened IronPlanet
  import R = RawModels
  import M = Models
  import C = Conversion

  method CoerceDepartment(ref: ObjRef<M.Department, Key>, client: Supernova) returns (r: Result<M.Department>)
    requires client.Valid()
    modifies client.cache`departments, client.base`requests
    ensures client.Valid()
    ensures var o := ReadStep(client.base.remote.department, R.DepartmentId)(old(client.cache.departments), ref.identifier);
      && r == o.result.MapValue(C.LinkDepartment) && client.cache.departments == o.state
      && client.base.requests == old(client.base.requests) + (if o.fetched then 1 else 0)
  {
    r := client.GetDepartment(ref.identifier, DEFAULT_CONFIG);
  }

  method CoerceBuilding(ref: ObjRef<M.Building, Key>, client: Supernova) returns (r: Result<M.Building>)
    requires client.Valid()
    modifies client.cache`buildings, client.base`requests
    ensures client.Valid()
    ensures var o := ReadStep(client.base.remote.building, R.BuildingId)(old(client.cache.buildings), ref.identifier);
      && r == o.result.MapValue(C.LinkBuilding) && client.cache.buildings == o.state
      && client.base.requests == old(client.base.requests) + (if o.fetched then 1 else 0)
  {
    r := client.GetBuilding(ref.identifier, DEFAULT_CONFIG);
  }

  method CoercePlace(ref: ObjRef<M.Place, Key>, client: Supernova) returns (r: Result<M.Place>)
    requires client.Valid()
    modifies client.cache`places, client.base`requests
    ensures client.Valid()
    ensures var o := ReadStep(client.base.remote.place, R.PlaceId)(old(client.cache.places), ref.identifier);
      && r == o.result.MapValue(C.LinkPlace) && client.cache.places == o.state
      && client.base.requests == old(client.base.requests) + (if o.fetched then 1 else 0)
  {
    r := client.GetPlace(ref.identifier, DEFAULT_CONFIG);
  }

  method CoerceCourse(ref: ObjRef<M.Course, Key>, client: Supernova) returns (r: Result<M.Course>)
    requires client.Valid()
    modifies client.cache`courses, client.base`requests
    ensures client.Valid()
    ensures var o := ReadStep(client.base.remote.course, R.CourseId)(old(client.cache.courses), ref.identifier);
      && r == o.result.MapValue(C.LinkCourse) && client.cache.courses == o.state
      && client.base.requests == old(client.base.requests) + (if o.fetched then 1 else 0)
  {
    r := client.GetCourse(ref.identifier, DEFAULT_CONFIG);
  }

  method CoerceClass(ref: ObjRef<M.Class, Key>, client: Supernova) returns (r: Result<M.Class>)
    requires client.Valid()
    modifies client.cache`classes, client.base`requests
    ensures client.Valid()
    ensures var o := ReadStep(client.base.remote.klass, R.ClassId)(old(client.cache.classes), ref.identifier);
      && r == o.result.MapValue(C.LinkClass) && client.cache.classes == o.state
      && client.base.requests == old(client.base.requests) + (if o.fetched then 1 else 0)
  {
    r := client.GetClass(ref.identifier, DEFAULT_CONFIG);
  }

  method CoerceClassInstance(ref: ObjRef<M.ClassInstance, Key>, client: Supernova) returns (r: Result<M.ClassInstance>)
    requires client.Valid()
    modifies client.cache`enrollments, client.cache`classShifts, client.authenticated`requests
    ensures client.Valid()
    ensures var o := InstanceStep(Answer(client.authenticated.credentials, client.authenticated.remote.classInstance))(
                       InstanceCache(old(client.cache.classInstances), old(client.cache.enrollments), old(client.cache.classShifts)),
                       ref.identifier);
      && r == o.result.MapValue(C.LinkClassInstance)
      && client.cache.enrollments == o.state.enrollments && client.cache.classShifts == o.state.shifts
      && client.authenticated.requests == old(client.authenticated.requests) + (if o.fetched then AuthCost(client.authenticated.credentials) else 0)
  {
    r := client.GetClassInstance(ref.identifier, DEFAULT_CONFIG);
  }

  method CoerceStudent(ref: ObjRef<M.Student, Key>, client: Supernova) returns (r: Result<M.Student>)
    requires client.Valid()
    modifies client.cache`students, client.authenticated`requests
    ensures client.Valid()
    ensures var o := ReadStep(Answer(client.authenticated.credentials, client.authenticated.remote.student), R.StudentId)(
                       old(client.cache.students), ref.identifier);
      && r == o.result.MapValue(C.LinkStudent) && client.cache.students == o.state
      && client.authenticated.requests == old(client.authenticated.requests) + (if o.fetched then AuthCost(client.authenticated.credentials) else 0)
  {
    r := client.GetStudent(ref.identifier, DEFAULT_CONFIG);
  }

  method CoerceTeacher(ref: ObjRef<M.Teacher, Key>, client: Supernova) returns (r: Result<M.Teacher>)
    requires client.Valid()
    modifies client.cache`teachers, client.authenticated`requests
    ensures client.Valid()
    ensures var o := ReadStep(Answer(client.authenticated.credentials, client.authenticated.remote.teacher), R.TeacherId)(
                       old(client.cache.teachers), ref.identifier);
      && r == o.result.MapValue(C.LinkTeacher) && client.cache.teachers == o.state
      && client.authenticated.requests == old(client.authenticated.requests) + (if o.fetched then AuthCost(client.authenticated.credentials) else 0)
  {
    r := client.GetTeacher(ref.identifier, DEFAULT_CONFIG);
  }

  method CoerceEnrollment(ref: ObjRef<M.Enrollment, Key>, client: Supernova) returns (r: Result<M.Enrollment>)
    requires client.Valid()
    modifies client.cache`enrollments, client.authenticated`requests
    ensures client.Valid()
    ensures var o := ReadStep(Answer(client.authenticated.credentials, client.authenticated.remote.enrollment), R.EnrollmentId)(
                       old(client.cache.enrollments), ref.identifier);
      && r == o.result.MapValue(C.LinkEnrollment) && client.cache.enrollments == o.state
      && client.authenticated.requests == old(client.authenticated.requests) + (if o.fetched then AuthCost(client.authenticated.credentials) else 0)
  {
    r := client.GetEnrollment(ref.identifier, DEFAULT_CONFIG);
  }

  method CoerceShift(ref: ObjRef<M.ClassShift, Key>, client: Supernova) returns (r: Result<M.ClassShift>)
    requires client.Valid()
    modifies client.cache`classShifts, client.authenticated`requests
    ensures client.Valid()
    ensures var o := ReadStep(Answer(client.authenticated.credentials, client.authenticated.remote.shift), R.ShiftId)(
                       old(client.cache.classShifts), ref.identifier);
      && r == o.result.MapValue(C.LinkShift) && client.cache.classShifts == o.state
      && client.authenticated.requests == old(client.authenticated.requests) + (if o.fetched then AuthCost(client.authenticated.credentials) else 0)
  {
    r := client.GetShift(ref.identifier, DEFAULT_CONFIG);
  }

  /** Resolving a next-page reference past the last page answers `None`, not an error. */
  method CoerceEventsPage(ref: ObjRef<Option<M.EventsPage>, PageKey>, client: Supernova) returns (r: Result<Option<M.EventsPage>>)
    modifies client.base`requests
    ensures client.base.requests == old(client.base.requests) + 1
    ensures var answer := client.base.remote.events(ref.identifier);
      && (answer.Err? ==> r == Err(answer.error))
      && (answer.Ok? ==> r.Ok? && (r.value.None? <==> answer.value.results == []))
      && (answer.Ok? && r.value.Some? ==> r.value.value == C.LinkEventsPage(answer.value, ref.identifier))
  {
    r := client.GetEventsPage(ref.identifier, DEFAULT_CONFIG);
  }

  method CoerceNewsPage(ref: ObjRef<Option<M.NewsPage>, PageKey>, client: Supernova) returns (r: Result<Option<M.NewsPage>>)
    modifies client.base`requests
    ensures client.base.requests == old(client.base.requests) + 1
    ensures var answer := client.base.remote.news(ref.identifier);
      && (answer.Err? ==> r == Err(answer.error))
      && (answer.Ok? ==> r.Ok? && (r.value.None? <==> answer.value.results == []))
      && (answer.Ok? && r.value.Some? ==> r.value.value == C.LinkNewsPage(answer.value, ref.identifier))
  {
    r := client.GetNewsPage(ref.identifier, DEFAULT_CONFIG);
  }
}
