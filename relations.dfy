/** The relation getters of the domain records (src/models.rs). A list getter resolves its
    references one after another, in order, and gives up at the first error; an optional
    getter resolves its reference when there is one. Each getter is specified by the pure
    resolution of its keys, `ResolveAll` or `ResolveOpt`, over the cache map it reads. */
module Relations {
  import opened Keys
  import opened Errors
  import opened Refs
  import opened Endpoints
  import opened Cache
  import opened IronPlanet
  import opened Coersion
  import R = RawModels
  import M = Models
  import C = Conversion

  /** One step of a list getter: resolving reference `i` after a successful prefix either
      ends the whole resolution with that reference's error, or extends the linked results
      by its record; the state and fetch count are those the step leaves. */
  lemma ResolveAdvance<S, T, U>(s: S, keys: seq<Key>, i: nat, step: (S, Key) -> Outcome<S, T>,
                                link: T -> U, out: seq<U>, x: Result<U>)
    requires i < |keys|
    requires ResolveAll(s, keys[..i], step).result.Ok?
    requires out == C.MapAll(link, ResolveAll(s, keys[..i], step).result.value)
    requires x == step(ResolveAll(s, keys[..i], step).state, keys[i]).result.MapValue(link)
    ensures var done := ResolveAll(s, keys[..i], step);
      var last := step(done.state, keys[i]);
      var next := ResolveAll(s, keys[..i + 1], step);
      && next.state == last.state
      && next.fetches == done.fetches + (if last.fetched then 1 else 0)
      && (x.Err? ==> ResolveAll(s, keys, step) == next && next.result == Err(x.error))
      && (x.Ok? ==> next.result.Ok? && out + [x.value] == C.MapAll(link, next.result.value))
  {
    var done := ResolveAll(s, keys[..i], step);
    var last := step(done.state, keys[i]);
    ResolveAllNext(s, keys, i, step);
    if x.Err? {
      ResolveAllStops(s, keys, i + 1, step);
    } else {
      C.MapAllSnoc(link, done.result.value, last.result.value);
    }
  }


  // ----------------------------------------------------------------------------------
  // One reference of a list
  // ----------------------------------------------------------------------------------

  /** One reference of a list of Course references: resolves reference `i` after the
      first `i` have resolved. */
  method NextCourse(refs: seq<ObjRef<M.Course, Key>>, i: nat, client: Supernova, ghost start: map<Key, R.Course>,
              ghost step: (map<Key, R.Course>, Key) -> Outcome<map<Key, R.Course>, R.Course>, ghost out: seq<M.Course>)
    returns (x: Result<M.Course>)
    requires client.Valid() && i < |refs|
    requires step == ReadStep(client.base.remote.course, R.CourseId)
    requires ResolveAll(start, KeysOf(refs)[..i], step).result.Ok?
    requires client.cache.courses == ResolveAll(start, KeysOf(refs)[..i], step).state
    requires out == C.MapAll(C.LinkCourse, ResolveAll(start, KeysOf(refs)[..i], step).result.value)
    modifies client.cache`courses, client.base`requests
    ensures client.Valid()
    ensures var done := ResolveAll(start, KeysOf(refs)[..i], step);
      var next := ResolveAll(start, KeysOf(refs)[..i + 1], step);
      && client.cache.courses == next.state
      && client.base.requests == old(client.base.requests) + next.fetches - done.fetches
      && (x.Err? ==> ResolveAll(start, KeysOf(refs), step) == next && next.result == Err(x.error))
      && (x.Ok? ==> next.result.Ok? && out + [x.value] == C.MapAll(C.LinkCourse, next.result.value))
  {
    x := CoerceCourse(refs[i], client);
    ResolveAdvance(start, KeysOf(refs), i, step, C.LinkCourse, out, x);
  }

  /** One reference of a list of Place references: resolves reference `i` after the
      first `i` have resolved. */
  method NextPlace(refs: seq<ObjRef<M.Place, Key>>, i: nat, client: Supernova, ghost start: map<Key, R.Place>,
             ghost step: (map<Key, R.Place>, Key) -> Outcome<map<Key, R.Place>, R.Place>, ghost out: seq<M.Place>)
    returns (x: Result<M.Place>)
    requires client.Valid() && i < |refs|
    requires step == ReadStep(client.base.remote.place, R.PlaceId)
    requires ResolveAll(start, KeysOf(refs)[..i], step).result.Ok?
    requires client.cache.places == ResolveAll(start, KeysOf(refs)[..i], step).state
    requires out == C.MapAll(C.LinkPlace, ResolveAll(start, KeysOf(refs)[..i], step).result.value)
    modifies client.cache`places, client.base`requests
    ensures client.Valid()
    ensures var done := ResolveAll(start, KeysOf(refs)[..i], step);
      var next := ResolveAll(start, KeysOf(refs)[..i + 1], step);
      && client.cache.places == next.state
      && client.base.requests == old(client.base.requests) + next.fetches - done.fetches
      && (x.Err? ==> ResolveAll(start, KeysOf(refs), step) == next && next.result == Err(x.error))
      && (x.Ok? ==> next.result.Ok? && out + [x.value] == C.MapAll(C.LinkPlace, next.result.value))
  {
    x := CoercePlace(refs[i], client);
    ResolveAdvance(start, KeysOf(refs), i, step, C.LinkPlace, out, x);
  }

  /** One reference of a list of Department references: resolves reference `i` after the
      first `i` have resolved. */
  method NextDepartment(refs: seq<ObjRef<M.Department, Key>>, i: nat, client: Supernova, ghost start: map<Key, R.Department>,
                  ghost step: (map<Key, R.Department>, Key) -> Outcome<map<Key, R.Department>, R.Department>, ghost out: seq<M.Department>)
    returns (x: Result<M.Department>)
    requires client.Valid() && i < |refs|
    requires step == ReadStep(client.base.remote.department, R.DepartmentId)
    requires ResolveAll(start, KeysOf(refs)[..i], step).result.Ok?
    requires client.cache.departments == ResolveAll(start, KeysOf(refs)[..i], step).state
    requires out == C.MapAll(C.LinkDepartment, ResolveAll(start, KeysOf(refs)[..i], step).result.value)
    modifies client.cache`departments, client.base`requests
    ensures client.Valid()
    ensures var done := ResolveAll(start, KeysOf(refs)[..i], step);
      var next := ResolveAll(start, KeysOf(refs)[..i + 1], step);
      && client.cache.departments == next.state
      && client.base.requests == old(client.base.requests) + next.fetches - done.fetches
      && (x.Err? ==> ResolveAll(start, KeysOf(refs), step) == next && next.result == Err(x.error))
      && (x.Ok? ==> next.result.Ok? && out + [x.value] == C.MapAll(C.LinkDepartment, next.result.value))
  {
    x := CoerceDepartment(refs[i], client);
    ResolveAdvance(start, KeysOf(refs), i, step, C.LinkDepartment, out, x);
  }

  /** One reference of a list of ClassShift references: resolves reference `i` after the
      first `i` have resolved. */
  method NextShift(refs: seq<ObjRef<M.ClassShift, Key>>, i: nat, client: Supernova, ghost start: map<Key, R.ClassShift>,
             ghost step: (map<Key, R.ClassShift>, Key) -> Outcome<map<Key, R.ClassShift>, R.ClassShift>, ghost out: seq<M.ClassShift>)
    returns (x: Result<M.ClassShift>)
    requires client.Valid() && i < |refs|
    requires step == ReadStep(Answer(client.authenticated.credentials, client.authenticated.remote.shift), R.ShiftId)
    requires ResolveAll(start, KeysOf(refs)[..i], step).result.Ok?
    requires client.cache.classShifts == ResolveAll(start, KeysOf(refs)[..i], step).state
    requires out == C.MapAll(C.LinkShift, ResolveAll(start, KeysOf(refs)[..i], step).result.value)
    modifies client.cache`classShifts, client.authenticated`requests
    ensures client.Valid()
    ensures var done := ResolveAll(start, KeysOf(refs)[..i], step);
      var next := ResolveAll(start, KeysOf(refs)[..i + 1], step);
      && client.cache.classShifts == next.state
      && client.authenticated.requests == old(client.authenticated.requests) + (if client.authenticated.credentials.Some? then next.fetches - done.fetches else 0)
      && (x.Err? ==> ResolveAll(start, KeysOf(refs), step) == next && next.result == Err(x.error))
      && (x.Ok? ==> next.result.Ok? && out + [x.value] == C.MapAll(C.LinkShift, next.result.value))
  {
    x := CoerceShift(refs[i], client);
    ResolveAdvance(start, KeysOf(refs), i, step, C.LinkShift, out, x);
  }

  /** One reference of a list of Teacher references: resolves reference `i` after the
      first `i` have resolved. */
  method NextTeacher(refs: seq<ObjRef<M.Teacher, Key>>, i: nat, client: Supernova, ghost start: map<Key, R.Teacher>,
               ghost step: (map<Key, R.Teacher>, Key) -> Outcome<map<Key, R.Teacher>, R.Teacher>, ghost out: seq<M.Teacher>)
    returns (x: Result<M.Teacher>)
    requires client.Valid() && i < |refs|
    requires step == ReadStep(Answer(client.authenticated.credentials, client.authenticated.remote.teacher), R.TeacherId)
    requires ResolveAll(start, KeysOf(refs)[..i], step).result.Ok?
    requires client.cache.teachers == ResolveAll(start, KeysOf(refs)[..i], step).state
    requires out == C.MapAll(C.LinkTeacher, ResolveAll(start, KeysOf(refs)[..i], step).result.value)
    modifies client.cache`teachers, client.authenticated`requests
    ensures client.Valid()
    ensures var done := ResolveAll(start, KeysOf(refs)[..i], step);
      var next := ResolveAll(start, KeysOf(refs)[..i + 1], step);
      && client.cache.teachers == next.state
      && client.authenticated.requests == old(client.authenticated.requests) + (if client.authenticated.credentials.Some? then next.fetches - done.fetches else 0)
      && (x.Err? ==> ResolveAll(start, KeysOf(refs), step) == next && next.result == Err(x.error))
      && (x.Ok? ==> next.result.Ok? && out + [x.value] == C.MapAll(C.LinkTeacher, next.result.value))
  {
    x := CoerceTeacher(refs[i], client);
    ResolveAdvance(start, KeysOf(refs), i, step, C.LinkTeacher, out, x);
  }

  /** One reference of a list of Enrollment references: resolves reference `i` after the
      first `i` have resolved. */
  method NextEnrollment(refs: seq<ObjRef<M.Enrollment, Key>>, i: nat, client: Supernova, ghost start: map<Key, R.Enrollment>,
                  ghost step: (map<Key, R.Enrollment>, Key) -> Outcome<map<Key, R.Enrollment>, R.Enrollment>, ghost out: seq<M.Enrollment>)
    returns (x: Result<M.Enrollment>)
    requires client.Valid() && i < |refs|
    requires step == ReadStep(Answer(client.authenticated.credentials, client.authenticated.remote.enrollment), R.EnrollmentId)
    requires ResolveAll(start, KeysOf(refs)[..i], step).result.Ok?
    requires client.cache.enrollments == ResolveAll(start, KeysOf(refs)[..i], step).state
    requires out == C.MapAll(C.LinkEnrollment, ResolveAll(start, KeysOf(refs)[..i], step).result.value)
    modifies client.cache`enrollments, client.authenticated`requests
    ensures client.Valid()
    ensures var done := ResolveAll(start, KeysOf(refs)[..i], step);
      var next := ResolveAll(start, KeysOf(refs)[..i + 1], step);
      && client.cache.enrollments == next.state
      && client.authenticated.requests == old(client.authenticated.requests) + (if client.authenticated.credentials.Some? then next.fetches - done.fetches else 0)
      && (x.Err? ==> ResolveAll(start, KeysOf(refs), step) == next && next.result == Err(x.error))
      && (x.Ok? ==> next.result.Ok? && out + [x.value] == C.MapAll(C.LinkEnrollment, next.result.value))
  {
    x := CoerceEnrollment(refs[i], client);
    ResolveAdvance(start, KeysOf(refs), i, step, C.LinkEnrollment, out, x);
  }

  /** One reference of a list of ClassInstance references: resolves reference `i` after the
      first `i` have resolved. */
  method NextInstance(refs: seq<ObjRef<M.ClassInstance, Key>>, i: nat, client: Supernova, ghost start: InstanceCache,
                ghost step: (InstanceCache, Key) -> Outcome<InstanceCache, R.ClassInstance>, ghost out: seq<M.ClassInstance>)
    returns (x: Result<M.ClassInstance>)
    requires client.Valid() && i < |refs|
    requires step == InstanceStep(Answer(client.authenticated.credentials, client.authenticated.remote.classInstance))
    requires ResolveAll(start, KeysOf(refs)[..i], step).result.Ok?
    requires InstanceCache(client.cache.classInstances, client.cache.enrollments, client.cache.classShifts) == ResolveAll(start, KeysOf(refs)[..i], step).state
    requires out == C.MapAll(C.LinkClassInstance, ResolveAll(start, KeysOf(refs)[..i], step).result.value)
    modifies client.cache`enrollments, client.cache`classShifts, client.authenticated`requests
    ensures client.Valid()
    ensures var done := ResolveAll(start, KeysOf(refs)[..i], step);
      var next := ResolveAll(start, KeysOf(refs)[..i + 1], step);
      && InstanceCache(client.cache.classInstances, client.cache.enrollments, client.cache.classShifts) == next.state
      && client.authenticated.requests == old(client.authenticated.requests) + (if client.authenticated.credentials.Some? then next.fetches - done.fetches else 0)
      && (x.Err? ==> ResolveAll(start, KeysOf(refs), step) == next && next.result == Err(x.error))
      && (x.Ok? ==> next.result.Ok? && out + [x.value] == C.MapAll(C.LinkClassInstance, next.result.value))
  {
    x := CoerceClassInstance(refs[i], client);
    ResolveAdvance(start, KeysOf(refs), i, step, C.LinkClassInstance, out, x);
  }

  // ----------------------------------------------------------------------------------
  // Shared resolutions
  // ----------------------------------------------------------------------------------

  /** Resolves a list of shift references, in order, stopping at the first error. */
  method ResolveShifts(refs: seq<ObjRef<M.ClassShift, Key>>, client: Supernova) returns (r: Result<seq<M.ClassShift>>)
    requires client.Valid()
    modifies client.cache`classShifts, client.authenticated`requests
    ensures client.Valid()
    ensures var o := ResolveAll(old(client.cache.classShifts), KeysOf(refs), ReadStep(Answer(client.authenticated.credentials, client.authenticated.remote.shift), R.ShiftId));
      && r == C.LinkAll(o.result, C.LinkShift) && client.cache.classShifts == o.state
      && client.authenticated.requests == old(client.authenticated.requests) + (if client.authenticated.credentials.Some? then o.fetches else 0)
  {
    ghost var keys := KeysOf(refs);
    ghost var step := ReadStep(Answer(client.authenticated.credentials, client.authenticated.remote.shift), R.ShiftId);
    ghost var start := client.cache.classShifts;
    ghost var done := ResolveAll(start, [], step);
    var out := [];
    var i := 0;
    while i < |refs|
      invariant 0 <= i <= |refs|
      invariant client.Valid()
      invariant done == ResolveAll(start, keys[..i], step) && done.result.Ok?
      invariant out == C.MapAll(C.LinkShift, done.result.value)
      invariant client.cache.classShifts == done.state
      invariant client.authenticated.requests == old(client.authenticated.requests) + (if client.authenticated.credentials.Some? then done.fetches else 0)
    {
      var x := NextShift(refs, i, client, start, step, out);
      if x.Err? {
        return Err(x.error);
      }
      done := ResolveAll(start, keys[..i + 1], step);
      out := out + [x.value];
      i := i + 1;
    }
    assert keys[..i] == keys;
    r := Ok(out);
  }

  /** Resolves an optional building reference. */
  method ResolveBuilding(ref: Option<ObjRef<M.Building, Key>>, client: Supernova) returns (r: Result<Option<M.Building>>)
    requires client.Valid()
    modifies client.cache`buildings, client.base`requests
    ensures client.Valid()
    ensures var o := ResolveOpt(old(client.cache.buildings), OptKey(ref), ReadStep(client.base.remote.building, R.BuildingId));
      && r == C.LinkOpt(o.result, C.LinkBuilding) && client.cache.buildings == o.state
      && client.base.requests == old(client.base.requests) + (if o.fetched then 1 else 0)
  {
    if ref.None? {
      return Ok(None);
    }
    var x := CoerceBuilding(ref.value, client);
    if x.Err? {
      return Err(x.error);
    }
    r := Ok(Some(x.value));
  }

  /** Resolves an optional department reference. */
  method ResolveDepartment(ref: Option<ObjRef<M.Department, Key>>, client: Supernova) returns (r: Result<Option<M.Department>>)
    requires client.Valid()
    modifies client.cache`departments, client.base`requests
    ensures client.Valid()
    ensures var o := ResolveOpt(old(client.cache.departments), OptKey(ref), ReadStep(client.base.remote.department, R.DepartmentId));
      && r == C.LinkOpt(o.result, C.LinkDepartment) && client.cache.departments == o.state
      && client.base.requests == old(client.base.requests) + (if o.fetched then 1 else 0)
  {
    if ref.None? {
      return Ok(None);
    }
    var x := CoerceDepartment(ref.value, client);
    if x.Err? {
      return Err(x.error);
    }
    r := Ok(Some(x.value));
  }

  // ----------------------------------------------------------------------------------
  // The getters of each record
  // ----------------------------------------------------------------------------------

  /** `Department::get_building`. */
  method DepartmentBuilding(d: M.Department, client: Supernova) returns (r: Result<Option<M.Building>>)
    requires client.Valid()
    modifies client.cache`buildings, client.base`requests
    ensures client.Valid()
    ensures var o := ResolveOpt(old(client.cache.buildings), OptKey(d.building), ReadStep(client.base.remote.building, R.BuildingId));
      && r == C.LinkOpt(o.result, C.LinkBuilding) && client.cache.buildings == o.state
      && client.base.requests == old(client.base.requests) + (if o.fetched then 1 else 0)
  {
    r := ResolveBuilding(d.building, client);
  }

  /** `Department::get_courses`: the courses of a department, in order. */
  method DepartmentCourses(d: M.Department, client: Supernova) returns (r: Result<seq<M.Course>>)
    requires client.Valid()
    modifies client.cache`courses, client.base`requests
    ensures client.Valid()
    ensures var o := ResolveAll(old(client.cache.courses), KeysOf(d.courses), ReadStep(client.base.remote.course, R.CourseId));
      && r == C.LinkAll(o.result, C.LinkCourse) && client.cache.courses == o.state
      && client.base.requests == old(client.base.requests) + o.fetches
  {
    ghost var keys := KeysOf(d.courses);
    ghost var step := ReadStep(client.base.remote.course, R.CourseId);
    ghost var start := client.cache.courses;
    ghost var done := ResolveAll(start, [], step);
    var out := [];
    var i := 0;
    while i < |d.courses|
      invariant 0 <= i <= |d.courses|
      invariant client.Valid()
      invariant done == ResolveAll(start, keys[..i], step) && done.result.Ok?
      invariant out == C.MapAll(C.LinkCourse, done.result.value)
      invariant client.cache.courses == done.state
      invariant client.base.requests == old(client.base.requests) + done.fetches
    {
      var x := NextCourse(d.courses, i, client, start, step, out);
      if x.Err? {
        return Err(x.error);
      }
      done := ResolveAll(start, keys[..i + 1], step);
      out := out + [x.value];
      i := i + 1;
    }
    assert keys[..i] == keys;
    r := Ok(out);
  }

  /** `Building::get_rooms`: the places of a building, in order. */
  method BuildingRooms(b: M.Building, client: Supernova) returns (r: Result<seq<M.Place>>)
    requires client.Valid()
    modifies client.cache`places, client.base`requests
    ensures client.Valid()
    ensures var o := ResolveAll(old(client.cache.places), KeysOf(b.places), ReadStep(client.base.remote.place, R.PlaceId));
      && r == C.LinkAll(o.result, C.LinkPlace) && client.cache.places == o.state
      && client.base.requests == old(client.base.requests) + o.fetches
  {
    ghost var keys := KeysOf(b.places);
    ghost var step := ReadStep(client.base.remote.place, R.PlaceId);
    ghost var start := client.cache.places;
    ghost var done := ResolveAll(start, [], step);
    var out := [];
    var i := 0;
    while i < |b.places|
      invariant 0 <= i <= |b.places|
      invariant client.Valid()
      invariant done == ResolveAll(start, keys[..i], step) && done.result.Ok?
      invariant out == C.MapAll(C.LinkPlace, done.result.value)
      invariant client.cache.places == done.state
      invariant client.base.requests == old(client.base.requests) + done.fetches
    {
      var x := NextPlace(b.places, i, client, start, step, out);
      if x.Err? {
        return Err(x.error);
      }
      done := ResolveAll(start, keys[..i + 1], step);
      out := out + [x.value];
      i := i + 1;
    }
    assert keys[..i] == keys;
    r := Ok(out);
  }

  /** `Place::get_building`. */
  method PlaceBuilding(p: M.Place, client: Supernova) returns (r: Result<Option<M.Building>>)
    requires client.Valid()
    modifies client.cache`buildings, client.base`requests
    ensures client.Valid()
    ensures var o := ResolveOpt(old(client.cache.buildings), OptKey(p.building), ReadStep(client.base.remote.building, R.BuildingId));
      && r == C.LinkOpt(o.result, C.LinkBuilding) && client.cache.buildings == o.state
      && client.base.requests == old(client.base.requests) + (if o.fetched then 1 else 0)
  {
    r := ResolveBuilding(p.building, client);
  }

  /** `Room::get_department`. */
  method RoomDepartment(room: M.Room, client: Supernova) returns (r: Result<Option<M.Department>>)
    requires client.Valid()
    modifies client.cache`departments, client.base`requests
    ensures client.Valid()
    ensures var o := ResolveOpt(old(client.cache.departments), OptKey(room.department), ReadStep(client.base.remote.department, R.DepartmentId));
      && r == C.LinkOpt(o.result, C.LinkDepartment) && client.cache.departments == o.state
      && client.base.requests == old(client.base.requests) + (if o.fetched then 1 else 0)
  {
    r := ResolveDepartment(room.department, client);
  }

  /** `Course::get_department`. */
  method CourseDepartment(c: M.Course, client: Supernova) returns (r: Result<Option<M.Department>>)
    requires client.Valid()
    modifies client.cache`departments, client.base`requests
    ensures client.Valid()
    ensures var o := ResolveOpt(old(client.cache.departments), OptKey(c.department), ReadStep(client.base.remote.department, R.DepartmentId));
      && r == C.LinkOpt(o.result, C.LinkDepartment) && client.cache.departments == o.state
      && client.base.requests == old(client.base.requests) + (if o.fetched then 1 else 0)
  {
    r := ResolveDepartment(c.department, client);
  }

  /** `Class::get_department`. */
  method ClassDepartment(c: M.Class, client: Supernova) returns (r: Result<Option<M.Department>>)
    requires client.Valid()
    modifies client.cache`departments, client.base`requests
    ensures client.Valid()
    ensures var o := ResolveOpt(old(client.cache.departments), OptKey(c.department), ReadStep(client.base.remote.department, R.DepartmentId));
      && r == C.LinkOpt(o.result, C.LinkDepartment) && client.cache.departments == o.state
      && client.base.requests == old(client.base.requests) + (if o.fetched then 1 else 0)
  {
    r := ResolveDepartment(c.department, client);
  }

  /** `Class::get_instances`: the instances of a class, in order. Resolving an instance
      never files the instance itself, only the enrollments and shifts it carries. */
  method ClassInstances(c: M.Class, client: Supernova) returns (r: Result<seq<M.ClassInstance>>)
    requires client.Valid()
    modifies client.cache`enrollments, client.cache`classShifts, client.authenticated`requests
    ensures client.Valid()
    ensures var o := ResolveAll(InstanceCache(old(client.cache.classInstances), old(client.cache.enrollments), old(client.cache.classShifts)), KeysOf(c.instances), InstanceStep(Answer(client.authenticated.credentials, client.authenticated.remote.classInstance)));
      && r == C.LinkAll(o.result, C.LinkClassInstance) && client.cache.enrollments == o.state.enrollments && client.cache.classShifts == o.state.shifts
      && client.authenticated.requests == old(client.authenticated.requests) + (if client.authenticated.credentials.Some? then o.fetches else 0)
  {
    ghost var keys := KeysOf(c.instances);
    ghost var step := InstanceStep(Answer(client.authenticated.credentials, client.authenticated.remote.classInstance));
    ghost var start := InstanceCache(client.cache.classInstances, client.cache.enrollments, client.cache.classShifts);
    ghost var done := ResolveAll(start, [], step);
    var out := [];
    var i := 0;
    while i < |c.instances|
      invariant 0 <= i <= |c.instances|
      invariant client.Valid()
      invariant done == ResolveAll(start, keys[..i], step) && done.result.Ok?
      invariant out == C.MapAll(C.LinkClassInstance, done.result.value)
      invariant InstanceCache(client.cache.classInstances, client.cache.enrollments, client.cache.classShifts) == done.state
      invariant client.authenticated.requests == old(client.authenticated.requests) + (if client.authenticated.credentials.Some? then done.fetches else 0)
    {
      var x := NextInstance(c.instances, i, client, start, step, out);
      if x.Err? {
        return Err(x.error);
      }
      done := ResolveAll(start, keys[..i + 1], step);
      out := out + [x.value];
      i := i + 1;
    }
    assert keys[..i] == keys;
    r := Ok(out);
  }

  /** `ClassInstance::get_department`. */
  method InstanceDepartment(ci: M.ClassInstance, client: Supernova) returns (r: Result<Option<M.Department>>)
    requires client.Valid()
    modifies client.cache`departments, client.base`requests
    ensures client.Valid()
    ensures var o := ResolveOpt(old(client.cache.departments), OptKey(ci.department), ReadStep(client.base.remote.department, R.DepartmentId));
      && r == C.LinkOpt(o.result, C.LinkDepartment) && client.cache.departments == o.state
      && client.base.requests == old(client.base.requests) + (if o.fetched then 1 else 0)
  {
    r := ResolveDepartment(ci.department, client);
  }

  /** `ClassInstance::get_shifts`. */
  method InstanceShifts(ci: M.ClassInstance, client: Supernova) returns (r: Result<seq<M.ClassShift>>)
    requires client.Valid()
    modifies client.cache`classShifts, client.authenticated`requests
    ensures client.Valid()
    ensures var o := ResolveAll(old(client.cache.classShifts), KeysOf(ci.shifts), ReadStep(Answer(client.authenticated.credentials, client.authenticated.remote.shift), R.ShiftId));
      && r == C.LinkAll(o.result, C.LinkShift) && client.cache.classShifts == o.state
      && client.authenticated.requests == old(client.authenticated.requests) + (if client.authenticated.credentials.Some? then o.fetches else 0)
  {
    r := ResolveShifts(ci.shifts, client);
  }

  /** `Student::get_course`. */
  method StudentCourse(s: M.Student, client: Supernova) returns (r: Result<Option<M.Course>>)
    requires client.Valid()
    modifies client.cache`courses, client.base`requests
    ensures client.Valid()
    ensures var o := ResolveOpt(old(client.cache.courses), OptKey(s.course), ReadStep(client.base.remote.course, R.CourseId));
      && r == C.LinkOpt(o.result, C.LinkCourse) && client.cache.courses == o.state
      && client.base.requests == old(client.base.requests) + (if o.fetched then 1 else 0)
  {
    if s.course.None? {
      return Ok(None);
    }
    var x := CoerceCourse(s.course.value, client);
    if x.Err? {
      return Err(x.error);
    }
    r := Ok(Some(x.value));
  }

  /** `Student::get_enrollments`: the enrollments of a student, in order. */
  method StudentEnrollments(s: M.Student, client: Supernova) returns (r: Result<seq<M.Enrollment>>)
    requires client.Valid()
    modifies client.cache`enrollments, client.authenticated`requests
    ensures client.Valid()
    ensures var o := ResolveAll(old(client.cache.enrollments), KeysOf(s.enrollments), ReadStep(Answer(client.authenticated.credentials, client.authenticated.remote.enrollment), R.EnrollmentId));
      && r == C.LinkAll(o.result, C.LinkEnrollment) && client.cache.enrollments == o.state
      && client.authenticated.requests == old(client.authenticated.requests) + (if client.authenticated.credentials.Some? then o.fetches else 0)
  {
    ghost var keys := KeysOf(s.enrollments);
    ghost var step := ReadStep(Answer(client.authenticated.credentials, client.authenticated.remote.enrollment), R.EnrollmentId);
    ghost var start := client.cache.enrollments;
    ghost var done := ResolveAll(start, [], step);
    var out := [];
    var i := 0;
    while i < |s.enrollments|
      invariant 0 <= i <= |s.enrollments|
      invariant client.Valid()
      invariant done == ResolveAll(start, keys[..i], step) && done.result.Ok?
      invariant out == C.MapAll(C.LinkEnrollment, done.result.value)
      invariant client.cache.enrollments == done.state
      invariant client.authenticated.requests == old(client.authenticated.requests) + (if client.authenticated.credentials.Some? then done.fetches else 0)
    {
      var x := NextEnrollment(s.enrollments, i, client, start, step, out);
      if x.Err? {
        return Err(x.error);
      }
      done := ResolveAll(start, keys[..i + 1], step);
      out := out + [x.value];
      i := i + 1;
    }
    assert keys[..i] == keys;
    r := Ok(out);
  }

  /** `Student::get_shifts`. */
  method StudentShifts(s: M.Student, client: Supernova) returns (r: Result<seq<M.ClassShift>>)
    requires client.Valid()
    modifies client.cache`classShifts, client.authenticated`requests
    ensures client.Valid()
    ensures var o := ResolveAll(old(client.cache.classShifts), KeysOf(s.shifts), ReadStep(Answer(client.authenticated.credentials, client.authenticated.remote.shift), R.ShiftId));
      && r == C.LinkAll(o.result, C.LinkShift) && client.cache.classShifts == o.state
      && client.authenticated.requests == old(client.authenticated.requests) + (if client.authenticated.credentials.Some? then o.fetches else 0)
  {
    r := ResolveShifts(s.shifts, client);
  }

  /** `Teacher::get_departments`: the departments of a teacher, in order. */
  method TeacherDepartments(t: M.Teacher, client: Supernova) returns (r: Result<seq<M.Department>>)
    requires client.Valid()
    modifies client.cache`departments, client.base`requests
    ensures client.Valid()
    ensures var o := ResolveAll(old(client.cache.departments), KeysOf(t.departments), ReadStep(client.base.remote.department, R.DepartmentId));
      && r == C.LinkAll(o.result, C.LinkDepartment) && client.cache.departments == o.state
      && client.base.requests == old(client.base.requests) + o.fetches
  {
    ghost var keys := KeysOf(t.departments);
    ghost var step := ReadStep(client.base.remote.department, R.DepartmentId);
    ghost var start := client.cache.departments;
    ghost var done := ResolveAll(start, [], step);
    var out := [];
    var i := 0;
    while i < |t.departments|
      invariant 0 <= i <= |t.departments|
      invariant client.Valid()
      invariant done == ResolveAll(start, keys[..i], step) && done.result.Ok?
      invariant out == C.MapAll(C.LinkDepartment, done.result.value)
      invariant client.cache.departments == done.state
      invariant client.base.requests == old(client.base.requests) + done.fetches
    {
      var x := NextDepartment(t.departments, i, client, start, step, out);
      if x.Err? {
        return Err(x.error);
      }
      done := ResolveAll(start, keys[..i + 1], step);
      out := out + [x.value];
      i := i + 1;
    }
    assert keys[..i] == keys;
    r := Ok(out);
  }

  /** `Teacher::get_shifts`. */
  method TeacherShifts(t: M.Teacher, client: Supernova) returns (r: Result<seq<M.ClassShift>>)
    requires client.Valid()
    modifies client.cache`classShifts, client.authenticated`requests
    ensures client.Valid()
    ensures var o := ResolveAll(old(client.cache.classShifts), KeysOf(t.shifts), ReadStep(Answer(client.authenticated.credentials, client.authenticated.remote.shift), R.ShiftId));
      && r == C.LinkAll(o.result, C.LinkShift) && client.cache.classShifts == o.state
      && client.authenticated.requests == old(client.authenticated.requests) + (if client.authenticated.credentials.Some? then o.fetches else 0)
  {
    r := ResolveShifts(t.shifts, client);
  }

  /** `Enrollment::get_student`: an enrollment always names its student. */
  method EnrollmentStudent(e: M.Enrollment, client: Supernova) returns (r: Result<M.Student>)
    requires client.Valid()
    modifies client.cache`students, client.authenticated`requests
    ensures client.Valid()
    ensures var o := ReadStep(Answer(client.authenticated.credentials, client.authenticated.remote.student), R.StudentId)(
                       old(client.cache.students), e.student.identifier);
      && r == o.result.MapValue(C.LinkStudent) && client.cache.students == o.state
      && client.authenticated.requests == old(client.authenticated.requests) + (if o.fetched then AuthCost(client.authenticated.credentials) else 0)
  {
    r := CoerceStudent(e.student, client);
  }

  /** `Enrollment::get_class_instance`: an enrollment always names its class instance. */
  method EnrollmentClassInstance(e: M.Enrollment, client: Supernova) returns (r: Result<M.ClassInstance>)
    requires client.Valid()
    modifies client.cache`enrollments, client.cache`classShifts, client.authenticated`requests
    ensures client.Valid()
    ensures var o := InstanceStep(Answer(client.authenticated.credentials, client.authenticated.remote.classInstance))(
                       InstanceCache(old(client.cache.classInstances), old(client.cache.enrollments), old(client.cache.classShifts)),
                       e.classInstance.identifier);
      && r == o.result.MapValue(C.LinkClassInstance) && client.cache.enrollments == o.state.enrollments && client.cache.classShifts == o.state.shifts
      && client.authenticated.requests == old(client.authenticated.requests) + (if o.fetched then AuthCost(client.authenticated.credentials) else 0)
  {
    r := CoerceClassInstance(e.classInstance, client);
  }

  /** `ClassShift::get_teachers`: the teachers of a shift, in order. */
  method ShiftTeachers(s: M.ClassShift, client: Supernova) returns (r: Result<seq<M.Teacher>>)
    requires client.Valid()
    modifies client.cache`teachers, client.authenticated`requests
    ensures client.Valid()
    ensures var o := ResolveAll(old(client.cache.teachers), KeysOf(s.teachers), ReadStep(Answer(client.authenticated.credentials, client.authenticated.remote.teacher), R.TeacherId));
      && r == C.LinkAll(o.result, C.LinkTeacher) && client.cache.teachers == o.state
      && client.authenticated.requests == old(client.authenticated.requests) + (if client.authenticated.credentials.Some? then o.fetches else 0)
  {
    ghost var keys := KeysOf(s.teachers);
    ghost var step := ReadStep(Answer(client.authenticated.credentials, client.authenticated.remote.teacher), R.TeacherId);
    ghost var start := client.cache.teachers;
    ghost var done := ResolveAll(start, [], step);
    var out := [];
    var i := 0;
    while i < |s.teachers|
      invariant 0 <= i <= |s.teachers|
      invariant client.Valid()
      invariant done == ResolveAll(start, keys[..i], step) && done.result.Ok?
      invariant out == C.MapAll(C.LinkTeacher, done.result.value)
      invariant client.cache.teachers == done.state
      invariant client.authenticated.requests == old(client.authenticated.requests) + (if client.authenticated.credentials.Some? then done.fetches else 0)
    {
      var x := NextTeacher(s.teachers, i, client, start, step, out);
      if x.Err? {
        return Err(x.error);
      }
      done := ResolveAll(start, keys[..i + 1], step);
      out := out + [x.value];
      i := i + 1;
    }
    assert keys[..i] == keys;
    r := Ok(out);
  }

  /** `ClassShiftInstance::get_place`: the room a shift slot takes place in. */
  method ShiftInstancePlace(si: M.ClassShiftInstance, client: Supernova) returns (r: Result<Option<M.Place>>)
    requires client.Valid()
    modifies client.cache`places, client.base`requests
    ensures client.Valid()
    ensures var o := ResolveOpt(old(client.cache.places), OptKey(si.room), ReadStep(client.base.remote.place, R.PlaceId));
      && r == C.LinkOpt(o.result, C.LinkPlace) && client.cache.places == o.state
      && client.base.requests == old(client.base.requests) + (if o.fetched then 1 else 0)
  {
    if si.room.None? {
      return Ok(None);
    }
    var x := CoercePlace(si.room.value, client);
    if x.Err? {
      return Err(x.error);
    }
    r := Ok(Some(x.value));
  }
}
