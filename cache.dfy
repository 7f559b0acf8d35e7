/** The client cache (src/network/cache.rs) and the read-through rules the facades follow
    around it (src/lib.rs, src/network/client.rs).

    A cache map holds raw records by key. The facades only ever file a record under its own
    id, so every map is `Keyed`. The functions below say what one read does to one map:
    `ReadThrough` for a single key, `ReadAll` for a listing with a populated flag, and
    `ResolveAll` for a list of references resolved one after another. */
module Cache {
  import opened Keys
  import opened Errors
  import R = RawModels

  /** Every record is filed under its own id. */
  predicate Keyed<T(==)>(m: map<Key, T>, id: T -> Key)
  {
    forall k :: k in m ==> id(m[k]) == k
  }

  function Ids<T(==)>(rs: seq<T>, id: T -> Key): set<Key>
  {
    set x | x in rs :: id(x)
  }

  // ----------------------------------------------------------------------------------
  // Inserting a fetched listing
  // ----------------------------------------------------------------------------------

  /** The map after inserting `rs` one after another, each under its own id. */
  function InsertAll<T(==)>(m: map<Key, T>, rs: seq<T>, id: T -> Key): (r: map<Key, T>)
    ensures r.Keys == m.Keys + Ids(rs, id)
    ensures forall k :: k in m && k !in Ids(rs, id) ==> r[k] == m[k]
    ensures Keyed(m, id) ==> Keyed(r, id)
  {
    if rs == [] then m
    else
      var last := rs[|rs| - 1];
      assert Ids(rs, id) == Ids(rs[..|rs| - 1], id) + {id(last)} by {
        assert rs == rs[..|rs| - 1] + [last];
      }
      InsertAll(m, rs[..|rs| - 1], id)[id(last) := last]
  }

  /** On a key the listing holds, the record left behind is the listing's last one with that
      key, whatever the map held before. */
  lemma {:induction false} InsertAllLastWins<T>(m1: map<Key, T>, m2: map<Key, T>, rs: seq<T>, id: T -> Key, k: Key)
    requires k in Ids(rs, id)
    ensures InsertAll(m1, rs, id)[k] == InsertAll(m2, rs, id)[k]
    ensures exists x :: x in rs && id(x) == k && InsertAll(m1, rs, id)[k] == x
  {
    var last := rs[|rs| - 1];
    if id(last) != k {
      assert rs == rs[..|rs| - 1] + [last];
      assert k in Ids(rs[..|rs| - 1], id);
      InsertAllLastWins(m1, m2, rs[..|rs| - 1], id, k);
    }
  }

  /** Inserting the same listing twice leaves the map as inserting it once. */
  lemma InsertAllIdempotent<T>(m: map<Key, T>, rs: seq<T>, id: T -> Key)
    ensures InsertAll(InsertAll(m, rs, id), rs, id) == InsertAll(m, rs, id)
  {
    var once := InsertAll(m, rs, id);
    var twice := InsertAll(once, rs, id);
    forall k | k in twice
      ensures twice[k] == once[k]
    {
      if k in Ids(rs, id) {
        InsertAllLastWins(once, m, rs, id, k);
      }
    }
  }

  /** The loop of a bulk read: inserts the fetched records one after another. */
  method InsertRecords<T(==)>(m: map<Key, T>, rs: seq<T>, id: T -> Key) returns (r: map<Key, T>)
    ensures r == InsertAll(m, rs, id)
  {
    r := m;
    for i := 0 to |rs|
      invariant r == InsertAll(m, rs[..i], id)
    {
      assert rs[..i + 1][..i] == rs[..i];
      r := r[id(rs[i]) := rs[i]];
    }
    assert rs[..|rs|] == rs;
  }

  // ----------------------------------------------------------------------------------
  // Listing the cached values
  // ----------------------------------------------------------------------------------

  /** `out` links every record of `m` exactly once, in the order of `order`. The order of a
      hash map is not specified, so no particular order is promised. */
  predicate Lists<T, U(==)>(out: seq<U>, order: seq<Key>, m: map<Key, T>, link: T -> U)
  {
    && |out| == |order|
    && (forall i :: 0 <= i < |order| ==> order[i] in m && out[i] == link(m[order[i]]))
    && (forall i, j :: 0 <= i < j < |order| ==> order[i] != order[j])
    && (forall k :: k in m ==> k in order)
  }

  /** `values().map(link).collect()`. */
  method LinkedValues<T, U(==)>(m: map<Key, T>, link: T -> U) returns (out: seq<U>, ghost order: seq<Key>)
    ensures Lists(out, order, m, link)
  {
    var rest := m.Keys;
    out, order := [], [];
    while rest != {}
      invariant rest <= m.Keys
      invariant |out| == |order|
      invariant forall i :: 0 <= i < |order| ==> order[i] in m && order[i] !in rest && out[i] == link(m[order[i]])
      invariant forall i, j :: 0 <= i < j < |order| ==> order[i] != order[j]
      invariant forall k :: k in m ==> k in rest || k in order
      decreases rest
    {
      var k :| k in rest;
      out, order := out + [link(m[k])], order + [k];
      rest := rest - {k};
    }
  }

  // ----------------------------------------------------------------------------------
  // Reading one key
  // ----------------------------------------------------------------------------------

  /** The result of one read, the state left behind and whether the fetch was invoked. */
  datatype Outcome<S, T> = Outcome(result: Result<T>, state: S, fetched: bool)

  /** A single-key read: unless bypassed, a cached record is answered without a fetch;
      otherwise the fetch answer is returned as is and, when it is a record, filed under its
      own id. */
  function ReadThrough<T(==)>(m: map<Key, T>, key: Key, evadeCache: bool, answer: Result<T>, id: T -> Key): (o: Outcome<map<Key, T>, T>)
    ensures o.fetched <==> evadeCache || key !in m
    ensures !o.fetched ==> o.result == Ok(m[key]) && o.state == m
    ensures o.fetched ==> o.result == answer
    ensures o.result.Err? ==> o.state == m
    ensures o.fetched && answer.Ok? ==> o.state == m[id(answer.value) := answer.value]
  {
    if !evadeCache && key in m then Outcome(Ok(m[key]), m, false)
    else match answer
      case Err(e) => Outcome(Err(e), m, true)
      case Ok(x) => Outcome(Ok(x), m[id(x) := x], true)
  }

  /** A read keeps every record filed under its own id, and the record it answers is then
      cached under that record's id. */
  lemma ReadThroughFiles<T>(m: map<Key, T>, key: Key, evadeCache: bool, answer: Result<T>, id: T -> Key)
    requires Keyed(m, id)
    ensures var o := ReadThrough(m, key, evadeCache, answer, id);
      && Keyed(o.state, id)
      && (o.result.Ok? ==> id(o.result.value) in o.state && o.state[id(o.result.value)] == o.result.value)
  {
  }

  /** Read your write: once a read has fetched the record with the asked key, a second
      cache-first read of that key is answered from the cache, whatever the service would now
      say. */
  lemma ReadYourWrite<T>(m: map<Key, T>, key: Key, evadeCache: bool, answer: Result<T>, later: Result<T>, id: T -> Key)
    requires ReadThrough(m, key, evadeCache, answer, id).result.Ok?
    requires id(ReadThrough(m, key, evadeCache, answer, id).result.value) == key
    ensures var o := ReadThrough(m, key, evadeCache, answer, id);
      ReadThrough(o.state, key, false, later, id) == Outcome(o.result, o.state, false)
  {
  }

  /** A bypassing read still writes through: the fetched record replaces any cached one. */
  lemma BypassWritesThrough<T>(m: map<Key, T>, key: Key, answer: Result<T>, id: T -> Key)
    requires answer.Ok? && id(answer.value) == key
    ensures ReadThrough(m, key, true, answer, id).state[key] == answer.value
    ensures ReadThrough(m, key, true, answer, id).fetched
  {
  }

  /** The step that resolving one reference takes: a cache-first read. */
  function ReadStep<T(==,!new)>(answer: Key -> Result<T>, id: T -> Key): (step: (map<Key, T>, Key) -> Outcome<map<Key, T>, T>)
  {
    (m: map<Key, T>, k: Key) => ReadThrough(m, k, false, answer(k), id)
  }

  // ----------------------------------------------------------------------------------
  // Reading a listing
  // ----------------------------------------------------------------------------------

  datatype BulkOutcome<T> = BulkOutcome(status: Result<()>, state: map<Key, T>, populated: bool, fetched: bool)

  /** A bulk read: unless bypassed, a populated map is answered without a fetch; otherwise a
      fetch error leaves map and flag alone, and a fetched listing sets the flag and is
      inserted as a whole. */
  function ReadAll<T(==)>(m: map<Key, T>, populated: bool, evadeCache: bool, answer: Result<seq<T>>, id: T -> Key): (o: BulkOutcome<T>)
    ensures o.fetched <==> evadeCache || !populated
    ensures !o.fetched ==> o.status.Ok? && o.state == m && o.populated
    ensures o.fetched ==> (o.status.Ok? <==> answer.Ok?)
    ensures o.status.Err? ==> o.status.error == answer.error && o.state == m && o.populated == populated
    ensures o.fetched && answer.Ok? ==> o.populated && o.state == InsertAll(m, answer.value, id)
    ensures Keyed(m, id) ==> Keyed(o.state, id)
  {
    if !evadeCache && populated then BulkOutcome(Ok(()), m, true, false)
    else match answer
      case Err(e) => BulkOutcome(Err(e), m, populated, true)
      case Ok(rs) => BulkOutcome(Ok(()), InsertAll(m, rs, id), true, true)
  }

  /** Bulk implies individual: after a successful listing, a cache-first read of any listed
      key is a hit on the listing's record, with no fetch. */
  lemma ListingServesSingleReads<T>(m: map<Key, T>, populated: bool, evadeCache: bool,
                                    answer: Result<seq<T>>, id: T -> Key, k: Key, later: Result<T>)
    requires ReadAll(m, populated, evadeCache, answer, id).fetched
    requires ReadAll(m, populated, evadeCache, answer, id).status.Ok?
    requires k in Ids(answer.value, id)
    ensures var o := ReadAll(m, populated, evadeCache, answer, id);
      var s := ReadThrough(o.state, k, false, later, id);
      !s.fetched && s.state == o.state && s.result.Ok? && s.result.value in answer.value
  {
    InsertAllLastWins(m, m, answer.value, id, k);
  }

  /** Once populated, a cache-first listing costs nothing and changes nothing. */
  lemma PopulatedListingIsFree<T>(m: map<Key, T>, populated: bool, evadeCache: bool,
                                  answer: Result<seq<T>>, later: Result<seq<T>>, id: T -> Key)
    requires ReadAll(m, populated, evadeCache, answer, id).status.Ok?
    ensures var o := ReadAll(m, populated, evadeCache, answer, id);
      ReadAll(o.state, o.populated, false, later, id) == BulkOutcome(Ok(()), o.state, true, false)
  {
  }

  // ----------------------------------------------------------------------------------
  // Resolving a list of references
  // ----------------------------------------------------------------------------------

  datatype Resolution<S, T> = Resolution(result: Result<seq<T>>, state: S, fetches: nat)

  /** Resolves `keys` in order with `step`, threading the state, and stops at the first
      error, which becomes the result. */
  function ResolveAll<S, T>(s: S, keys: seq<Key>, step: (S, Key) -> Outcome<S, T>): (o: Resolution<S, T>)
    ensures o.result.Ok? ==> |o.result.value| == |keys|
    ensures o.fetches <= |keys|
  {
    if keys == [] then Resolution(Ok([]), s, 0)
    else
      var before := ResolveAll(s, keys[..|keys| - 1], step);
      if before.result.Err? then before
      else
        var last := step(before.state, keys[|keys| - 1]);
        Resolution(
          if last.result.Err? then Err(last.result.error) else Ok(before.result.value + [last.result.value]),
          last.state,
          before.fetches + if last.fetched then 1 else 0)
  }

  /** Resolution stops at the first error: references after it are never resolved, so
      neither the state nor the number of fetches changes any more. */
  lemma {:induction false} ResolveAllStops<S, T>(s: S, keys: seq<Key>, n: nat, step: (S, Key) -> Outcome<S, T>)
    requires n <= |keys|
    requires ResolveAll(s, keys[..n], step).result.Err?
    ensures ResolveAll(s, keys, step) == ResolveAll(s, keys[..n], step)
    decreases |keys| - n
  {
    if n < |keys| {
      assert keys[..n + 1][..n] == keys[..n];
      ResolveAllStops(s, keys, n + 1, step);
    } else {
      assert keys[..n] == keys;
    }
  }

  /** One more reference: after a successful prefix, resolving the next key either fails
      with that key's error or appends its record, and the state and fetch count follow
      that step. */
  lemma ResolveAllNext<S, T>(s: S, keys: seq<Key>, i: nat, step: (S, Key) -> Outcome<S, T>)
    requires i < |keys|
    requires ResolveAll(s, keys[..i], step).result.Ok?
    ensures var before := ResolveAll(s, keys[..i], step);
      var last := step(before.state, keys[i]);
      ResolveAll(s, keys[..i + 1], step) == Resolution(
        if last.result.Err? then Err(last.result.error) else Ok(before.result.value + [last.result.value]),
        last.state,
        before.fetches + if last.fetched then 1 else 0)
  {
    assert keys[..i + 1][..i] == keys[..i];
  }

  /** References are resolved in order: on success, resolving a prefix of the keys succeeds
      with the matching prefix of the results. */
  lemma {:induction false} ResolvedPrefix<S, T>(s: S, keys: seq<Key>, n: nat, step: (S, Key) -> Outcome<S, T>)
    requires n <= |keys|
    requires ResolveAll(s, keys, step).result.Ok?
    ensures ResolveAll(s, keys[..n], step).result.Ok?
    ensures ResolveAll(s, keys[..n], step).result.value == ResolveAll(s, keys, step).result.value[..n]
  {
    if n == |keys| {
      assert keys[..n] == keys;
    } else {
      var front := keys[..|keys| - 1];
      assert front[..n] == keys[..n];
      ResolvedPrefix(s, front, n, step);
    }
  }

  /** Resolving keys that are all cached fetches nothing, changes nothing and answers the
      cached records in order. */
  lemma {:induction false} WarmResolution<T(!new)>(m: map<Key, T>, keys: seq<Key>, answer: Key -> Result<T>, id: T -> Key)
    requires forall k :: k in keys ==> k in m
    ensures var o := ResolveAll(m, keys, ReadStep(answer, id));
      o.fetches == 0 && o.state == m && o.result.Ok? &&
      forall i :: 0 <= i < |keys| ==> o.result.value[i] == m[keys[i]]
  {
    if keys != [] {
      WarmResolution(m, keys[..|keys| - 1], answer, id);
    }
  }

  /** A resolution that succeeded has filed every resolved key whose record carries that key. */
  lemma {:induction false} ResolutionCachesRecords<T(!new)>(m: map<Key, T>, keys: seq<Key>, answer: Key -> Result<T>, id: T -> Key)
    requires Keyed(m, id)
    requires forall k :: k in keys && answer(k).Ok? ==> id(answer(k).value) == k
    ensures var o := ResolveAll(m, keys, ReadStep(answer, id));
      Keyed(o.state, id) && m.Keys <= o.state.Keys &&
      (o.result.Ok? ==> forall k :: k in keys ==> k in o.state)
  {
    if keys != [] {
      ResolutionCachesRecords(m, keys[..|keys| - 1], answer, id);
    }
  }

  /** An optional reference: absent resolves to `None` with no effect. */
  function ResolveOpt<S, T>(s: S, key: Option<Key>, step: (S, Key) -> Outcome<S, T>): (o: Outcome<S, Option<T>>)
    ensures key.None? ==> o == Outcome(Ok(None), s, false)
    ensures key.Some? ==> var one := step(s, key.value);
      o.state == one.state && o.fetched == one.fetched &&
      (o.result.Ok? <==> one.result.Ok?) &&
      (one.result.Ok? ==> o.result.value == Some(one.result.value)) &&
      (one.result.Err? ==> o.result.error == one.result.error)
  {
    match key
    case None => Outcome(Ok(None), s, false)
    case Some(k) =>
      var one := step(s, k);
      Outcome(if one.result.Ok? then Ok(Some(one.result.value)) else Err(one.result.error), one.state, one.fetched)
  }

  // ----------------------------------------------------------------------------------
  // The cache
  // ----------------------------------------------------------------------------------

  /** One map per cached record kind. Only the kinds with a listing endpoint have a
      populated flag; groups are cached in their summary form. */
  class ClientCache {
    var departments: map<Key, R.Department>
    var departmentsPopulated: bool
    var courses: map<Key, R.Course>
    var coursesPopulated: bool
    var classes: map<Key, R.Class>
    var classesPopulated: bool
    var classInstances: map<Key, R.ClassInstance>
    var classShifts: map<Key, R.ClassShift>
    var buildings: map<Key, R.Building>
    var buildingsPopulated: bool
    var places: map<Key, R.Place>
    var placesPopulated: bool
    var students: map<Key, R.Student>
    var teachers: map<Key, R.Teacher>
    var enrollments: map<Key, R.Enrollment>
    var groups: map<Key, R.WeakGroup>
    var groupsPopulated: bool

    /** Nothing cached and nothing listed. */
    predicate Empty()
      reads this
    {
      && departments == map[] && courses == map[] && classes == map[] && classInstances == map[]
      && classShifts == map[] && buildings == map[] && places == map[] && students == map[]
      && teachers == map[] && enrollments == map[] && groups == map[]
      && !departmentsPopulated && !coursesPopulated && !classesPopulated
      && !buildingsPopulated && !placesPopulated && !groupsPopulated
    }

    /** Every map files each record under its own id. */
    predicate Valid()
      reads this
    {
      && Keyed(departments, R.DepartmentId) && Keyed(courses, R.CourseId)
      && Keyed(classes, R.ClassId) && Keyed(classInstances, R.ClassInstanceId)
      && Keyed(classShifts, R.ShiftId) && Keyed(buildings, R.BuildingId)
      && Keyed(places, R.PlaceId) && Keyed(students, R.StudentId)
      && Keyed(teachers, R.TeacherId) && Keyed(enrollments, R.EnrollmentId)
      && Keyed(groups, R.WeakGroupId)
    }

    /** Files a fetched listing of departments: the map counts as populated from then on. */
    method FileDepartments(rs: seq<R.Department>)
      requires Valid()
      modifies this`departments, this`departmentsPopulated
      ensures Valid()
      ensures departments == InsertAll(old(departments), rs, R.DepartmentId) && departmentsPopulated
    {
      departmentsPopulated := true;
      departments := InsertRecords(departments, rs, R.DepartmentId);
    }

    /** Files a fetched listing of buildings: the map counts as populated from then on. */
    method FileBuildings(rs: seq<R.Building>)
      requires Valid()
      modifies this`buildings, this`buildingsPopulated
      ensures Valid()
      ensures buildings == InsertAll(old(buildings), rs, R.BuildingId) && buildingsPopulated
    {
      buildingsPopulated := true;
      buildings := InsertRecords(buildings, rs, R.BuildingId);
    }

    /** Files a fetched listing of places: the map counts as populated from then on. */
    method FilePlaces(rs: seq<R.Place>)
      requires Valid()
      modifies this`places, this`placesPopulated
      ensures Valid()
      ensures places == InsertAll(old(places), rs, R.PlaceId) && placesPopulated
    {
      placesPopulated := true;
      places := InsertRecords(places, rs, R.PlaceId);
    }

    /** Files a fetched listing of classes: the map counts as populated from then on. */
    method FileClasses(rs: seq<R.Class>)
      requires Valid()
      modifies this`classes, this`classesPopulated
      ensures Valid()
      ensures classes == InsertAll(old(classes), rs, R.ClassId) && classesPopulated
    {
      classesPopulated := true;
      classes := InsertRecords(classes, rs, R.ClassId);
    }

    /** Files a fetched listing of courses: the map counts as populated from then on. */
    method FileCourses(rs: seq<R.Course>)
      requires Valid()
      modifies this`courses, this`coursesPopulated
      ensures Valid()
      ensures courses == InsertAll(old(courses), rs, R.CourseId) && coursesPopulated
    {
      coursesPopulated := true;
      courses := InsertRecords(courses, rs, R.CourseId);
    }

    /** Files a fetched listing of groups: the map counts as populated from then on. */
    method FileGroups(rs: seq<R.WeakGroup>)
      requires Valid()
      modifies this`groups, this`groupsPopulated
      ensures Valid()
      ensures groups == InsertAll(old(groups), rs, R.WeakGroupId) && groupsPopulated
    {
      groupsPopulated := true;
      groups := InsertRecords(groups, rs, R.WeakGroupId);
    }

    /** Files a list of nested enrollments, each under its own id. */
    method FileEnrollments(rs: seq<R.Enrollment>)
      requires Valid()
      modifies this`enrollments
      ensures Valid()
      ensures enrollments == InsertAll(old(enrollments), rs, R.EnrollmentId)
    {
      enrollments := InsertRecords(enrollments, rs, R.EnrollmentId);
    }

    /** Files a list of nested shifts, each under its own id. */
    method FileShifts(rs: seq<R.ClassShift>)
      requires Valid()
      modifies this`classShifts
      ensures Valid()
      ensures classShifts == InsertAll(old(classShifts), rs, R.ShiftId)
    {
      classShifts := InsertRecords(classShifts, rs, R.ShiftId);
    }

    /** Files the enrollments and shifts a fetched class instance carries, each under its
        own id, leaving the instance itself and every other map as they were. */
    method FileInstanceParts(ci: R.ClassInstance)
      requires Valid()
      modifies this`enrollments, this`classShifts
      ensures Valid()
      ensures enrollments == InsertAll(old(enrollments), ci.enrollments, R.EnrollmentId)
      ensures classShifts == InsertAll(old(classShifts), ci.shifts, R.ShiftId)
    {
      FileEnrollments(ci.enrollments);
      FileShifts(ci.shifts);
    }

    /** The default cache. */
    constructor ()
      ensures Empty() && Valid()
    {
      departments, courses, classes, classInstances := map[], map[], map[], map[];
      classShifts, buildings, places, students := map[], map[], map[], map[];
      teachers, enrollments, groups := map[], map[], map[];
      departmentsPopulated, coursesPopulated, classesPopulated := false, false, false;
      buildingsPopulated, placesPopulated, groupsPopulated := false, false, false;
    }
  }
}
