/** Linking (src/network/model_conversion.rs): pure functions from the raw records to the
    domain records. Every key or key list becomes a lazy reference or reference list with the
    same keys in the same order, enumerations map variant to same-named variant, and URLs
    become absolute by prefixing the service root.

    For every record whose link loses nothing there is an `Unlink` partner and a round-trip
    lemma; for the links that drop data the lemmas say exactly what is dropped. */
module Conversion {
  import opened Keys
  import opened Errors
  import opened Refs
  import R = RawModels
  import M = Models
  import Endpoints

  /** `iter().map(f).collect()`. */
  function MapAll<A, B>(f: A -> B, s: seq<A>): (r: seq<B>)
    ensures |r| == |s|
    ensures forall i :: 0 <= i < |s| ==> r[i] == f(s[i])
  {
    if s == [] then [] else MapAll(f, s[..|s| - 1]) + [f(s[|s| - 1])]
  }

  /** Mapping with a left inverse can be undone. */
  lemma {:induction false} MapAllInverse<A, B>(f: A -> B, g: B -> A, s: seq<A>)
    requires forall x :: x in s ==> g(f(x)) == x
    ensures MapAll(g, MapAll(f, s)) == s
  {
    if s != [] {
      MapAllInverse(f, g, s[..|s| - 1]);
    }
  }

  lemma MapAllSnoc<A, B>(f: A -> B, s: seq<A>, x: A)
    ensures MapAll(f, s + [x]) == MapAll(f, s) + [f(x)]
  {
    assert (s + [x])[..|s|] == s;
  }

  /** Links the record of a successful optional result; an error passes through. */
  function LinkOpt<A, B>(r: Result<Option<A>>, link: A -> B): (l: Result<Option<B>>)
    ensures l.Ok? <==> r.Ok?
    ensures r.Err? ==> l.error == r.error
    ensures r.Ok? ==> (l.value.Some? <==> r.value.Some?)
    ensures r.Ok? && r.value.Some? ==> l.value.value == link(r.value.value)
  {
    match r
    case Ok(None) => Ok(None)
    case Ok(Some(x)) => Ok(Some(link(x)))
    case Err(e) => Err(e)
  }

  /** Links every record of a successful result; an error passes through. */
  function LinkAll<A, B>(r: Result<seq<A>>, link: A -> B): (l: Result<seq<B>>)
    ensures l.Ok? <==> r.Ok?
    ensures r.Err? ==> l.error == r.error
    ensures r.Ok? ==> l.value == MapAll(link, r.value)
  {
    match r
    case Ok(rs) => Ok(MapAll(link, rs))
    case Err(e) => Err(e)
  }

  // ----------------------------------------------------------------------------------
  // Enumerations (`From` conversions)
  // ----------------------------------------------------------------------------------

  function RawDegree(d: M.Degree): R.Degree
  {
    match d
    case BSc => R.BSc
    case MSc => R.MSc
    case PhD => R.PhD
    case IntegratedMSc => R.IntegratedMSc
    case PostGraduation => R.PostGraduation
    case AdvancedStudies => R.AdvancedStudies
    case PreGraduation => R.PreGraduation
  }

  function ConvertDegree(d: R.Degree): (r: M.Degree)
    ensures RawDegree(r) == d
  {
    match d
    case BSc => M.BSc
    case MSc => M.MSc
    case PhD => M.PhD
    case IntegratedMSc => M.IntegratedMSc
    case PostGraduation => M.PostGraduation
    case AdvancedStudies => M.AdvancedStudies
    case PreGraduation => M.PreGraduation
  }

  function RawPeriod(p: M.Period): R.Period
  {
    match p
    case Year => R.Year
    case FirstSemester => R.FirstSemester
    case SecondSemester => R.SecondSemester
    case FirstTrimester => R.FirstTrimester
    case SecondTrimester => R.SecondTrimester
    case ThirdTrimester => R.ThirdTrimester
    case FourthTrimester => R.FourthTrimester
  }

  function ConvertPeriod(p: R.Period): (r: M.Period)
    ensures RawPeriod(r) == p
  {
    match p
    case Year => M.Year
    case FirstSemester => M.FirstSemester
    case SecondSemester => M.SecondSemester
    case FirstTrimester => M.FirstTrimester
    case SecondTrimester => M.SecondTrimester
    case ThirdTrimester => M.ThirdTrimester
    case FourthTrimester => M.FourthTrimester
  }

  function RawWeekday(w: M.Weekday): R.Weekday
  {
    match w
    case Monday => R.Monday
    case Thursday => R.Thursday
    case Wednesday => R.Wednesday
    case Tuesday => R.Tuesday
    case Friday => R.Friday
    case Saturday => R.Saturday
    case Sunday => R.Sunday
  }

  function ConvertWeekday(w: R.Weekday): (r: M.Weekday)
    ensures RawWeekday(r) == w
  {
    match w
    case Monday => M.Monday
    case Thursday => M.Thursday
    case Wednesday => M.Wednesday
    case Tuesday => M.Tuesday
    case Friday => M.Friday
    case Saturday => M.Saturday
    case Sunday => M.Sunday
  }

  function RawRoomType(t: M.RoomType): R.RoomType
  {
    match t
    case Generic => R.GenericRoom
    case Classroom => R.Classroom
    case Auditorium => R.Auditorium
    case Laboratory => R.Laboratory
    case Computer => R.Computer
    case Meeting => R.MeetingRoom
    case Masters => R.Masters
    case Cabinet => R.Cabinet
  }

  function ConvertRoomType(t: R.RoomType): (r: M.RoomType)
    ensures RawRoomType(r) == t
  {
    match t
    case GenericRoom => M.RoomType.Generic
    case Classroom => M.Classroom
    case Auditorium => M.Auditorium
    case Laboratory => M.Laboratory
    case Computer => M.Computer
    case MeetingRoom => M.RoomType.Meeting
    case Masters => M.Masters
    case Cabinet => M.Cabinet
  }

  function RawShiftType(t: M.ShiftType): R.ShiftType
  {
    match t
    case Theoretical => R.Theoretical
    case Practical => R.Practical
    case PracticalTheoretical => R.PracticalTheoretical
    case Seminar => R.Seminar
    case TutorialOrientation => R.TutorialOrientation
    case FieldWork => R.FieldWork
    case OnlineTheoretical => R.OnlineTheoretical
    case OnlinePractical => R.OnlinePractical
    case OnlinePracticalTheoretical => R.OnlinePracticalTheoretical
  }

  function ConvertShiftType(t: R.ShiftType): (r: M.ShiftType)
    ensures RawShiftType(r) == t
  {
    match t
    case Theoretical => M.Theoretical
    case Practical => M.Practical
    case PracticalTheoretical => M.PracticalTheoretical
    case Seminar => M.Seminar
    case TutorialOrientation => M.TutorialOrientation
    case FieldWork => M.FieldWork
    case OnlineTheoretical => M.OnlineTheoretical
    case OnlinePractical => M.OnlinePractical
    case OnlinePracticalTheoretical => M.OnlinePracticalTheoretical
  }

  function RawGroupType(t: M.GroupType): R.GroupType
  {
    match t
    case Institutional => R.Institutional
    case Nuclei => R.Nuclei
    case AcademicAssociation => R.AcademicAssociation
    case Pedagogic => R.Pedagogic
    case Praxis => R.Praxis
    case Community => R.Community
  }

  function ConvertGroupType(t: R.GroupType): (r: M.GroupType)
    ensures RawGroupType(r) == t
  {
    match t
    case Institutional => M.Institutional
    case Nuclei => M.Nuclei
    case AcademicAssociation => M.AcademicAssociation
    case Pedagogic => M.Pedagogic
    case Praxis => M.Praxis
    case Community => M.Community
  }

  function RawGroupVisibility(v: M.GroupVisibility): R.GroupVisibility
  {
    match v
    case Secret => R.Secret
    case Closed => R.Closed
    case Request => R.Request
    case Open => R.Open
  }

  function ConvertGroupVisibility(v: R.GroupVisibility): (r: M.GroupVisibility)
    ensures RawGroupVisibility(r) == v
  {
    match v
    case Secret => M.Secret
    case Closed => M.Closed
    case Request => M.Request
    case Open => M.Open
  }

  function RawGroupEventType(t: M.GroupEventType): R.GroupEventType
  {
    match t
    case Generic => R.GenericEvent
    case Talk => R.Talk
    case Workshop => R.Workshop
    case Party => R.Party
    case Contest => R.Contest
    case Fair => R.Fair
    case Meeting => R.Meeting
  }

  function ConvertGroupEventType(t: R.GroupEventType): (r: M.GroupEventType)
    ensures RawGroupEventType(r) == t
  {
    match t
    case GenericEvent => M.GroupEventType.Generic
    case Talk => M.Talk
    case Workshop => M.Workshop
    case Party => M.Party
    case Contest => M.Contest
    case Fair => M.Fair
    case Meeting => M.GroupEventType.Meeting
  }

  /** Every conversion is a bijection: distinct raw variants stay distinct, and every domain
      variant is reached. */
  lemma ConversionsBijective()
    ensures forall a, b :: ConvertDegree(a) == ConvertDegree(b) ==> a == b
    ensures forall m :: ConvertDegree(RawDegree(m)) == m
    ensures forall a, b :: ConvertPeriod(a) == ConvertPeriod(b) ==> a == b
    ensures forall m :: ConvertPeriod(RawPeriod(m)) == m
    ensures forall a, b :: ConvertWeekday(a) == ConvertWeekday(b) ==> a == b
    ensures forall m :: ConvertWeekday(RawWeekday(m)) == m
    ensures forall a, b :: ConvertRoomType(a) == ConvertRoomType(b) ==> a == b
    ensures forall m :: ConvertRoomType(RawRoomType(m)) == m
    ensures forall a, b :: ConvertShiftType(a) == ConvertShiftType(b) ==> a == b
    ensures forall m :: ConvertShiftType(RawShiftType(m)) == m
    ensures forall a, b :: ConvertGroupType(a) == ConvertGroupType(b) ==> a == b
    ensures forall m :: ConvertGroupType(RawGroupType(m)) == m
    ensures forall a, b :: ConvertGroupVisibility(a) == ConvertGroupVisibility(b) ==> a == b
    ensures forall m :: ConvertGroupVisibility(RawGroupVisibility(m)) == m
    ensures forall a, b :: ConvertGroupEventType(a) == ConvertGroupEventType(b) ==> a == b
    ensures forall m :: ConvertGroupEventType(RawGroupEventType(m)) == m
  {
    forall m: M.Degree ensures ConvertDegree(RawDegree(m)) == m { match m case _ => }
    forall m: M.Period ensures ConvertPeriod(RawPeriod(m)) == m { match m case _ => }
    forall m: M.Weekday ensures ConvertWeekday(RawWeekday(m)) == m { match m case _ => }
    forall m: M.RoomType ensures ConvertRoomType(RawRoomType(m)) == m { match m case _ => }
    forall m: M.ShiftType ensures ConvertShiftType(RawShiftType(m)) == m { match m case _ => }
    forall m: M.GroupType ensures ConvertGroupType(RawGroupType(m)) == m { match m case _ => }
    forall m: M.GroupVisibility ensures ConvertGroupVisibility(RawGroupVisibility(m)) == m { match m case _ => }
    forall m: M.GroupEventType ensures ConvertGroupEventType(RawGroupEventType(m)) == m { match m case _ => }
  }

  // ----------------------------------------------------------------------------------
  // Absolute URLs
  // ----------------------------------------------------------------------------------

  /** `format!("{}{}", *UPSTREAM, url)`. */
  function Absolute(url: string): (r: string)
    ensures Endpoints.UPSTREAM <= r && r[|Endpoints.UPSTREAM|..] == url
  {
    Endpoints.UPSTREAM + url
  }

  function AbsoluteOpt(url: Option<string>): (r: Option<string>)
    ensures r.Some? <==> url.Some?
    ensures r.Some? ==> r.value == Absolute(url.value)
  {
    match url
    case None => None
    case Some(u) => Some(Absolute(u))
  }

  function Relative(url: string): string
    requires Endpoints.UPSTREAM <= url
  {
    url[|Endpoints.UPSTREAM|..]
  }

  function RelativeOpt(url: Option<string>): Option<string>
    requires url.Some? ==> Endpoints.UPSTREAM <= url.value
  {
    match url
    case None => None
    case Some(u) => Some(Relative(u))
  }

  // ----------------------------------------------------------------------------------
  // Records
  // ----------------------------------------------------------------------------------

  function LinkBuilding(b: R.Building): (r: M.Building)
    ensures r.id == b.id
    ensures KeysOf(r.places) == b.places
  {
    RefsRoundTrip<M.Place>(b.places, []);
    M.Building(b.id, b.name, b.abbreviation, RefsOf(b.places))
  }

  function UnlinkBuilding(b: M.Building): R.Building
  {
    R.Building(b.id, b.name, b.abbreviation, KeysOf(b.places))
  }

  lemma BuildingRoundTrip(b: R.Building, m: M.Building)
    ensures UnlinkBuilding(LinkBuilding(b)) == b
    ensures LinkBuilding(UnlinkBuilding(m)) == m
  {
    RefsRoundTrip<M.Place>([], m.places);
  }

  function LinkDepartment(d: R.Department): (r: M.Department)
    ensures r.id == d.id
    ensures KeysOf(r.courses) == d.courses
    ensures OptKey(r.building) == d.building
  {
    RefsRoundTrip<M.Course>(d.courses, []);
    M.Department(d.id, d.name, d.description, RefsOf(d.courses), OptRef(d.building))
  }

  function UnlinkDepartment(d: M.Department): R.Department
  {
    R.Department(d.id, d.name, d.description, KeysOf(d.courses), OptKey(d.building))
  }

  lemma DepartmentRoundTrip(d: R.Department, m: M.Department)
    ensures UnlinkDepartment(LinkDepartment(d)) == d
    ensures LinkDepartment(UnlinkDepartment(m)) == m
  {
    RefsRoundTrip<M.Course>([], m.courses);
    OptRefRoundTrip<M.Building>(None, m.building);
  }

  function LinkCourse(c: R.Course): (r: M.Course)
    ensures r.id == c.id && RawDegree(r.degree) == c.degree
    ensures OptKey(r.department) == c.department
  {
    M.Course(c.id, c.abbreviation, c.name, ConvertDegree(c.degree), OptRef(c.department))
  }

  function UnlinkCourse(c: M.Course): R.Course
  {
    R.Course(c.id, c.abbreviation, c.name, RawDegree(c.degree), OptKey(c.department))
  }

  lemma CourseRoundTrip(c: R.Course, m: M.Course)
    ensures UnlinkCourse(LinkCourse(c)) == c
    ensures LinkCourse(UnlinkCourse(m)) == m
  {
    ConversionsBijective();
    OptRefRoundTrip<M.Department>(None, m.department);
  }

  function LinkClass(c: R.Class): (r: M.Class)
    ensures r.id == c.id && r.credits == c.credits
    ensures OptKey(r.department) == c.department
    ensures KeysOf(r.instances) == c.instances
  {
    RefsRoundTrip<M.ClassInstance>(c.instances, []);
    M.Class(c.id, c.name, c.abbreviation, c.credits, OptRef(c.department), RefsOf(c.instances))
  }

  function UnlinkClass(c: M.Class): R.Class
  {
    R.Class(c.id, c.name, c.abbreviation, c.credits, OptKey(c.department), KeysOf(c.instances))
  }

  lemma ClassRoundTrip(c: R.Class, m: M.Class)
    ensures UnlinkClass(LinkClass(c)) == c
    ensures LinkClass(UnlinkClass(m)) == m
  {
    RefsRoundTrip<M.ClassInstance>([], m.instances);
    OptRefRoundTrip<M.Department>(None, m.department);
  }

  /** A class instance's enrollment and shift references are built from the ids of the
      records nested in it; its parent class is not carried over. */
  function LinkClassInstance(ci: R.ClassInstance): (r: M.ClassInstance)
    ensures r.id == ci.id && r.year == ci.year && RawPeriod(r.period) == ci.period
    ensures KeysOf(r.enrollments) == MapAll(R.EnrollmentId, ci.enrollments)
    ensures KeysOf(r.shifts) == MapAll(R.ShiftId, ci.shifts)
    ensures OptKey(r.department) == ci.department
    ensures r.information == ci.information.upstream && r.avgGrade == ci.avgGrade
  {
    RefsRoundTrip<M.Enrollment>(MapAll(R.EnrollmentId, ci.enrollments), []);
    RefsRoundTrip<M.ClassShift>(MapAll(R.ShiftId, ci.shifts), []);
    M.ClassInstance(
      ci.id, ci.year, ConvertPeriod(ci.period),
      RefsOf(MapAll(R.EnrollmentId, ci.enrollments)),
      ci.information.upstream, ci.avgGrade,
      RefsOf(MapAll(R.ShiftId, ci.shifts)),
      OptRef(ci.department))
  }

  /** What linking a class instance forgets: the parent class and everything about the
      nested enrollments and shifts but their ids. */
  lemma ClassInstanceLinkForgets(a: R.ClassInstance, b: R.ClassInstance)
    requires a.(parent := b.parent, enrollments := b.enrollments, shifts := b.shifts) == b
    requires MapAll(R.EnrollmentId, a.enrollments) == MapAll(R.EnrollmentId, b.enrollments)
    requires MapAll(R.ShiftId, a.shifts) == MapAll(R.ShiftId, b.shifts)
    ensures LinkClassInstance(a) == LinkClassInstance(b)
  {
  }

  function LinkShiftInstance(s: R.ClassShiftInstance): (r: M.ClassShiftInstance)
    ensures RawWeekday(r.weekday) == s.weekday && r.start == s.start && r.duration == s.duration
    ensures OptKey(r.room) == s.room
  {
    M.ClassShiftInstance(ConvertWeekday(s.weekday), s.start, s.duration, OptRef(s.room))
  }

  function UnlinkShiftInstance(s: M.ClassShiftInstance): R.ClassShiftInstance
  {
    R.ClassShiftInstance(RawWeekday(s.weekday), s.start, s.duration, OptKey(s.room))
  }

  function LinkShift(s: R.ClassShift): (r: M.ClassShift)
    ensures r.id == s.id && r.number == s.number && RawShiftType(r.shiftType) == s.shiftType
    ensures KeysOf(r.teachers) == s.teachers
    ensures |r.instances| == |s.instances|
    ensures forall i :: 0 <= i < |s.instances| ==> r.instances[i] == LinkShiftInstance(s.instances[i])
  {
    RefsRoundTrip<M.Teacher>(s.teachers, []);
    M.ClassShift(s.id, s.number, ConvertShiftType(s.shiftType), RefsOf(s.teachers),
                 MapAll(LinkShiftInstance, s.instances))
  }

  function UnlinkShift(s: M.ClassShift): R.ClassShift
  {
    R.ClassShift(s.id, s.number, RawShiftType(s.shiftType), KeysOf(s.teachers),
                 MapAll(UnlinkShiftInstance, s.instances))
  }

  lemma ShiftRoundTrip(s: R.ClassShift)
    ensures UnlinkShift(LinkShift(s)) == s
  {
    forall x | x in s.instances
      ensures UnlinkShiftInstance(LinkShiftInstance(x)) == x
    {
      OptRefRoundTrip<M.Place>(x.room, None);
    }
    MapAllInverse(LinkShiftInstance, UnlinkShiftInstance, s.instances);
  }

  function LinkStudent(s: R.Student): (r: M.Student)
    ensures r.id == s.id && r.number == s.number
    ensures KeysOf(r.enrollments) == s.enrollments && KeysOf(r.shifts) == s.shifts
    ensures OptKey(r.course) == s.course
    ensures Endpoints.UPSTREAM <= r.url && Relative(r.url) == s.url
  {
    RefsRoundTrip<M.Enrollment>(s.enrollments, []);
    RefsRoundTrip<M.ClassShift>(s.shifts, []);
    M.Student(s.id, s.name, s.abbreviation, s.number, RefsOf(s.enrollments), RefsOf(s.shifts),
              s.firstYear, s.lastYear, OptRef(s.course), s.avgGrade, Absolute(s.url))
  }

  function UnlinkStudent(s: M.Student): R.Student
    requires Endpoints.UPSTREAM <= s.url
  {
    R.Student(s.id, s.name, s.abbreviation, s.number, KeysOf(s.enrollments), KeysOf(s.shifts),
              s.firstYear, s.lastYear, OptKey(s.course), s.avgGrade, Relative(s.url))
  }

  lemma StudentRoundTrip(s: R.Student)
    ensures UnlinkStudent(LinkStudent(s)) == s
  {
  }

  /** A teacher's short name is not carried over; the thumbnail, when present, becomes an
      absolute URL like the profile URL. */
  function LinkTeacher(t: R.Teacher): (r: M.Teacher)
    ensures r.id == t.id
    ensures KeysOf(r.departments) == t.departments && KeysOf(r.shifts) == t.shifts
    ensures Endpoints.UPSTREAM <= r.url && Relative(r.url) == t.url
    ensures r.thumb.Some? <==> t.thumb.Some?
    ensures r.thumb.Some? ==> r.thumb.value == Absolute(t.thumb.value)
  {
    RefsRoundTrip<M.Department>(t.departments, []);
    RefsRoundTrip<M.ClassShift>(t.shifts, []);
    M.Teacher(t.id, t.name, t.abbreviation, t.firstYear, t.lastYear, t.phone, t.email,
              AbsoluteOpt(t.thumb), t.rank, RefsOf(t.departments), RefsOf(t.shifts), Absolute(t.url))
  }

  function UnlinkTeacher(t: M.Teacher, shortName: string): R.Teacher
    requires Endpoints.UPSTREAM <= t.url
    requires t.thumb.Some? ==> Endpoints.UPSTREAM <= t.thumb.value
  {
    R.Teacher(t.id, t.name, shortName, t.abbreviation, t.firstYear, t.lastYear, t.phone, t.email,
              RelativeOpt(t.thumb), t.rank, KeysOf(t.departments), KeysOf(t.shifts), Relative(t.url))
  }

  /** Only the short name is lost. */
  lemma TeacherRoundTrip(t: R.Teacher)
    ensures UnlinkTeacher(LinkTeacher(t), t.shortName) == t
  {
  }

  function LinkEnrollment(e: R.Enrollment): (r: M.Enrollment)
    ensures r.id == e.id
    ensures r.classInstance.identifier == e.classInstance && r.student.identifier == e.student
  {
    M.Enrollment(e.id, ObjRef(e.classInstance), ObjRef(e.student), e.attendance, e.attendanceDate,
                 e.normalGrade, e.normalGradeDate, e.recourseGrade, e.recourseGradeDate,
                 e.specialGrade, e.specialGradeDate, e.improvementGrade, e.improvementGradeDate,
                 e.approved, e.grade)
  }

  function UnlinkEnrollment(e: M.Enrollment): R.Enrollment
  {
    R.Enrollment(e.id, e.classInstance.identifier, e.student.identifier, e.attendance, e.attendanceDate,
                 e.normalGrade, e.normalGradeDate, e.recourseGrade, e.recourseGradeDate,
                 e.specialGrade, e.specialGradeDate, e.improvementGrade, e.improvementGradeDate,
                 e.approved, e.grade)
  }

  lemma EnrollmentRoundTrip(e: R.Enrollment, m: M.Enrollment)
    ensures UnlinkEnrollment(LinkEnrollment(e)) == e
    ensures LinkEnrollment(UnlinkEnrollment(m)) == m
  {
  }

  /** A place's room data becomes the `Room` variant; its floor is always 0 and its pictures
      and features are dropped. */
  function LinkPlace(p: R.Place): (r: M.Place)
    ensures r.id == p.id && r.name == p.name
    ensures r.floor == 0 && r.picture.None? && r.pictureCover.None?
    ensures OptKey(r.building) == p.building
    ensures r.variant.Room? <==> p.roomMeta.Some?
    ensures r.variant.Room? ==>
      OptKey(r.variant.room.department) == p.roomMeta.value.department &&
      RawRoomType(r.variant.room.roomType) == p.roomMeta.value.roomType
  {
    M.Place(
      p.id,
      match p.roomMeta
        case None => M.PlaceVariant.Generic
        case Some(meta) => M.PlaceVariant.Room(M.Room.Room(
          OptRef(meta.department), meta.capacity, meta.doorNumber, ConvertRoomType(meta.roomType),
          meta.description, meta.equipment)),
      p.name, 0, OptRef(p.building), None, None)
  }

  /** Rebuilds a raw place from its link and the data linking drops. */
  function UnlinkPlace(p: M.Place, floor: R.I8, picture: Option<string>, pictureCover: Option<string>,
                       features: seq<R.PlaceFeature>): R.Place
  {
    R.Place(
      p.id, p.name, floor, OptKey(p.building), picture, pictureCover, features,
      match p.variant
        case Generic => None
        case Room(room) => Some(R.Room(
          OptKey(room.department), room.capacity, room.doorNumber, RawRoomType(room.roomType),
          room.description, room.equipment)))
  }

  /** Exactly the floor, the two pictures and the features are lost. */
  lemma PlaceRoundTrip(p: R.Place)
    ensures UnlinkPlace(LinkPlace(p), p.floor, p.picture, p.pictureCover, p.features) == p
  {
  }

  function LinkEvent(e: R.Event): (r: M.Event)
    ensures r.id == e.id && OptKey(r.place) == e.place
    ensures RawGroupEventType(r.eventType) == e.eventType
  {
    M.Event(e.id, e.title, e.description, e.startDate, e.duration, OptRef(e.place), e.capacity,
            e.cost, ConvertGroupEventType(e.eventType))
  }

  function UnlinkEvent(e: M.Event): R.Event
  {
    R.Event(e.id, e.title, e.description, e.startDate, e.duration, OptKey(e.place), e.capacity,
            e.cost, RawGroupEventType(e.eventType))
  }

  lemma EventRoundTrip(e: R.Event)
    ensures UnlinkEvent(LinkEvent(e)) == e
  {
  }

  function LinkNewsItem(n: R.NewsItem): (r: M.NewsItem)
    ensures r.id == n.id
    ensures Endpoints.UPSTREAM <= r.url && Relative(r.url) == n.url
    ensures r.thumb.Some? <==> n.thumb.Some?
    ensures r.thumb.Some? ==> r.thumb.value == Absolute(n.thumb.value)
  {
    M.NewsItem(n.id, n.title, n.summary, n.datetime, AbsoluteOpt(n.thumb), Absolute(n.url))
  }

  function UnlinkNewsItem(n: M.NewsItem): R.NewsItem
    requires Endpoints.UPSTREAM <= n.url
    requires n.thumb.Some? ==> Endpoints.UPSTREAM <= n.thumb.value
  {
    R.NewsItem(n.id, n.title, n.summary, n.datetime, RelativeOpt(n.thumb), Relative(n.url))
  }

  lemma NewsItemRoundTrip(n: R.NewsItem)
    ensures UnlinkNewsItem(LinkNewsItem(n)) == n
  {
  }

  // ----------------------------------------------------------------------------------
  // Groups
  // ----------------------------------------------------------------------------------

  /** An activity keeps its kind; its author (and an announced event) become references and
      every other field is copied. */
  function LinkActivity(a: R.GroupActivity): (r: M.GroupActivity)
    ensures r.Announcement? <==> a.Announcement?
    ensures r.EventAnnouncement? <==> a.EventAnnounced?
    ensures r.GalleryUpload? <==> a.Gallery?
    ensures a.Announcement? ==>
      var x, y := a.announcement, r.announcement;
      y.author.identifier == x.author && y.title == x.title && y.content == x.content && y.datetime == x.datetime
    ensures a.EventAnnounced? ==>
      var x, y := a.eventAnnouncement, r.eventAnnouncement;
      y.author.identifier == x.author && y.event.identifier == x.event && y.datetime == x.datetime
    ensures a.Gallery? ==>
      r.upload.author.identifier == a.upload.author && r.upload.datetime == a.upload.datetime
  {
    match a
    case Announcement(x) =>
      M.GroupActivity.Announcement(M.GroupAnnouncement(ObjRef(x.author), x.title, x.content, x.datetime))
    case EventAnnounced(x) =>
      M.GroupActivity.EventAnnouncement(M.EventAnnouncement.EventAnnouncement(ObjRef(x.author), ObjRef(x.event), x.datetime))
    case Gallery(x) =>
      M.GroupActivity.GalleryUpload(M.GalleryUpload.GalleryUpload(ObjRef(x.author), x.datetime, M.GalleryItem))
  }

  /** A schedule entry keeps its kind and every field; a periodic entry's weekday is
      converted. */
  function LinkScheduling(s: R.GroupScheduling): (r: M.GroupScheduling)
    ensures r.Once? <==> s.ScheduleOnce?
    ensures s.ScheduleOnce? ==>
      var x, y := s.once, r.once;
      y.title == x.title && y.datetime == x.datetime && y.duration == x.duration && y.revoked == x.revoked
    ensures s.SchedulePeriodic? ==>
      var x, y := s.periodic, r.periodic;
      y.title == x.title && RawWeekday(y.weekday) == x.weekday && y.startDate == x.startDate &&
      y.endDate == x.endDate && y.duration == x.duration && y.revoked == x.revoked
  {
    match s
    case ScheduleOnce(x) => M.Once(M.GroupSchedulingOnce(x.title, x.datetime, x.duration, x.revoked))
    case SchedulePeriodic(x) =>
      M.Periodic(M.GroupSchedulingPeriodic(x.title, ConvertWeekday(x.weekday), x.startDate, x.endDate,
                                           x.duration, x.revoked))
  }

  function UnlinkActivity(a: M.GroupActivity): R.GroupActivity
  {
    match a
    case Announcement(x) =>
      R.Announcement(R.GroupAnnouncement(x.author.identifier, x.title, x.content, x.datetime))
    case EventAnnouncement(x) =>
      R.EventAnnounced(R.EventAnnouncement(x.author.identifier, x.datetime, x.event.identifier))
    case GalleryUpload(x) =>
      R.Gallery(R.GalleryUpload(x.author.identifier, x.datetime, R.GalleryItem))
  }

  /** Linking an activity loses nothing: a gallery item carries no data on either side. */
  lemma ActivityRoundTrip(a: R.GroupActivity, m: M.GroupActivity)
    ensures UnlinkActivity(LinkActivity(a)) == a
    ensures LinkActivity(UnlinkActivity(m)) == m
  {
  }

  function UnlinkScheduling(s: M.GroupScheduling): R.GroupScheduling
  {
    match s
    case Once(x) => R.ScheduleOnce(R.GroupSchedulingOnce(x.title, x.datetime, x.duration, x.revoked))
    case Periodic(x) =>
      R.SchedulePeriodic(R.GroupSchedulingPeriodic(x.title, RawWeekday(x.weekday), x.startDate, x.endDate,
                                                   x.duration, x.revoked))
  }

  /** Converting a schedule entry loses nothing, both ways. */
  lemma SchedulingRoundTrip(s: R.GroupScheduling, m: M.GroupScheduling)
    ensures UnlinkScheduling(LinkScheduling(s)) == s
    ensures LinkScheduling(UnlinkScheduling(m)) == m
  {
    ConversionsBijective();
  }

  /** The summary link of a listed group: not upgraded, with its four lazy parts unset. */
  function LinkWeakGroup(g: R.WeakGroup): (r: M.Group)
    ensures r.id == g.id && RawGroupType(r.groupType) == g.groupType && r.official == g.official
    ensures r.name == g.name && r.abbreviation == g.abbreviation
    ensures Endpoints.UPSTREAM <= r.url && Relative(r.url) == g.url
    ensures r.thumb == AbsoluteOpt(g.thumb)
    ensures !r.upgraded
    ensures r.outsidersOpenness.None? && r.activities.None? && r.schedulings.None? && r.events.None?
  {
    M.Group(g.id, g.name, g.abbreviation, Absolute(g.url), AbsoluteOpt(g.thumb),
            ConvertGroupType(g.groupType), g.official, false, None, None, None, None)
  }

  function UnlinkWeakGroup(g: M.Group): R.WeakGroup
    requires Endpoints.UPSTREAM <= g.url
    requires g.thumb.Some? ==> Endpoints.UPSTREAM <= g.thumb.value
  {
    R.WeakGroup(g.id, g.name, g.abbreviation, RawGroupType(g.groupType), g.official, Relative(g.url),
                RelativeOpt(g.thumb))
  }

  /** Linking a group summary loses nothing. */
  lemma WeakGroupRoundTrip(g: R.WeakGroup)
    ensures UnlinkWeakGroup(LinkWeakGroup(g)) == g
  {
  }

  /** The full link of a fetched group: upgraded, with all four lazy parts set. */
  function LinkGroup(g: R.Group): (r: M.Group)
    ensures r.id == g.id && r.name == g.name && r.abbreviation == g.abbreviation
    ensures r.upgraded
    ensures r.outsidersOpenness == Some(ConvertGroupVisibility(g.outsidersOpenness))
    ensures r.activities.Some? && |r.activities.value| == |g.activities|
    ensures r.schedulings.Some? && |r.schedulings.value| == |g.scheduleEntries|
    ensures r.events.Some? && |r.events.value| == |g.events|
    ensures forall i :: 0 <= i < |g.activities| ==> r.activities.value[i] == LinkActivity(g.activities[i])
    ensures forall i :: 0 <= i < |g.scheduleEntries| ==> r.schedulings.value[i] == LinkScheduling(g.scheduleEntries[i])
    ensures forall i :: 0 <= i < |g.events| ==> r.events.value[i] == LinkEvent(g.events[i])
  {
    M.Group(g.id, g.name, g.abbreviation, Absolute(g.url), AbsoluteOpt(g.thumb),
            ConvertGroupType(g.groupType), g.official, true,
            Some(ConvertGroupVisibility(g.outsidersOpenness)),
            Some(MapAll(LinkActivity, g.activities)),
            Some(MapAll(LinkScheduling, g.scheduleEntries)),
            Some(MapAll(LinkEvent, g.events)))
  }

  /** The summary a group listing gives for a group. */
  function Summary(g: R.Group): R.WeakGroup
  {
    R.WeakGroup(g.id, g.name, g.abbreviation, g.groupType, g.official, g.url, g.thumb)
  }

  /** Fetching a group in full agrees with its summary link on every shared field and differs
      from it only by being upgraded and having the four lazy parts filled. */
  lemma UpgradeFillsLazyParts(g: R.Group)
    ensures LinkGroup(g) == LinkWeakGroup(Summary(g)).(
      upgraded := true,
      outsidersOpenness := LinkGroup(g).outsidersOpenness,
      activities := LinkGroup(g).activities,
      schedulings := LinkGroup(g).schedulings,
      events := LinkGroup(g).events)
  {
  }

  // ----------------------------------------------------------------------------------
  // Pages
  // ----------------------------------------------------------------------------------

  /** The key of the page after `key`: same limit, offset advanced by the limit. The offset
      is a 32-bit unsigned number; the sum wraps as in a release build. */
  function NextPageKey(key: PageKey): (next: PageKey)
    ensures next.0 == key.0
    ensures HasNextKey(key) ==> next.1 == key.1 + key.0
    ensures !HasNextKey(key) ==> next.1 == key.1 + key.0 - 0x1_0000_0000
  {
    (key.0, (key.1 + key.0) % 0x1_0000_0000)
  }

  /** The key reached after following `n` next-page references from `key`. */
  function NthPageKey(key: PageKey, n: nat): PageKey
  {
    if n == 0 then key else NextPageKey(NthPageKey(key, n - 1))
  }

  /** Without wrap-around, the `n`-th page after `key` starts `n` limits further on. */
  lemma {:induction false} NthPageKeyOffset(key: PageKey, n: nat)
    requires key.1 + n * key.0 < 0x1_0000_0000
    ensures NthPageKey(key, n) == (key.0, key.1 + n * key.0)
  {
    if n > 0 {
      assert key.1 + (n - 1) * key.0 <= key.1 + n * key.0;
      NthPageKeyOffset(key, n - 1);
    }
  }

  function LinkEventsPage(p: R.EventsPage, key: PageKey): (r: M.EventsPage)
    ensures r.previousPage.None?
    ensures r.nextPage.identifier == NextPageKey(key)
    ensures |r.items| == |p.results|
    ensures forall i :: 0 <= i < |p.results| ==> r.items[i] == LinkEvent(p.results[i])
  {
    M.EventsPage(None, ObjRef(NextPageKey(key)), MapAll(LinkEvent, p.results))
  }

  function LinkNewsPage(p: R.NewsPage, key: PageKey): (r: M.NewsPage)
    ensures r.previousPage.None?
    ensures r.nextPage.identifier == NextPageKey(key)
    ensures |r.items| == |p.results|
    ensures forall i :: 0 <= i < |p.results| ==> r.items[i] == LinkNewsItem(p.results[i])
  {
    M.NewsPage(None, ObjRef(NextPageKey(key)), MapAll(LinkNewsItem, p.results))
  }
}
