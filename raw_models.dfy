/** The records as the remote API sends them (src/network/models.rs): relations are plain
    keys, enumerations are small integer codes. Date/time values are kept as their text and
    32-bit floats as their bit pattern; nothing here interprets them. */
module RawModels {
  import opened Keys
  import opened Errors

  type AuthToken = string
  type DateTime = string
  type Date = string
  type I8 = x: int | -0x80 <= x < 0x80
  /** IEEE-754 single precision value, kept as its bit pattern. */
  type F32 = bv32

  // ----------------------------------------------------------------------------------
  // Enumerations and their wire discriminants
  // ----------------------------------------------------------------------------------

  datatype Weekday = Monday | Thursday | Wednesday | Tuesday | Friday | Saturday | Sunday

  function DecodeWeekday(code: int): (r: Option<Weekday>)
    ensures r.Some? <==> 0 <= code <= 6
  {
    match code
    case 0 => Some(Monday)
    case 1 => Some(Thursday)
    case 2 => Some(Wednesday)
    case 3 => Some(Tuesday)
    case 4 => Some(Friday)
    case 5 => Some(Saturday)
    case 6 => Some(Sunday)
    case _ => None
  }

  function WeekdayCode(w: Weekday): (code: U8)
    ensures DecodeWeekday(code) == Some(w)
  {
    match w
    case Monday => 0
    case Thursday => 1
    case Wednesday => 2
    case Tuesday => 3
    case Friday => 4
    case Saturday => 5
    case Sunday => 6
  }

  /** The calendar successor of a day; Sunday is followed by Monday. */
  function NextDay(w: Weekday): Weekday {
    match w
    case Monday => Tuesday
    case Tuesday => Wednesday
    case Wednesday => Thursday
    case Thursday => Friday
    case Friday => Saturday
    case Saturday => Sunday
    case Sunday => Monday
  }

  /** The table as declared puts Thursday at code 1 and Tuesday at code 3, so the code that
      follows Monday's does not name the day after Monday. */
  lemma WeekdayCodesOutOfCalendarOrder()
    ensures DecodeWeekday(0) == Some(Monday)
    ensures DecodeWeekday(1) == Some(Thursday) && DecodeWeekday(1) != Some(NextDay(Monday))
    ensures DecodeWeekday(3) == Some(Tuesday) && DecodeWeekday(4) != Some(NextDay(Tuesday))
  {
  }

  /** The weekday table in calendar order, Monday at 0 through Sunday at 6. */
  function DecodeCalendarWeekday(code: int): (r: Option<Weekday>)
    ensures r.Some? <==> 0 <= code <= 6
    ensures code == 0 ==> r == Some(Monday)
  {
    match code
    case 0 => Some(Monday)
    case 1 => Some(Tuesday)
    case 2 => Some(Wednesday)
    case 3 => Some(Thursday)
    case 4 => Some(Friday)
    case 5 => Some(Saturday)
    case 6 => Some(Sunday)
    case _ => None
  }

  /** Consecutive codes of the calendar table name consecutive days, and it agrees with the
      declared table everywhere except on Tuesday and Thursday. */
  lemma CalendarWeekdaysInOrder(code: int)
    requires 0 <= code < 6
    ensures DecodeCalendarWeekday(code + 1) == Some(NextDay(DecodeCalendarWeekday(code).value))
    ensures code + 1 != 1 && code + 1 != 3 ==> DecodeCalendarWeekday(code + 1) == DecodeWeekday(code + 1)
  {
  }

  datatype Period =
    Year | FirstSemester | SecondSemester | FirstTrimester | SecondTrimester | ThirdTrimester | FourthTrimester

  function DecodePeriod(code: int): (r: Option<Period>)
    ensures r.Some? <==> 1 <= code <= 7
  {
    match code
    case 1 => Some(Year)
    case 2 => Some(FirstSemester)
    case 3 => Some(SecondSemester)
    case 4 => Some(FirstTrimester)
    case 5 => Some(SecondTrimester)
    case 6 => Some(ThirdTrimester)
    case 7 => Some(FourthTrimester)
    case _ => None
  }

  function PeriodCode(p: Period): (code: U8)
    ensures DecodePeriod(code) == Some(p)
  {
    match p
    case Year => 1
    case FirstSemester => 2
    case SecondSemester => 3
    case FirstTrimester => 4
    case SecondTrimester => 5
    case ThirdTrimester => 6
    case FourthTrimester => 7
  }

  datatype Degree = BSc | MSc | PhD | IntegratedMSc | PostGraduation | AdvancedStudies | PreGraduation

  function DecodeDegree(code: int): (r: Option<Degree>)
    ensures r.Some? <==> 1 <= code <= 7
  {
    match code
    case 1 => Some(BSc)
    case 2 => Some(MSc)
    case 3 => Some(PhD)
    case 4 => Some(IntegratedMSc)
    case 5 => Some(PostGraduation)
    case 6 => Some(AdvancedStudies)
    case 7 => Some(PreGraduation)
    case _ => None
  }

  function DegreeCode(d: Degree): (code: U8)
    ensures DecodeDegree(code) == Some(d)
  {
    match d
    case BSc => 1
    case MSc => 2
    case PhD => 3
    case IntegratedMSc => 4
    case PostGraduation => 5
    case AdvancedStudies => 6
    case PreGraduation => 7
  }

  datatype ShiftType =
    | Theoretical | Practical | PracticalTheoretical | Seminar | TutorialOrientation
    | FieldWork | OnlineTheoretical | OnlinePractical | OnlinePracticalTheoretical

  function DecodeShiftType(code: int): (r: Option<ShiftType>)
    ensures r.Some? <==> 1 <= code <= 9
  {
    match code
    case 1 => Some(Theoretical)
    case 2 => Some(Practical)
    case 3 => Some(PracticalTheoretical)
    case 4 => Some(Seminar)
    case 5 => Some(TutorialOrientation)
    case 6 => Some(FieldWork)
    case 7 => Some(OnlineTheoretical)
    case 8 => Some(OnlinePractical)
    case 9 => Some(OnlinePracticalTheoretical)
    case _ => None
  }

  function ShiftTypeCode(t: ShiftType): (code: U8)
    ensures DecodeShiftType(code) == Some(t)
  {
    match t
    case Theoretical => 1
    case Practical => 2
    case PracticalTheoretical => 3
    case Seminar => 4
    case TutorialOrientation => 5
    case FieldWork => 6
    case OnlineTheoretical => 7
    case OnlinePractical => 8
    case OnlinePracticalTheoretical => 9
  }

  datatype FileCategory = Image | Slides | Problems | Protocol | SeminarFile | Exam | Test | Support | Others

  function DecodeFileCategory(code: int): (r: Option<FileCategory>)
    ensures r.Some? <==> 1 <= code <= 9
  {
    match code
    case 1 => Some(Image)
    case 2 => Some(Slides)
    case 3 => Some(Problems)
    case 4 => Some(Protocol)
    case 5 => Some(SeminarFile)
    case 6 => Some(Exam)
    case 7 => Some(Test)
    case 8 => Some(Support)
    case 9 => Some(Others)
    case _ => None
  }

  function FileCategoryCode(c: FileCategory): (code: U8)
    ensures DecodeFileCategory(code) == Some(c)
  {
    match c
    case Image => 1
    case Slides => 2
    case Problems => 3
    case Protocol => 4
    case SeminarFile => 5
    case Exam => 6
    case Test => 7
    case Support => 8
    case Others => 9
  }

  datatype FileLicense =
    | RightsReserved | PublicDomain | Gpl | Mit | Bsd | CcBy | CcBySa | CcByNc | CcBySaNc
    | GenericPermissive

  function DecodeFileLicense(code: int): (r: Option<FileLicense>)
    ensures r.Some? <==> 0 <= code <= 8 || code == 100
  {
    match code
    case 0 => Some(RightsReserved)
    case 1 => Some(PublicDomain)
    case 2 => Some(Gpl)
    case 3 => Some(Mit)
    case 4 => Some(Bsd)
    case 5 => Some(CcBy)
    case 6 => Some(CcBySa)
    case 7 => Some(CcByNc)
    case 8 => Some(CcBySaNc)
    case 100 => Some(GenericPermissive)
    case _ => None
  }

  function FileLicenseCode(l: FileLicense): (code: U8)
    ensures DecodeFileLicense(code) == Some(l)
  {
    match l
    case RightsReserved => 0
    case PublicDomain => 1
    case Gpl => 2
    case Mit => 3
    case Bsd => 4
    case CcBy => 5
    case CcBySa => 6
    case CcByNc => 7
    case CcBySaNc => 8
    case GenericPermissive => 100
  }

  datatype FileVisibility = Public | Students | Enrolled | Nobody

  function DecodeFileVisibility(code: int): (r: Option<FileVisibility>)
    ensures r.Some? <==> 0 <= code <= 3
  {
    match code
    case 0 => Some(Public)
    case 1 => Some(Students)
    case 2 => Some(Enrolled)
    case 3 => Some(Nobody)
    case _ => None
  }

  function FileVisibilityCode(v: FileVisibility): (code: U8)
    ensures DecodeFileVisibility(code) == Some(v)
  {
    match v
    case Public => 0
    case Students => 1
    case Enrolled => 2
    case Nobody => 3
  }

  datatype Season = Normal | ExamSeason | Special

  function DecodeSeason(code: int): (r: Option<Season>)
    ensures r.Some? <==> 1 <= code <= 3
  {
    match code
    case 1 => Some(Normal)
    case 2 => Some(ExamSeason)
    case 3 => Some(Special)
    case _ => None
  }

  function SeasonCode(s: Season): (code: U8)
    ensures DecodeSeason(code) == Some(s)
  {
    match s
    case Normal => 1
    case ExamSeason => 2
    case Special => 3
  }

  datatype ClassEventType =
    | TestEvent | ExamEvent | Discussion | FieldTrip | ProjectAnnouncement | ProjectDelivery
    | AdditionalClass | Presentation | SeminarEvent | TalkEvent

  function DecodeClassEventType(code: int): (r: Option<ClassEventType>)
    ensures r.Some? <==> 1 <= code <= 10
  {
    match code
    case 1 => Some(TestEvent)
    case 2 => Some(ExamEvent)
    case 3 => Some(Discussion)
    case 4 => Some(FieldTrip)
    case 5 => Some(ProjectAnnouncement)
    case 6 => Some(ProjectDelivery)
    case 7 => Some(AdditionalClass)
    case 8 => Some(Presentation)
    case 9 => Some(SeminarEvent)
    case 10 => Some(TalkEvent)
    case _ => None
  }

  function ClassEventTypeCode(t: ClassEventType): (code: U8)
    ensures DecodeClassEventType(code) == Some(t)
  {
    match t
    case TestEvent => 1
    case ExamEvent => 2
    case Discussion => 3
    case FieldTrip => 4
    case ProjectAnnouncement => 5
    case ProjectDelivery => 6
    case AdditionalClass => 7
    case Presentation => 8
    case SeminarEvent => 9
    case TalkEvent => 10
  }

  datatype RoomType = GenericRoom | Classroom | Auditorium | Laboratory | Computer | MeetingRoom | Masters | Cabinet

  function DecodeRoomType(code: int): (r: Option<RoomType>)
    ensures r.Some? <==> 1 <= code <= 8
  {
    match code
    case 1 => Some(GenericRoom)
    case 2 => Some(Classroom)
    case 3 => Some(Auditorium)
    case 4 => Some(Laboratory)
    case 5 => Some(Computer)
    case 6 => Some(MeetingRoom)
    case 7 => Some(Masters)
    case 8 => Some(Cabinet)
    case _ => None
  }

  function RoomTypeCode(t: RoomType): (code: U8)
    ensures DecodeRoomType(code) == Some(t)
  {
    match t
    case GenericRoom => 1
    case Classroom => 2
    case Auditorium => 3
    case Laboratory => 4
    case Computer => 5
    case MeetingRoom => 6
    case Masters => 7
    case Cabinet => 8
  }

  datatype GroupType = Institutional | Nuclei | AcademicAssociation | Pedagogic | Praxis | Community

  function DecodeGroupType(code: int): (r: Option<GroupType>)
    ensures r.Some? <==> 0 <= code <= 5
  {
    match code
    case 0 => Some(Institutional)
    case 1 => Some(Nuclei)
    case 2 => Some(AcademicAssociation)
    case 3 => Some(Pedagogic)
    case 4 => Some(Praxis)
    case 5 => Some(Community)
    case _ => None
  }

  function GroupTypeCode(t: GroupType): (code: U8)
    ensures DecodeGroupType(code) == Some(t)
  {
    match t
    case Institutional => 0
    case Nuclei => 1
    case AcademicAssociation => 2
    case Pedagogic => 3
    case Praxis => 4
    case Community => 5
  }

  datatype GroupVisibility = Secret | Closed | Request | Open

  function DecodeGroupVisibility(code: int): (r: Option<GroupVisibility>)
    ensures r.Some? <==> 0 <= code <= 3
  {
    match code
    case 0 => Some(Secret)
    case 1 => Some(Closed)
    case 2 => Some(Request)
    case 3 => Some(Open)
    case _ => None
  }

  function GroupVisibilityCode(v: GroupVisibility): (code: U8)
    ensures DecodeGroupVisibility(code) == Some(v)
  {
    match v
    case Secret => 0
    case Closed => 1
    case Request => 2
    case Open => 3
  }

  datatype GroupEventType = GenericEvent | Talk | Workshop | Party | Contest | Fair | Meeting

  function DecodeGroupEventType(code: int): (r: Option<GroupEventType>)
    ensures r.Some? <==> 1 <= code <= 7
  {
    match code
    case 1 => Some(GenericEvent)
    case 2 => Some(Talk)
    case 3 => Some(Workshop)
    case 4 => Some(Party)
    case 5 => Some(Contest)
    case 6 => Some(Fair)
    case 7 => Some(Meeting)
    case _ => None
  }

  function GroupEventTypeCode(t: GroupEventType): (code: U8)
    ensures DecodeGroupEventType(code) == Some(t)
  {
    match t
    case GenericEvent => 1
    case Talk => 2
    case Workshop => 3
    case Party => 4
    case Contest => 5
    case Fair => 6
    case Meeting => 7
  }

  /** Distinct variants of every table have distinct codes. */
  lemma CodesAreInjective()
    ensures forall a: Weekday, b: Weekday :: WeekdayCode(a) == WeekdayCode(b) ==> a == b
    ensures forall a: Period, b: Period :: PeriodCode(a) == PeriodCode(b) ==> a == b
    ensures forall a: Degree, b: Degree :: DegreeCode(a) == DegreeCode(b) ==> a == b
    ensures forall a: ShiftType, b: ShiftType :: ShiftTypeCode(a) == ShiftTypeCode(b) ==> a == b
    ensures forall a: FileCategory, b: FileCategory :: FileCategoryCode(a) == FileCategoryCode(b) ==> a == b
    ensures forall a: FileLicense, b: FileLicense :: FileLicenseCode(a) == FileLicenseCode(b) ==> a == b
    ensures forall a: FileVisibility, b: FileVisibility :: FileVisibilityCode(a) == FileVisibilityCode(b) ==> a == b
    ensures forall a: Season, b: Season :: SeasonCode(a) == SeasonCode(b) ==> a == b
    ensures forall a: ClassEventType, b: ClassEventType :: ClassEventTypeCode(a) == ClassEventTypeCode(b) ==> a == b
    ensures forall a: RoomType, b: RoomType :: RoomTypeCode(a) == RoomTypeCode(b) ==> a == b
    ensures forall a: GroupType, b: GroupType :: GroupTypeCode(a) == GroupTypeCode(b) ==> a == b
    ensures forall a: GroupVisibility, b: GroupVisibility :: GroupVisibilityCode(a) == GroupVisibilityCode(b) ==> a == b
    ensures forall a: GroupEventType, b: GroupEventType :: GroupEventTypeCode(a) == GroupEventTypeCode(b) ==> a == b
  {
    forall a: Weekday, b: Weekday | WeekdayCode(a) == WeekdayCode(b) ensures a == b {
      assert Some(a) == DecodeWeekday(WeekdayCode(a)) == Some(b);
    }
    forall a: Period, b: Period | PeriodCode(a) == PeriodCode(b) ensures a == b {
      assert Some(a) == DecodePeriod(PeriodCode(a)) == Some(b);
    }
    forall a: Degree, b: Degree | DegreeCode(a) == DegreeCode(b) ensures a == b {
      assert Some(a) == DecodeDegree(DegreeCode(a)) == Some(b);
    }
    forall a: ShiftType, b: ShiftType | ShiftTypeCode(a) == ShiftTypeCode(b) ensures a == b {
      assert Some(a) == DecodeShiftType(ShiftTypeCode(a)) == Some(b);
    }
    forall a: FileCategory, b: FileCategory | FileCategoryCode(a) == FileCategoryCode(b) ensures a == b {
      assert Some(a) == DecodeFileCategory(FileCategoryCode(a)) == Some(b);
    }
    forall a: FileLicense, b: FileLicense | FileLicenseCode(a) == FileLicenseCode(b) ensures a == b {
      assert Some(a) == DecodeFileLicense(FileLicenseCode(a)) == Some(b);
    }
    forall a: FileVisibility, b: FileVisibility | FileVisibilityCode(a) == FileVisibilityCode(b) ensures a == b {
      assert Some(a) == DecodeFileVisibility(FileVisibilityCode(a)) == Some(b);
    }
    forall a: Season, b: Season | SeasonCode(a) == SeasonCode(b) ensures a == b {
      assert Some(a) == DecodeSeason(SeasonCode(a)) == Some(b);
    }
    forall a: ClassEventType, b: ClassEventType | ClassEventTypeCode(a) == ClassEventTypeCode(b) ensures a == b {
      assert Some(a) == DecodeClassEventType(ClassEventTypeCode(a)) == Some(b);
    }
    forall a: RoomType, b: RoomType | RoomTypeCode(a) == RoomTypeCode(b) ensures a == b {
      assert Some(a) == DecodeRoomType(RoomTypeCode(a)) == Some(b);
    }
    forall a: GroupType, b: GroupType | GroupTypeCode(a) == GroupTypeCode(b) ensures a == b {
      assert Some(a) == DecodeGroupType(GroupTypeCode(a)) == Some(b);
    }
    forall a: GroupVisibility, b: GroupVisibility | GroupVisibilityCode(a) == GroupVisibilityCode(b) ensures a == b {
      assert Some(a) == DecodeGroupVisibility(GroupVisibilityCode(a)) == Some(b);
    }
    forall a: GroupEventType, b: GroupEventType | GroupEventTypeCode(a) == GroupEventTypeCode(b) ensures a == b {
      assert Some(a) == DecodeGroupEventType(GroupEventTypeCode(a)) == Some(b);
    }
  }

  /** The codes that appear in the recorded API payloads decode to the expected variants. */
  lemma RecordedPayloadCodes()
    ensures DecodeWeekday(2) == Some(Wednesday)
    ensures DecodePeriod(3) == Some(SecondSemester)
    ensures DecodeShiftType(4) == Some(Seminar)
    ensures DecodeShiftType(9) == Some(OnlinePracticalTheoretical)
    ensures DecodeFileCategory(9) == Some(Others)
  {
  }

  // ----------------------------------------------------------------------------------
  // Records
  // ----------------------------------------------------------------------------------

  datatype BasicAuthCredentials = BasicAuthCredentials(username: string, password: string)

  datatype TokenResult = TokenResult(token: AuthToken)

  datatype Department = Department(
    id: Key,
    name: string,
    description: Option<string>,
    courses: seq<Key>,
    building: Option<Key>)

  datatype Building = Building(id: Key, name: string, abbreviation: string, places: seq<Key>)

  datatype PlaceFeature = PlaceFeature(id: U32, name: string, description: string, icon: Option<string>)

  datatype Room = Room(
    department: Option<Key>,
    capacity: Option<U16>,
    doorNumber: Option<U16>,
    roomType: RoomType,
    description: Option<string>,
    equipment: Option<string>)

  datatype Place = Place(
    id: Key,
    name: string,
    floor: I8,
    building: Option<Key>,
    picture: Option<string>,
    pictureCover: Option<string>,
    features: seq<PlaceFeature>,
    roomMeta: Option<Room>)

  datatype Course = Course(
    id: Key,
    abbreviation: string,
    name: string,
    degree: Degree,
    department: Option<Key>)

  datatype Class = Class(
    id: Key,
    name: string,
    abbreviation: string,
    credits: U32,
    department: Option<Key>,
    instances: seq<Key>)

  datatype ClassInfoEntry = ClassInfoEntry(
    pt: Option<string>, en: Option<string>, time: Option<string>, editor: Option<string>)

  datatype ClassInfo = ClassInfo(
    program: ClassInfoEntry,
    assistance: ClassInfoEntry,
    extraInfo: ClassInfoEntry,
    objectives: ClassInfoEntry,
    competences: ClassInfoEntry,
    description: ClassInfoEntry,
    bibliography: ClassInfoEntry,
    requirements: ClassInfoEntry,
    teachingMethods: ClassInfoEntry,
    evaluationMethods: ClassInfoEntry)

  datatype ClassInfoSources = ClassInfoSources(upstream: Option<ClassInfo>)

  datatype ClassShiftInstance = ClassShiftInstance(
    weekday: Weekday, start: U16, duration: U16, room: Option<Key>)

  datatype ClassShift = ClassShift(
    id: Key,
    number: U16,
    shiftType: ShiftType,
    teachers: seq<Key>,
    instances: seq<ClassShiftInstance>)

  datatype Enrollment = Enrollment(
    id: Key,
    classInstance: Key,
    student: Key,
    attendance: Option<bool>,
    attendanceDate: Option<string>,
    normalGrade: Option<U8>,
    normalGradeDate: Option<string>,
    recourseGrade: Option<U8>,
    recourseGradeDate: Option<string>,
    specialGrade: Option<U8>,
    specialGradeDate: Option<string>,
    improvementGrade: Option<U8>,
    improvementGradeDate: Option<string>,
    approved: Option<bool>,
    grade: Option<U8>)

  /** A class instance arrives with its enrollments and shifts nested in full. */
  datatype ClassInstance = ClassInstance(
    id: Key,
    year: U32,
    parent: Key,
    department: Option<Key>,
    period: Period,
    enrollments: seq<Enrollment>,
    shifts: seq<ClassShift>,
    information: ClassInfoSources,
    avgGrade: Option<F32>)

  datatype Student = Student(
    id: Key,
    name: string,
    abbreviation: Option<string>,
    number: U32,
    enrollments: seq<Key>,
    shifts: seq<Key>,
    firstYear: Option<U32>,
    lastYear: Option<U32>,
    course: Option<Key>,
    avgGrade: Option<U32>,
    url: string)

  datatype Teacher = Teacher(
    id: Key,
    name: string,
    shortName: string,
    abbreviation: Option<string>,
    firstYear: Option<U32>,
    lastYear: Option<U32>,
    phone: Option<string>,
    email: Option<string>,
    thumb: Option<string>,
    rank: Option<string>,
    departments: seq<Key>,
    shifts: seq<Key>,
    url: string)

  datatype User = User(id: Key)

  /** The summary form of a group returned by the group listing. */
  datatype WeakGroup = WeakGroup(
    id: Key,
    name: string,
    abbreviation: string,
    groupType: GroupType,
    official: bool,
    url: string,
    thumb: Option<string>)

  datatype GroupAnnouncement = GroupAnnouncement(author: Key, title: string, content: string, datetime: DateTime)
  datatype EventAnnouncement = EventAnnouncement(author: Key, datetime: DateTime, event: Key)
  datatype GalleryItem = GalleryItem
  datatype GalleryUpload = GalleryUpload(author: Key, datetime: DateTime, item: GalleryItem)

  datatype GroupActivity =
    | Announcement(announcement: GroupAnnouncement)
    | EventAnnounced(eventAnnouncement: EventAnnouncement)
    | Gallery(upload: GalleryUpload)

  datatype GroupSchedulingOnce = GroupSchedulingOnce(
    title: Option<string>, datetime: DateTime, duration: U16, revoked: bool)

  datatype GroupSchedulingPeriodic = GroupSchedulingPeriodic(
    title: Option<string>, weekday: Weekday, startDate: Date, endDate: Date, duration: U16, revoked: bool)

  datatype GroupScheduling =
    | ScheduleOnce(once: GroupSchedulingOnce)
    | SchedulePeriodic(periodic: GroupSchedulingPeriodic)

  datatype Event = Event(
    id: Key,
    title: string,
    description: string,
    startDate: Date,
    duration: Option<U16>,
    place: Option<Key>,
    capacity: Option<U32>,
    cost: Option<U32>,
    eventType: GroupEventType)

  /** The full form of a group, returned when one group is fetched by key. */
  datatype Group = Group(
    id: Key,
    name: string,
    abbreviation: string,
    groupType: GroupType,
    url: string,
    thumb: Option<string>,
    outsidersOpenness: GroupVisibility,
    official: bool,
    activities: seq<GroupActivity>,
    scheduleEntries: seq<GroupScheduling>,
    events: seq<Event>)

  datatype EventsPage = EventsPage(
    count: U32, next: Option<string>, previous: Option<string>, results: seq<Event>)

  datatype NewsItem = NewsItem(
    id: Key, title: string, summary: string, datetime: DateTime, thumb: Option<string>, url: string)

  datatype NewsPage = NewsPage(
    count: U32, next: Option<string>, previous: Option<string>, results: seq<NewsItem>)

  // The id of each cached record kind: the cache files every record under its own id.
  function DepartmentId(d: Department): Key { d.id }
  function BuildingId(b: Building): Key { b.id }
  function PlaceId(p: Place): Key { p.id }
  function CourseId(c: Course): Key { c.id }
  function ClassId(c: Class): Key { c.id }
  function ClassInstanceId(c: ClassInstance): Key { c.id }
  function ShiftId(s: ClassShift): Key { s.id }
  function StudentId(s: Student): Key { s.id }
  function TeacherId(t: Teacher): Key { t.id }
  function EnrollmentId(e: Enrollment): Key { e.id }
  function WeakGroupId(g: WeakGroup): Key { g.id }
}
