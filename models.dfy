/** The domain records handed to library users (src/models.rs). Relations are lazy
    references; the linked form of each raw record is built in module Conversion. Where the
    declarations in src/models.rs disagree with what the `link` functions of
    src/network/model_conversion.rs construct, these declarations follow the `link`
    functions. */
module Models {
  import opened Keys
  import opened Errors
  import opened Refs
  import RawModels

  type DateTime = RawModels.DateTime
  type Date = RawModels.Date
  type F32 = RawModels.F32
  type I8 = RawModels.I8
  type ClassInfo = RawModels.ClassInfo

  datatype Weekday = Monday | Thursday | Wednesday | Tuesday | Friday | Saturday | Sunday

  datatype Period =
    Year | FirstSemester | SecondSemester | FirstTrimester | SecondTrimester | ThirdTrimester | FourthTrimester

  datatype Degree = BSc | MSc | PhD | IntegratedMSc | PostGraduation | AdvancedStudies | PreGraduation

  datatype ShiftType =
    | Theoretical | Practical | PracticalTheoretical | Seminar | TutorialOrientation
    | FieldWork | OnlineTheoretical | OnlinePractical | OnlinePracticalTheoretical

  datatype RoomType = Generic | Classroom | Auditorium | Laboratory | Computer | Meeting | Masters | Cabinet

  datatype GroupType = Institutional | Nuclei | AcademicAssociation | Pedagogic | Praxis | Community

  datatype GroupVisibility = Secret | Closed | Request | Open

  datatype GroupEventType = Generic | Talk | Workshop | Party | Contest | Fair | Meeting

  datatype Department = Department(
    id: Key,
    name: string,
    description: Option<string>,
    courses: seq<ObjRef<Course, Key>>,
    building: Option<ObjRef<Building, Key>>)

  datatype Building = Building(
    id: Key,
    name: string,
    abbreviation: string,
    places: seq<ObjRef<Place, Key>>)

  datatype Room = Room(
    department: Option<ObjRef<Department, Key>>,
    capacity: Option<U16>,
    doorNumber: Option<U16>,
    roomType: RoomType,
    description: Option<string>,
    equipment: Option<string>)

  datatype PlaceVariant = Generic | Room(room: Room)

  datatype Place = Place(
    id: Key,
    variant: PlaceVariant,
    name: string,
    floor: I8,
    building: Option<ObjRef<Building, Key>>,
    picture: Option<string>,
    pictureCover: Option<string>)

  datatype Course = Course(
    id: Key,
    abbreviation: string,
    name: string,
    degree: Degree,
    department: Option<ObjRef<Department, Key>>)

  datatype Class = Class(
    id: Key,
    name: string,
    abbreviation: string,
    credits: U32,
    department: Option<ObjRef<Department, Key>>,
    instances: seq<ObjRef<ClassInstance, Key>>)

  datatype ClassInstance = ClassInstance(
    id: Key,
    year: U32,
    period: Period,
    enrollments: seq<ObjRef<Enrollment, Key>>,
    information: Option<ClassInfo>,
    avgGrade: Option<F32>,
    shifts: seq<ObjRef<ClassShift, Key>>,
    department: Option<ObjRef<Department, Key>>)

  datatype ClassShiftInstance = ClassShiftInstance(
    weekday: Weekday,
    start: U16,
    duration: U16,
    room: Option<ObjRef<Place, Key>>)

  datatype ClassShift = ClassShift(
    id: Key,
    number: U16,
    shiftType: ShiftType,
    teachers: seq<ObjRef<Teacher, Key>>,
    instances: seq<ClassShiftInstance>)

  datatype Student = Student(
    id: Key,
    name: string,
    abbreviation: Option<string>,
    number: U32,
    enrollments: seq<ObjRef<Enrollment, Key>>,
    shifts: seq<ObjRef<ClassShift, Key>>,
    firstYear: Option<U32>,
    lastYear: Option<U32>,
    course: Option<ObjRef<Course, Key>>,
    avgGrade: Option<U32>,
    url: string)

  datatype Teacher = Teacher(
    id: Key,
    name: string,
    abbreviation: Option<string>,
    firstYear: Option<U32>,
    lastYear: Option<U32>,
    phone: Option<string>,
    email: Option<string>,
    thumb: Option<string>,
    rank: Option<string>,
    departments: seq<ObjRef<Department, Key>>,
    shifts: seq<ObjRef<ClassShift, Key>>,
    url: string)

  datatype Enrollment = Enrollment(
    id: Key,
    classInstance: ObjRef<ClassInstance, Key>,
    student: ObjRef<Student, Key>,
    attendance: Option<bool>,
    attendanceDate: Option<string>,
    normalGrade: Option<U8>,
    normalGradeDate: Option<string>,
    recourseGrade: Option<U8>,
    recourseGradeDate: Option<string>,
    specialGrade: Option<U8>,
    specialGradeDate: Option<string>,
    improvementGrade: Option<U8>,
    improvementGradeDate: Option<string>,
    approved: Option<bool>,
    grade: Option<U8>)

  datatype User = User(id: Key)

  datatype GroupAnnouncement = GroupAnnouncement(
    author: ObjRef<User, Key>, title: string, content: string, datetime: DateTime)

  datatype EventAnnouncement = EventAnnouncement(
    author: ObjRef<User, Key>, event: ObjRef<Event, Key>, datetime: DateTime)

  datatype GalleryItem = GalleryItem

  datatype GalleryUpload = GalleryUpload(author: ObjRef<User, Key>, datetime: DateTime, item: GalleryItem)

  datatype GroupActivity =
    | Announcement(announcement: GroupAnnouncement)
    | EventAnnouncement(eventAnnouncement: EventAnnouncement)
    | GalleryUpload(upload: GalleryUpload)

  datatype GroupSchedulingOnce = GroupSchedulingOnce(
    title: Option<string>, datetime: DateTime, duration: U16, revoked: bool)

  datatype GroupSchedulingPeriodic = GroupSchedulingPeriodic(
    title: Option<string>, weekday: Weekday, startDate: Date, endDate: Date, duration: U16, revoked: bool)

  datatype GroupScheduling = Once(once: GroupSchedulingOnce) | Periodic(periodic: GroupSchedulingPeriodic)

  datatype Event = Event(
    id: Key,
    title: string,
    description: string,
    startDate: Date,
    duration: Option<U16>,
    place: Option<ObjRef<Place, Key>>,
    capacity: Option<U32>,
    cost: Option<U32>,
    eventType: GroupEventType)

  /** A group. The summary form has `upgraded == false` and the four lazily filled parts
      absent; the full form has `upgraded == true` and all four present (each part is a
      once-settable cell in the source, modelled as an `Option`). */
  datatype Group = Group(
    id: Key,
    name: string,
    abbreviation: string,
    url: string,
    thumb: Option<string>,
    groupType: GroupType,
    official: bool,
    upgraded: bool,
    outsidersOpenness: Option<GroupVisibility>,
    activities: Option<seq<GroupActivity>>,
    schedulings: Option<seq<GroupScheduling>>,
    events: Option<seq<Event>>)

  datatype EventsPage = EventsPage(
    previousPage: Option<ObjRef<Option<EventsPage>, PageKey>>,
    nextPage: ObjRef<Option<EventsPage>, PageKey>,
    items: seq<Event>)

  datatype NewsItem = NewsItem(
    id: Key, title: string, summary: string, datetime: DateTime, thumb: Option<string>, url: string)

  datatype NewsPage = NewsPage(
    previousPage: Option<ObjRef<Option<NewsPage>, PageKey>>,
    nextPage: ObjRef<Option<NewsPage>, PageKey>,
    items: seq<NewsItem>)
}
