# IronPlanet client core, modelled in Dafny

IronPlanet is a client library for the Supernova academic service. Its core is a
read-through cache of entity records (departments, buildings, places, courses, classes,
class instances, shifts, students, teachers, enrollments, groups) in front of a remote
JSON API. Records come from the API with plain integer keys. The library "links" each one
into a domain record whose relations are lazy references (`ObjRef`). A relation getter
resolves its references through the same cache. Two facades share the cache:

- the asynchronous `Supernova` (src/lib.rs). It has per-call cache bypass, an
  authenticated side that stores a token, and paginated events and news.
- the older synchronous `NetworkClient` (src/network/client.rs).

The model is organised by source file:

| module | file | models |
|---|---|---|
| `Keys`, `Errors` | keys.dfy, errors.dfy | key types; the error kinds and `Result`/`Option` |
| `Http` | http.dfy | status classification, request building (`Request` class) |
| `RawModels` | raw_models.dfy | wire records, enumeration discriminant tables |
| `Refs`, `Models` | refs.dfy, models.dfy | lazy references, domain records |
| `Conversion` | conversion.dfy | the `link` functions, `From` conversions, page keys |
| `Endpoints` | endpoints.dfy | URL rendering; the base and authenticated request sides (classes) |
| `Cache` | cache.dfy | `ClientCache` (class) and the pure read-through specifications |
| `IronPlanet` | supernova.dfy | the `Supernova` facade (class) |
| `Coersion`, `Relations` | coersion.dfy, relations.dfy | `coerce` and the relation getters of src/models.rs |
| `LegacyClient` | legacy_client.dfy | the synchronous `NetworkClient` facade (class) |

The remote service is a fixed oracle: `Endpoints.Remote` holds one function per
endpoint. Each request side counts the requests it sends in a ghost `requests` field. The
cache facades are specified against pure functions:

- `Cache.ReadThrough` for a single read.
- `Cache.ReadAll` for a listing.
- `IronPlanet.ReadInstance` for a class instance read.
- `Cache.ResolveAll` and `Cache.ResolveOpt` for relation getters.

Lemmas about these functions state the caching promises:

- a listing serves later single reads;
- a populated listing costs nothing;
- read-your-write;
- resolution stops at the first error;
- a warm resolution fetches nothing;
- a class instance is never served from the cache by the asynchronous facade.

Three behaviours of the code are easy to misread; the model follows the code:

- Logout turns a 404 or a redirection into `ResourceMissing`. The status check in
  src/network/http.rs:98-112 runs before the logout handler reads the status, so the
  handler's own `Client`/`Server`/`Generic` mapping only ever sees 1xx, 2xx and codes of
  600 and above.
- `get_class_instance` files the nested enrollments and shifts but never the instance
  itself. Its cache-hit branch is therefore reachable only through a cache filled
  elsewhere (`IronPlanet.InstanceNeverCachedItself`).
- The record declarations in src/models.rs are stale with respect to
  src/network/model_conversion.rs. For example, a `ClassInstance` has enrollments there,
  not students and teachers. The model follows what the `link` functions build.

## Model

| member | source | states |
|---|---|---|
| Http.CheckError | src/network/http.rs:98-112 | 5xx is `Server`; 404 and 3xx are `ResourceMissing`; any other 4xx is `Client`; everything else passes, each as an if-and-only-if |
| Http.Send | src/network/http.rs:43-57 | a request succeeds exactly when the transport succeeded and the status passes `check_error`; transport errors pass through |
| Http.HeaderToken | src/network/http.rs:34-36 | reads a token back from a `Token <t>` header value, exactly when the value has that scheme |
| Http.Request.constructor | src/network/http.rs:17-27 | a new request is a GET for the URL carrying only the version header |
| Http.Request.Header | src/network/http.rs:29-32 | appends one header, keeping the earlier ones |
| Http.Request.AttachToken | src/network/http.rs:34-36 | appends one `Authorization` header from which the same token reads back |
| Http.Request.SetMethod | src/network/http.rs:38-41 | sets the method |
| RawModels.DecodeWeekday | src/network/models.rs:57-65 | decodes exactly the codes 0-6, in the declared table |
| RawModels.WeekdayCode | src/network/models.rs:57-65 | every weekday's code decodes back to it |
| RawModels.WeekdayCodesOutOfCalendarOrder | src/network/models.rs:57-65 | as declared, code 1 is Thursday and code 3 is Tuesday, so successive codes are not successive days |
| RawModels.DecodeCalendarWeekday | src/network/models.rs:57-65 | the calendar-ordered table: decodes exactly 0-6, with 0 as Monday |
| RawModels.CalendarWeekdaysInOrder | src/network/models.rs:57-65 | in the calendar table, each code names the day after the previous code's day; it agrees with the declared table except at codes 1 and 3 |
| RawModels.DecodePeriod | src/network/models.rs:69-77 | decodes exactly the codes 1-7 |
| RawModels.PeriodCode | src/network/models.rs:69-77 | every period's code decodes back to it |
| RawModels.DecodeDegree | src/network/models.rs:81-89 | decodes exactly the codes 1-7 |
| RawModels.DegreeCode | src/network/models.rs:81-89 | every degree's code decodes back to it |
| RawModels.DecodeShiftType | src/network/models.rs:102-112 | decodes exactly the codes 1-9 |
| RawModels.ShiftTypeCode | src/network/models.rs:102-112 | every shift type's code decodes back to it |
| RawModels.DecodeFileCategory | src/network/models.rs:116-126 | decodes exactly the codes 1-9 |
| RawModels.FileCategoryCode | src/network/models.rs:116-126 | every file category's code decodes back to it |
| RawModels.DecodeFileLicense | src/network/models.rs:130-141 | decodes exactly the codes 0-8 and 100 |
| RawModels.FileLicenseCode | src/network/models.rs:130-141 | every licence's code decodes back to it |
| RawModels.DecodeFileVisibility | src/network/models.rs:145-150 | decodes exactly the codes 0-3 |
| RawModels.FileVisibilityCode | src/network/models.rs:145-150 | every visibility's code decodes back to it |
| RawModels.DecodeSeason | src/network/models.rs:154-158 | decodes exactly the codes 1-3 |
| RawModels.SeasonCode | src/network/models.rs:154-158 | every season's code decodes back to it |
| RawModels.DecodeClassEventType | src/network/models.rs:162-173 | decodes exactly the codes 1-10 |
| RawModels.ClassEventTypeCode | src/network/models.rs:162-173 | every class event type's code decodes back to it |
| RawModels.DecodeRoomType | src/network/models.rs:177-186 | decodes exactly the codes 1-8 |
| RawModels.RoomTypeCode | src/network/models.rs:177-186 | every room type's code decodes back to it |
| RawModels.DecodeGroupType | src/network/models.rs:438-445 | decodes exactly the codes 0-5 |
| RawModels.GroupTypeCode | src/network/models.rs:438-445 | every group type's code decodes back to it |
| RawModels.DecodeGroupVisibility | src/network/models.rs:449-454 | decodes exactly the codes 0-3 |
| RawModels.GroupVisibilityCode | src/network/models.rs:449-454 | every group visibility's code decodes back to it |
| RawModels.DecodeGroupEventType | src/network/models.rs:458-466 | decodes exactly the codes 1-7 |
| RawModels.GroupEventTypeCode | src/network/models.rs:458-466 | every group event type's code decodes back to it |
| RawModels.CodesAreInjective | src/network/models.rs:55-466 | in every table, distinct variants have distinct codes |
| RawModels.RecordedPayloadCodes | src/network/tests/deserialization.rs:221-482 | the codes in the recorded payloads decode to the variants the fixtures name |
| Refs.RefsOf | src/coersion.rs:29-37 | one reference per key, in order, each holding its key |
| Refs.KeysOf | src/coersion.rs:20-27 | the identifiers of a reference list, in order |
| Refs.OptRef | src/coersion.rs:29-37 | an optional key becomes a reference exactly when present, holding that key |
| Refs.OptKey | src/coersion.rs:20-27 | the identifier of an optional reference, present exactly when the reference is |
| Refs.RefsRoundTrip | src/coersion.rs:20-37 | building references from keys and reading their keys back are inverse both ways |
| Refs.RefsOfAppend | src/coersion.rs:29-37 | building references commutes with concatenating key lists |
| Refs.OptRefRoundTrip | src/coersion.rs:20-37 | optional keys and optional references convert back and forth without loss |
| Conversion.ConvertDegree | src/network/model_conversion.rs:241-253 | the domain degree maps back to the raw degree it came from |
| Conversion.ConvertPeriod | src/network/model_conversion.rs:255-267 | the domain period maps back to the raw period it came from |
| Conversion.ConvertWeekday | src/network/model_conversion.rs:269-281 | the domain weekday maps back to the raw weekday it came from |
| Conversion.ConvertRoomType | src/network/model_conversion.rs:283-296 | the domain room type maps back to the raw room type it came from |
| Conversion.ConvertShiftType | src/network/model_conversion.rs:298-314 | the domain shift type maps back to the raw shift type it came from |
| Conversion.ConvertGroupType | src/network/model_conversion.rs:554-565 | the domain group type maps back to the raw group type it came from |
| Conversion.ConvertGroupVisibility | src/network/model_conversion.rs:567-576 | the domain visibility maps back to the raw visibility it came from |
| Conversion.ConvertGroupEventType | src/network/model_conversion.rs:578-590 | the domain event type maps back to the raw event type it came from |
| Conversion.ConversionsBijective | src/network/model_conversion.rs:241-314 | every `From` conversion is injective and onto the domain enumeration |
| Conversion.Absolute | src/network/model_conversion.rs:159 | the absolute URL is the service root followed by the relative one |
| Conversion.AbsoluteOpt | src/network/model_conversion.rs:177 | an optional URL is made absolute exactly when present |
| Conversion.LinkBuilding | src/network/model_conversion.rs:12-25 | the linked building keeps the id and references exactly the listed places |
| Conversion.BuildingRoundTrip | src/network/model_conversion.rs:12-25 | linking a building loses nothing, both ways |
| Conversion.LinkDepartment | src/network/model_conversion.rs:56-72 | keeps the id; references exactly the courses and the optional building |
| Conversion.DepartmentRoundTrip | src/network/model_conversion.rs:56-72 | linking a department loses nothing, both ways |
| Conversion.LinkCourse | src/network/model_conversion.rs:74-86 | keeps id and degree; references the optional department |
| Conversion.CourseRoundTrip | src/network/model_conversion.rs:74-86 | linking a course loses nothing, both ways |
| Conversion.LinkClass | src/network/model_conversion.rs:88-107 | keeps id and credits; references the department and exactly the instances |
| Conversion.ClassRoundTrip | src/network/model_conversion.rs:88-107 | linking a class loses nothing, both ways |
| Conversion.LinkClassInstance | src/network/model_conversion.rs:109-134 | references the ids of the nested enrollments and shifts, in order; keeps year, period, department, upstream information, average grade |
| Conversion.ClassInstanceLinkForgets | src/network/model_conversion.rs:109-134 | the link depends on the nested records only through their ids and ignores the parent class |
| Conversion.LinkShiftInstance | src/network/model_conversion.rs:328-339 | keeps weekday, start and duration; references the optional room |
| Conversion.LinkShift | src/network/model_conversion.rs:221-239 | keeps id, number and type; references exactly the teachers; links every slot in order |
| Conversion.ShiftRoundTrip | src/network/model_conversion.rs:221-239 | linking a shift loses nothing |
| Conversion.LinkStudent | src/network/model_conversion.rs:136-162 | keeps id and number; references enrollments, shifts and course; the URL becomes absolute |
| Conversion.StudentRoundTrip | src/network/model_conversion.rs:136-162 | linking a student loses nothing |
| Conversion.LinkTeacher | src/network/model_conversion.rs:164-194 | references departments and shifts; URL and thumbnail become absolute |
| Conversion.TeacherRoundTrip | src/network/model_conversion.rs:164-194 | linking a teacher loses only the short name |
| Conversion.LinkEnrollment | src/network/model_conversion.rs:196-219 | keeps the id; references its class instance and its student |
| Conversion.EnrollmentRoundTrip | src/network/model_conversion.rs:196-219 | linking an enrollment loses nothing, both ways |
| Conversion.LinkPlace | src/network/model_conversion.rs:27-54 | floor 0 and no pictures; a room variant exactly when room data is present, with its department reference |
| Conversion.PlaceRoundTrip | src/network/model_conversion.rs:27-54 | linking a place loses exactly the floor, the two pictures and the features |
| Conversion.LinkEvent | src/network/model_conversion.rs:436-452 | keeps id and type; references the optional place |
| Conversion.EventRoundTrip | src/network/model_conversion.rs:436-452 | linking an event loses nothing |
| Conversion.LinkNewsItem | src/network/model_conversion.rs:613-629 | keeps the id; URL and thumbnail become absolute |
| Conversion.NewsItemRoundTrip | src/network/model_conversion.rs:613-629 | linking a news item loses nothing |
| Conversion.LinkActivity | src/network/model_conversion.rs:420-434 | keeps the activity kind; the author and an announced event become references holding their keys; title, content and datetime are copied |
| Conversion.ActivityRoundTrip | src/network/model_conversion.rs:455-490 | linking an activity loses nothing, both ways; a gallery item carries no data on either side |
| Conversion.LinkScheduling | src/network/model_conversion.rs:493-529 | keeps the entry's kind; title, datetime or start and end dates, duration and revoked are copied; a periodic entry's weekday is converted |
| Conversion.SchedulingRoundTrip | src/network/model_conversion.rs:493-529 | converting a schedule entry loses nothing, both ways |
| Conversion.LinkWeakGroup | src/network/model_conversion.rs:352-374 | keeps id, name, abbreviation, type and official flag; URL and thumbnail become absolute; a listed group links as not upgraded, with its four lazy parts unset |
| Conversion.WeakGroupRoundTrip | src/network/model_conversion.rs:352-374 | linking a group summary loses nothing |
| Conversion.LinkGroup | src/network/model_conversion.rs:376-419 | a fetched group links as upgraded, with openness set and every activity, schedule entry and event linked in order |
| Conversion.UpgradeFillsLazyParts | src/network/model_conversion.rs:352-419 | the full link of a group equals its summary link with exactly the lazy parts filled in |
| Conversion.NextPageKey | src/network/model_conversion.rs:538 | the next page keeps the limit and advances the offset by it, modulo 2^32 |
| Conversion.NthPageKeyOffset | src/network/model_conversion.rs:538-544 | without wrap-around, the n-th next page starts n limits further on |
| Conversion.LinkEventsPage | src/network/model_conversion.rs:531-552 | no previous page; the next page reference holds the next key; every event is linked in order |
| Conversion.LinkNewsPage | src/network/model_conversion.rs:594-611 | no previous page; the next page reference holds the next key; every item is linked in order |
| Endpoints.Digit | src/network/endpoints.rs:76-150 | a digit character for each value 0-9 |
| Endpoints.Decimal | src/network/endpoints.rs:76-150 | a key renders as non-empty digits without a leading zero |
| Endpoints.DecimalRoundTrip | src/network/endpoints.rs:76-150 | a rendered key parses back to itself |
| Endpoints.DecimalInjective | src/network/endpoints.rs:76-150 | distinct keys render differently |
| Endpoints.RenderUnderApiRoot | src/network/endpoints.rs:76-79 | every endpoint URL extends the service root followed by `/api/` |
| Endpoints.ProfileIsService | src/network/endpoints.rs:84-86 | a profile URL is the service URL with the same key |
| Endpoints.KeyedPath | src/network/endpoints.rs:88-117 | every single-entity path is its kind's prefix followed by the decimal key |
| Endpoints.RenderKeyInjective | src/network/endpoints.rs:88-117 | two single-entity endpoints of one kind share a URL only for the same key |
| Endpoints.ClassAndInstanceDiffer | src/network/endpoints.rs:103-106 | no class URL equals a class-instance URL |
| Endpoints.DownloadUrlOfRooted | src/network/endpoints.rs:170-175 | a URL that already starts with the service root is used as is |
| Endpoints.DownloadUrlOfPath | src/network/endpoints.rs:170-175 | a path starting with `/` is prefixed with the service root |
| Endpoints.VerifyOutcome | src/network/endpoints.rs:194-206 | validation succeeds exactly on the body `Success`; another body is `Authentication`; a request error passes through |
| Endpoints.LogoutStatusTable | src/network/endpoints.rs:369-392 | the full status-to-outcome table of logout, the status check included |
| Endpoints.Authorized | src/network/endpoints.rs:329-344 | without a token the answer is `MissingAuthentication`; with one, the service's answer for that token |
| Endpoints.BaseSupernova.constructor | src/network/endpoints.rs:152-153 | a fresh base side has sent nothing |
| Endpoints.BaseSupernova.FetchBytes | src/network/endpoints.rs:166-179 | one request to the download URL |
| Endpoints.BaseSupernova.Login | src/network/endpoints.rs:182-191 | one request; the service's login answer |
| Endpoints.BaseSupernova.Verify | src/network/endpoints.rs:194-206 | one request; succeeds exactly when the service validates the token |
| Endpoints.BaseSupernova.FetchDepartments | src/network/endpoints.rs:208-212 | one request; the service's listing |
| Endpoints.BaseSupernova.FetchBuildings | src/network/endpoints.rs:214-218 | one request; the service's listing |
| Endpoints.BaseSupernova.FetchClasses | src/network/endpoints.rs:220-224 | one request; the service's listing |
| Endpoints.BaseSupernova.FetchCourses | src/network/endpoints.rs:226-230 | one request; the service's listing |
| Endpoints.BaseSupernova.FetchPlaces | src/network/endpoints.rs:232-236 | one request; the service's listing |
| Endpoints.BaseSupernova.FetchBuilding | src/network/endpoints.rs:238-244 | one request; the service's record for the key |
| Endpoints.BaseSupernova.FetchPlace | src/network/endpoints.rs:246-251 | one request; the service's record for the key |
| Endpoints.BaseSupernova.FetchDepartment | src/network/endpoints.rs:253-259 | one request; the service's record for the key |
| Endpoints.BaseSupernova.FetchCourse | src/network/endpoints.rs:261-266 | one request; the service's record for the key |
| Endpoints.BaseSupernova.FetchClass | src/network/endpoints.rs:268-273 | one request; the service's record for the key |
| Endpoints.BaseSupernova.FetchGroups | src/network/endpoints.rs:275-280 | one request; the service's listing |
| Endpoints.BaseSupernova.FetchGroup | src/network/endpoints.rs:282-288 | one request; the service's record for the key |
| Endpoints.BaseSupernova.FetchEvents | src/network/endpoints.rs:290-296 | one request; the service's page for the key |
| Endpoints.BaseSupernova.FetchNews | src/network/endpoints.rs:298-304 | one request; the service's page for the key |
| Endpoints.AuthenticatedSupernova.constructor | src/network/endpoints.rs:307-310 | no token stored, nothing sent |
| Endpoints.AuthenticatedSupernova.SetToken | src/network/endpoints.rs:313-319 | the stored token is replaced |
| Endpoints.AuthenticatedSupernova.ClearToken | src/network/endpoints.rs:321-327 | no token is stored afterwards |
| Endpoints.AuthenticatedSupernova.FetchBytes | src/network/endpoints.rs:347-367 | without a token, `MissingAuthentication` and no request; with one, one request to the download URL |
| Endpoints.AuthenticatedSupernova.Logout | src/network/endpoints.rs:369-392 | without a token, `MissingAuthentication` and no request; with one, the logout outcome of the response |
| Endpoints.AuthenticatedSupernova.FetchClassInstance | src/network/endpoints.rs:394-400 | the authorized answer; one request only when a token is stored |
| Endpoints.AuthenticatedSupernova.FetchStudent | src/network/endpoints.rs:402-408 | the authorized answer; one request only when a token is stored |
| Endpoints.AuthenticatedSupernova.FetchTeacher | src/network/endpoints.rs:410-416 | the authorized answer; one request only when a token is stored |
| Endpoints.AuthenticatedSupernova.FetchEnrollment | src/network/endpoints.rs:418-424 | the authorized answer; one request only when a token is stored |
| Endpoints.AuthenticatedSupernova.FetchShift | src/network/endpoints.rs:426-431 | the authorized answer; one request only when a token is stored |
| Cache.InsertAll | src/lib.rs:109-111 | inserting a listing adds exactly its ids, keeps the other entries, and keeps every record under its own id |
| Cache.InsertAllLastWins | src/lib.rs:109-111 | for a listed key, the last listed record with that id wins, whatever was cached before |
| Cache.InsertAllIdempotent | src/lib.rs:109-111 | inserting the same listing twice equals inserting it once |
| Cache.InsertRecords | src/lib.rs:109-111 | the insertion loop computes `InsertAll` |
| Cache.LinkedValues | src/lib.rs:97-101 | lists every cached record exactly once, linked, in some order of the keys |
| Cache.ReadThrough | src/lib.rs:264-283 | fetches exactly when bypassing or missing; a hit answers the cached record unchanged; an error leaves the map; a fetched record is filed under its own id |
| Cache.ReadThroughFiles | src/lib.rs:264-283 | a read keeps every record under its own id, and the answered record is then cached |
| Cache.ReadYourWrite | src/lib.rs:264-283 | after a read that returned the record for its key, a cache-first read of that key is a hit with the same record |
| Cache.BypassWritesThrough | src/lib.rs:264-283 | a bypassing read still fetches and replaces the cached record |
| Cache.ReadAll | src/lib.rs:89-122 | fetches exactly when bypassing or not populated; a failed fetch changes nothing; a successful one populates and inserts the listing |
| Cache.ListingServesSingleReads | src/lib.rs:89-122 | after a fetched listing, a cache-first read of any listed key is a hit |
| Cache.PopulatedListingIsFree | src/lib.rs:89-122 | once a listing succeeded, a cache-first listing fetches nothing and changes nothing |
| Cache.ResolveAll | src/models.rs:322-328 | on success, one result per reference; at most one fetch per reference |
| Cache.ResolveAllStops | src/models.rs:322-328 | after the first failing reference, nothing more is resolved |
| Cache.ResolveAllNext | src/models.rs:322-328 | one more reference either ends the resolution with its error or appends its record |
| Cache.ResolvedPrefix | src/models.rs:322-328 | references are resolved in order: a prefix resolves to the prefix of the results |
| Cache.WarmResolution | src/models.rs:322-328 | when every key is cached, resolution fetches nothing, changes nothing and answers the cached records |
| Cache.ResolutionCachesRecords | src/models.rs:322-328 | resolution never drops cached entries, keeps records under their ids, and on success has cached every key |
| Cache.ResolveOpt | src/models.rs:314-320 | an absent reference resolves to `None` with no effect; a present one resolves like a single read |
| Cache.ClientCache.constructor | src/network/cache.rs:5-26 | the default cache is empty, with nothing populated |
| Cache.ClientCache.FileDepartments | src/lib.rs:108-111 | marks departments populated and inserts the listing |
| Cache.ClientCache.FileBuildings | src/lib.rs:143-146 | marks buildings populated and inserts the listing |
| Cache.ClientCache.FilePlaces | src/lib.rs:178-181 | marks places populated and inserts the listing |
| Cache.ClientCache.FileClasses | src/lib.rs:213-216 | marks classes populated and inserts the listing |
| Cache.ClientCache.FileCourses | src/lib.rs:248-251 | marks courses populated and inserts the listing |
| Cache.ClientCache.FileGroups | src/lib.rs:505-508 | marks groups populated and inserts the listing |
| Cache.ClientCache.FileEnrollments | src/lib.rs:386-393 | inserts the nested enrollments under their ids |
| Cache.ClientCache.FileShifts | src/lib.rs:394-396 | inserts the nested shifts under their ids |
| Cache.ClientCache.FileInstanceParts | src/lib.rs:385-396 | inserts a class instance's enrollments and shifts, and nothing else |
| IronPlanet.FrontPageChain | src/lib.rs:529-535 | following next pages from the front page visits offsets 0, 100, 200, … |
| IronPlanet.ReadInstance | src/lib.rs:369-400 | like a read-through, except that a fetched instance is not filed; its enrollments and shifts are |
| IronPlanet.InstanceNeverCachedItself | src/lib.rs:369-400 | after a miss, a second cache-first read of the instance fetches again, while its enrollments and shifts are hits |
| IronPlanet.Supernova.constructor | src/lib.rs:48-51 | empty cache, no token, nothing sent |
| IronPlanet.Supernova.Login | src/lib.rs:53-66 | one request; the token is stored and returned only on success |
| IronPlanet.Supernova.Logout | src/lib.rs:68-72 | the logout outcome; the token is cleared only on success; no request without a token |
| IronPlanet.Supernova.SetAuthToken | src/lib.rs:74-78 | the token is stored exactly when the service validates it |
| IronPlanet.Supernova.IsAuthenticated | src/lib.rs:80-87 | true exactly when a token is stored |
| IronPlanet.Supernova.GetDepartments | src/lib.rs:89-122 | follows `ReadAll` with the bypass option; the result lists the cached departments, linked |
| IronPlanet.Supernova.GetBuildings | src/lib.rs:124-157 | follows `ReadAll`; the result lists the cached buildings, linked |
| IronPlanet.Supernova.GetPlaces | src/lib.rs:159-192 | follows `ReadAll`; the result lists the cached places, linked |
| IronPlanet.Supernova.GetClasses | src/lib.rs:194-227 | follows `ReadAll`; the result lists the cached classes, linked |
| IronPlanet.Supernova.GetCourses | src/lib.rs:229-262 | follows `ReadAll`; the result lists the cached courses, linked |
| IronPlanet.Supernova.GetGroups | src/lib.rs:486-519 | follows `ReadAll`; the result lists the cached group summaries, linked |
| IronPlanet.Supernova.GetBuilding | src/lib.rs:264-283 | follows `ReadThrough`; answers the linked record |
| IronPlanet.Supernova.GetPlace | src/lib.rs:285-304 | follows `ReadThrough`; answers the linked record |
| IronPlanet.Supernova.GetDepartment | src/lib.rs:306-325 | follows `ReadThrough`; answers the linked record |
| IronPlanet.Supernova.GetCourse | src/lib.rs:327-346 | follows `ReadThrough`; answers the linked record |
| IronPlanet.Supernova.GetClass | src/lib.rs:348-367 | follows `ReadThrough`; answers the linked record |
| IronPlanet.Supernova.GetGroup | src/lib.rs:521-527 | always one request; the full link of the fetched group; nothing cached |
| IronPlanet.Supernova.GetClassInstance | src/lib.rs:369-400 | follows `ReadInstance` with the authorized answer; a request only when fetching with a token |
| IronPlanet.Supernova.GetStudent | src/lib.rs:402-421 | follows `ReadThrough` with the authorized answer |
| IronPlanet.Supernova.GetTeacher | src/lib.rs:423-442 | follows `ReadThrough` with the authorized answer |
| IronPlanet.Supernova.GetEnrollment | src/lib.rs:444-463 | follows `ReadThrough` with the authorized answer |
| IronPlanet.Supernova.GetShift | src/lib.rs:465-484 | follows `ReadThrough` with the authorized answer |
| IronPlanet.Supernova.GetEventsPage | src/lib.rs:537-548 | one request, never cached; an empty page is `None`; otherwise the linked page |
| IronPlanet.Supernova.GetEventsFrontPage | src/lib.rs:529-535 | the events page at limit 100, offset 0 |
| IronPlanet.Supernova.GetNewsPage | src/lib.rs:566-577 | one request, never cached; an empty page is `None`; otherwise the linked page |
| IronPlanet.Supernova.GetNewsFrontPage | src/lib.rs:558-564 | the news page at limit 100, offset 0 |
| IronPlanet.Supernova.LoadResource | src/lib.rs:579-589 | downloads the rooted URL through the authenticated side exactly when a token is stored |
| IronPlanet.Supernova.WarmBuildings | src/lib.rs:593 | populates buildings on success; costs nothing when already populated |
| IronPlanet.Supernova.WarmCourses | src/lib.rs:594 | populates courses on success; costs nothing when already populated |
| IronPlanet.Supernova.WarmClasses | src/lib.rs:595 | populates classes on success; costs nothing when already populated |
| IronPlanet.Supernova.WarmDepartments | src/lib.rs:596 | populates departments on success; costs nothing when already populated |
| IronPlanet.Supernova.WarmPlaces | src/lib.rs:597 | populates places on success; costs nothing when already populated |
| IronPlanet.Supernova.WarmGroups | src/lib.rs:598 | populates groups on success; costs nothing when already populated |
| IronPlanet.Supernova.WarmTeaching | src/lib.rs:593-595 | buildings, courses and classes populated on success; no request when all were populated |
| IronPlanet.Supernova.WarmCampus | src/lib.rs:596-598 | departments, places and groups populated on success; no request when all were populated |
| IronPlanet.Supernova.Warmup | src/lib.rs:591-600 | on success all six listings are populated; when they already were, it succeeds without a request |
| Coersion.CoerceDepartment | src/coersion.rs:55-63 | resolves through a cache-first department read |
| Coersion.CoerceBuilding | src/coersion.rs:67-75 | resolves through a cache-first building read |
| Coersion.CoercePlace | src/coersion.rs:79-87 | resolves through a cache-first place read |
| Coersion.CoerceCourse | src/coersion.rs:91-99 | resolves through a cache-first course read |
| Coersion.CoerceClass | src/coersion.rs:103-111 | resolves through a cache-first class read |
| Coersion.CoerceClassInstance | src/coersion.rs:115-125 | resolves through a cache-first class instance read |
| Coersion.CoerceStudent | src/coersion.rs:129-137 | resolves through a cache-first authenticated student read |
| Coersion.CoerceTeacher | src/coersion.rs:141-149 | resolves through a cache-first authenticated teacher read |
| Coersion.CoerceEnrollment | src/coersion.rs:153-161 | resolves through a cache-first authenticated enrollment read |
| Coersion.CoerceShift | src/coersion.rs:165-173 | resolves through a cache-first authenticated shift read |
| Coersion.CoerceEventsPage | src/coersion.rs:207-215 | resolves a page key to the page, `None` past the last page |
| Coersion.CoerceNewsPage | src/coersion.rs:218-226 | resolves a page key to the page, `None` past the last page |
| Relations.ResolveAdvance | src/models.rs:322-328 | one loop step of a list getter: either stops with the error or extends the linked results |
| Relations.NextCourse | src/models.rs:324-326 | one loop step of `get_courses`: the cache becomes the resolution of one more key; an error ends the whole resolution with that error; a success appends the linked course |
| Relations.NextPlace | src/models.rs:334-336 | one loop step of `get_rooms`, as `NextCourse` over places |
| Relations.NextDepartment | src/models.rs:452-454 | one loop step of `get_departments`, as `NextCourse` over departments |
| Relations.NextShift | src/models.rs:416-418 | one loop step of a `get_shifts` getter; requests are sent only when a token is stored |
| Relations.NextTeacher | src/models.rs:479-481 | one loop step of `get_teachers`; requests are sent only when a token is stored |
| Relations.NextEnrollment | src/models.rs:434-436 | one loop step of `get_enrollments`; requests are sent only when a token is stored |
| Relations.NextInstance | src/models.rs:382-384 | one loop step of `get_instances` through `ReadInstance`: the instance map is unchanged, nested enrollments and shifts are filed |
| Relations.ResolveShifts | src/models.rs:414-420 | resolves shift references in order, stopping at the first error, as `ResolveAll` |
| Relations.ResolveBuilding | src/models.rs:314-320 | resolves an optional building reference as `ResolveOpt` |
| Relations.ResolveDepartment | src/models.rs:352-358 | resolves an optional department reference as `ResolveOpt` |
| Relations.DepartmentBuilding | src/models.rs:314-320 | `ResolveOpt` of the department's building |
| Relations.DepartmentCourses | src/models.rs:322-328 | `ResolveAll` of the department's courses, linked, one request per fetched course |
| Relations.BuildingRooms | src/models.rs:332-338 | `ResolveAll` of the building's places, linked |
| Relations.PlaceBuilding | src/models.rs:342-348 | `ResolveOpt` of the place's building |
| Relations.RoomDepartment | src/models.rs:352-358 | `ResolveOpt` of the room's department |
| Relations.CourseDepartment | src/models.rs:362-368 | `ResolveOpt` of the course's department |
| Relations.ClassDepartment | src/models.rs:372-378 | `ResolveOpt` of the class's department |
| Relations.ClassInstances | src/models.rs:380-386 | `ResolveAll` of the class's instances through `ReadInstance` |
| Relations.InstanceDepartment | src/models.rs:390-396 | `ResolveOpt` of the instance's department |
| Relations.InstanceShifts | src/models.rs:414-420 | `ResolveAll` of the instance's shifts |
| Relations.StudentCourse | src/models.rs:424-430 | `ResolveOpt` of the student's course |
| Relations.StudentEnrollments | src/models.rs:432-438 | `ResolveAll` of the student's enrollments |
| Relations.StudentShifts | src/models.rs:440-446 | `ResolveAll` of the student's shifts |
| Relations.TeacherDepartments | src/models.rs:450-456 | `ResolveAll` of the teacher's departments |
| Relations.TeacherShifts | src/models.rs:458-464 | `ResolveAll` of the teacher's shifts |
| Relations.EnrollmentStudent | src/models.rs:468-470 | a cache-first read of the enrollment's student |
| Relations.EnrollmentClassInstance | src/models.rs:471-473 | a class instance read of the enrollment's instance |
| Relations.ShiftTeachers | src/models.rs:477-483 | `ResolveAll` of the shift's teachers |
| Relations.ShiftInstancePlace | src/models.rs:487-493 | `ResolveOpt` of the slot's room |
| LegacyClient.NetworkClient.constructor | src/network/client.rs:12-18 | empty cache, no token, nothing sent |
| LegacyClient.NetworkClient.SetToken | src/network/client.rs:505-511 | the stored token is replaced |
| LegacyClient.NetworkClient.Login | src/network/client.rs:21-25 | one request; the token is stored and returned only on success |
| LegacyClient.NetworkClient.FetchDepartments | src/network/client.rs:33-66 | follows `ReadAll` without bypass; lists the cached departments, linked |
| LegacyClient.NetworkClient.FetchBuildings | src/network/client.rs:68-101 | follows `ReadAll` without bypass; lists the cached buildings, linked |
| LegacyClient.NetworkClient.FetchPlaces | src/network/client.rs:103-136 | follows `ReadAll` without bypass; lists the cached places, linked |
| LegacyClient.NetworkClient.FetchClasses | src/network/client.rs:138-171 | follows `ReadAll` without bypass; lists the cached classes, linked |
| LegacyClient.NetworkClient.FetchCourses | src/network/client.rs:173-206 | follows `ReadAll` without bypass; lists the cached courses, linked |
| LegacyClient.NetworkClient.FetchBuilding | src/network/client.rs:208-226 | follows `ReadThrough` without bypass |
| LegacyClient.NetworkClient.FetchPlace | src/network/client.rs:228-246 | follows `ReadThrough` without bypass |
| LegacyClient.NetworkClient.FetchDepartment | src/network/client.rs:248-266 | follows `ReadThrough` without bypass |
| LegacyClient.NetworkClient.FetchCourse | src/network/client.rs:268-286 | follows `ReadThrough` without bypass |
| LegacyClient.NetworkClient.FetchClass | src/network/client.rs:288-306 | follows `ReadThrough` without bypass |
| LegacyClient.NetworkClient.FetchClassInstance | src/network/client.rs:308-328 | follows `ReadThrough`: the instance itself is filed; a miss needs a token |
| LegacyClient.NetworkClient.FetchStudent | src/network/client.rs:330-348 | follows `ReadThrough` with the token; a miss needs a token |
| LegacyClient.NetworkClient.FetchTeacher | src/network/client.rs:350-368 | follows `ReadThrough` with the token; a miss needs a token |
| LegacyClient.NetworkClient.FetchEnrollment | src/network/client.rs:370-388 | follows `ReadThrough` with the token; a miss needs a token |
| LegacyClient.NetworkClient.FetchShift | src/network/client.rs:390-410 | follows `ReadThrough` with the token; a miss needs a token |
| LegacyClient.InstanceFilingDiffers | src/network/client.rs:308-328 | after the same miss, the synchronous facade serves the instance from cache; the asynchronous one fetches it again but has filed its nested records |

## Left out

- Warmup: the result lists are dropped, as in the source. Its contract states population and the warm no-request case, not the full cache contents after each step. Those are stated by the `Get…` listings it calls.
- NextPageKey: wraps the offset modulo 2^32, as a release build does. A debug build panics on that overflow instead; the panic is not modelled.
- The `User` and `Event` coercions and `get_event` are `todo!()` in the source. They are not modelled.
- `ClassInstance::get_students` and `get_teachers` (src/models.rs:398-412) read fields that the `link` function never fills. They are left out with those fields.
- JSON encoding and decoding, hyper and TLS transport, and the `iron_planet` version header value are out of scope. Sending is a function of the transport's outcome. A decoding failure is one more error the remote oracle may answer.
- Locks (`RwLock`, `Mutex`) and `async` interleavings are out of scope. Every facade method runs as one sequential step. The gap between dropping a read lock and taking the write lock is not modelled.
- Debug builds can override the service root from the environment. That override is not modelled; `UPSTREAM` is the release constant.
- The client metadata sent with a login (src/utils.rs) is not modelled.
- `load_resource` byte payloads are opaque sequences.
- The teacher, group-summary, group and news-item links (src/network/model_conversion.rs:191, 371, 396, 626) each start an empty `thumb_cache` cell. src/models.rs does not declare that field, and nothing in the modelled core fills it, so it is not modelled.
- Dates, times and 32-bit floats are kept as uninterpreted text and bit patterns.
- The order of a listing follows HashMap iteration, which is unspecified. The model states that each cached record appears exactly once, in some order.
- The synchronous client remaps errors in three ways, and none of them is modelled:
  - its unauthenticated fetches turn a transport error into `ParsingError` and a decode error into `NamelessError` (src/network/client.rs:415-420);
  - its authenticated fetches turn both into `NamelessError` (src/network/client.rs:513-526);
  - its `login` and `verify` pass a transport error through and turn a decode error into `ParsingError` (src/network/client.rs:422-444).

  Those variants belong to src/errors.rs, which is not part of this model. The legacy model passes the remote's error through.
- The synchronous client's `verify_login` decodes a JSON unit from the reply. It is not modelled.
- Its authenticated reads unwrap a missing token (a panic). The model states this as the precondition that a miss has a token.
- LinkScheduling: the periodic conversion (src/network/model_conversion.rs:517-528) also copies a `time` field. The raw record declared in src/network/models.rs:547-554 has no such field, and the domain declaration is not part of this model, so the modelled record has no `time` either.
- A group's one-time upgrade cell is modelled as the `upgraded` flag and the four optional parts.

## Findings

| source | as written | input that shows it | evidently intended | confidence | as-written member | corrected member |
|---|---|---|---|---|---|---|
| src/network/models.rs:57-65 | the weekday discriminants are Monday=0, Thursday=1, Wednesday=2, Tuesday=3 | a shift slot with `"weekday": 1` decodes as Thursday. If the service numbers days in calendar order, as `Monday = 0` suggests, 1 means Tuesday. The only recorded fixture uses code 2, which both tables read as Wednesday, so this is a hypothesis about the service | calendar order, Monday=0, Tuesday=1, …, Sunday=6 | low to medium, not executed | RawModels.WeekdayCodesOutOfCalendarOrder | RawModels.CalendarWeekdaysInOrder |

The linked records hold decoded days, so no other member depends on which table is used.
The declared table stays the one that `RawModels.DecodeWeekday` models.
