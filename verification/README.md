# Company directory API: handlers, schemas and seed join

This project models the core of a small Express and Mongoose service. The service keeps four
collections: companies, contacts, projects and reviews. Each collection has five handlers: list,
get by id, create, update and delete.

The model covers three things. First, the handlers' own logic: which check runs first, which
error wins, and what the store holds afterwards. Second, the field constraints of the four
schemas the handlers rely on. Third, the name-to-id join of the contact import script.

## How the model reads

- **Store.** The document store is `Store.Db`: four maps from `ObjectId` to record, a clock that
  stamps `createdAt`, and an `up` flag. When `up` is false, every round trip to the store fails.
- **Handlers.** Each handler is a pure function from a store and a request to a `Reply`, which
  pairs the store as left behind with a status and a body. A handler is written in two parts:
  - a try-block, which returns `Ok` or the error it throws (`Failures.Thrown`);
  - the JavaScript catch-block, which turns that error into a status and message
    (`Http.CatchWrite`, `Http.CatchLookup`, `Http.CatchList`).
- **Ids.** Path ids and references are cast to 24-digit hexadecimal ObjectIds. Text that is not
  one becomes `Ids.Malformed`: the CastError Mongoose throws.
- **Bodies.** A request body is a map to `Json.Value`. JavaScript truthiness is `Json.Truthy`,
  and `!body[field]` is `Json.Absent`.
- **Schemas.** Each schema is a module (`CompanyModel`, `ContactModel`, `ProjectModel`,
  `ReviewModel`) with:
  - the cast of each path, with its `trim` and `lowercase` setters;
  - its validators, in declaration order;
  - `Valid`, every constraint on a stored document;
  - `Build`: `new Model(body)` plus validation;
  - `Patch`: `findByIdAndUpdate` with `runValidators`. It first casts the supplied paths and
    throws a CastError for the first one that cannot be cast. It then runs the validators of
    the supplied paths, and overwrites only those paths.
- **Unique indexes.** These live in the store as `Store.Held` (checked at write time: the code
  11000 backstop) and `Store.Indexed` (the invariant).
- **Injected values.** The id of a new document (`newId`) and JavaScript's date parsing
  (`dateOf`) are parameters.

## Model

| member | source | states |
|---|---|---|
| Json.Field | controllers/contactController.js:19 | the value read for a field is truthy exactly when `!body[field]` is false |
| Ids.Parse | models/contact.js:26-30 | text casts to an ObjectId iff it is 24 hex digits, and names the id spelled in lower case; anything else is the CastError case |
| Ids.ParseKey | models/contact.js:26-30 | an id's own text casts back to that id |
| Required.Missing | controllers/contactController.js:19 | the reported fields are exactly the required fields whose values are falsy |
| Required.MissingInOrder | controllers/contactController.js:19 | the missing fields come in `REQUIRED_FIELDS` order |
| Required.Validate | controllers/contactController.js:18-26 | passes iff every required field is truthy; otherwise a 400 error "Missing required fields: " with the missing names joined by ", " |
| References.Ensure | controllers/contactController.js:28-35 | passes iff the store is up and the value names an existing document; a missing document is a 400 error; a value that is not an id throws a CastError |
| References.EnsureCompany | controllers/projectController.js:17-24 | passing means the company exists; for a well-formed id on a reachable store, failing means the 400 "Company not found" |
| References.EnsureContact | controllers/projectController.js:26-33 | the same for contacts, with the 400 "Contact not found" |
| Store.CastId | controllers/companyController.js:16 | a path id is accepted iff it parses, and otherwise throws a CastError on `_id` |
| Store.FindById | controllers/companyController.js:47 | a malformed id throws a CastError before the round trip; on a reachable store the result is the document under the id, or none |
| Store.FindByIdAndDelete | controllers/contactController.js:114 | the collection minus the id, and whether a document was there; the cast comes before the round trip |
| Store.ExistsById | controllers/contactController.js:29 | true iff the value is the text of an id in the collection; a value that is not an id throws a CastError |
| Store.FindOneByText | controllers/companyController.js:54 | the filter value is cast and trimmed like the path, and the query matches iff some document holds that value |
| Store.UniqueByPut | models/company.js:7 | writing a document whose unique value no other document holds keeps the unique index |
| Listing.Sort | controllers/companyController.js:6 | the result lists every document exactly once, under its id, in sort-key order |
| Http.CatchLookup | controllers/companyController.js:21-27 | a CastError is the 404 not-found message, anything else a 500; the store is unchanged |
| Http.CatchWrite | controllers/contactController.js:99-109 | CastError first (404), then code 11000 (the duplicate message), then `statusCode` or 400 with the error's message; the store is unchanged |
| Http.GetOne | controllers/companyController.js:14-28 | 200 with the document; a malformed or unknown id is the 404; only an unreachable store is a 500 |
| Http.GetAll | controllers/companyController.js:4-12 | 200 with every document once, sorted; an unreachable store is a 500 |
| Text.Trim | models/company.js:7 | the trimmed string has no surrounding whitespace and is no longer than the input |
| Text.TrimCutsOnlySpace | models/company.js:7 | the input is whitespace, then the trimmed string, then whitespace |
| Text.TrimOfTrimmed | models/company.js:7 | trimming is idempotent |
| Text.TrimOfPadded | models/company.js:7 | a name with one leading space trims to the name |
| Text.Lower | models/company.js:18 | the lowercased string has the same length, each character lowercased |
| Text.LowerOfLower | models/company.js:18 | lowercasing is idempotent |
| Text.LowerKeepsTrimmed | models/company.js:17-18 | lowercasing a trimmed string keeps it trimmed |
| Text.ParseIntText | models/project.js:34-35 | an integer rendered as text reads back as that integer |
| Text.EmailMatcherIsRegex | models/company.js:3 | the email matcher accepts exactly the strings the email regex describes |
| Text.EmailMatcherSound | models/company.js:3 | everything the matcher accepts has the regex's shape |
| Text.EmailMatcherComplete | models/company.js:3 | everything of the regex's shape is accepted |
| Text.PhoneMatcherIsRegex | models/company.js:4 | the phone matcher is the regex with and without its optional '+' |
| Text.UrlMatcherIsRegex | models/company.js:12 | the website matcher accepts exactly "http" or "https" in any letter case, then "://", then a character that is not a line terminator |
| Text.UrlIgnoresCase | models/company.js:12 | under the `i` flag a capitalised scheme is accepted; another scheme, or nothing after "://", is refused |
| Text.BeforeTrichotomy | controllers/companyController.js:6 | code-point order compares any two names one way only |
| Text.BeforeTransitive | controllers/companyController.js:6 | code-point order is transitive |
| Text.BeforeIrreflexive | controllers/companyController.js:6 | no name sorts before itself |
| Schema.Setters | models/company.js:17-18 | `trim` leaves the value trimmed and `lowercase` leaves it lower case |
| Schema.AsText | models/company.js:7 | null leaves a String path unset; objects cannot be cast; text is kept after the setters |
| Schema.AsNumber | models/project.js:34-38 | numbers are kept; null and "" leave a Number path unset; objects cannot be cast |
| Schema.AsBool | models/review.js:32-35 | booleans are kept and null leaves a Boolean path unset |
| Schema.AsDate | models/contact.js:24 | numbers are dates; null and "" leave a Date path unset; booleans and objects cannot be cast |
| Schema.AsRef | models/contact.js:26-30 | an ObjectId path is set iff the value is text naming an id; null leaves it unset |
| Schema.ReadStoredText | models/company.js:7 | a stored trimmed (and lowercased) string reads back unchanged |
| Schema.ReadStoredRef | models/contact.js:26-30 | a stored id reads back unchanged |
| Schema.TextErrors | models/company.js:21-28 | a String path fails iff it is required and unset or empty, or it misses its pattern, or it is too long, with one error naming the path |
| Schema.NumberErrors | models/review.js:16-21 | a Number path passes iff it is optional and unset, or set within its bounds |
| Schema.PresenceErrors | models/contact.js:24-30 | a Date, reference or Boolean path passes iff it is set, or it is optional and unset |
| Schema.IfSupplied | controllers/companyController.js:61-65 | update validators run only on paths the update supplies |
| CompanyModel.Build | models/company.js:6-29 | fails iff some path fails its validator, listing all of them; otherwise a valid company holding every supplied value |
| CompanyModel.Patch | controllers/companyController.js:61-65 | a supplied value that cannot be cast throws a CastError before any validator runs; otherwise it fails iff a supplied path fails its validators, with all such paths; otherwise exactly the supplied paths change, and a valid company stays valid |
| CompanyModel.UpdateCastFailureIsUncastable | controllers/companyController.js:61-65 | the cast step fails exactly when the update validators would report some supplied path as uncastable |
| CompanyModel.UpdateCastFailureReported | controllers/companyController.js:61-65 | the path the cast step names is one the update validators would report as uncastable |
| CompanyModel.BuildRoundTrip | models/company.js:6-29 | creating from a valid company's own fields stores exactly that company |
| ContactModel.Build | models/contact.js:6-35 | fails iff some path fails, listing all; otherwise a valid contact with the body's values and no notes unless given |
| ContactModel.Patch | controllers/contactController.js:88-92 | a supplied value that cannot be cast throws a CastError before any validator runs; otherwise it fails iff a supplied path fails its validators, with all such paths; otherwise exactly the supplied paths change |
| ContactModel.UpdateCastFailureIsUncastable | controllers/contactController.js:88-92 | the cast step fails exactly when the update validators would report some supplied path as uncastable |
| ContactModel.UpdateCastFailureReported | controllers/contactController.js:88-92 | the path the cast step names is one the update validators would report as uncastable |
| ContactModel.PatchKeepsValid | models/contact.js:6-35 | a valid contact stays valid under an update that passes the update validators |
| ContactModel.BuildRoundTrip | models/contact.js:6-35 | creating from a valid contact's own fields stores exactly that contact |
| ProjectModel.StatusOf | models/project.js:22-26 | a recognised status text is that member's label |
| ProjectModel.StatusOfLabel | models/project.js:24 | every member is recognised by its own label |
| ProjectModel.StatusErrors | models/project.js:22-26 | the status passes iff unset or one of the four labels |
| ProjectModel.Build | models/project.js:3-45 | fails iff some path fails; otherwise a valid project where an omitted status is Planning and an omitted end date or team lead is empty |
| ProjectModel.Patch | controllers/projectController.js:109-113 | a supplied value that cannot be cast throws a CastError before any validator runs; otherwise it fails iff a supplied path fails its validators, with all such paths; otherwise exactly the supplied paths change, and a valid project stays valid |
| ProjectModel.UpdateCastFailureIsUncastable | controllers/projectController.js:109-113 | the cast step fails exactly when the update validators would report some supplied path as uncastable |
| ProjectModel.UpdateCastFailureReported | controllers/projectController.js:109-113 | the path the cast step names is one the update validators would report as uncastable |
| ProjectModel.BuildRoundTrip | models/project.js:3-45 | creating from a valid project's own fields stores exactly that project |
| ReviewModel.Build | models/review.js:3-38 | fails iff some path fails; otherwise a valid review where an omitted `isPublished` is false |
| ReviewModel.Patch | controllers/reviewController.js:96-100 | a supplied value that cannot be cast throws a CastError before any validator runs; otherwise it fails iff a supplied path fails its validators, with all such paths; otherwise exactly the supplied paths change, and a valid review stays valid |
| ReviewModel.UpdateCastFailureIsUncastable | controllers/reviewController.js:96-100 | the cast step fails exactly when the update validators would report some supplied path as uncastable |
| ReviewModel.UpdateCastFailureReported | controllers/reviewController.js:96-100 | the path the cast step names is one the update validators would report as uncastable |
| ReviewModel.BuildRoundTrip | models/review.js:3-38 | creating from a valid review's own fields stores exactly that review |
| CompanyController.ByNameSorts | controllers/companyController.js:6 | ordering by name is a total preorder |
| CompanyController.GetCompanies | controllers/companyController.js:4-12 | every company once, by name; 500 only when the store is unreachable |
| CompanyController.GetCompanyById | controllers/companyController.js:14-28 | 404 "Company not found" iff the id is malformed or names no company; 500 iff the store is down; never a write |
| CompanyController.CreateCompany | controllers/companyController.js:30-42 | 201 iff the body validates, the store is up and the name and id are free, and then exactly one company is added; otherwise 400 and nothing changes, with a name clash as "Company name already exists" |
| CompanyController.UpdateCompany | controllers/companyController.js:44-77 | only 204, 400 or 404; any failure leaves the store unchanged; a 204 means every check passed, the body cast and only that company was patched |
| CompanyController.UpdateCompanyUncastable | controllers/companyController.js:61-71 | for an existing company whose new name is free, a body value that cannot be cast is the 404 "Company not found" |
| CompanyController.UpdateCompanyAccepted | controllers/companyController.js:44-66 | when every check passes, the answer is 204 |
| CompanyController.UpdateCompanyLookup | controllers/companyController.js:47-50 | a malformed or unknown id is the 404; an unreachable store is a 400 with the driver's message |
| CompanyController.UpdateCompanyNameTaken | controllers/companyController.js:53-58 | a changed name some company holds is the 400 "Company name already exists", with no write |
| CompanyController.DeleteCompany | controllers/companyController.js:79-99 | a referencing contact blocks the delete with a 400 and nothing else does; otherwise 204 removes only that company; a malformed or unknown id is a 404 |
| ContactController.ByFullNameSorts | controllers/contactController.js:41 | ordering by last name, then first name, is a total preorder |
| ContactController.GetContacts | controllers/contactController.js:37-47 | every contact once, by last name then first name |
| ContactController.GetContactById | controllers/contactController.js:49-63 | 404 "Contact not found" iff the id is malformed or unknown; 500 iff the store is down |
| ContactController.CreateContact | controllers/contactController.js:65-80 | 201 iff required fields, company, validation, id and email all pass, and then exactly one contact is added; otherwise 400 and nothing changes |
| ContactController.CreateContactMissingFields | controllers/contactController.js:67 | missing fields are reported first, all of them, whatever else is wrong |
| ContactController.CreateContactUnknownCompany | controllers/contactController.js:68 | with every field present, an id naming no company is "Company not found" |
| ContactController.CreateContactDuplicateEmail | controllers/contactController.js:74-76 | an email another contact holds is "Email already exists" |
| ContactController.UpdateContactTry | controllers/contactController.js:83-98 | the try-block answers only 204 or 404; a 204 means every check passed, the body cast and only that contact was patched; its own errors are 400s |
| ContactController.UpdateContact | controllers/contactController.js:82-110 | only 204, 400 or 404; any failure leaves the store unchanged; a 204 means every check passed and the body cast |
| ContactController.UpdateContactLookup | controllers/contactController.js:88-97 | once the body passes every check, a contact the store does not hold is the 404 "Contact not found" |
| ContactController.UpdateContactEmailTaken | controllers/contactController.js:88-106 | an email another contact holds after the update is caught by the unique index and answered 400 "Email already exists", with no write |
| ContactController.UpdateContactUncastable | controllers/contactController.js:88-103 | once the company check passes, a body value that cannot be cast is the 404 "Contact not found", whether or not the contact exists |
| ContactController.UpdateContactAccepted | controllers/contactController.js:84-98 | when every check passes, the answer is 204 |
| ContactController.UpdateContactCheckOrder | controllers/contactController.js:84-103 | the company is checked before the id: a company that is not an id is the 404 and one naming nothing is a 400, whatever the id; once the company check passes, or there is no company, a malformed id is the 404 "Contact not found" |
| ContactController.DeleteContact | controllers/contactController.js:112-126 | no guard: an existing contact is removed (204) whatever references it; a malformed or unknown id is a 404 |
| ProjectController.ByLatestStartSorts | controllers/projectController.js:40 | ordering by start date, latest first, is a total preorder |
| ProjectController.GetProjects | controllers/projectController.js:35-46 | every project once, latest start date first |
| ProjectController.GetProjectById | controllers/projectController.js:48-64 | 404 "Project not found" iff the id is malformed or unknown; 500 iff the store is down |
| ProjectController.CreateProject | controllers/projectController.js:66-85 | 201 iff required fields, company, team lead, validation, id and title all pass, and then exactly one project is added; otherwise 400 and nothing changes |
| ProjectController.CreateProjectMissingFields | controllers/projectController.js:68 | missing fields are reported first, all of them |
| ProjectController.CreateProjectUnknownCompany | controllers/projectController.js:69 | the company is checked before the team lead: an id naming no company is "Company not found" |
| ProjectController.CreateProjectUnknownTeamLead | controllers/projectController.js:70-72 | a truthy team lead naming no contact is "Contact not found" |
| ProjectController.CreateProjectDuplicateTitle | controllers/projectController.js:79-81 | a title another project holds is "Project title already exists" |
| ProjectController.CreatedProjectReferencesExist | controllers/projectController.js:69-72 | a project that passes the checks references an existing company, and an existing contact when it has a team lead |
| ProjectController.BuiltCompanyExists | controllers/projectController.js:69-74 | a stored company is the id the company check found in the store |
| ProjectController.BuiltTeamLeadExists | controllers/projectController.js:70-72 | a stored team lead came from a truthy `teamLead`, so it was checked |
| ProjectController.UpdateProjectTry | controllers/projectController.js:88-115 | the try-block answers 204, 400 or 404; a 204 means every check passed, the body cast and only that project was patched |
| ProjectController.UpdateProject | controllers/projectController.js:87-127 | only 204, 400 or 404; any failure leaves the store unchanged; a 204 means every check passed and the body cast |
| ProjectController.UpdateProjectUncastable | controllers/projectController.js:109-120 | once the references and the new title pass, a body value that cannot be cast is the 404 "Project not found" |
| ProjectController.UpdateProjectAccepted | controllers/projectController.js:89-115 | when every check passes, the answer is 204 |
| ProjectController.UpdateProjectLookup | controllers/projectController.js:89-92 | the project is looked up before anything in the body: a malformed or unknown id is the 404 |
| ProjectController.UpdateProjectCompanyCheck | controllers/projectController.js:94-96 | a truthy company naming nothing is a 400, but one that is not an id is this handler's 404 |
| ProjectController.UpdateProjectTeamLeadCheck | controllers/projectController.js:97-99 | a truthy team lead naming no contact is a 400, before the title check |
| ProjectController.UpdateProjectTitleTaken | controllers/projectController.js:101-107 | a changed title some project holds is the 400 "Project title already exists", with no write |
| ProjectController.UpdateProjectTitleBackstop | controllers/projectController.js:109-123 | a title the pre-check lets through but another project holds after the update is caught by the unique index and answered 400 "Project title already exists", with no write |
| ProjectController.DeleteProject | controllers/projectController.js:129-143 | no guard: an existing project is removed (204); a malformed or unknown id is a 404 |
| ReviewController.ByNewestSorts | controllers/reviewController.js:40 | ordering by creation, newest first, is a total preorder |
| ReviewController.GetReviews | controllers/reviewController.js:35-46 | every review once, newest first |
| ReviewController.GetReviewById | controllers/reviewController.js:48-64 | 404 "Review not found" iff the id is malformed or unknown; 500 iff the store is down |
| ReviewController.CreateReview | controllers/reviewController.js:66-80 | 201 iff required fields, company, reviewer, validation and id pass, and then exactly one review is added; otherwise 400 and nothing changes |
| ReviewController.CreateReviewMissingFields | controllers/reviewController.js:68 | missing fields are reported first, all of them |
| ReviewController.CreateReviewUnknownCompany | controllers/reviewController.js:69 | the company is checked first: an id naming no company is "Company not found", whatever the reviewer |
| ReviewController.CreateReviewUnknownReviewer | controllers/reviewController.js:70 | once the company exists, a reviewer naming no contact is "Contact not found" |
| ReviewController.UpdateReview | controllers/reviewController.js:82-111 | 204 iff the review exists, the truthy references exist, the body casts and the validators pass, and then only that review is patched; failures leave the store unchanged |
| ReviewController.UpdateReviewUncastable | controllers/reviewController.js:96-107 | once the references pass, a body value that cannot be cast is the 404 "Review not found" |
| ReviewController.UpdateReviewLookup | controllers/reviewController.js:84-87 | a malformed or unknown id is the 404, before the references are checked |
| ReviewController.UpdateReviewReviewerCheck | controllers/reviewController.js:92-94 | a truthy reviewer naming nothing is a 400, but one that is not an id is this handler's 404 |
| ReviewController.DeleteReview | controllers/reviewController.js:113-127 | an existing review is removed (204); a malformed or unknown id is a 404 |
| Integrity.CreateCompanyKeepsContactsLinked | controllers/companyController.js:30-34 | creating a company keeps every contact's company existing |
| Integrity.UpdateCompanyKeepsContactsLinked | controllers/companyController.js:61-66 | updating a company keeps every contact's company existing |
| Integrity.DeleteCompanyKeepsContactsLinked | controllers/companyController.js:82-85 | the contact guard keeps every contact's company existing |
| Integrity.CreateContactKeepsContactsLinked | controllers/contactController.js:67-71 | a created contact's company exists |
| Integrity.UpdateContactKeepsContactsLinked | controllers/contactController.js:84-92 | an updated contact's company exists |
| Integrity.DeleteContactKeepsContactsLinked | controllers/contactController.js:114 | deleting a contact keeps the others' companies existing |
| Integrity.CreateProjectKeepsProjectsLinked | controllers/projectController.js:68-75 | a created project's company and team lead exist |
| Integrity.CreateReviewKeepsReviewsLinked | controllers/reviewController.js:68-73 | a created review's company and reviewer exist |
| Integrity.UpdateProjectKeepsProjectsLinked | controllers/projectController.js:94-113 | after an update every project's company and team lead exist: a supplied reference is stored only as an id, which is truthy, so it was checked |
| Integrity.UpdateReviewKeepsReviewsLinked | controllers/reviewController.js:88-100 | after an update every review's company and reviewer exist, for the same reason |
| Integrity.DeleteCompanyOrphansProjects | controllers/companyController.js:82-87 | a project of the company does not block the delete and is left pointing at nothing |
| Integrity.DeleteCompanyOrphansReviews | controllers/companyController.js:82-87 | a review of the company does not block the delete and is left pointing at nothing |
| Integrity.DeleteContactOrphansReviews | controllers/contactController.js:114-118 | deleting a reviewer leaves their reviews pointing at nothing |
| Integrity.DeleteCompanyIgnoresProjectsAndReviews | controllers/companyController.js:82-87 | projects and reviews play no part in the delete's answer |
| Integrity.UniqueByRemove | models/company.js:7 | removing a document keeps a unique index |
| Integrity.CreateCompanyKeepsIndexed | models/company.js:7 | creating a company keeps names unique |
| Integrity.UpdateCompanyKeepsIndexed | models/company.js:7 | updating a company keeps names unique |
| Integrity.DeleteCompanyKeepsIndexed | models/company.js:7 | deleting a company keeps names unique |
| Integrity.CreateContactKeepsIndexed | models/contact.js:14 | creating a contact keeps emails unique |
| Integrity.UpdateContactKeepsIndexed | models/contact.js:14 | updating a contact keeps emails unique |
| Integrity.DeleteContactKeepsIndexed | models/contact.js:14 | deleting a contact keeps emails unique |
| Integrity.CreateProjectKeepsIndexed | models/project.js:9 | creating a project keeps titles unique |
| Integrity.UpdateProjectKeepsIndexed | models/project.js:9 | updating a project keeps titles unique |
| Integrity.DeleteProjectKeepsIndexed | models/project.js:9 | deleting a project keeps titles unique |
| Integrity.PatchWithOwnName | controllers/companyController.js:61-65 | patching a valid company with its own name changes nothing |
| Integrity.UpdateCompanyToOwnName | controllers/companyController.js:53 | renaming a company to its own name skips the lookup and answers 204, with the store as it was |
| Integrity.UpdateCompanyToPaddedOwnName | controllers/companyController.js:53-56 | the company's own name with a leading space passes the `!==` test, is trimmed by the query, and is refused as taken |
| Integrity.CreateThenGetCompany | controllers/companyController.js:30-34 | a created company is then found under its new id, as built |
| Integrity.DeleteThenGetCompany | controllers/companyController.js:87-91 | a deleted company is then not found |
| Integrity.OnlyBudgetMissing | controllers/projectController.js:5-8 | with the other fields truthy, a budget of 0 is the one missing field |
| Integrity.ZeroBudgetIsMissing | controllers/projectController.js:5-15 | a budget of 0 is refused as "Missing required fields: budget", although the schema allows 0 |
| Seed.CompanyMap | my-api/importData.js:38-41 | the map's keys are exactly the inserted companies' names |
| Seed.CompanyMapLastWins | my-api/importData.js:38-41 | a name maps to the id of the last company with that name |
| Seed.CompanyMapFromDocs | my-api/importData.js:38-41 | every id in the map belongs to a company with that name |
| Seed.Relink | my-api/importData.js:49-50 | the output drops `companyName`, sets `company` to the id, and keeps every other field |
| Seed.LinkContacts | my-api/importData.js:44-51 | succeeds iff every name has a company, and then relinks each contact in order, keeping the length; otherwise it fails with "Missing company seed for" and the first unmatched name |
| Seed.LinkedToInserted | my-api/importData.js:45-50 | each linked contact's company reads back as the id of an inserted company with the contact's name |

## Left out

- Routing, the OpenAPI comments, authentication, sessions, the database connection, the insert
  and delete calls of the import script, `process.exit` and `console` logging are not modelled.
  None of them decides a handler's answer.
- `populate` is not modelled. Listings and lookups return references as ids, not as the
  documents they point to.
- `updatedAt` is not modelled. `createdAt` is a counter that increases by one per insert, not a
  clock reading.
- Concurrency is not modelled: handlers run one at a time. For example, a project deleted
  between `findById` and `findByIdAndUpdate` would still get a 204 in the service. In the
  model, a create handler that has just completed a reference lookup is assumed to reach the
  store for its insert.
- Store.FindOneByText: an object or array value in the body is treated as uncastable (a
  CastError). Mongoose would read an object as a query operator such as `{ $ne: … }`, and an
  array as `$in` of its cast elements, which can match a document. References.Ensure has the
  same simplification.
- Build and Patch: an object or array value in a create or update body is taken as
  uncastable. On create the model answers 400 with a validation error; on update it throws a
  CastError. Mongoose casts some such values: `[2020]` becomes a Date through `valueOf`, a
  one-element array holding an id's text becomes that ObjectId through `toString`, and
  `{ _id: "Acme" }` on a String path becomes "Acme". Mongoose also walks into a plain object
  path by path on update. What the service stores or reports for these values is not modelled.
- Ids.Parse: Mongoose also accepts any 12-character string as an ObjectId. Only the 24-digit
  hexadecimal form is modelled.
- Text.Lower: only ASCII letters are lowercased. Other code points are kept as they are.
- Schema.TextErrors: `maxlength` is counted in code points here. JavaScript counts UTF-16 code
  units, so the two can differ for characters outside the Basic Multilingual Plane.
- Schema.AsNumber: numbers are integers. Doubles, and `Number()` text forms such as hex,
  exponents and `Infinity`, are not modelled.
- Schema.AsDate: JavaScript's date parsing is the `dateOf` parameter, and dates are integers.
- Error messages: Mongoose's English text for validation, cast and driver errors is kept as
  structured content: the failing paths and their violations. The controllers' own messages
  are modelled word for word.
- The id of a new document is the `newId` parameter. A body that supplies its own `_id` or
  `createdAt` is not modelled. Body fields outside a schema are ignored, as Mongoose's strict
  mode ignores them.
- ProjectModel.Build: an explicit `status: null` is stored as no status. The enum validator
  lets null through, so the default does not apply.
- Seed.CompanyKey: an object or array `companyName` is rendered as "[object Object]".
  `String` of an array joins its elements with commas, so such a key can differ from the
  script's.
- Seed.CompanyKey: the map is a plain dictionary. Property names that a JavaScript object
  inherits, such as "constructor", are not found in it, although `companyMap[...]` would find
  them in the script.
- The tests under `__tests__/` are not modelled.
