/** The project handlers, each as its try-block followed by its catch-block. */
module ProjectController {
  import opened Optional
  import opened Json
  import opened Failures
  import opened Ids
  import opened Listing
  import opened Store
  import opened Http
  import opened References
  import Text
  import Schema
  import Required
  import ProjectModel

  type Project = ProjectModel.Project

  const RequiredFields := ["title", "description", "company", "startDate", "budget"]
  const NotFound := "Project not found"
  const TitleExists := "Project title already exists"

  /** `sort({ startDate: -1 })`: latest start first. */
  predicate ByLatestStart(a: Entry<Project>, b: Entry<Project>) {
    a.doc.startDate >= b.doc.startDate
  }

  lemma ByLatestStartSorts()
    ensures TotalPreorder(ByLatestStart)
  {
  }

  /** `getProjects`: every project, latest start date first. */
  method GetProjects(db: Db) returns (r: Reply<Project>)
    ensures r.db == db
    ensures !db.up ==> r.response == Response(500, Error(Says(ServerError)))
    ensures db.up ==> r.response.status == 200 && r.response.body.Many?
    ensures db.up ==> Lists(db.projects, r.response.body.entries) && Sorted(r.response.body.entries, ByLatestStart)
  {
    ByLatestStartSorts();
    r := GetAll(db, db.projects, ByLatestStart);
  }

  /** `getProjectById`: a malformed or unknown id is the 404 "Project not
      found"; only an unreachable store gives a 500. */
  function GetProjectById(db: Db, id: string): (r: Reply<Project>)
    ensures r.db == db
    ensures r.response.status in {200, 404, 500}
    ensures r.response.status == 404 <==> Parse(id).Malformed? || (db.up && Parse(id).key !in db.projects)
    ensures r.response.status == 404 ==> r.response.body == Error(Says(NotFound))
    ensures r.response.status == 500 <==> Parse(id).Oid? && !db.up
    ensures r.response.status == 200 ==> r.response.body == One(Entry(Parse(id).key, db.projects[Parse(id).key]))
  {
    GetOne(db, db.projects, id, NotFound)
  }

  /** A truthy `teamLead` in the body names an existing contact. */
  predicate TeamLeadChecked(db: Db, body: Payload) {
    Absent(body, "teamLead") || EnsureContact(db, body["teamLead"]).Ok?
  }

  /** The try-block of `createProject`: required fields, the company, a
      truthy team lead, validation, then the insert. */
  function CreateProjectTry(db: Db, body: Payload, newId: ObjectId, dateOf: string -> Option<int>): Try<Db> {
    var _ :- Required.Validate(RequiredFields, body);
    var _ :- EnsureCompany(db, Field(body, "company"));
    var _ :- if !Absent(body, "teamLead") then EnsureContact(db, body["teamLead"]) else Ok(());
    // the company lookup succeeded, so the store is reachable for the insert
    var project :- ProjectModel.Build(body, db.clock, dateOf);
    if newId in db.projects || Held(db.projects, ProjectTitle, project.title, None) then Fail(DuplicateKey)
    else Ok(db.(projects := db.projects[newId := project], clock := db.clock + 1))
  }

  /** The checks `createProject` makes before writing, in order. */
  predicate CreatePasses(db: Db, body: Payload, dateOf: string -> Option<int>) {
    && Required.Validate(RequiredFields, body).Ok?
    && EnsureCompany(db, Field(body, "company")).Ok?
    && TeamLeadChecked(db, body)
    && ProjectModel.Build(body, db.clock, dateOf).Ok?
  }

  /** `createProject`: 201 with the new id, and exactly one more project;
      otherwise a 400 and the store unchanged. */
  function CreateProject(db: Db, body: Payload, newId: ObjectId, dateOf: string -> Option<int>): (r: Reply<Project>)
    ensures r.response.status == 201 || r.response.status == 400
    ensures r.response.status == 201 <==>
      && CreatePasses(db, body, dateOf) && newId !in db.projects
      && !Held(db.projects, ProjectTitle, ProjectModel.Build(body, db.clock, dateOf).value.title, None)
    ensures r.response.status == 201 ==>
      && r.response.body == Created(newId)
      && r.db == db.(projects := db.projects[newId := ProjectModel.Build(body, db.clock, dateOf).value],
                     clock := db.clock + 1)
    ensures r.response.status == 400 ==> r.db == db
  {
    match CreateProjectTry(db, body, newId, dateOf)
    case Ok(next) => Reply(next, Response(201, Created(newId)))
    case Fail(err) => CatchWrite(db, err, None, Some(TitleExists), true)
  }

  /** Missing fields are reported first, all of them. */
  lemma CreateProjectMissingFields(db: Db, body: Payload, newId: ObjectId, dateOf: string -> Option<int>)
    requires Required.Validate(RequiredFields, body).Fail?
    ensures CreateProject(db, body, newId, dateOf)
         == Refuse(db, 400, Required.MissingMessage(Required.Missing(RequiredFields, body)))
  {
    var v := Required.Validate(RequiredFields, body);
    assert CreateProjectTry(db, body, newId, dateOf).Fail? && CreateProjectTry(db, body, newId, dateOf).error == v.error;
    assert v.error == AppError(400, Required.MissingMessage(Required.Missing(RequiredFields, body)));
  }

  /** The company is checked first: with every field present, a company id
      that names no company is "Company not found", whatever the team
      lead. */
  lemma CreateProjectUnknownCompany(db: Db, body: Payload, newId: ObjectId, dateOf: string -> Option<int>)
    requires Required.Validate(RequiredFields, body).Ok? && db.up && Field(body, "company").Str?
    requires Parse(Field(body, "company").s).Oid? && Parse(Field(body, "company").s).key !in db.companies
    ensures CreateProject(db, body, newId, dateOf) == Refuse(db, 400, CompanyNotFound)
  {
  }

  /** Once the company exists, a truthy team lead that names no contact is
      "Contact not found". */
  lemma CreateProjectUnknownTeamLead(db: Db, body: Payload, newId: ObjectId, dateOf: string -> Option<int>)
    requires Required.Validate(RequiredFields, body).Ok? && EnsureCompany(db, Field(body, "company")).Ok?
    requires !Absent(body, "teamLead") && body["teamLead"].Str? && Parse(body["teamLead"].s).Oid?
    requires Parse(body["teamLead"].s).key !in db.contacts
    ensures CreateProject(db, body, newId, dateOf) == Refuse(db, 400, ContactNotFound)
  {
  }

  /** A title another project holds, after trimming, is "Project title
      already exists". */
  lemma CreateProjectDuplicateTitle(db: Db, body: Payload, newId: ObjectId, dateOf: string -> Option<int>)
    requires CreatePasses(db, body, dateOf) && newId !in db.projects
    requires Held(db.projects, ProjectTitle, ProjectModel.Build(body, db.clock, dateOf).value.title, None)
    ensures CreateProject(db, body, newId, dateOf) == Refuse(db, 400, TitleExists)
  {
  }

  /** A project that passes the checks of `createProject` references an
      existing company, and an existing contact when it has a team lead. */
  lemma CreatedProjectReferencesExist(db: Db, body: Payload, dateOf: string -> Option<int>)
    requires CreatePasses(db, body, dateOf)
    ensures var p := ProjectModel.Build(body, db.clock, dateOf).value;
      p.company in db.companies && (p.teamLead.Some? ==> p.teamLead.value in db.contacts)
  {
    BuiltCompanyExists(db, body, dateOf);
    BuiltTeamLeadExists(db, body, dateOf);
  }

  /** A built project's company came from the `company` the company check
      found. */
  lemma BuiltCompanyExists(db: Db, body: Payload, dateOf: string -> Option<int>)
    requires EnsureCompany(db, Field(body, "company")).Ok?
    requires ProjectModel.Build(body, db.clock, dateOf).Ok?
    ensures ProjectModel.Build(body, db.clock, dateOf).value.company in db.companies
  {
    var p := ProjectModel.Build(body, db.clock, dateOf).value;
    assert "company" in body;
    assert ProjectModel.CompanyRef(body) == Schema.Set(p.company);
    assert body["company"].Str? && Parse(body["company"].s).Oid?;
  }

  /** A built project's team lead, when it has one, came from a truthy
      `teamLead`, so the contact check covered it. */
  lemma BuiltTeamLeadExists(db: Db, body: Payload, dateOf: string -> Option<int>)
    requires TeamLeadChecked(db, body) && ProjectModel.Build(body, db.clock, dateOf).Ok?
    ensures ProjectModel.Build(body, db.clock, dateOf).value.teamLead.Some? ==>
      ProjectModel.Build(body, db.clock, dateOf).value.teamLead.value in db.contacts
  {
    var p := ProjectModel.Build(body, db.clock, dateOf).value;
    if p.teamLead.Some? {
      assert "teamLead" in body && ProjectModel.TeamLead(body).Set?;
      assert body["teamLead"].Str? && Parse(body["teamLead"].s).Oid?;
    }
  }

  /** The try-block of `updateProject`: load the project, check the truthy
      references, look for another holder of a new title, then write. */
  function UpdateProjectTry(db: Db, id: string, body: Payload, dateOf: string -> Option<int>): (r: Try<Reply<Project>>)
    ensures r.Ok? ==> r.value.response.status in {204, 400, 404}
    ensures r.Ok? && r.value.response.status != 204 ==> r.value.db == db
    ensures r.Ok? && r.value.response.status == 204 ==>
      && UpdateAccepted(db, id, body, dateOf)
      && r.value == Reply(db.(projects := db.projects[Parse(id).key := ProjectModel.Patch(db.projects[Parse(id).key], body, dateOf).value]),
                          Response(204, Empty))
    ensures r.Fail? && r.error.AppError? ==> r.error.statusCode == 400
  {
    var found :- FindById(db.up, db.projects, id);
    if found.None? then Ok(Refuse(db, 404, NotFound))
    else
      var current := found.value;
      var _ :- if !Absent(body, "company") then EnsureCompany(db, body["company"]) else Ok(());
      var _ :- if !Absent(body, "teamLead") then EnsureContact(db, body["teamLead"]) else Ok(());
      var taken :- if Renames(body, "title", current.doc.title)
                   then FindOneByText(db.up, db.projects, ProjectTitle, "title", body["title"])
                   else Ok(false);
      if taken then Ok(Refuse(db, 400, TitleExists))
      else
        var next :- ProjectModel.Patch(current.doc, body, dateOf);
        if Held(db.projects, ProjectTitle, next.title, Some(current.id)) then Fail(DuplicateKey)
        else Ok(Reply(db.(projects := db.projects[current.id := next]), Response(204, Empty)))
  }

  /** The rename pre-check of `updateProject` finds no project holding the
      new title. */
  predicate TitleFree(db: Db, body: Payload, current: Project) {
    || !Renames(body, "title", current.title)
    || FindOneByText(db.up, db.projects, ProjectTitle, "title", body["title"]) == Ok(false)
  }

  /** Every check of `updateProject` passes: the id names a project, the
      truthy references exist, a new title is free, the update validators
      pass and the title index accepts the result. */
  predicate UpdateAccepted(db: Db, id: string, body: Payload, dateOf: string -> Option<int>) {
    && Parse(id).Oid? && db.up && Parse(id).key in db.projects
    && CompanyChecked(db, body) && TeamLeadChecked(db, body) && TitleFree(db, body, db.projects[Parse(id).key])
    && ProjectModel.UpdateCastFailure(body, dateOf).None? && ProjectModel.UpdateErrors(body, dateOf) == []
    && !Held(db.projects, ProjectTitle, ProjectModel.Patch(db.projects[Parse(id).key], body, dateOf).value.title,
             Some(Parse(id).key))
  }

  /** `updateProject`: a 204 only when every check passes, and then that one
      project is patched and nothing else changes. Anything else is a 400 or
      a 404 and leaves the store as it was. */
  function UpdateProject(db: Db, id: string, body: Payload, dateOf: string -> Option<int>): (r: Reply<Project>)
    ensures r.response.status in {204, 400, 404}
    ensures r.response.status != 204 ==> r.db == db
    ensures r.response.status == 204 ==> UpdateAccepted(db, id, body, dateOf)
    ensures r.response.status == 204 ==>
      && r.response.body == Empty
      && r.db == db.(projects := db.projects[Parse(id).key := ProjectModel.Patch(db.projects[Parse(id).key], body, dateOf).value])
  {
    match UpdateProjectTry(db, id, body, dateOf)
    case Ok(reply) => reply
    case Fail(err) => CatchWrite(db, err, Some(NotFound), Some(TitleExists), true)
  }

  /** For an existing project whose references and new title pass their
      checks, a supplied value that cannot be cast makes the update throw a
      CastError, which this handler reports as its 404. */
  lemma UpdateProjectUncastable(db: Db, id: string, body: Payload, dateOf: string -> Option<int>)
    requires Parse(id).Oid? && db.up && Parse(id).key in db.projects
    requires CompanyChecked(db, body) && TeamLeadChecked(db, body) && TitleFree(db, body, db.projects[Parse(id).key])
    requires ProjectModel.UpdateCastFailure(body, dateOf).Some?
    ensures UpdateProject(db, id, body, dateOf) == Refuse(db, 404, NotFound)
  {
  }

  /** When every check passes, the update is made. */
  lemma UpdateProjectAccepted(db: Db, id: string, body: Payload, dateOf: string -> Option<int>)
    requires UpdateAccepted(db, id, body, dateOf)
    ensures UpdateProject(db, id, body, dateOf).response.status == 204
  {
  }

  /** The project is looked up before the body is looked at: a malformed or
      unknown id is the 404, and an unreachable store the driver's 400. */
  lemma UpdateProjectLookup(db: Db, id: string, body: Payload, dateOf: string -> Option<int>)
    ensures Parse(id).Malformed? ==> UpdateProject(db, id, body, dateOf) == Refuse(db, 404, NotFound)
    ensures Parse(id).Oid? && !db.up ==> UpdateProject(db, id, body, dateOf) == Reply(db, Response(400, Error(DriverText)))
    ensures Parse(id).Oid? && db.up && Parse(id).key !in db.projects
      ==> UpdateProject(db, id, body, dateOf) == Refuse(db, 404, NotFound)
  {
  }

  /** For an existing project, a truthy company that names no company is a
      400, but one that is not an id at all throws a CastError, which this
      handler reports as its own 404. */
  lemma UpdateProjectCompanyCheck(db: Db, id: string, body: Payload, dateOf: string -> Option<int>)
    requires Parse(id).Oid? && db.up && Parse(id).key in db.projects && !Absent(body, "company")
    ensures Schema.AsRef(body["company"]).Bad? ==> UpdateProject(db, id, body, dateOf) == Refuse(db, 404, NotFound)
    ensures body["company"].Str? && Parse(body["company"].s).Oid? && Parse(body["company"].s).key !in db.companies
      ==> UpdateProject(db, id, body, dateOf) == Refuse(db, 400, CompanyNotFound)
  {
  }

  /** With the company passing, a truthy team lead that names no contact is
      a 400, checked before the title. */
  lemma UpdateProjectTeamLeadCheck(db: Db, id: string, body: Payload, dateOf: string -> Option<int>)
    requires Parse(id).Oid? && db.up && Parse(id).key in db.projects && CompanyChecked(db, body)
    requires !Absent(body, "teamLead") && body["teamLead"].Str? && Parse(body["teamLead"].s).Oid?
    requires Parse(body["teamLead"].s).key !in db.contacts
    ensures UpdateProject(db, id, body, dateOf) == Refuse(db, 400, ContactNotFound)
  {
  }

  /** A new title some project holds after trimming, the project itself
      included, is refused before the update runs. */
  lemma UpdateProjectTitleTaken(db: Db, id: string, body: Payload, dateOf: string -> Option<int>)
    requires Parse(id).Oid? && db.up && Parse(id).key in db.projects
    requires CompanyChecked(db, body) && TeamLeadChecked(db, body)
    requires Renames(body, "title", db.projects[Parse(id).key].title) && body["title"].Str?
    requires Held(db.projects, ProjectTitle, Text.Trim(body["title"].s), None)
    ensures UpdateProject(db, id, body, dateOf) == Refuse(db, 400, TitleExists)
  {
    var current := db.projects[Parse(id).key];
    assert FindById(db.up, db.projects, id) == Ok(Some(Entry(Parse(id).key, current)));
    assert FindOneByText(db.up, db.projects, ProjectTitle, "title", body["title"]) == Ok(true);
    assert UpdateProjectTry(db, id, body, dateOf) == Ok(Refuse(db, 400, TitleExists));
  }

  /** A title the pre-check lets through but another project holds once the
      update is applied (a falsy `title: 0` skips the pre-check and casts to
      "0") is caught by the unique index, and the handler maps that to the
      same "Project title already exists" with no write. */
  lemma UpdateProjectTitleBackstop(db: Db, id: string, body: Payload, dateOf: string -> Option<int>)
    requires Parse(id).Oid? && db.up && Parse(id).key in db.projects
    requires CompanyChecked(db, body) && TeamLeadChecked(db, body) && TitleFree(db, body, db.projects[Parse(id).key])
    requires ProjectModel.UpdateCastFailure(body, dateOf).None? && ProjectModel.UpdateErrors(body, dateOf) == []
    requires Held(db.projects, ProjectTitle, ProjectModel.Patch(db.projects[Parse(id).key], body, dateOf).value.title,
                  Some(Parse(id).key))
    ensures UpdateProject(db, id, body, dateOf) == Refuse(db, 400, TitleExists)
  {
  }

  /** `deleteProject`: removes the project (204); a malformed or unknown id
      is a 404. */
  function DeleteProject(db: Db, id: string): (r: Reply<Project>)
    ensures Parse(id).Malformed? ==> r == Refuse(db, 404, NotFound)
    ensures Parse(id).Oid? && !db.up ==> r == Refuse(db, 500, ServerError)
    ensures Parse(id).Oid? && db.up && Parse(id).key !in db.projects ==> r == Refuse(db, 404, NotFound)
    ensures Parse(id).Oid? && db.up && Parse(id).key in db.projects
      ==> r == Reply(db.(projects := db.projects - {Parse(id).key}), Response(204, Empty))
  {
    match FindByIdAndDelete(db.up, db.projects, id)
    case Ok((rest, found)) =>
      if !found then Refuse(db, 404, NotFound) else Reply(db.(projects := rest), Response(204, Empty))
    case Fail(err) => CatchLookup(db, err, NotFound)
  }
}
