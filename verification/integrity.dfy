/** Properties that relate several handlers or a handler and the store as a
    whole: references between collections, the unique indexes, and the
    order in which a handler's checks decide its answer. */
module Integrity {
  import opened Optional
  import opened Json
  import opened Failures
  import opened Ids
  import opened Store
  import opened Http
  import opened References
  import Text
  import Required
  import Schema
  import CompanyModel
  import ContactModel
  import ProjectModel
  import ReviewModel
  import CompanyController
  import ContactController
  import ProjectController
  import ReviewController

  /** Every contact's company exists. */
  ghost predicate ContactsLinked(db: Db) {
    forall k :: k in db.contacts ==> db.contacts[k].company in db.companies
  }

  /** Every project's company, and its team lead when it has one, exist. */
  ghost predicate ProjectsLinked(db: Db) {
    forall k :: k in db.projects ==>
      db.projects[k].company in db.companies
      && (db.projects[k].teamLead.Some? ==> db.projects[k].teamLead.value in db.contacts)
  }

  /** Every review's company and reviewer exist. */
  ghost predicate ReviewsLinked(db: Db) {
    forall k :: k in db.reviews ==> db.reviews[k].company in db.companies && db.reviews[k].reviewer in db.contacts
  }

  // ---- contacts keep pointing at companies ----

  lemma CreateCompanyKeepsContactsLinked(db: Db, body: Payload, newId: ObjectId)
    requires ContactsLinked(db)
    ensures ContactsLinked(CompanyController.CreateCompany(db, body, newId).db)
  {
  }

  lemma UpdateCompanyKeepsContactsLinked(db: Db, id: string, body: Payload)
    requires ContactsLinked(db)
    ensures ContactsLinked(CompanyController.UpdateCompany(db, id, body).db)
  {
  }

  /** The guard of `deleteCompany` is exactly what keeps contacts linked. */
  lemma DeleteCompanyKeepsContactsLinked(db: Db, id: string)
    requires ContactsLinked(db)
    ensures ContactsLinked(CompanyController.DeleteCompany(db, id).db)
  {
    var r := CompanyController.DeleteCompany(db, id);
    if r.db != db {
      forall k | k in r.db.contacts ensures r.db.contacts[k].company in r.db.companies {
        assert !CompanyController.Referenced(db.contacts, Parse(id).key);
        assert db.contacts[k].company != Parse(id).key;
      }
    }
  }

  lemma CreateContactKeepsContactsLinked(db: Db, body: Payload, newId: ObjectId, dateOf: string -> Option<int>)
    requires ContactsLinked(db)
    ensures ContactsLinked(ContactController.CreateContact(db, body, newId, dateOf).db)
  {
  }

  /** A supplied company survives the update validators only as an id, which
      the truthiness test then made the handler check. */
  lemma UpdateContactKeepsContactsLinked(db: Db, id: string, body: Payload, dateOf: string -> Option<int>)
    requires ContactsLinked(db)
    ensures ContactsLinked(ContactController.UpdateContact(db, id, body, dateOf).db)
  {
    var r := ContactController.UpdateContact(db, id, body, dateOf);
    if r.response.status == 204 {
      var key := Parse(id).key;
      var next := ContactModel.Patch(db.contacts[key], body, dateOf).value;
      if "company" in body {
        assert ContactModel.CompanyRef(body) == Schema.Set(next.company);
        assert body["company"].Str? && Parse(body["company"].s).Oid?;
      }
      assert next.company in db.companies;
    }
  }

  lemma DeleteContactKeepsContactsLinked(db: Db, id: string)
    requires ContactsLinked(db)
    ensures ContactsLinked(ContactController.DeleteContact(db, id).db)
  {
  }

  // ---- what deletes leave behind ----

  /** Only contacts block `deleteCompany`: a project of the company does
      not, and is left pointing at nothing. */
  lemma DeleteCompanyOrphansProjects(db: Db, id: string, p: ObjectId)
    requires db.up && Parse(id).Oid? && Parse(id).key in db.companies
    requires !CompanyController.Referenced(db.contacts, Parse(id).key)
    requires p in db.projects && db.projects[p].company == Parse(id).key
    ensures CompanyController.DeleteCompany(db, id).response.status == 204
    ensures !ProjectsLinked(CompanyController.DeleteCompany(db, id).db)
  {
    assert p in CompanyController.DeleteCompany(db, id).db.projects;
  }

  /** The same for a review of the company. */
  lemma DeleteCompanyOrphansReviews(db: Db, id: string, v: ObjectId)
    requires db.up && Parse(id).Oid? && Parse(id).key in db.companies
    requires !CompanyController.Referenced(db.contacts, Parse(id).key)
    requires v in db.reviews && db.reviews[v].company == Parse(id).key
    ensures CompanyController.DeleteCompany(db, id).response.status == 204
    ensures !ReviewsLinked(CompanyController.DeleteCompany(db, id).db)
  {
    assert v in CompanyController.DeleteCompany(db, id).db.reviews;
  }

  /** `deleteContact` has no guard: the reviews a contact wrote are left
      pointing at nothing. */
  lemma DeleteContactOrphansReviews(db: Db, id: string, v: ObjectId)
    requires db.up && Parse(id).Oid? && Parse(id).key in db.contacts
    requires v in db.reviews && db.reviews[v].reviewer == Parse(id).key
    ensures ContactController.DeleteContact(db, id).response.status == 204
    ensures !ReviewsLinked(ContactController.DeleteContact(db, id).db)
  {
    assert v in ContactController.DeleteContact(db, id).db.reviews;
  }

  /** Projects and reviews play no part in `deleteCompany`'s answer. */
  lemma DeleteCompanyIgnoresProjectsAndReviews(db: Db, id: string,
                                               projects: map<ObjectId, ProjectModel.Project>,
                                               reviews: map<ObjectId, ReviewModel.Review>)
    ensures CompanyController.DeleteCompany(db.(projects := projects, reviews := reviews), id).response
         == CompanyController.DeleteCompany(db, id).response
  {
  }

  // ---- new documents keep their references ----

  lemma CreateProjectKeepsProjectsLinked(db: Db, body: Payload, newId: ObjectId, dateOf: string -> Option<int>)
    requires ProjectsLinked(db)
    ensures ProjectsLinked(ProjectController.CreateProject(db, body, newId, dateOf).db)
  {
    var r := ProjectController.CreateProject(db, body, newId, dateOf);
    if r.response.status == 201 {
      var p := ProjectModel.Build(body, db.clock, dateOf).value;
      ProjectController.CreatedProjectReferencesExist(db, body, dateOf);
      forall k | k in r.db.projects
        ensures r.db.projects[k].company in r.db.companies
        ensures r.db.projects[k].teamLead.Some? ==> r.db.projects[k].teamLead.value in r.db.contacts
      {
        if k != newId {
          assert r.db.projects[k] == db.projects[k];
        }
      }
    }
  }

  lemma CreateReviewKeepsReviewsLinked(db: Db, body: Payload, newId: ObjectId)
    requires ReviewsLinked(db)
    ensures ReviewsLinked(ReviewController.CreateReview(db, body, newId).db)
  {
    if ReviewController.CreateReview(db, body, newId).response.status == 201 {
      assert "company" in body && "reviewer" in body by {
        assert ReviewController.RequiredFields[3] == "company" && ReviewController.RequiredFields[4] == "reviewer";
      }
    }
  }

  /** The update handlers check only truthy references, but a supplied
      reference survives the update only as the text of an id, which is
      truthy, so it was checked; references the body leaves out are kept. */
  lemma UpdateProjectKeepsProjectsLinked(db: Db, id: string, body: Payload, dateOf: string -> Option<int>)
    requires ProjectsLinked(db)
    ensures ProjectsLinked(ProjectController.UpdateProject(db, id, body, dateOf).db)
  {
    var r := ProjectController.UpdateProject(db, id, body, dateOf);
    if r.response.status == 204 {
      var key := Parse(id).key;
      var next := ProjectModel.Patch(db.projects[key], body, dateOf).value;
      if "company" in body {
        assert ProjectModel.CompanyRef(body) == Schema.Set(next.company);
        assert body["company"].Str? && Parse(body["company"].s).Oid?;
      }
      if "teamLead" in body && next.teamLead.Some? {
        assert ProjectModel.TeamLead(body) == Schema.Set(next.teamLead.value);
        assert body["teamLead"].Str? && Parse(body["teamLead"].s).Oid?;
      }
      assert next.company in db.companies;
      assert next.teamLead.Some? ==> next.teamLead.value in db.contacts;
      forall k | k in r.db.projects
        ensures r.db.projects[k].company in r.db.companies
        ensures r.db.projects[k].teamLead.Some? ==> r.db.projects[k].teamLead.value in r.db.contacts
      {
        if k != key {
          assert r.db.projects[k] == db.projects[k];
        }
      }
    }
  }

  lemma UpdateReviewKeepsReviewsLinked(db: Db, id: string, body: Payload)
    requires ReviewsLinked(db)
    ensures ReviewsLinked(ReviewController.UpdateReview(db, id, body).db)
  {
    var r := ReviewController.UpdateReview(db, id, body);
    if r.response.status == 204 {
      var key := Parse(id).key;
      var next := ReviewModel.Patch(db.reviews[key], body).value;
      if "company" in body {
        assert ReviewModel.CompanyRef(body) == Schema.Set(next.company);
        assert body["company"].Str? && Parse(body["company"].s).Oid?;
      }
      if "reviewer" in body {
        assert ReviewModel.Reviewer(body) == Schema.Set(next.reviewer);
        assert body["reviewer"].Str? && Parse(body["reviewer"].s).Oid?;
      }
      assert next.company in db.companies && next.reviewer in db.contacts;
      forall k | k in r.db.reviews
        ensures r.db.reviews[k].company in r.db.companies && r.db.reviews[k].reviewer in r.db.contacts
      {
        if k != key {
          assert r.db.reviews[k] == db.reviews[k];
        }
      }
    }
  }

  // ---- the unique indexes ----

  lemma UniqueByRemove<T>(docs: map<ObjectId, T>, field: T -> string, k: ObjectId)
    requires UniqueBy(docs, field)
    ensures UniqueBy(docs - {k}, field)
  {
  }

  lemma CreateCompanyKeepsIndexed(db: Db, body: Payload, newId: ObjectId)
    requires Indexed(db)
    ensures Indexed(CompanyController.CreateCompany(db, body, newId).db)
  {
    var r := CompanyController.CreateCompany(db, body, newId);
    if r.response.status == 201 {
      UniqueByPut(db.companies, CompanyName, newId, CompanyModel.Build(body, db.clock).value);
    }
  }

  lemma UpdateCompanyKeepsIndexed(db: Db, id: string, body: Payload)
    requires Indexed(db)
    ensures Indexed(CompanyController.UpdateCompany(db, id, body).db)
  {
    var r := CompanyController.UpdateCompany(db, id, body);
    if r.response.status == 204 {
      var key := Parse(id).key;
      UniqueByPut(db.companies, CompanyName, key, CompanyModel.Patch(db.companies[key], body).value);
    }
  }

  lemma DeleteCompanyKeepsIndexed(db: Db, id: string)
    requires Indexed(db)
    ensures Indexed(CompanyController.DeleteCompany(db, id).db)
  {
    if Parse(id).Oid? {
      UniqueByRemove(db.companies, CompanyName, Parse(id).key);
    }
  }

  lemma CreateContactKeepsIndexed(db: Db, body: Payload, newId: ObjectId, dateOf: string -> Option<int>)
    requires Indexed(db)
    ensures Indexed(ContactController.CreateContact(db, body, newId, dateOf).db)
  {
    var r := ContactController.CreateContact(db, body, newId, dateOf);
    if r.response.status == 201 {
      UniqueByPut(db.contacts, ContactEmail, newId, ContactModel.Build(body, db.clock, dateOf).value);
    }
  }

  lemma UpdateContactKeepsIndexed(db: Db, id: string, body: Payload, dateOf: string -> Option<int>)
    requires Indexed(db)
    ensures Indexed(ContactController.UpdateContact(db, id, body, dateOf).db)
  {
    var r := ContactController.UpdateContact(db, id, body, dateOf);
    if r.response.status == 204 {
      var key := Parse(id).key;
      UniqueByPut(db.contacts, ContactEmail, key, ContactModel.Patch(db.contacts[key], body, dateOf).value);
    }
  }

  lemma DeleteContactKeepsIndexed(db: Db, id: string)
    requires Indexed(db)
    ensures Indexed(ContactController.DeleteContact(db, id).db)
  {
    if Parse(id).Oid? {
      UniqueByRemove(db.contacts, ContactEmail, Parse(id).key);
    }
  }

  lemma CreateProjectKeepsIndexed(db: Db, body: Payload, newId: ObjectId, dateOf: string -> Option<int>)
    requires Indexed(db)
    ensures Indexed(ProjectController.CreateProject(db, body, newId, dateOf).db)
  {
    var r := ProjectController.CreateProject(db, body, newId, dateOf);
    if r.response.status == 201 {
      UniqueByPut(db.projects, ProjectTitle, newId, ProjectModel.Build(body, db.clock, dateOf).value);
    }
  }

  lemma UpdateProjectKeepsIndexed(db: Db, id: string, body: Payload, dateOf: string -> Option<int>)
    requires Indexed(db)
    ensures Indexed(ProjectController.UpdateProject(db, id, body, dateOf).db)
  {
    var r := ProjectController.UpdateProject(db, id, body, dateOf);
    if r.response.status == 204 {
      var key := Parse(id).key;
      UniqueByPut(db.projects, ProjectTitle, key, ProjectModel.Patch(db.projects[key], body, dateOf).value);
    }
  }

  lemma DeleteProjectKeepsIndexed(db: Db, id: string)
    requires Indexed(db)
    ensures Indexed(ProjectController.DeleteProject(db, id).db)
  {
    if Parse(id).Oid? {
      UniqueByRemove(db.projects, ProjectTitle, Parse(id).key);
    }
  }

  // ---- renaming ----

  /** Patching a valid company with its own name changes nothing. */
  lemma PatchWithOwnName(current: CompanyModel.Company)
    requires CompanyModel.Valid(current)
    ensures CompanyModel.Patch(current, map["name" := Str(current.name)]) == Ok(current)
  {
    var body := map["name" := Str(current.name)];
    Schema.ReadStoredText(body, "name", current.name, false);
    assert CompanyModel.UpdateErrors(body) == [];
  }

  /** Renaming a company to the name it already has skips the duplicate
      check and leaves the store as it was. */
  lemma UpdateCompanyToOwnName(db: Db, id: string)
    requires db.up && Parse(id).Oid? && Parse(id).key in db.companies
    requires CompanyModel.Valid(db.companies[Parse(id).key]) && Indexed(db)
    ensures CompanyController.UpdateCompany(db, id, map["name" := Str(db.companies[Parse(id).key].name)])
         == Reply(db, Response(204, Empty))
  {
    var key := Parse(id).key;
    var current := db.companies[key];
    var body := map["name" := Str(current.name)];
    assert FindById(db.up, db.companies, id) == Ok(Some(Listing.Entry(key, current)));
    assert !Renames(body, "name", current.name);
    PatchWithOwnName(current);
    assert !Held(db.companies, CompanyName, current.name, Some(key));
    assert db.companies[key := current] == db.companies;
    assert CompanyController.UpdateCompanyTry(db, id, body) == Ok(Reply(db, Response(204, Empty)));
  }

  /** The duplicate check trims the new name like the schema does, so the
      company's own name with a leading space is refused as taken. */
  lemma UpdateCompanyToPaddedOwnName(db: Db, id: string)
    requires db.up && Parse(id).Oid? && Parse(id).key in db.companies
    requires CompanyModel.Valid(db.companies[Parse(id).key])
    ensures CompanyController.UpdateCompany(db, id, map["name" := Str(" " + db.companies[Parse(id).key].name)])
         == Refuse(db, 400, CompanyController.NameExists)
  {
    var key := Parse(id).key;
    var current := db.companies[key];
    var body := map["name" := Str(" " + current.name)];
    assert FindById(db.up, db.companies, id) == Ok(Some(Listing.Entry(key, current)));
    assert Renames(body, "name", current.name) by {
      assert |" " + current.name| != |current.name|;
    }
    Text.TrimOfPadded(current.name);
    assert Schema.AsText(Str(" " + current.name), true, false) == Schema.Set(current.name);
    assert Held(db.companies, CompanyName, current.name, None) by {
      assert CompanyName(db.companies[key]) == current.name;
    }
    assert CompanyController.UpdateCompanyTry(db, id, body)
        == Ok(Refuse(db, 400, CompanyController.NameExists));
  }

  // ---- reading back what was written ----

  /** A created company is found under its new id, as it was built. */
  lemma CreateThenGetCompany(db: Db, body: Payload, newId: ObjectId)
    requires CompanyController.CreateCompany(db, body, newId).response.status == 201
    ensures CompanyController.GetCompanyById(CompanyController.CreateCompany(db, body, newId).db, newId).response
         == Response(200, One(Listing.Entry(newId, CompanyModel.Build(body, db.clock).value)))
  {
    ParseKey(newId);
  }

  /** A deleted company is not found afterwards. */
  lemma DeleteThenGetCompany(db: Db, id: string)
    requires CompanyController.DeleteCompany(db, id).response.status == 204
    ensures CompanyController.GetCompanyById(CompanyController.DeleteCompany(db, id).db, id).response
         == Response(404, Error(Says(CompanyController.NotFound)))
  {
  }

  // ---- which check answers ----

  /** With the other required fields truthy, a budget of 0 is the one
      missing field. */
  lemma OnlyBudgetMissing(body: Payload)
    requires !Absent(body, "title") && !Absent(body, "description") && !Absent(body, "company")
    requires !Absent(body, "startDate") && "budget" in body && body["budget"] == Num(0)
    ensures Required.Missing(ProjectController.RequiredFields, body) == ["budget"]
  {
    var fields := ProjectController.RequiredFields;
    assert Required.Missing(fields[5..], body) == [];
    assert Required.Missing(fields[4..], body) == ["budget"] by { assert fields[4..][1..] == fields[5..]; }
    assert Required.Missing(fields[3..], body) == ["budget"] by { assert fields[3..][1..] == fields[4..]; }
    assert Required.Missing(fields[2..], body) == ["budget"] by { assert fields[2..][1..] == fields[3..]; }
    assert Required.Missing(fields[1..], body) == ["budget"] by { assert fields[1..][1..] == fields[2..]; }
  }

  /** `validateFields` tests truthiness, so a budget of 0 is reported as
      missing before the schema's `min: 0` is ever consulted. */
  lemma ZeroBudgetIsMissing(db: Db, body: Payload, newId: ObjectId, dateOf: string -> Option<int>)
    requires !Absent(body, "title") && !Absent(body, "description") && !Absent(body, "company")
    requires !Absent(body, "startDate") && "budget" in body && body["budget"] == Num(0)
    ensures ProjectController.CreateProject(db, body, newId, dateOf)
         == Refuse(db, 400, "Missing required fields: budget")
  {
    OnlyBudgetMissing(body);
    assert Required.Validate(ProjectController.RequiredFields, body).Fail?;
    ProjectController.CreateProjectMissingFields(db, body, newId, dateOf);
    assert Text.Join(["budget"], ", ") == "budget";
    assert Required.MissingMessage(["budget"]) == "Missing required fields: budget";
  }
}
