/** The Project schema: a unique, trimmed, required `title`; a required
    `description` of at most 1000 characters; a required `company`
    reference; a `status` drawn from a four-value enum that defaults to
    Planning; a required `startDate` and an optional `endDate`; a required,
    non-negative `budget`; and an optional `teamLead` reference to a
    contact. */
module ProjectModel {
  import opened Optional
  import opened Json
  import opened Failures
  import opened Schema
  import opened Ids
  import Text

  datatype Status = Planning | InProgress | Completed | OnHold {
    /** The enum value as the schema spells it. */
    function Label(): string {
      match this
      case Planning => "Planning"
      case InProgress => "In Progress"
      case Completed => "Completed"
      case OnHold => "On Hold"
    }
  }

  /** The enum member a string spells, if any: the inverse of `Label`. */
  function StatusOf(s: string): (r: Option<Status>)
    ensures r.Some? ==> r.value.Label() == s
  {
    if s == "Planning" then Some(Planning)
    else if s == "In Progress" then Some(InProgress)
    else if s == "Completed" then Some(Completed)
    else if s == "On Hold" then Some(OnHold)
    else None
  }

  /** Every enum member is recognised by its own label, so `StatusOf` is
      defined exactly on the four labels. */
  lemma StatusOfLabel(st: Status)
    ensures StatusOf(st.Label()) == Some(st)
  {
    match st
    case Planning =>
    case InProgress =>
      assert "In Progress" != "Planning" by { assert "In Progress"[0] != "Planning"[0]; }
    case Completed =>
      assert "Completed" != "Planning" by { assert "Completed"[0] != "Planning"[0]; }
      assert "Completed" != "In Progress" by { assert "Completed"[0] != "In Progress"[0]; }
    case OnHold =>
      assert "On Hold" != "Planning" by { assert "On Hold"[0] != "Planning"[0]; }
      assert "On Hold" != "In Progress" by { assert "On Hold"[0] != "In Progress"[0]; }
      assert "On Hold" != "Completed" by { assert "On Hold"[0] != "Completed"[0]; }
  }

  datatype Project = Project(
    title: string,
    description: string,
    company: ObjectId,
    status: Option<Status>,
    startDate: int,
    endDate: Option<int>,
    budget: int,
    teamLead: Option<ObjectId>,
    createdAt: nat)

  const Model := "Project"

  const DescriptionRule := TextRule(true, AnyText, Some(1000))
  const BudgetRule := NumberRule(true, Some(0), None)

  /** Each path's value in a body, after casting and the path's setters.
      `status` has no setter: its text is compared with the enum as sent. */
  function Title(body: Payload): Cast<string> { ReadText(body, "title", true, false) }
  function Description(body: Payload): Cast<string> { ReadText(body, "description", true, false) }
  function CompanyRef(body: Payload): Cast<ObjectId> { ReadRef(body, "company") }
  function StatusText(body: Payload): Cast<string> { ReadText(body, "status", false, false) }
  function StartDate(body: Payload, dateOf: string -> Option<int>): Cast<int> { ReadDate(body, "startDate", dateOf) }
  function EndDate(body: Payload, dateOf: string -> Option<int>): Cast<int> { ReadDate(body, "endDate", dateOf) }
  function Budget(body: Payload): Cast<int> { ReadNumber(body, "budget") }
  function TeamLead(body: Payload): Cast<ObjectId> { ReadRef(body, "teamLead") }

  /** Every constraint of the schema, on a stored project. */
  predicate Valid(p: Project) {
    && Fits(p.title, RequiredText)
    && Fits(p.description, DescriptionRule)
    && InRange(p.budget, BudgetRule)
  }

  function TitleErrors(body: Payload): seq<FieldError> { TextErrors("title", Title(body), RequiredText) }
  function DescriptionErrors(body: Payload): seq<FieldError> { TextErrors("description", Description(body), DescriptionRule) }
  function CompanyErrors(body: Payload): seq<FieldError> { PresenceErrors("company", CompanyRef(body), true) }

  /** The enum validator: an unset status passes, text outside the four
      labels fails. */
  function StatusErrors(body: Payload): (r: seq<FieldError>)
    ensures r == [] <==> StatusText(body).Unset? || (StatusText(body).Set? && StatusOf(StatusText(body).value).Some?)
    ensures StatusText(body).Bad? ==> r == [FieldError("status", Uncastable)]
    ensures |r| <= 1 && (r != [] ==> (r[0].violation == Uncastable <==> StatusText(body).Bad?))
  {
    match StatusText(body)
    case Bad => [FieldError("status", Uncastable)]
    case Unset => []
    case Set(s) => if StatusOf(s).Some? then [] else [FieldError("status", NotInEnum)]
  }

  function StartDateErrors(body: Payload, dateOf: string -> Option<int>): seq<FieldError> {
    PresenceErrors("startDate", StartDate(body, dateOf), true)
  }
  function EndDateErrors(body: Payload, dateOf: string -> Option<int>): seq<FieldError> {
    PresenceErrors("endDate", EndDate(body, dateOf), false)
  }
  function BudgetErrors(body: Payload): seq<FieldError> { NumberErrors("budget", Budget(body), BudgetRule) }
  function TeamLeadErrors(body: Payload): seq<FieldError> { PresenceErrors("teamLead", TeamLead(body), false) }

  /** Document validation on `save()`: every path, in schema order. */
  function CreateErrors(body: Payload, dateOf: string -> Option<int>): seq<FieldError> {
    TitleErrors(body) + DescriptionErrors(body) + CompanyErrors(body) + StatusErrors(body)
    + StartDateErrors(body, dateOf) + EndDateErrors(body, dateOf) + BudgetErrors(body)
    + TeamLeadErrors(body)
  }

  /** Update validation (`runValidators`): only the paths the body supplies. */
  function UpdateErrors(body: Payload, dateOf: string -> Option<int>): seq<FieldError> {
    IfSupplied(body, "title", TitleErrors(body))
    + IfSupplied(body, "description", DescriptionErrors(body))
    + IfSupplied(body, "company", CompanyErrors(body))
    + IfSupplied(body, "status", StatusErrors(body))
    + IfSupplied(body, "startDate", StartDateErrors(body, dateOf))
    + IfSupplied(body, "endDate", EndDateErrors(body, dateOf))
    + IfSupplied(body, "budget", BudgetErrors(body))
    + IfSupplied(body, "teamLead", TeamLeadErrors(body))
  }

  /** The stored status for a supplied, valid status path: null stores no
      status, a label stores its member. */
  function SuppliedStatus(body: Payload): Option<Status>
    requires StatusErrors(body) == []
  {
    if StatusText(body).Set? then StatusOf(StatusText(body).value) else None
  }

  /** `p` holds, on every path the body supplies, that path's cast value. */
  predicate TakesSupplied(body: Payload, dateOf: string -> Option<int>, p: Project) {
    && ("title" in body ==> Title(body) == Set(p.title))
    && ("description" in body ==> Description(body) == Set(p.description))
    && ("company" in body ==> CompanyRef(body) == Set(p.company))
    && ("status" in body ==> match StatusText(body)
                             case Set(s) => p.status.Some? && p.status.value.Label() == s
                             case Unset => p.status == None
                             case Bad => false)
    && ("startDate" in body ==> StartDate(body, dateOf) == Set(p.startDate))
    && ("endDate" in body ==> !EndDate(body, dateOf).Bad? && EndDate(body, dateOf).Stored() == p.endDate)
    && ("budget" in body ==> Budget(body) == Set(p.budget))
    && ("teamLead" in body ==> !TeamLead(body).Bad? && TeamLead(body).Stored() == p.teamLead)
  }

  /** `next` equals `current` on every path the body does not supply. */
  predicate KeepsUnsupplied(body: Payload, current: Project, next: Project) {
    && ("title" !in body ==> next.title == current.title)
    && ("description" !in body ==> next.description == current.description)
    && ("company" !in body ==> next.company == current.company)
    && ("status" !in body ==> next.status == current.status)
    && ("startDate" !in body ==> next.startDate == current.startDate)
    && ("endDate" !in body ==> next.endDate == current.endDate)
    && ("budget" !in body ==> next.budget == current.budget)
    && ("teamLead" !in body ==> next.teamLead == current.teamLead)
    && next.createdAt == current.createdAt
  }

  /** `new Project(body)` followed by validation: either the validation error
      listing every failing path, or a valid project whose every path holds
      the body's cast value; an omitted status is Planning, omitted optional
      paths stay empty. */
  function Build(body: Payload, createdAt: nat, dateOf: string -> Option<int>): (r: Try<Project>)
    ensures r.Fail? <==> CreateErrors(body, dateOf) != []
    ensures r.Fail? ==> r.error == ValidationError(Model, CreateErrors(body, dateOf))
    ensures r.Ok? ==> Valid(r.value) && r.value.createdAt == createdAt
    ensures r.Ok? ==> TakesSupplied(body, dateOf, r.value)
    ensures r.Ok? && "status" !in body ==> r.value.status == Some(Planning)
    ensures r.Ok? && "endDate" !in body ==> r.value.endDate == None
    ensures r.Ok? && "teamLead" !in body ==> r.value.teamLead == None
  {
    var errors := CreateErrors(body, dateOf);
    if errors != [] then Fail(ValidationError(Model, errors))
    else
      assert TitleErrors(body) == [] && DescriptionErrors(body) == [] && CompanyErrors(body) == []
        && StatusErrors(body) == [] && StartDateErrors(body, dateOf) == [] && EndDateErrors(body, dateOf) == []
        && BudgetErrors(body) == [] && TeamLeadErrors(body) == [];
      Ok(Project(
        Title(body).value, Description(body).value, CompanyRef(body).value,
        if "status" in body then SuppliedStatus(body) else Some(Planning),
        StartDate(body, dateOf).value, EndDate(body, dateOf).Stored(), Budget(body).value,
        TeamLead(body).Stored(), createdAt))
  }

  /** The path the cast step of an update reports: the first supplied path,
      in schema order, whose value cannot be cast; a path the body leaves
      out is never cast. Mongoose walks the body in its own key order, but
      which path is named never changes a handler's answer. */
  function UpdateCastFailure(body: Payload, dateOf: string -> Option<int>): (r: Option<string>)
    ensures r.Some? ==> r.value in body
  {
    if Title(body).Bad? then Some("title")
    else if Description(body).Bad? then Some("description")
    else if CompanyRef(body).Bad? then Some("company")
    else if StatusText(body).Bad? then Some("status")
    else if StartDate(body, dateOf).Bad? then Some("startDate")
    else if EndDate(body, dateOf).Bad? then Some("endDate")
    else if Budget(body).Bad? then Some("budget")
    else if TeamLead(body).Bad? then Some("teamLead")
    else None
  }

  /** The cast step and the update validators agree: the cast fails exactly
      when some supplied path would be reported uncastable. */
  lemma UpdateCastFailureIsUncastable(body: Payload, dateOf: string -> Option<int>)
    ensures UpdateCastFailure(body, dateOf).None? <==> CastsCleanly(UpdateErrors(body, dateOf))
  {
    if UpdateCastFailure(body, dateOf).Some? {
      UpdateCastFailureReported(body, dateOf);
      UncastableNotClean(UpdateErrors(body, dateOf), FieldError(UpdateCastFailure(body, dateOf).value, Uncastable));
    } else {
      var p0 := IfSupplied(body, "title", TitleErrors(body));
      SuppliedCast(body, "title", Title(body), TitleErrors(body));
      var p1 := IfSupplied(body, "description", DescriptionErrors(body));
      SuppliedCast(body, "description", Description(body), DescriptionErrors(body));
      var p2 := IfSupplied(body, "company", CompanyErrors(body));
      SuppliedCast(body, "company", CompanyRef(body), CompanyErrors(body));
      var p3 := IfSupplied(body, "status", StatusErrors(body));
      SuppliedCast(body, "status", StatusText(body), StatusErrors(body));
      var p4 := IfSupplied(body, "startDate", StartDateErrors(body, dateOf));
      SuppliedCast(body, "startDate", StartDate(body, dateOf), StartDateErrors(body, dateOf));
      var p5 := IfSupplied(body, "endDate", EndDateErrors(body, dateOf));
      SuppliedCast(body, "endDate", EndDate(body, dateOf), EndDateErrors(body, dateOf));
      var p6 := IfSupplied(body, "budget", BudgetErrors(body));
      SuppliedCast(body, "budget", Budget(body), BudgetErrors(body));
      var p7 := IfSupplied(body, "teamLead", TeamLeadErrors(body));
      SuppliedCast(body, "teamLead", TeamLead(body), TeamLeadErrors(body));
      assert UpdateErrors(body, dateOf) == p0 + p1 + p2 + p3 + p4 + p5 + p6 + p7;
      CastsCleanlyAppend(p0, p1);
      CastsCleanlyAppend(p0 + p1, p2);
      CastsCleanlyAppend(p0 + p1 + p2, p3);
      CastsCleanlyAppend(p0 + p1 + p2 + p3, p4);
      CastsCleanlyAppend(p0 + p1 + p2 + p3 + p4, p5);
      CastsCleanlyAppend(p0 + p1 + p2 + p3 + p4 + p5, p6);
      CastsCleanlyAppend(p0 + p1 + p2 + p3 + p4 + p5 + p6, p7);
    }
  }

  /** The path the cast step names is one the update validators would
      report as uncastable. */
  lemma UpdateCastFailureReported(body: Payload, dateOf: string -> Option<int>)
    requires UpdateCastFailure(body, dateOf).Some?
    ensures FieldError(UpdateCastFailure(body, dateOf).value, Uncastable) in UpdateErrors(body, dateOf)
  {
    var e := FieldError(UpdateCastFailure(body, dateOf).value, Uncastable);
    var p0 := IfSupplied(body, "title", TitleErrors(body));
    var p1 := IfSupplied(body, "description", DescriptionErrors(body));
    var p2 := IfSupplied(body, "company", CompanyErrors(body));
    var p3 := IfSupplied(body, "status", StatusErrors(body));
    var p4 := IfSupplied(body, "startDate", StartDateErrors(body, dateOf));
    var p5 := IfSupplied(body, "endDate", EndDateErrors(body, dateOf));
    var p6 := IfSupplied(body, "budget", BudgetErrors(body));
    var p7 := IfSupplied(body, "teamLead", TeamLeadErrors(body));
    if Title(body).Bad? {
      assert e in p0;
    } else if Description(body).Bad? {
      assert e in p1;
    } else if CompanyRef(body).Bad? {
      assert e in p2;
    } else if StatusText(body).Bad? {
      assert e in p3;
    } else if StartDate(body, dateOf).Bad? {
      assert e in p4;
    } else if EndDate(body, dateOf).Bad? {
      assert e in p5;
    } else if Budget(body).Bad? {
      assert e in p6;
    } else {
      assert e in p7;
    }
    assert UpdateErrors(body, dateOf) == p0 + p1 + p2 + p3 + p4 + p5 + p6 + p7;
  }

  /** `findByIdAndUpdate(id, body, { runValidators: true })` applied to the
      current document: the CastError for a supplied value that cannot be
      cast, else the validation error for the supplied paths, else the
      document with exactly the supplied paths overwritten. A valid
      document stays valid. */
  function Patch(current: Project, body: Payload, dateOf: string -> Option<int>): (r: Try<Project>)
    ensures UpdateCastFailure(body, dateOf).Some? ==> r == Fail(CastError(UpdateCastFailure(body, dateOf).value))
    ensures UpdateCastFailure(body, dateOf).None? ==> (r.Fail? <==> UpdateErrors(body, dateOf) != [])
    ensures UpdateCastFailure(body, dateOf).None? && r.Fail? ==> r.error == ValidationError(Model, UpdateErrors(body, dateOf))
    ensures r.Ok? ==> TakesSupplied(body, dateOf, r.value) && KeepsUnsupplied(body, current, r.value)
    ensures r.Ok? && Valid(current) ==> Valid(r.value)
  {
    var _ :- CastUpdate(UpdateCastFailure(body, dateOf));
    var errors := UpdateErrors(body, dateOf);
    if errors != [] then Fail(ValidationError(Model, errors))
    else
      NoUpdateErrorsPasses(body, dateOf);
      MergeTakesSupplied(current, body, dateOf);
      assert Valid(current) ==> Valid(Merge(current, body, dateOf)) by {
        if Valid(current) {
          MergeKeepsValid(current, body, dateOf);
        }
      }
      Ok(Merge(current, body, dateOf))
  }

  /** Every supplied path passed its validators. */
  predicate Passes(body: Payload, dateOf: string -> Option<int>) {
    && ("title" in body ==> TitleErrors(body) == [])
    && ("description" in body ==> DescriptionErrors(body) == [])
    && ("company" in body ==> CompanyErrors(body) == [])
    && ("status" in body ==> StatusErrors(body) == [])
    && ("startDate" in body ==> StartDateErrors(body, dateOf) == [])
    && ("endDate" in body ==> EndDateErrors(body, dateOf) == [])
    && ("budget" in body ==> BudgetErrors(body) == [])
    && ("teamLead" in body ==> TeamLeadErrors(body) == [])
  }

  lemma NoUpdateErrorsPasses(body: Payload, dateOf: string -> Option<int>)
    requires UpdateErrors(body, dateOf) == []
    ensures Passes(body, dateOf)
  {
  }

  /** The current document with the supplied paths overwritten. */
  function Merge(current: Project, body: Payload, dateOf: string -> Option<int>): Project
    requires Passes(body, dateOf)
  {
    Project(
      if "title" in body then Title(body).value else current.title,
      if "description" in body then Description(body).value else current.description,
      if "company" in body then CompanyRef(body).value else current.company,
      if "status" in body then SuppliedStatus(body) else current.status,
      if "startDate" in body then StartDate(body, dateOf).value else current.startDate,
      if "endDate" in body then EndDate(body, dateOf).Stored() else current.endDate,
      if "budget" in body then Budget(body).value else current.budget,
      if "teamLead" in body then TeamLead(body).Stored() else current.teamLead,
      current.createdAt)
  }

  lemma MergeTakesSupplied(current: Project, body: Payload, dateOf: string -> Option<int>)
    requires Passes(body, dateOf)
    ensures TakesSupplied(body, dateOf, Merge(current, body, dateOf))
    ensures KeepsUnsupplied(body, current, Merge(current, body, dateOf))
  {
  }

  lemma MergeKeepsValid(current: Project, body: Payload, dateOf: string -> Option<int>)
    requires Passes(body, dateOf) && Valid(current)
    ensures Valid(Merge(current, body, dateOf))
  {
  }

  /** The project as a request body. An empty status is sent as null, so
      that the default does not replace it. */
  function ToPayload(p: Project): Payload {
    map["title" := Str(p.title), "description" := Str(p.description), "company" := Str(p.company),
        "status" := (if p.status.Some? then Str(p.status.value.Label()) else Null),
        "startDate" := Num(p.startDate), "budget" := Num(p.budget)]
    + (if p.endDate.Some? then map["endDate" := Num(p.endDate.value)] else map[])
    + (if p.teamLead.Some? then map["teamLead" := Str(p.teamLead.value)] else map[])
  }

  /** Reading a project's own payload back gives its fields, one path at a
      time. */
  lemma ReadTitle(p: Project)
    requires Text.IsTrimmed(p.title)
    ensures Title(ToPayload(p)) == Set(p.title)
  {
    ReadStoredText(ToPayload(p), "title", p.title, false);
  }

  lemma ReadDescription(p: Project)
    requires Text.IsTrimmed(p.description)
    ensures Description(ToPayload(p)) == Set(p.description)
  {
    ReadStoredText(ToPayload(p), "description", p.description, false);
  }

  lemma ReadCompanyRef(p: Project)
    ensures CompanyRef(ToPayload(p)) == Set(p.company)
  {
    ReadStoredRef(ToPayload(p), "company", p.company);
  }

  lemma ReadStatus(p: Project)
    ensures StatusErrors(ToPayload(p)) == [] && SuppliedStatus(ToPayload(p)) == p.status
  {
    var body := ToPayload(p);
    assert "status" in body;
    if p.status.Some? {
      assert body["status"] == Str(p.status.value.Label());
      StatusOfLabel(p.status.value);
    } else {
      assert body["status"] == Null;
    }
  }

  lemma ReadDates(p: Project, dateOf: string -> Option<int>)
    ensures StartDate(ToPayload(p), dateOf) == Set(p.startDate)
    ensures !EndDate(ToPayload(p), dateOf).Bad? && EndDate(ToPayload(p), dateOf).Stored() == p.endDate
  {
    assert ToPayload(p)["startDate"] == Num(p.startDate);
    if p.endDate.Some? {
      assert ToPayload(p)["endDate"] == Num(p.endDate.value);
    }
  }

  lemma ReadBudget(p: Project)
    ensures Budget(ToPayload(p)) == Set(p.budget)
  {
    assert ToPayload(p)["budget"] == Num(p.budget);
  }

  lemma ReadTeamLead(p: Project)
    ensures !TeamLead(ToPayload(p)).Bad? && TeamLead(ToPayload(p)).Stored() == p.teamLead
  {
    if p.teamLead.Some? {
      ReadStoredRef(ToPayload(p), "teamLead", p.teamLead.value);
    }
  }

  /** Round trip: creating a project from a valid project's own fields
      stores exactly that project. */
  lemma BuildRoundTrip(p: Project, dateOf: string -> Option<int>)
    requires Valid(p)
    ensures Build(ToPayload(p), p.createdAt, dateOf) == Ok(p)
  {
    ReadTitle(p);
    ReadDescription(p);
    ReadCompanyRef(p);
    ReadStatus(p);
    ReadDates(p, dateOf);
    ReadBudget(p);
    ReadTeamLead(p);
    assert CreateErrors(ToPayload(p), dateOf) == [];
  }
}
