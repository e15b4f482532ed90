/**
 * Provisioning of a PARA framework in a Notion workspace: the four category databases are created
 * one after the other under the first page the integration can see, then, when the user has a
 * persona profile, seed pages are created from it. Every create is awaited before the next one
 * starts, and the first rejected create ends the run with its message. The page search and the
 * create calls are oracle replies; the requests sent are collected in a log.
 */
module FrameworkCreate {
  import opened Base
  import opened Text
  import opened ParaTypes
  import opened NotionApi
  import opened SavePersona
  import FrameworkCheck

  /** The answer to the page search: a thrown error, or the ids of the pages found, in order. */
  datatype PageSearch = PageSearchFailed(message: string) | Pages(ids: seq<string>)

  const NoPagesMessage: string :=
    "No pages found. Please make sure the integration has access to at least one page in your Notion workspace."

  // ---------------------------------------------------------------------------------------------
  // The database template

  const StatusOptions: seq<(string, string)> :=
    [("Not Started", "gray"), ("In Progress", "blue"), ("Completed", "green"), ("On Hold", "orange")]
  const PriorityOptions: seq<(string, string)> := [("Low", "gray"), ("Medium", "yellow"), ("High", "red")]
  const CategoryOptions: seq<(string, string)> :=
    [("Article", "blue"), ("Book", "green"), ("Course", "orange"), ("Video", "red"),
     ("Podcast", "purple"), ("Other", "gray")]
  const OriginalCategoryOptions: seq<(string, string)> :=
    [("Project", "blue"), ("Area", "green"), ("Resource", "orange")]

  /** The properties every PARA database has. */
  const CommonFields: map<string, FieldSpec> := map[
    "Name" := TitleField,
    "Status" := SelectField(StatusOptions),
    "Priority" := SelectField(PriorityOptions),
    "Due Date" := DateField,
    "Notes" := RichTextField,
    "UserId" := RichTextField]

  const ProjectsFields: map<string, FieldSpec> :=
    CommonFields["End Date" := DateField]["Project Owner" := RichTextField]
  const AreasFields: map<string, FieldSpec> := CommonFields["Responsibility" := RichTextField]
  const ResourcesFields: map<string, FieldSpec> :=
    CommonFields["Category" := SelectField(CategoryOptions)]["URL" := UrlField]
  const ArchiveFields: map<string, FieldSpec> :=
    CommonFields["Original Category" := SelectField(OriginalCategoryOptions)]["Archived Date" := DateField]

  /** The four database-create requests under `parent`, in the order they are sent. */
  function DatabaseRequests(parent: string): seq<Request> {
    [CreateDatabase(parent, "PARA - Projects", ProjectsFields),
     CreateDatabase(parent, "PARA - Areas", AreasFields),
     CreateDatabase(parent, "PARA - Resources", ResourcesFields),
     CreateDatabase(parent, "PARA - Archive", ArchiveFields)]
  }

  /** The databases are Projects, Areas, Resources and Archive, in this order, all under `parent`. */
  lemma DatabaseOrder(parent: string)
    ensures var rs := DatabaseRequests(parent);
      && |rs| == 4
      && (forall r :: r in rs ==> r.CreateDatabase? && r.parentPage == parent)
      && rs[0].title == "PARA - Projects" && rs[1].title == "PARA - Areas"
      && rs[2].title == "PARA - Resources" && rs[3].title == "PARA - Archive"
  {
  }

  /** Every database has each common property as declared in the template. */
  lemma CommonFieldsEverywhere(parent: string, name: string)
    requires name in CommonFields
    ensures forall r :: r in DatabaseRequests(parent) ==> name in r.fields && r.fields[name] == CommonFields[name]
  {
  }

  /** Each database has exactly the common properties plus its own extras. */
  lemma DatabaseExtras(parent: string)
    ensures var rs := DatabaseRequests(parent);
      && rs[0].fields.Keys == CommonFields.Keys + {"End Date", "Project Owner"}
      && rs[1].fields.Keys == CommonFields.Keys + {"Responsibility"}
      && rs[2].fields.Keys == CommonFields.Keys + {"Category", "URL"}
      && rs[3].fields.Keys == CommonFields.Keys + {"Original Category", "Archived Date"}
      && rs[0].fields["End Date"] == DateField && rs[0].fields["Project Owner"] == RichTextField
      && rs[1].fields["Responsibility"] == RichTextField
      && rs[2].fields["Category"] == SelectField(CategoryOptions) && rs[2].fields["URL"] == UrlField
      && rs[3].fields["Original Category"] == SelectField(OriginalCategoryOptions)
      && rs[3].fields["Archived Date"] == DateField
  {
  }

  // ---------------------------------------------------------------------------------------------
  // The seeding plan

  /** `personaData.currentProjects` when it is a list, and no projects otherwise. */
  function CurrentProjects(persona: Persona): seq<string> {
    if "currentProjects" in persona && persona["currentProjects"].Items? then persona["currentProjects"].items
    else []
  }

  /** `personaData.interests` when it is a list, and no interests otherwise. */
  function Interests(persona: Persona): seq<string> {
    if "interests" in persona && persona["interests"].Items? then persona["interests"].items else []
  }

  /** `personaData.occupation` when it is a non-empty text. */
  function Occupation(persona: Persona): Option<string> {
    if "occupation" in persona && persona["occupation"].Text? && persona["occupation"].text != "" then
      Some(persona["occupation"].text)
    else None
  }

  const StandardAreas: seq<string> := ["Health", "Finances", "Relationships", "Personal Development"]

  function ProjectPage(project: string, userId: string): Properties {
    map["Name" := TitleText(project), "Status" := SelectName("Not Started"), "Priority" := SelectName("Medium"),
        "UserId" := RichText(userId)]
  }

  function WorkPage(occupation: string, userId: string): Properties {
    map["Name" := TitleText("Work"), "Responsibility" := RichText(occupation), "UserId" := RichText(userId)]
  }

  function AreaPage(area: string, userId: string): Properties {
    map["Name" := TitleText(area), "UserId" := RichText(userId)]
  }

  function ResourcePage(interest: string, userId: string): Properties {
    map["Name" := TitleText("Resources on " + interest), "Category" := SelectName("Other"), "UserId" := RichText(userId)]
  }

  /** One Projects page per project, in order. */
  function ProjectPages(database: string, projects: seq<string>, userId: string): (rs: seq<Request>)
    ensures |rs| == |projects|
    ensures forall i :: 0 <= i < |rs| ==> rs[i] == CreatePage(database, ProjectPage(projects[i], userId))
  {
    if projects == [] then []
    else [CreatePage(database, ProjectPage(projects[0], userId))] + ProjectPages(database, projects[1..], userId)
  }

  /** The "Work" area, when there is an occupation. */
  function WorkPages(database: string, occupation: Option<string>, userId: string): (rs: seq<Request>)
    ensures |rs| == if occupation.Some? then 1 else 0
  {
    match occupation
    case None => []
    case Some(o) => [CreatePage(database, WorkPage(o, userId))]
  }

  /** One Areas page per area name, in order. */
  function AreaPages(database: string, areas: seq<string>, userId: string): (rs: seq<Request>)
    ensures |rs| == |areas|
    ensures forall i :: 0 <= i < |rs| ==> rs[i] == CreatePage(database, AreaPage(areas[i], userId))
  {
    if areas == [] then []
    else [CreatePage(database, AreaPage(areas[0], userId))] + AreaPages(database, areas[1..], userId)
  }

  /** One Resources page per interest, in order. */
  function ResourcePages(database: string, interests: seq<string>, userId: string): (rs: seq<Request>)
    ensures |rs| == |interests|
    ensures forall i :: 0 <= i < |rs| ==> rs[i] == CreatePage(database, ResourcePage(interests[i], userId))
  {
    if interests == [] then []
    else [CreatePage(database, ResourcePage(interests[0], userId))] + ResourcePages(database, interests[1..], userId)
  }

  /** populateInitialData's requests, in the order they are sent. */
  function SeedPlan(ids: DatabaseIds, persona: Persona, userId: string): seq<Request> {
    ProjectPages(ids.projects, CurrentProjects(persona), userId)
    + (WorkPages(ids.areas, Occupation(persona), userId)
       + (AreaPages(ids.areas, StandardAreas, userId)
          + ResourcePages(ids.resources, Interests(persona), userId)))
  }

  /** The number of seeded pages: one per project, one for an occupation, four areas, one per interest. */
  lemma SeedCount(ids: DatabaseIds, persona: Persona, userId: string)
    ensures |SeedPlan(ids, persona, userId)|
      == |CurrentProjects(persona)| + (if Occupation(persona).Some? then 1 else 0) + 4 + |Interests(persona)|
  {
  }

  /** Every seeded request creates a page that carries the user's id. */
  lemma SeedPagesCarryUser(ids: DatabaseIds, persona: Persona, userId: string)
    ensures forall r :: r in SeedPlan(ids, persona, userId) ==>
      r.CreatePage? && "UserId" in r.properties && r.properties["UserId"] == RichText(userId)
  {
    var plan := SeedPlan(ids, persona, userId);
    forall r | r in plan
      ensures r.CreatePage? && "UserId" in r.properties && r.properties["UserId"] == RichText(userId)
    {
      var i :| 0 <= i < |plan| && plan[i] == r;
    }
  }

  /** The seeding starts with one Projects page per current project, in order. */
  lemma SeedProjectsFirst(ids: DatabaseIds, persona: Persona, userId: string)
    ensures var plan := SeedPlan(ids, persona, userId);
      var projects := CurrentProjects(persona);
      forall i :: 0 <= i < |projects| ==> plan[i] == CreatePage(ids.projects, ProjectPage(projects[i], userId))
  {
    var projects := ProjectPages(ids.projects, CurrentProjects(persona), userId);
    var rest := WorkPages(ids.areas, Occupation(persona), userId)
      + (AreaPages(ids.areas, StandardAreas, userId) + ResourcePages(ids.resources, Interests(persona), userId));
    assert SeedPlan(ids, persona, userId) == projects + rest;
  }

  /**
   * After the projects come the Work page, when there is an occupation, and then the four standard
   * areas in the order Health, Finances, Relationships, Personal Development, all in the Areas database.
   */
  lemma SeedAreasNext(ids: DatabaseIds, persona: Persona, userId: string)
    ensures var plan := SeedPlan(ids, persona, userId);
      var at := |CurrentProjects(persona)|;
      var work := if Occupation(persona).Some? then 1 else 0;
      && (work == 1 ==> plan[at] == CreatePage(ids.areas, WorkPage(Occupation(persona).value, userId)))
      && plan[at + work] == CreatePage(ids.areas, AreaPage("Health", userId))
      && plan[at + work + 1] == CreatePage(ids.areas, AreaPage("Finances", userId))
      && plan[at + work + 2] == CreatePage(ids.areas, AreaPage("Relationships", userId))
      && plan[at + work + 3] == CreatePage(ids.areas, AreaPage("Personal Development", userId))
  {
    var projects := ProjectPages(ids.projects, CurrentProjects(persona), userId);
    var work := WorkPages(ids.areas, Occupation(persona), userId);
    var areas := AreaPages(ids.areas, StandardAreas, userId);
    var rest := areas + ResourcePages(ids.resources, Interests(persona), userId);
    assert SeedPlan(ids, persona, userId) == projects + (work + rest);
    assert |areas| == 4;
  }

  /** The seeding ends with one Resources page per interest, in order. */
  lemma SeedResourcesLast(ids: DatabaseIds, persona: Persona, userId: string)
    ensures var plan := SeedPlan(ids, persona, userId);
      var interests := Interests(persona);
      var at := |plan| - |interests|;
      && at >= 0
      && forall i :: 0 <= i < |interests| ==>
           plan[at + i] == CreatePage(ids.resources, ResourcePage(interests[i], userId))
  {
    var resources := ResourcePages(ids.resources, Interests(persona), userId);
    var front := ProjectPages(ids.projects, CurrentProjects(persona), userId)
      + WorkPages(ids.areas, Occupation(persona), userId) + AreaPages(ids.areas, StandardAreas, userId);
    assert SeedPlan(ids, persona, userId) == front + resources;
  }

  // ---------------------------------------------------------------------------------------------
  // Sending

  /**
   * Awaiting one create after the other, as the provisioner's loops do: the log grows by the
   * requests sent and the failure is that of the first rejected one.
   */
  method SendInOrder(plan: seq<Request>, reply: nat -> CreateReply, log0: seq<Request>)
    returns (failure: Option<string>, log: seq<Request>)
    ensures log == log0 + SendAll(plan, reply, |log0|).sent
    ensures failure == SendAll(plan, reply, |log0|).failure
  {
    log := log0;
    var i := 0;
    assert plan[0..] == plan;
    PendingStart(log0, plan, reply);
    while i < |plan|
      invariant 0 <= i <= |plan|
      invariant Pending(log0, plan, log, plan[i..], reply)
    {
      assert plan[i..] == [plan[i]] + plan[i + 1..];
      AdvanceOne(log0, plan, log, plan[i], plan[i + 1..], reply);
      var answer := reply(|log|);
      log := log + [plan[i]];
      if answer.Rejected? {
        return Some(answer.message), log;
      }
      i := i + 1;
    }
    PendingDone(log0, plan, log, reply);
    return None, log;
  }

  /**
   * populateInitialData: the projects, the Work page, the standard areas and the interests are
   * sent in this order, stopping at the first rejection.
   */
  method PopulateInitialData(ids: DatabaseIds, persona: Persona, userId: string, reply: nat -> CreateReply,
                             log0: seq<Request>)
    returns (failure: Option<string>, log: seq<Request>)
    ensures log == log0 + SendAll(SeedPlan(ids, persona, userId), reply, |log0|).sent
    ensures failure == SendAll(SeedPlan(ids, persona, userId), reply, |log0|).failure
  {
    var projects := ProjectPages(ids.projects, CurrentProjects(persona), userId);
    var work := WorkPages(ids.areas, Occupation(persona), userId);
    var areas := AreaPages(ids.areas, StandardAreas, userId);
    var resources := ResourcePages(ids.resources, Interests(persona), userId);
    failure, log := SendSections(projects, work, Occupation(persona).Some?, areas, resources, reply, log0);
  }

  /**
   * The four sections of the seeding sent one after the other, the second only when `hasWork`
   * (it is empty otherwise); the first rejection ends the run.
   */
  method SendSections(projects: seq<Request>, work: seq<Request>, hasWork: bool, areas: seq<Request>,
                      resources: seq<Request>, reply: nat -> CreateReply, log0: seq<Request>)
    returns (failure: Option<string>, log: seq<Request>)
    requires !hasWork ==> work == []
    ensures log == log0 + SendAll(projects + (work + (areas + resources)), reply, |log0|).sent
    ensures failure == SendAll(projects + (work + (areas + resources)), reply, |log0|).failure
  {
    ghost var plan := projects + (work + (areas + resources));
    PendingStart(log0, plan, reply);
    failure, log := SendInOrder(projects, reply, log0);
    Advance(log0, plan, log0, projects, work + (areas + resources), reply);
    if failure.Some? {
      return;
    }
    if hasWork {
      var beforeWork := log;
      failure, log := SendInOrder(work, reply, log);
      Advance(log0, plan, beforeWork, work, areas + resources, reply);
      if failure.Some? {
        return;
      }
    } else {
      assert work + (areas + resources) == areas + resources;
    }
    var beforeAreas := log;
    failure, log := SendInOrder(areas, reply, log);
    Advance(log0, plan, beforeAreas, areas, resources, reply);
    if failure.Some? {
      return;
    }
    var beforeResources := log;
    failure, log := SendInOrder(resources, reply, log);
    assert resources == resources + [];
    Advance(log0, plan, beforeResources, resources, [], reply);
    if failure.None? {
      PendingDone(log0, plan, log, reply);
    }
  }

  // ---------------------------------------------------------------------------------------------
  // Provisioning

  /** A provisioning run: the ids or the error message, and the create requests sent. */
  datatype Provisioning = Provisioning(outcome: Result<DatabaseIds>, sent: seq<Request>)

  /** The ids of the four databases, answered to the first four create calls. */
  function CreatedDatabases(reply: nat -> CreateReply): DatabaseIds
    requires forall j :: 0 <= j < 4 ==> reply(j).Created?
  {
    DatabaseIds(reply(0).id, reply(1).id, reply(2).id, reply(3).id)
  }

  /** createParaFramework as a function of the search, the persona and the create replies. */
  function Provision(search: PageSearch, persona: Option<Persona>, userId: string, reply: nat -> CreateReply)
    : Provisioning
  {
    match search
    case PageSearchFailed(message) => Provisioning(Failure(message), [])
    case Pages(pages) =>
      if pages == [] then Provisioning(Failure(NoPagesMessage), [])
      else
        var databases := SendAll(DatabaseRequests(pages[0]), reply, 0);
        SendAllWhole(DatabaseRequests(pages[0]), reply, 0);
        if databases.failure.Some? then Provisioning(Failure(databases.failure.value), databases.sent)
        else
          var ids := CreatedDatabases(reply);
          if persona.None? then Provisioning(Success(ids), databases.sent)
          else
            var seeding := SendAll(SeedPlan(ids, persona.value, userId), reply, 4);
            var sent := databases.sent + seeding.sent;
            if seeding.failure.Some? then Provisioning(Failure(seeding.failure.value), sent)
            else Provisioning(Success(ids), sent)
  }

  /**
   * createParaFramework: the four databases under the first page found, then the seeding when
   * there is a persona; the ids of the four databases are returned.
   */
  method CreateParaFramework(search: PageSearch, persona: Option<Persona>, userId: string, reply: nat -> CreateReply)
    returns (outcome: Result<DatabaseIds>, log: seq<Request>)
    ensures Provisioning(outcome, log) == Provision(search, persona, userId, reply)
  {
    match search
    case PageSearchFailed(message) =>
      return Failure(message), [];
    case Pages(pages) =>
      if |pages| == 0 {
        return Failure(NoPagesMessage), [];
      }
      var parentPageId := pages[0];
      var failure;
      failure, log := SendInOrder(DatabaseRequests(parentPageId), reply, []);
      SendAllWhole(DatabaseRequests(parentPageId), reply, 0);
      if failure.Some? {
        return Failure(failure.value), log;
      }
      var ids := CreatedDatabases(reply);
      if persona.Some? {
        failure, log := PopulateInitialData(ids, persona.value, userId, reply, log);
        if failure.Some? {
          return Failure(failure.value), log;
        }
      }
      return Success(ids), log;
  }

  /** A run that succeeds sent the four databases under the first page, and then the whole seeding plan. */
  lemma ProvisionSuccess(search: PageSearch, persona: Option<Persona>, userId: string, reply: nat -> CreateReply)
    requires Provision(search, persona, userId, reply).outcome.Success?
    ensures search.Pages? && |search.ids| > 0
    ensures forall j :: 0 <= j < 4 ==> reply(j).Created?
    ensures var p := Provision(search, persona, userId, reply);
      var ids := p.outcome.value;
      && ids == DatabaseIds(reply(0).id, reply(1).id, reply(2).id, reply(3).id)
      && p.sent == DatabaseRequests(search.ids[0]) + (if persona.Some? then SeedPlan(ids, persona.value, userId) else [])
  {
    var parent := search.ids[0];
    SendAllWhole(DatabaseRequests(parent), reply, 0);
    if persona.Some? {
      SendAllWhole(SeedPlan(CreatedDatabases(reply), persona.value, userId), reply, 4);
    }
  }

  /** A failed run names the rejection, the failed search or the empty workspace; nothing is sent without a page. */
  lemma ProvisionFailure(search: PageSearch, persona: Option<Persona>, userId: string, reply: nat -> CreateReply)
    requires Provision(search, persona, userId, reply).outcome.Failure?
    ensures var p := Provision(search, persona, userId, reply);
      || (search.PageSearchFailed? && p.outcome.error == search.message && p.sent == [])
      || (search == Pages([]) && p.outcome.error == NoPagesMessage && p.sent == [])
      || (search.Pages? && search.ids != [] && |p.sent| > 0
          && reply(|p.sent| - 1) == Rejected(p.outcome.error))
  {
    if search.Pages? && search.ids != [] {
      var parent := search.ids[0];
      var databases := SendAll(DatabaseRequests(parent), reply, 0);
      SendAllOutcome(DatabaseRequests(parent), reply, 0);
      if databases.failure.None? && persona.Some? {
        SendAllOutcome(SeedPlan(CreatedDatabases(reply), persona.value, userId), reply, 4);
      }
    }
  }

  /** The first requests sent are the database requests under the first page found, in order. */
  lemma DatabasesFirst(pages: seq<string>, persona: Option<Persona>, userId: string, reply: nat -> CreateReply)
    requires pages != []
    ensures var sent := Provision(Pages(pages), persona, userId, reply).sent;
      forall i :: 0 <= i < |sent| && i < 4 ==> sent[i] == DatabaseRequests(pages[0])[i]
  {
    SendAllOutcome(DatabaseRequests(pages[0]), reply, 0);
  }

  /** Everything sent after the four databases creates a page. */
  lemma PagesAfterDatabases(pages: seq<string>, persona: Option<Persona>, userId: string, reply: nat -> CreateReply)
    requires pages != []
    ensures var sent := Provision(Pages(pages), persona, userId, reply).sent;
      forall i :: 4 <= i < |sent| ==> sent[i].CreatePage?
  {
    var dbs := DatabaseRequests(pages[0]);
    SendAllOutcome(dbs, reply, 0);
    if SendAll(dbs, reply, 0).failure.None? && persona.Some? {
      SendAllWhole(dbs, reply, 0);
      var ids := CreatedDatabases(reply);
      assert |dbs| == 4;
      assert Provision(Pages(pages), persona, userId, reply).sent == dbs + SendAll(SeedPlan(ids, persona.value, userId), reply, 4).sent;
      SeedingSendsPages(ids, persona.value, userId, reply, dbs, 4);
    }
  }

  /** Whatever part of the seeding is sent after `prefix` consists of page creations. */
  lemma SeedingSendsPages(ids: DatabaseIds, persona: Persona, userId: string, reply: nat -> CreateReply,
                          prefix: seq<Request>, base: nat)
    ensures var sent := prefix + SendAll(SeedPlan(ids, persona, userId), reply, base).sent;
      forall i :: |prefix| <= i < |sent| ==> sent[i].CreatePage?
  {
    var plan := SeedPlan(ids, persona, userId);
    var seeding := SendAll(plan, reply, base).sent;
    SendAllFromPlan(plan, reply, base);
    SeedPagesCarryUser(ids, persona, userId);
    forall i | |prefix| <= i < |prefix + seeding| ensures (prefix + seeding)[i].CreatePage? {
      assert (prefix + seeding)[i] == seeding[i - |prefix|];
      assert seeding[i - |prefix|] in seeding;
    }
  }

  /**
   * As written, discovery does not recognise what provisioning creates: a workspace holding only the
   * four provisioned databases, titled "PARA - Projects" and so on, is reported as having no framework.
   */
  lemma ProvisionedNotRediscovered(parent: string, dbIds: seq<string>, query: FrameworkCheck.QueryReply, userId: string)
    requires |dbIds| == 4
    ensures var rs := DatabaseRequests(parent);
      var items := seq(4, k requires 0 <= k < 4 => FrameworkCheck.SearchItem(dbIds[k], Some([rs[k].title])));
      !FrameworkCheck.CheckExistingParaFramework(FrameworkCheck.SearchResults(items), query, userId).found
  {
    var rs := DatabaseRequests(parent);
    var items := seq(4, k requires 0 <= k < 4 => FrameworkCheck.SearchItem(dbIds[k], Some([rs[k].title])));
    forall j | 0 <= j < 4
      ensures !FrameworkCheck.TitleIs(items[j], "projects")
    {
      assert Concat([rs[j].title]) == rs[j].title;
      if FrameworkCheck.TitleIs(items[j], "projects") {
        FrameworkCheck.TitleLength(items[j], "projects");
      }
    }
  }

  // ---------------------------------------------------------------------------------------------
  // The API route

  /**
   * The route: 405 for anything but POST; 500 when the body does not parse; 400 for a missing token,
   * then for a missing user id; otherwise provisioning with the user's stored persona, answered with
   * 200 and the ids, or 500 with the error message.
   */
  method HandleCreate(httpMethod: string, body: Parsed<map<string, string>>, store: PersonaStore,
                      search: PageSearch, reply: nat -> CreateReply)
    returns (r: Reply<DatabaseIds>, log: seq<Request>)
    ensures httpMethod != "POST" ==> r == Reply(405, ErrorBody("Method not allowed", None)) && log == []
    ensures httpMethod == "POST" && body.Unparsable? ==>
      r == Reply(500, ErrorBody("Error creating PARA framework", Some(body.reason))) && log == []
    ensures httpMethod == "POST" && body.Parsed? && !Truthy(body.value, "notionToken") ==>
      r == Reply(400, ErrorBody("Missing Notion token", None)) && log == []
    ensures httpMethod == "POST" && body.Parsed? && Truthy(body.value, "notionToken") && !Truthy(body.value, "userId") ==>
      r == Reply(400, ErrorBody("Missing user ID", None)) && log == []
    ensures httpMethod == "POST" && body.Parsed? && Truthy(body.value, "notionToken") && Truthy(body.value, "userId") ==>
      var p := Provision(search, store.GetPersonaData(body.value["userId"]), body.value["userId"], reply);
      && log == p.sent
      && (p.outcome.Success? ==> r == Reply(200, OkBody("PARA framework created successfully", p.outcome.value)))
      && (p.outcome.Failure? ==>
            r == Reply(500, ErrorBody("Error creating PARA framework", Some(p.outcome.error))))
  {
    if httpMethod != "POST" {
      return Reply(405, ErrorBody("Method not allowed", None)), [];
    }
    match body
    case Unparsable(reason) =>
      return Reply(500, ErrorBody("Error creating PARA framework", Some(reason))), [];
    case Parsed(fields) =>
      if !Truthy(fields, "notionToken") {
        return Reply(400, ErrorBody("Missing Notion token", None)), [];
      }
      if !Truthy(fields, "userId") {
        return Reply(400, ErrorBody("Missing user ID", None)), [];
      }
      var userId := fields["userId"];
      var personaData := store.GetPersonaData(userId);
      var outcome;
      outcome, log := CreateParaFramework(search, personaData, userId, reply);
      match outcome
      case Success(databaseIds) =>
        r := Reply(200, OkBody("PARA framework created successfully", databaseIds));
      case Failure(message) =>
        r := Reply(500, ErrorBody("Error creating PARA framework", Some(message)));
  }
}
