/**
 * Discovery of an existing PARA framework in a Notion workspace: the API route that validates the
 * request, searches the workspace's databases and looks for the four category databases by title.
 * The search and the ownership query are oracle replies.
 */
module FrameworkCheck {
  import opened Base
  import opened Text
  import opened ParaTypes

  /** One search result: its id and, for a database, the plain-text segments of its title. */
  datatype SearchItem = SearchItem(id: string, title: Option<seq<string>>)

  /** The answer to the workspace search: a thrown error or the list of results. */
  datatype SearchReply = SearchFailed | SearchResults(items: seq<SearchItem>)

  /** A property of the sampled Projects page: rich text with its plain-text runs, or any other kind. */
  datatype PageProperty = RichTextProperty(runs: seq<string>) | OtherProperty

  /** The answer to the one-page query of the Projects database; `None` for a result without properties. */
  datatype QueryReply = QueryFailed | QueryResults(pages: seq<Option<seq<PageProperty>>>)

  /** What discovery reports; `ids` is present exactly when a framework was found. */
  datatype Discovery = Discovery(found: bool, ids: Option<DatabaseIds>)

  /** The search result is a database whose joined title, lower-cased, is exactly `name`. */
  predicate TitleIs(item: SearchItem, name: string) {
    item.title.Some? && ToLower(Concat(item.title.value)) == name
  }

  /** `results.find(...)` by title: the position of the first result titled `name`. */
  function FirstTitled(items: seq<SearchItem>, name: string): (r: Option<nat>)
    ensures r.Some? ==> r.value < |items| && TitleIs(items[r.value], name)
    ensures r.Some? ==> forall j :: 0 <= j < r.value ==> !TitleIs(items[j], name)
    ensures r.None? ==> forall j :: 0 <= j < |items| ==> !TitleIs(items[j], name)
  {
    if items == [] then None
    else if TitleIs(items[0], name) then Some(0)
    else match FirstTitled(items[1..], name)
      case None => None
      case Some(k) => Some(k + 1)
  }

  /** The id of the first result titled `name`, or "" when there is none (`db?.id || ''`). */
  function IdOf(items: seq<SearchItem>, name: string): string {
    match FirstTitled(items, name)
    case None => ""
    case Some(k) => items[k].id
  }

  /** Some page property is rich text with a run equal to `userId`. */
  predicate CarriesUser(properties: seq<PageProperty>, userId: string) {
    exists p :: p in properties && p.RichTextProperty? && |p.runs| > 0 && userId in p.runs
  }

  /** The sampled first page of the Projects database carries the user's id. */
  predicate OwnerConfirmed(query: QueryReply, userId: string) {
    && query.QueryResults?
    && |query.pages| > 0
    && query.pages[0].Some?
    && CarriesUser(query.pages[0].value, userId)
  }

  /**
   * checkExistingParaFramework: a framework is found when the search succeeds with results among
   * which both a "projects" and an "areas" database are titled; the ids are then the first such
   * databases, with "" for a missing Resources or Archive database. A failed search is "not found".
   * Whether the ownership sample confirms the user decides only which of two identical answers is given.
   */
  function CheckExistingParaFramework(search: SearchReply, query: QueryReply, userId: string): (d: Discovery)
    ensures d.found <==> d.ids.Some?
    ensures d.found <==>
      && search.SearchResults?
      && (exists j :: 0 <= j < |search.items| && TitleIs(search.items[j], "projects"))
      && (exists j :: 0 <= j < |search.items| && TitleIs(search.items[j], "areas"))
  {
    match search
    case SearchFailed => Discovery(false, None)
    case SearchResults(items) =>
      if |items| == 0 then Discovery(false, None)
      else
        var projects := FirstTitled(items, "projects");
        var areas := FirstTitled(items, "areas");
        if projects.Some? && areas.Some? then
          var ids := DatabaseIds(items[projects.value].id, items[areas.value].id,
            IdOf(items, "resources"), IdOf(items, "archive"));
          if OwnerConfirmed(query, userId) then Discovery(true, Some(ids)) else Discovery(true, Some(ids))
        else Discovery(false, None)
  }

  /** The ownership sample never changes the answer. */
  lemma OwnershipSampleIrrelevant(search: SearchReply, q1: QueryReply, q2: QueryReply, u1: string, u2: string)
    ensures CheckExistingParaFramework(search, q1, u1) == CheckExistingParaFramework(search, q2, u2)
  {
  }

  /** Each reported id is that of the first result with the category's exact title, and "" only when
      no result has it (or the first one with it has an empty id). */
  lemma {:induction false} FoundIdsAreFirstMatches(search: SearchReply, query: QueryReply, userId: string, name: string)
    requires CheckExistingParaFramework(search, query, userId).found
    requires name in {"projects", "areas", "resources", "archive"}
    ensures var ids := CheckExistingParaFramework(search, query, userId).ids.value;
      var id := if name == "projects" then ids.projects else if name == "areas" then ids.areas
        else if name == "resources" then ids.resources else ids.archive;
      var items := search.items;
      && ((exists k :: 0 <= k < |items| && TitleIs(items[k], name)
             && (forall j :: 0 <= j < k ==> !TitleIs(items[j], name)) && id == items[k].id)
          || ((forall j :: 0 <= j < |items| ==> !TitleIs(items[j], name)) && id == ""))
  {
    var items := search.items;
    var k := FirstTitled(items, name);
    if k.Some? {
      assert 0 <= k.value < |items| && TitleIs(items[k.value], name);
    }
  }

  /** An empty search finds nothing, and so does a failed one. */
  lemma NothingToFind(query: QueryReply, userId: string)
    ensures CheckExistingParaFramework(SearchResults([]), query, userId) == Discovery(false, None)
    ensures CheckExistingParaFramework(SearchFailed, query, userId) == Discovery(false, None)
  {
  }

  /** The lower-cased title has the length of the title, so only a title of the name's length can match. */
  lemma TitleLength(item: SearchItem, name: string)
    requires TitleIs(item, name)
    ensures |Concat(item.title.value)| == |name|
  {
  }

  // ---------------------------------------------------------------------------------------------
  // The API route

  /** The request fields the route reads; a missing field is absent from the map. */
  type CheckBody = map<string, string>

  /** What the route answers on success: its `exists` flag as `found`, and the ids when it holds. */
  datatype CheckPayload = CheckPayload(found: bool, databaseIds: Option<DatabaseIds>)

  /**
   * The route: 405 for anything but POST; 500 when the body does not parse; 400 for a missing token,
   * then for a missing user id; otherwise 200 with the discovery's answer.
   */
  function HandleCheck(httpMethod: string, body: Parsed<CheckBody>, search: SearchReply, query: QueryReply)
    : (r: Reply<CheckPayload>)
    ensures r.status in {200, 400, 405, 500}
    ensures r.status == 405 <==> httpMethod != "POST"
    ensures r.status == 500 <==> httpMethod == "POST" && body.Unparsable?
    ensures r.status == 400 <==>
      httpMethod == "POST" && body.Parsed? && (!Truthy(body.value, "notionToken") || !Truthy(body.value, "userId"))
  {
    if httpMethod != "POST" then Reply(405, ErrorBody("Method not allowed", None))
    else match body
      case Unparsable(reason) => Reply(500, ErrorBody("Error checking for PARA framework", Some(reason)))
      case Parsed(fields) =>
        if !Truthy(fields, "notionToken") then Reply(400, ErrorBody("Missing Notion token", None))
        else if !Truthy(fields, "userId") then Reply(400, ErrorBody("Missing user ID", None))
        else
          var d := CheckExistingParaFramework(search, query, fields["userId"]);
          if d.found then Reply(200, OkBody("Existing PARA framework found", CheckPayload(true, d.ids)))
          else Reply(200, OkBody("No existing PARA framework found", CheckPayload(false, None)))
  }

  /** A rejected request is answered without looking at the workspace, the token check coming first. */
  lemma RejectedBeforeSearch(httpMethod: string, body: Parsed<CheckBody>, s1: SearchReply, s2: SearchReply,
                             q1: QueryReply, q2: QueryReply)
    requires HandleCheck(httpMethod, body, s1, q1).status != 200
    ensures HandleCheck(httpMethod, body, s1, q1) == HandleCheck(httpMethod, body, s2, q2)
    ensures httpMethod == "POST" && body.Parsed? && !Truthy(body.value, "notionToken") ==>
      HandleCheck(httpMethod, body, s1, q1).body == ErrorBody("Missing Notion token", None)
  {
  }

  /** A successful answer reports exactly what discovery found. */
  lemma AnswerIsDiscovery(body: CheckBody, search: SearchReply, query: QueryReply)
    requires Truthy(body, "notionToken") && Truthy(body, "userId")
    ensures var r := HandleCheck("POST", Parsed(body), search, query);
      var d := CheckExistingParaFramework(search, query, body["userId"]);
      r.status == 200 && r.body.OkBody? && r.body.payload == CheckPayload(d.found, d.ids)
  {
  }
}
