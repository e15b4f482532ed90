/** The schema-adaptive record writer of lib/notion.ts. */
module NotionWriter {
  import opened Base
  import opened Text
  import opened ParaTypes
  import opened NotionApi

  /** The credentials and target database of a write. */
  datatype NotionConfig = NotionConfig(notionToken: string, notionDatabaseId: string)

  /**
   * The user's stored Notion configuration, when both its token and its database id are set.
   * `inBrowser` stands for `typeof window !== 'undefined'`: on the server there is no localStorage.
   */
  function GetUserNotionConfig(storage: Storage, inBrowser: bool, userId: string): (r: Option<NotionConfig>)
    ensures r.Some? <==>
      && inBrowser && SettingsKey(userId) in storage && storage[SettingsKey(userId)].Parsed?
      && Truthy(storage[SettingsKey(userId)].value, "notionToken")
      && Truthy(storage[SettingsKey(userId)].value, "notionDatabaseId")
    ensures r.Some? ==>
      var settings := storage[SettingsKey(userId)].value;
      r.value == NotionConfig(settings["notionToken"], settings["notionDatabaseId"])
  {
    if !inBrowser || SettingsKey(userId) !in storage then None
    else match storage[SettingsKey(userId)]
      case Unparsable(_) => None
      case Parsed(settings) =>
        if Truthy(settings, "notionToken") && Truthy(settings, "notionDatabaseId")
        then Some(NotionConfig(settings["notionToken"], settings["notionDatabaseId"]))
        else None
  }

  /** The optional properties the writer may fill in besides `Name`. */
  const OptionalFields: set<string> := {"Type", "Description", "Due Date", "Priority", "Tags", "Context"}

  /** The optional properties in the order the writer considers them. */
  const OptionalOrder: seq<string> := ["Type", "Description", "Due Date", "Priority", "Tags", "Context"]

  /**
   * The properties of the page written for element `e` into a database whose discovered schema is
   * `schema`: `Name` first, then each optional property in turn, then the description folded into
   * the title when there is no Description property to hold it.
   */
  function BuildProperties(e: ParaElement, schema: Schema): Properties {
    var filled := FillOptional(map["Name" := TitleText(e.title)], e, schema, OptionalOrder);
    Put(filled, "Name",
      if e.description != "" && "Description" !in schema then Some(TitleText(e.title + " - " + e.description)) else None)
  }

  /** Adds, one after the other, each of `fields` for which the element and the schema give a value. */
  function FillOptional(props: Properties, e: ParaElement, schema: Schema, fields: seq<string>): Properties
    decreases |fields|
  {
    if fields == [] then props
    else FillOptional(Put(props, fields[0], OptionalValue(e, schema, fields[0])), e, schema, fields[1..])
  }

  /** `p` with property `name` set to `v`, when there is a value to set. */
  function Put(p: Properties, name: string, v: Option<PropValue>): Properties {
    if v.Some? then p[name := v.value] else p
  }

  /**
   * The value of optional property `field`: present only when the element has the value and the
   * schema has the field, and encoded as the field's kind asks (rich text for any other kind).
   */
  function OptionalValue(e: ParaElement, schema: Schema, field: string): Option<PropValue> {
    if field !in schema then None
    else if field == "Type" then
      if e.category == "" then None
      else Some(if schema["Type"] == "select" then SelectName(ToUpper(e.category)) else RichText(ToUpper(e.category)))
    else if field == "Description" then
      if e.description == "" then None else Some(RichText(e.description))
    else if field == "Due Date" then
      if e.dueDate == "" then None
      else Some(if schema["Due Date"] == "date" then DateStart(e.dueDate) else RichText(e.dueDate))
    else if field == "Priority" then
      if e.priority == "" then None
      else Some(if schema["Priority"] == "select" then SelectName(e.priority) else RichText(e.priority))
    else if field == "Tags" then
      if |e.tags| == 0 then None
      else Some(if schema["Tags"] == "multi_select" then MultiSelectNames(e.tags) else RichText(Join(e.tags, ", ")))
    else if field == "Context" then
      if e.context == "" then None else Some(RichText(e.context))
    else None
  }

  /** After filling, a property is present iff it was before or one of `fields` supplied it; a supplied
      value wins over the one already there. */
  lemma {:induction false} FillOptionalAt(props: Properties, e: ParaElement, schema: Schema, fields: seq<string>, k: string)
    ensures var r := FillOptional(props, e, schema, fields);
      var supplied := k in fields && OptionalValue(e, schema, k).Some?;
      && (k in r <==> k in props || supplied)
      && (k in r ==> r[k] == if supplied then OptionalValue(e, schema, k).value else props[k])
    decreases |fields|
  {
    if fields != [] {
      FillOptionalAt(Put(props, fields[0], OptionalValue(e, schema, fields[0])), e, schema, fields[1..], k);
    }
  }

  /** The fields a page may carry: `Name` always, the optional ones only. */
  lemma PropertyKeys(e: ParaElement, schema: Schema)
    ensures BuildProperties(e, schema).Keys <= OptionalFields + {"Name"}
  {
    forall k | k in BuildProperties(e, schema) ensures k in OptionalFields + {"Name"} {
      FillOptionalAt(map["Name" := TitleText(e.title)], e, schema, OptionalOrder, k);
    }
  }

  /** Optional property `k` of the record is present and valued exactly as the per-field rule says. */
  lemma PropertyAt(e: ParaElement, schema: Schema, k: string)
    requires k in OptionalFields
    ensures var props := BuildProperties(e, schema);
      && (k in props <==> OptionalValue(e, schema, k).Some?)
      && (k in props ==> props[k] == OptionalValue(e, schema, k).value)
  {
    FillOptionalAt(map["Name" := TitleText(e.title)], e, schema, OptionalOrder, k);
  }

  /** `Name` is always present: the title, with a description folded in when no Description field exists. */
  lemma NameProperty(e: ParaElement, schema: Schema)
    ensures var props := BuildProperties(e, schema);
      && "Name" in props
      && props["Name"] == TitleText(
           if e.description != "" && "Description" !in schema then e.title + " - " + e.description else e.title)
  {
    FillOptionalAt(map["Name" := TitleText(e.title)], e, schema, OptionalOrder, "Name");
  }

  /** `Type` is written when the element has a category and the schema a Type field: a select when
      that field is a select, rich text otherwise, upper-cased either way. */
  lemma TypeProperty(e: ParaElement, schema: Schema)
    ensures var props := BuildProperties(e, schema);
      && ("Type" in props <==> e.category != "" && "Type" in schema)
      && ("Type" in props ==>
            props["Type"] == if schema["Type"] == "select" then SelectName(ToUpper(e.category)) else RichText(ToUpper(e.category)))
  {
    PropertyAt(e, schema, "Type");
  }

  /** `Description` is written, as rich text, when the element has one and the schema the field. */
  lemma DescriptionProperty(e: ParaElement, schema: Schema)
    ensures var props := BuildProperties(e, schema);
      && ("Description" in props <==> e.description != "" && "Description" in schema)
      && ("Description" in props ==> props["Description"] == RichText(e.description))
  {
    PropertyAt(e, schema, "Description");
  }

  /** `Due Date` is a date when the field is a date field, rich text otherwise. */
  lemma DueDateProperty(e: ParaElement, schema: Schema)
    ensures var props := BuildProperties(e, schema);
      && ("Due Date" in props <==> e.dueDate != "" && "Due Date" in schema)
      && ("Due Date" in props ==>
            props["Due Date"] == if schema["Due Date"] == "date" then DateStart(e.dueDate) else RichText(e.dueDate))
  {
    PropertyAt(e, schema, "Due Date");
  }

  /** `Priority` is a select when the field is a select field, rich text otherwise; not upper-cased. */
  lemma PriorityProperty(e: ParaElement, schema: Schema)
    ensures var props := BuildProperties(e, schema);
      && ("Priority" in props <==> e.priority != "" && "Priority" in schema)
      && ("Priority" in props ==>
            props["Priority"] == if schema["Priority"] == "select" then SelectName(e.priority) else RichText(e.priority))
  {
    PropertyAt(e, schema, "Priority");
  }

  /** `Tags` is one multi-select option per tag, in order, or the tags joined with ", ". */
  lemma TagsProperty(e: ParaElement, schema: Schema)
    ensures var props := BuildProperties(e, schema);
      && ("Tags" in props <==> |e.tags| > 0 && "Tags" in schema)
      && ("Tags" in props ==>
            props["Tags"] == if schema["Tags"] == "multi_select" then MultiSelectNames(e.tags) else RichText(Join(e.tags, ", ")))
  {
    PropertyAt(e, schema, "Tags");
  }

  /** `Context` is written, as rich text, when the element has one and the schema the field. */
  lemma ContextProperty(e: ParaElement, schema: Schema)
    ensures var props := BuildProperties(e, schema);
      && ("Context" in props <==> e.context != "" && "Context" in schema)
      && ("Context" in props ==> props["Context"] == RichText(e.context))
  {
    PropertyAt(e, schema, "Context");
  }

  /** When the schema could not be retrieved, the record holds `Name` alone. */
  lemma BareSchemaGivesNameOnly(e: ParaElement)
    ensures BuildProperties(e, map[]).Keys == {"Name"}
    ensures BuildProperties(e, map[])["Name"] ==
      TitleText(if e.description != "" then e.title + " - " + e.description else e.title)
  {
    PropertyKeys(e, map[]);
    NameProperty(e, map[]);
    forall k | k in OptionalFields ensures k !in BuildProperties(e, map[]) {
      PropertyAt(e, map[], k);
    }
  }

  /** The title always heads the written `Name`, whichever encoding path was taken. */
  lemma TitleHeadsName(e: ParaElement, schema: Schema)
    ensures var name := BuildProperties(e, schema)["Name"].content;
      |e.title| <= |name| && name[..|e.title|] == e.title
  {
    NameProperty(e, schema);
  }

  /** The remote side of a write: the answers to the k-th schema retrieval and to the k-th page create. */
  datatype WriterRemote = WriterRemote(schemaAt: nat -> Option<Schema>, replyAt: nat -> CreateReply)

  predicate HasTitle(e: ParaElement) {
    e.title != ""
  }

  /** The elements a write attempts: those with a title, in input order. */
  function Titled(elements: seq<ParaElement>): seq<ParaElement> {
    if elements == [] then []
    else Titled(elements[..|elements| - 1]) + (if HasTitle(elements[|elements| - 1]) then [elements[|elements| - 1]] else [])
  }

  /** The attempted elements are the elements with a title, no more, no fewer, and never more of them. */
  lemma {:induction false} TitledAreTheTitled(elements: seq<ParaElement>)
    ensures |Titled(elements)| <= |elements|
    ensures forall x :: x in Titled(elements) <==> x in elements && HasTitle(x)
  {
    if elements != [] {
      var init := elements[..|elements| - 1];
      var last := elements[|elements| - 1];
      TitledAreTheTitled(init);
      assert elements == init + [last];
    }
  }

  /** A batch without any titled element attempts nothing: no request is sent and no page is reported. */
  lemma {:induction false} UntitledBatchSendsNothing(elements: seq<ParaElement>, config: NotionConfig, remote: WriterRemote)
    requires forall i :: 0 <= i < |elements| ==> !HasTitle(elements[i])
    ensures Titled(elements) == []
    ensures FirstRejected(remote.replyAt, |Titled(elements)|) == 0
    ensures RequestsFor(Titled(elements), config, remote) == [] && CreatedIds(remote.replyAt, 0) == []
  {
    if elements != [] {
      UntitledBatchSendsNothing(elements[..|elements| - 1], config, remote);
    }
  }

  /** The page-create request for element `e`, given the answer to its schema retrieval. */
  function RequestFor(e: ParaElement, config: NotionConfig, schema: Option<Schema>): Request {
    CreatePage(config.notionDatabaseId, BuildProperties(e, schema.GetOr(map[])))
  }

  /** The requests sent for `fs` when they are the first elements attempted. */
  function RequestsFor(fs: seq<ParaElement>, config: NotionConfig, remote: WriterRemote): (log: seq<Request>)
    ensures |log| == |fs|
    ensures forall j :: 0 <= j < |fs| ==> log[j] == RequestFor(fs[j], config, remote.schemaAt(j))
  {
    if fs == [] then []
    else RequestsFor(fs[..|fs| - 1], config, remote) + [RequestFor(fs[|fs| - 1], config, remote.schemaAt(|fs| - 1))]
  }

  /** The error raised when the page for the element titled `title` could not be created. */
  function FailureMessage(title: string, cause: string): string {
    "Failed to create Notion page for \"" + title + "\": " + cause
  }

  /** Filtering a prefix one element longer adds that element when it has a title. */
  lemma TitledStep(elements: seq<ParaElement>, i: nat)
    requires i < |elements|
    ensures Titled(elements[..i + 1]) == Titled(elements[..i]) + (if HasTitle(elements[i]) then [elements[i]] else [])
  {
    assert elements[..i + 1][..i] == elements[..i];
  }

  /** The attempted elements of a prefix are a prefix of the attempted elements. */
  lemma {:induction false} TitledPrefix(elements: seq<ParaElement>, i: nat)
    requires i <= |elements|
    ensures var t := Titled(elements[..i]); |t| <= |Titled(elements)| && Titled(elements)[..|t|] == t
    decreases |elements| - i
  {
    if i < |elements| {
      TitledPrefix(elements, i + 1);
      TitledStep(elements, i);
    } else {
      assert elements[..i] == elements;
    }
  }

  /** One more element attempted: its request joins the log. */
  lemma AttemptStep(elements: seq<ParaElement>, i: nat, config: NotionConfig, remote: WriterRemote)
    requires i < |elements| && HasTitle(elements[i])
    ensures var done := Titled(elements[..i]);
      && Titled(elements[..i + 1]) == done + [elements[i]]
      && RequestsFor(done + [elements[i]], config, remote)
         == RequestsFor(done, config, remote) + [RequestFor(elements[i], config, remote.schemaAt(|done|))]
  {
    TitledStep(elements, i);
    var done := Titled(elements[..i]);
    assert (done + [elements[i]])[..|done|] == done;
  }

  /** An element without a title leaves the attempted elements as they were. */
  lemma SkipStep(elements: seq<ParaElement>, i: nat)
    requires i < |elements| && !HasTitle(elements[i])
    ensures Titled(elements[..i + 1]) == Titled(elements[..i])
  {
    TitledStep(elements, i);
  }

  /** A rejection of the element attempted after `done` is the first rejection of the whole batch. */
  lemma RejectionIsFirst(elements: seq<ParaElement>, i: nat, remote: WriterRemote)
    requires i < |elements| && HasTitle(elements[i])
    requires var k := |Titled(elements[..i])|;
      (forall j :: 0 <= j < k ==> remote.replyAt(j).Created?) && remote.replyAt(k).Rejected?
    ensures var done := Titled(elements[..i]); var fs := Titled(elements); var k := |done|;
      && k < |fs| && fs[k] == elements[i] && fs[..k + 1] == done + [elements[i]]
      && FirstRejected(remote.replyAt, |fs|) == k
  {
    TitledStep(elements, i);
    TitledPrefix(elements, i + 1);
  }

  /**
   * The writer's state after the first `i` elements, none rejected: `done` are those attempted, the
   * log holds their requests and `results` the ids Notion returned for them.
   */
  ghost predicate Attempted(elements: seq<ParaElement>, i: nat, config: NotionConfig, remote: WriterRemote,
                            done: seq<ParaElement>, log: seq<Request>, results: seq<string>)
  {
    && i <= |elements|
    && done == Titled(elements[..i])
    && log == RequestsFor(done, config, remote)
    && (forall j :: 0 <= j < |done| ==> remote.replyAt(j).Created?)
    && results == CreatedIds(remote.replyAt, |done|)
  }

  /** Nothing is attempted before the first element. */
  lemma AttemptedStart(elements: seq<ParaElement>, config: NotionConfig, remote: WriterRemote)
    ensures Attempted(elements, 0, config, remote, [], [], [])
  {
    assert elements[..0] == [];
  }

  /** An element without a title is skipped. */
  lemma AttemptSkips(elements: seq<ParaElement>, i: nat, config: NotionConfig, remote: WriterRemote,
                     done: seq<ParaElement>, log: seq<Request>, results: seq<string>)
    requires Attempted(elements, i, config, remote, done, log, results)
    requires i < |elements| && !HasTitle(elements[i])
    ensures Attempted(elements, i + 1, config, remote, done, log, results)
  {
    SkipStep(elements, i);
  }

  /** An element with a title whose create succeeds joins the attempted ones, its request and id logged. */
  lemma AttemptSucceeds(elements: seq<ParaElement>, i: nat, config: NotionConfig, remote: WriterRemote,
                        done: seq<ParaElement>, log: seq<Request>, results: seq<string>)
    requires Attempted(elements, i, config, remote, done, log, results)
    requires i < |elements| && HasTitle(elements[i]) && remote.replyAt(|done|).Created?
    ensures |log| == |done|
    ensures Attempted(elements, i + 1, config, remote, done + [elements[i]],
                      log + [RequestFor(elements[i], config, remote.schemaAt(|log|))],
                      results + [remote.replyAt(|log|).id])
  {
    AttemptStep(elements, i, config, remote);
    CreatedStep(remote.replyAt, |done|);
  }

  /** A success of the k-th create extends the created ids by its id. */
  lemma CreatedStep(reply: nat -> CreateReply, k: nat)
    requires forall j :: 0 <= j < k ==> reply(j).Created?
    requires reply(k).Created?
    ensures forall j :: 0 <= j < k + 1 ==> reply(j).Created?
    ensures CreatedIds(reply, k + 1) == CreatedIds(reply, k) + [reply(k).id]
  {
  }

  /** An element with a title whose create is rejected is the batch's first rejection. */
  lemma AttemptRejected(elements: seq<ParaElement>, i: nat, config: NotionConfig, remote: WriterRemote,
                        done: seq<ParaElement>, log: seq<Request>, results: seq<string>)
    requires Attempted(elements, i, config, remote, done, log, results)
    requires i < |elements| && HasTitle(elements[i]) && remote.replyAt(|done|).Rejected?
    ensures var fs := Titled(elements); var m := FirstRejected(remote.replyAt, |fs|);
      && |log| == |done| && m == |done| && m < |fs| && fs[m] == elements[i]
      && log + [RequestFor(elements[i], config, remote.schemaAt(|log|))] == RequestsFor(fs[..m + 1], config, remote)
  {
    RejectionIsFirst(elements, i, remote);
    AttemptStep(elements, i, config, remote);
  }

  /** After the last element with no rejection, every element with a title was created. */
  lemma AttemptedAll(elements: seq<ParaElement>, config: NotionConfig, remote: WriterRemote,
                     done: seq<ParaElement>, log: seq<Request>, results: seq<string>)
    requires Attempted(elements, |elements|, config, remote, done, log, results)
    ensures var fs := Titled(elements);
      && FirstRejected(remote.replyAt, |fs|) == |fs|
      && results == CreatedIds(remote.replyAt, |fs|) && log == RequestsFor(fs, config, remote)
  {
    assert elements[..|elements|] == elements;
  }

  /**
   * createNotionParaElementsWithConfig: writes one page per element with a title, in order, and
   * returns the created pages. The first rejected create ends the batch with an error naming that
   * element's title; no later element is attempted. `log` is the sequence of create requests sent.
   */
  method CreateNotionParaElements(elements: seq<ParaElement>, config: NotionConfig, remote: WriterRemote)
    returns (outcome: Result<seq<string>>, log: seq<Request>)
    ensures var fs := Titled(elements); var m := FirstRejected(remote.replyAt, |fs|);
      && (m == |fs| ==> outcome == Success(CreatedIds(remote.replyAt, |fs|)) && log == RequestsFor(fs, config, remote))
      && (m < |fs| ==>
            && outcome == Failure(FailureMessage(fs[m].title, remote.replyAt(m).message))
            && log == RequestsFor(fs[..m + 1], config, remote))
  {
    var results: seq<string> := [];
    log := [];
    ghost var done: seq<ParaElement> := [];
    var i := 0;
    AttemptedStart(elements, config, remote);
    while i < |elements|
      invariant Attempted(elements, i, config, remote, done, log, results)
    {
      var element := elements[i];
      if element.title == "" {
        AttemptSkips(elements, i, config, remote, done, log, results);
        i := i + 1;
        continue;
      }
      var request := RequestFor(element, config, remote.schemaAt(|log|));
      var reply := remote.replyAt(|log|);
      if reply.Rejected? {
        AttemptRejected(elements, i, config, remote, done, log, results);
        log := log + [request];
        outcome := Failure(FailureMessage(element.title, reply.message));
        return;
      }
      AttemptSucceeds(elements, i, config, remote, done, log, results);
      log := log + [request];
      results := results + [reply.id];
      done := done + [element];
      i := i + 1;
    }
    AttemptedAll(elements, config, remote, done, log, results);
    outcome := Success(results);
  }
}
