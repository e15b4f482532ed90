/** The records the application passes between its parts. */
module ParaTypes {
  import opened Base

  /**
   * One PARA element as the classifier returns it. Optional text fields that are absent are "";
   * `category` is the element's `type` field ("project", "area", "resource" or "archive").
   */
  datatype ParaElement = ParaElement(
    id: string,
    title: string,
    description: string,
    category: string,
    priority: string,
    dueDate: string,
    tags: seq<string>,
    context: string)

  /** The four category lists of a PARA extraction. */
  datatype ParaData = ParaData(
    projects: seq<ParaElement>,
    areas: seq<ParaElement>,
    resources: seq<ParaElement>,
    archives: seq<ParaElement>)

  const EmptyPara := ParaData([], [], [], [])

  /** The ids of the four category databases. */
  datatype DatabaseIds = DatabaseIds(projects: string, areas: string, resources: string, archive: string)

  /** One answer of the onboarding conversation: raw text, or the items of a comma-separated list. */
  datatype Answer = Text(text: string) | Items(items: seq<string>)

  /** A persona profile: onboarding field name to answer. */
  type Persona = map<string, Answer>

  /** The user settings record: field name (`notionToken`, `projectsDatabaseId`, ...) to value. */
  type Settings = map<string, string>

  /** The browser's localStorage: key to the stored settings, read back through JSON.parse. */
  type Storage = map<string, Parsed<Settings>>

  /** The localStorage key under which a user's settings are kept. */
  function SettingsKey(userId: string): (key: string)
    ensures |key| == 14 + |userId| && key[..14] == "user_settings_" && key[14..] == userId
  {
    "user_settings_" + userId
  }

  /** Different users never share a settings key. */
  lemma SettingsKeyInjective(u1: string, u2: string)
    requires SettingsKey(u1) == SettingsKey(u2)
    ensures u1 == u2
  {
    assert u1 == SettingsKey(u1)[14..];
  }

  /** JavaScript truthiness of an optional string field: present and not empty. */
  predicate Truthy(settings: Settings, field: string) {
    field in settings && settings[field] != ""
  }
}

/** The vocabulary of the Notion client that the model needs, with the remote side as oracles. */
module NotionApi {
  import opened Base

  /** The value written into one property of a page. */
  datatype PropValue =
    | TitleText(content: string)
    | SelectName(name: string)
    | MultiSelectNames(names: seq<string>)
    | DateStart(start: string)
    | RichText(content: string)

  /** The `properties` object of a page-create request. */
  type Properties = map<string, PropValue>

  /** A discovered database schema: property name to property kind (`select`, `date`, ...). */
  type Schema = map<string, string>

  /** The declaration of one property in a database-create request. */
  datatype FieldSpec =
    | TitleField
    | SelectField(options: seq<(string, string)>)
    | DateField
    | RichTextField
    | UrlField

  /** A create request sent to Notion. */
  datatype Request =
    | CreateDatabase(parentPage: string, title: string, fields: map<string, FieldSpec>)
    | CreatePage(database: string, properties: Properties)

  /** What Notion answers to one create request. */
  datatype CreateReply = Created(id: string) | Rejected(message: string)

  /**
   * The position of the first rejected reply among the first `n` create calls, or `n` when all
   * of them succeed; `reply(k)` is the answer to the k-th call (counted from 0).
   */
  function FirstRejected(reply: nat -> CreateReply, n: nat): (m: nat)
    ensures m <= n
    ensures forall j :: 0 <= j < m ==> reply(j).Created?
    ensures m < n ==> reply(m).Rejected?
  {
    FirstRejectedFrom(reply, 0, n)
  }

  function FirstRejectedFrom(reply: nat -> CreateReply, from: nat, n: nat): (m: nat)
    requires from <= n
    requires forall j :: 0 <= j < from ==> reply(j).Created?
    ensures from <= m <= n
    ensures forall j :: 0 <= j < m ==> reply(j).Created?
    ensures m < n ==> reply(m).Rejected?
    decreases n - from
  {
    if from == n then n
    else if reply(from).Rejected? then from
    else FirstRejectedFrom(reply, from + 1, n)
  }

  /** The ids returned by the first `n` create calls, all of which succeeded. */
  function CreatedIds(reply: nat -> CreateReply, n: nat): (ids: seq<string>)
    requires forall j :: 0 <= j < n ==> reply(j).Created?
    ensures |ids| == n && forall j :: 0 <= j < n ==> ids[j] == reply(j).id
  {
    if n == 0 then [] else CreatedIds(reply, n - 1) + [reply(n - 1).id]
  }

  /**
   * What a run of create calls, awaited one after the other, has done: the requests sent (the last
   * of them the rejected one, if any) and the message of the rejection that ended the run.
   */
  datatype Sending<R> = Sending(sent: seq<R>, failure: Option<string>)

  /**
   * Sending `plan` in order, the first request answered by `reply(base)`: stops at the first
   * rejection, whose request has been sent. Without a rejection every request is sent.
   */
  function SendAll<R>(plan: seq<R>, reply: nat -> CreateReply, base: nat): Sending<R>
    decreases |plan|
  {
    if plan == [] then Sending([], None)
    else match reply(base)
      case Rejected(message) => Sending([plan[0]], Some(message))
      case Created(_) =>
        var rest := SendAll(plan[1..], reply, base + 1);
        Sending([plan[0]] + rest.sent, rest.failure)
  }

  /**
   * What was sent is a prefix of the plan; the run ends without failure exactly when every request
   * was accepted, and then the whole plan was sent; otherwise the last request sent is the first
   * one rejected, and the failure carries its message.
   */
  lemma {:induction false} SendAllOutcome<R>(plan: seq<R>, reply: nat -> CreateReply, base: nat)
    ensures var s := SendAll(plan, reply, base);
      && |s.sent| <= |plan| && s.sent == plan[..|s.sent|]
      && (s.failure.None? <==> forall j :: base <= j < base + |plan| ==> reply(j).Created?)
      && (s.failure.None? ==> s.sent == plan)
      && (s.failure.Some? ==>
        && |s.sent| > 0
        && reply(base + |s.sent| - 1) == Rejected(s.failure.value)
        && forall j :: base <= j < base + |s.sent| - 1 ==> reply(j).Created?)
    decreases |plan|
  {
    if plan != [] && reply(base).Created? {
      var rest := SendAll(plan[1..], reply, base + 1);
      SendAllOutcome(plan[1..], reply, base + 1);
      assert SendAll(plan, reply, base) == Sending([plan[0]] + rest.sent, rest.failure);
      assert plan[..1 + |rest.sent|] == [plan[0]] + plan[1..][..|rest.sent|];
      if rest.failure.None? {
        assert [plan[0]] + plan[1..] == plan;
      }
    }
  }

  /** A run without failure sent the whole plan, and every request of it was accepted. */
  lemma SendAllWhole<R>(plan: seq<R>, reply: nat -> CreateReply, base: nat)
    ensures SendAll(plan, reply, base).failure.None? ==>
      && SendAll(plan, reply, base).sent == plan
      && forall j :: base <= j < base + |plan| ==> reply(j).Created?
  {
    SendAllOutcome(plan, reply, base);
  }

  /** Only requests of the plan are sent. */
  lemma SendAllFromPlan<R>(plan: seq<R>, reply: nat -> CreateReply, base: nat)
    ensures forall r :: r in SendAll(plan, reply, base).sent ==> r in plan
  {
    SendAllOutcome(plan, reply, base);
    var sent := SendAll(plan, reply, base).sent;
    forall r | r in sent ensures r in plan {
      var k :| 0 <= k < |sent| && sent[k] == r;
      assert plan[k] == r;
    }
  }

  /** Running `first` and then, unless it failed, `second`. */
  function Then<R>(first: Sending<R>, second: Sending<R>): Sending<R> {
    if first.failure.Some? then first else Sending(first.sent + second.sent, second.failure)
  }

  /** Sending two plans back to back is sending the first and then, if nothing failed, the second. */
  lemma {:induction false} SendAllAppend<R>(p: seq<R>, q: seq<R>, reply: nat -> CreateReply, base: nat)
    ensures SendAll(p + q, reply, base) == Then(SendAll(p, reply, base), SendAll(q, reply, base + |p|))
    decreases |p|
  {
    if p == [] {
      assert p + q == q;
    } else {
      assert (p + q)[0] == p[0];
      assert (p + q)[1..] == p[1..] + q;
      if reply(base).Created? {
        SendAllAppend(p[1..], q, reply, base + 1);
        var first := SendAll(p[1..], reply, base + 1);
        var second := SendAll(q, reply, base + |p|);
        assert base + 1 + |p[1..]| == base + |p|;
        if first.failure.None? {
          AppendAssociates([p[0]], first.sent, second.sent);
        }
      }
    }
  }

  /**
   * Part of a run of `plan` that started after `log0` has been sent, the log is now `log`, and what
   * is left to send is `rest`: the run as a whole is the log so far followed by the run of `rest`.
   */
  ghost predicate Pending<R>(log0: seq<R>, plan: seq<R>, log: seq<R>, rest: seq<R>, reply: nat -> CreateReply) {
    && log0 + SendAll(plan, reply, |log0|).sent == log + SendAll(rest, reply, |log|).sent
    && SendAll(plan, reply, |log0|).failure == SendAll(rest, reply, |log|).failure
  }

  /** A run is pending on its whole plan before anything is sent. */
  lemma PendingStart<R>(log0: seq<R>, plan: seq<R>, reply: nat -> CreateReply)
    ensures Pending(log0, plan, log0, plan, reply)
  {
  }

  /**
   * Sending the next section of a pending run: when it fails, the run ends there with its failure;
   * otherwise the run is pending on what follows it.
   */
  lemma Advance<R>(log0: seq<R>, plan: seq<R>, log: seq<R>, section: seq<R>, rest: seq<R>, reply: nat -> CreateReply)
    requires Pending(log0, plan, log, section + rest, reply)
    ensures var first := SendAll(section, reply, |log|); var next := log + first.sent;
      && (first.failure.Some? ==>
            next == log0 + SendAll(plan, reply, |log0|).sent && first.failure == SendAll(plan, reply, |log0|).failure)
      && (first.failure.None? ==> Pending(log0, plan, next, rest, reply))
  {
    SendThen(log, section, rest, reply);
    var first := SendAll(section, reply, |log|);
    if first.failure.None? {
      var next := log + first.sent;
      assert |next| == |log| + |section|;
      var second := SendAll(rest, reply, |next|);
      assert log + SendAll(section + rest, reply, |log|).sent == next + second.sent;
    }
  }

  /** Sending one request of a pending run: a rejection ends the run with it, a success moves on. */
  lemma AdvanceOne<R>(log0: seq<R>, plan: seq<R>, log: seq<R>, request: R, rest: seq<R>, reply: nat -> CreateReply)
    requires Pending(log0, plan, log, [request] + rest, reply)
    ensures reply(|log|).Rejected? ==>
      && log + [request] == log0 + SendAll(plan, reply, |log0|).sent
      && SendAll(plan, reply, |log0|).failure == Some(reply(|log|).message)
    ensures reply(|log|).Created? ==> Pending(log0, plan, log + [request], rest, reply)
  {
    Advance(log0, plan, log, [request], rest, reply);
    AppendEmpty([request]);
  }

  /** An empty log before a run adds nothing to it. */
  lemma EmptyAppend<R>(a: seq<R>)
    ensures [] + a == a
  {
  }

  /** A run pending on nothing is over. */
  lemma PendingDone<R>(log0: seq<R>, plan: seq<R>, log: seq<R>, reply: nat -> CreateReply)
    requires Pending(log0, plan, log, [], reply)
    ensures log == log0 + SendAll(plan, reply, |log0|).sent && SendAll(plan, reply, |log0|).failure.None?
  {
    AppendEmpty(log);
  }

  lemma AppendEmpty<R>(a: seq<R>)
    ensures a + [] == a
  {
  }

  lemma AppendAssociates<R>(a: seq<R>, b: seq<R>, c: seq<R>)
    ensures a + (b + c) == (a + b) + c
  {
  }

  /**
   * Sending `p` and then `q` after the log `log`: when `p` fails the run ends there; otherwise all
   * of `p` is logged and the rest of the run is that of `q`, starting after it.
   */
  lemma SendThen<R>(log: seq<R>, p: seq<R>, q: seq<R>, reply: nat -> CreateReply)
    ensures var first := SendAll(p, reply, |log|);
      var whole := SendAll(p + q, reply, |log|);
      var second := SendAll(q, reply, |log| + |p|);
      && (first.failure.Some? ==> whole == first)
      && (first.failure.None? ==>
            && first.sent == p
            && log + whole.sent == (log + p) + second.sent
            && whole.failure == second.failure)
  {
    SendAllAppend(p, q, reply, |log|);
    if SendAll(p, reply, |log|).failure.None? {
      SendAllWhole(p, reply, |log|);
      AppendAssociates(log, p, SendAll(q, reply, |log| + |p|).sent);
    }
  }
}
