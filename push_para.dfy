/**
 * The PARA push route behind the authentication wrapper: the caller must be signed in, the request
 * must be a POST carrying a non-empty array of PARA elements and a Notion configuration with both a
 * token and a database id; the elements are then written by the Notion writer. The session lookup
 * is a parameter (`auth`), and so are Notion's answers (`remote`).
 */
module PushPara {
  import opened Base
  import opened ParaTypes
  import opened NotionApi
  import opened NotionWriter

  /** What the session lookup gives: it throws, or yields the signed-in user's id ("" when none). */
  datatype Auth = AuthThrew | AuthUser(userId: string)

  /** The count of pages the writer reported created. */
  datatype PushCount = PushCount(count: nat)

  /** The configuration is usable: present, with a token and a database id. */
  predicate UsableConfig(config: Option<NotionConfig>) {
    config.Some? && config.value.notionToken != "" && config.value.notionDatabaseId != ""
  }

  /**
   * The wrapped route. A failed session lookup gives 500, no user 401, anything but POST 405, a
   * missing or empty element array 400 and an unusable configuration 400, all before any request to
   * Notion. Otherwise the writer runs: when every titled element was created the answer is 200 with
   * the number of pages created, and at the first rejection it is 500 with the writer's message as
   * details. `log` is the create requests the writer sent.
   */
  method HandlePushPara(auth: Auth, httpMethod: string, paraElements: Listed<ParaElement>,
                        notionConfig: Option<NotionConfig>, remote: WriterRemote)
    returns (r: Reply<PushCount>, log: seq<Request>)
    ensures auth.AuthThrew? ==> r == Reply(500, ErrorBody("Authentication error", None)) && log == []
    ensures auth == AuthUser("") ==> r == Reply(401, ErrorBody("Unauthorized", None)) && log == []
    ensures auth.AuthUser? && auth.userId != "" && httpMethod != "POST" ==>
      r == Reply(405, ErrorBody("Method not allowed", None)) && log == []
    ensures auth.AuthUser? && auth.userId != "" && httpMethod == "POST"
            && (paraElements.NotAList? || paraElements.items == []) ==>
      r == Reply(400, ErrorBody("Missing or invalid paraElements array", None)) && log == []
    ensures auth.AuthUser? && auth.userId != "" && httpMethod == "POST"
            && paraElements.List? && paraElements.items != [] && !UsableConfig(notionConfig) ==>
      r == Reply(400, ErrorBody("Missing Notion configuration", None)) && log == []
    ensures auth.AuthUser? && auth.userId != "" && httpMethod == "POST"
            && paraElements.List? && paraElements.items != [] && UsableConfig(notionConfig) ==>
      var fs := Titled(paraElements.items); var m := FirstRejected(remote.replyAt, |fs|);
      && (m == |fs| ==>
            && r == Reply(200, OkBody("PARA elements pushed to Notion", PushCount(|fs|)))
            && log == RequestsFor(fs, notionConfig.value, remote))
      && (m < |fs| ==>
            && r == Reply(500, ErrorBody("Failed to push PARA elements to Notion",
                                         Some(FailureMessage(fs[m].title, remote.replyAt(m).message))))
            && log == RequestsFor(fs[..m + 1], notionConfig.value, remote))
  {
    // withAuth
    if auth.AuthThrew? {
      return Reply(500, ErrorBody("Authentication error", None)), [];
    }
    if auth.userId == "" {
      return Reply(401, ErrorBody("Unauthorized", None)), [];
    }
    // the handler
    if httpMethod != "POST" {
      return Reply(405, ErrorBody("Method not allowed", None)), [];
    }
    if paraElements.NotAList? || |paraElements.items| == 0 {
      return Reply(400, ErrorBody("Missing or invalid paraElements array", None)), [];
    }
    if notionConfig.None? || notionConfig.value.notionToken == "" || notionConfig.value.notionDatabaseId == "" {
      return Reply(400, ErrorBody("Missing Notion configuration", None)), [];
    }
    var outcome;
    outcome, log := CreateNotionParaElements(paraElements.items, notionConfig.value, remote);
    match outcome {
      case Success(results) =>
        r := Reply(200, OkBody("PARA elements pushed to Notion", PushCount(|results|)));
      case Failure(message) =>
        r := Reply(500, ErrorBody("Failed to push PARA elements to Notion", Some(message)));
    }
  }
}
