/**
 * The persona API route and the in-memory store behind it: one persona profile per user id,
 * overwritten by every successful save and read back by the framework provisioner.
 */
module SavePersona {
  import opened Base
  import opened ParaTypes

  /** The fields of a save request: the user id ("" when missing) and the persona, if any was sent. */
  datatype SaveBody = SaveBody(userId: string, personaData: Option<Persona>)

  /** The module-level store of persona profiles. */
  class PersonaStore {
    var records: map<string, Persona>

    constructor()
      ensures records == map[]
    {
      records := map[];
    }

    /** getPersonaData: the profile last saved for `userId`, or none. */
    function GetPersonaData(userId: string): (r: Option<Persona>)
      reads this
      ensures r.Some? <==> userId in records
      ensures r.Some? ==> r.value == records[userId]
    {
      if userId in records then Some(records[userId]) else None
    }

    /**
     * The save route: 405 for anything but POST, 500 for a body that does not parse, 400 for a missing
     * persona and then for a missing user id; otherwise the persona replaces the user's entry and
     * nothing else changes.
     */
    method HandleSave(httpMethod: string, body: Parsed<SaveBody>) returns (r: Reply<string>)
      modifies this
      ensures httpMethod != "POST" ==> r == Reply(405, ErrorBody("Method not allowed", None))
      ensures httpMethod == "POST" && body.Unparsable? ==>
        r == Reply(500, ErrorBody("Error saving persona data", Some(body.reason)))
      ensures httpMethod == "POST" && body.Parsed? && body.value.personaData.None? ==>
        r == Reply(400, ErrorBody("Missing persona data", None))
      ensures httpMethod == "POST" && body.Parsed? && body.value.personaData.Some? && body.value.userId == "" ==>
        r == Reply(400, ErrorBody("Missing user ID", None))
      ensures r.status == 200 <==> Saves(httpMethod, body)
      ensures Saves(httpMethod, body) ==>
        && r == Reply(200, OkBody("Persona data saved successfully", body.value.userId))
        && records == old(records)[body.value.userId := body.value.personaData.value]
      ensures !Saves(httpMethod, body) ==> records == old(records)
    {
      if httpMethod != "POST" {
        return Reply(405, ErrorBody("Method not allowed", None));
      }
      match body
      case Unparsable(reason) =>
        return Reply(500, ErrorBody("Error saving persona data", Some(reason)));
      case Parsed(fields) =>
        if fields.personaData.None? {
          return Reply(400, ErrorBody("Missing persona data", None));
        }
        if fields.userId == "" {
          return Reply(400, ErrorBody("Missing user ID", None));
        }
        records := records[fields.userId := fields.personaData.value];
        r := Reply(200, OkBody("Persona data saved successfully", fields.userId));
    }
  }

  /** The request is a well-formed save: POST, a parsed body, a persona and a user id. */
  predicate Saves(httpMethod: string, body: Parsed<SaveBody>) {
    httpMethod == "POST" && body.Parsed? && body.value.personaData.Some? && body.value.userId != ""
  }

  /** Two saves for one user: the later persona is the one read back, and other users keep theirs. */
  method SaveTwice(store: PersonaStore, userId: string, first: Persona, second: Persona, other: string)
    returns (read: Option<Persona>, otherRead: Option<Persona>)
    requires userId != "" && other != userId
    modifies store
    ensures read == Some(second)
    ensures otherRead == old(store.GetPersonaData(other))
  {
    var r1 := store.HandleSave("POST", Parsed(SaveBody(userId, Some(first))));
    var r2 := store.HandleSave("POST", Parsed(SaveBody(userId, Some(second))));
    read := store.GetPersonaData(userId);
    otherRead := store.GetPersonaData(other);
  }
}
