/**
 * The client-side setup of a PARA framework and the progress state shown while it runs: the
 * discovery route is asked first, and only when it reports no framework is the provisioning route
 * called. The two routes' replies are oracle values; the `onSuccess` callback is recorded as the
 * value it was handed.
 */
module SetupProgress {
  import opened Base
  import opened ParaTypes
  import FrameworkCheck

  const CheckRoute: string := "/api/check-para-framework"
  const CreateRoute: string := "/api/create-para-framework"

  const CheckingStatus: string := "Checking for existing PARA framework..."
  const AnalyzingStatus: string := "Analyzing workspace access..."
  const ConnectedStatus: string := "Connected to existing PARA framework!"
  const CreatingStatus: string := "Creating PARA framework in Notion..."
  const CreatedStatus: string := "PARA framework created successfully!"
  const ErrorStatus: string := "Error setting up PARA framework"

  /** Whether `onSuccess` was called, and with which ids (`None` for an undefined value). */
  datatype Notified = NotNotified | Notified(ids: Option<DatabaseIds>)

  /** One setup run: the progress steps set, the final status, the routes fetched and the callback. */
  datatype SetupRun = SetupRun(steps: seq<int>, status: string, fetched: seq<string>, notified: Notified)

  /**
   * What a setup with a token does, given the two routes' replies: a reply that is not ok is thrown
   * and ends the run with the error status; the check's `exists` flag decides between connecting and
   * creating.
   */
  function Setup(check: Reply<FrameworkCheck.CheckPayload>, create: Reply<DatabaseIds>): SetupRun {
    if !IsOk(check.status) then SetupRun([1], ErrorStatus, [CheckRoute], NotNotified)
    else if check.body.OkBody? && check.body.payload.found then
      SetupRun([1, 2, 4], ConnectedStatus, [CheckRoute], Notified(check.body.payload.databaseIds))
    else if !IsOk(create.status) then SetupRun([1, 2, 3], ErrorStatus, [CheckRoute, CreateRoute], NotNotified)
    else
      SetupRun([1, 2, 3, 4], CreatedStatus, [CheckRoute, CreateRoute],
        Notified(if create.body.OkBody? then Some(create.body.payload) else None))
  }

  /** The progress state of the setup hook. */
  class ParaFrameworkSetup {
    var isCreating: bool
    var progressStep: int
    var progressStatus: string
    /** Every step number set so far, in order. */
    ghost var steps: seq<int>

    constructor()
      ensures isCreating == false && progressStep == 0 && progressStatus == "" && steps == []
    {
      isCreating := false;
      progressStep := 0;
      progressStatus := "";
      steps := [];
    }

    /** updateProgress: sets the step and the status, and nothing else. */
    method UpdateProgress(step: int, status: string)
      modifies this
      ensures progressStep == step && progressStatus == status
      ensures isCreating == old(isCreating)
      ensures steps == old(steps) + [step]
    {
      progressStep := step;
      progressStatus := status;
      steps := steps + [step];
    }

    /** resetProgress: back to the initial state. */
    method ResetProgress()
      modifies this
      ensures isCreating == false && progressStep == 0 && progressStatus == ""
      ensures steps == old(steps)
    {
      isCreating := false;
      progressStep := 0;
      progressStatus := "";
    }

    /**
     * setupParaFramework: without a token nothing happens and nothing is fetched; otherwise the run
     * is the one `Setup` describes, with `isCreating` set, the steps appended in order, the last step
     * shown and the final status set. An error keeps the step reached when it was thrown.
     */
    method SetupParaFramework(settings: Settings, userId: string,
                              check: Reply<FrameworkCheck.CheckPayload>, create: Reply<DatabaseIds>)
      returns (fetched: seq<string>, notified: Notified)
      modifies this
      ensures !Truthy(settings, "notionToken") ==>
        && fetched == [] && notified == NotNotified
        && isCreating == old(isCreating) && progressStep == old(progressStep)
        && progressStatus == old(progressStatus) && steps == old(steps)
      ensures Truthy(settings, "notionToken") ==>
        var run := Setup(check, create);
        && fetched == run.fetched && notified == run.notified
        && isCreating
        && steps == old(steps) + run.steps
        && progressStep == run.steps[|run.steps| - 1]
        && progressStatus == run.status
    {
      if !Truthy(settings, "notionToken") {
        return [], NotNotified;
      }
      isCreating := true;
      UpdateProgress(1, CheckingStatus);
      fetched := [CheckRoute];
      notified := NotNotified;
      if !IsOk(check.status) {
        progressStatus := ErrorStatus;
        return;
      }
      UpdateProgress(2, AnalyzingStatus);
      if check.body.OkBody? && check.body.payload.found {
        UpdateProgress(4, ConnectedStatus);
        notified := Notified(check.body.payload.databaseIds);
        return;
      }
      UpdateProgress(3, CreatingStatus);
      fetched := fetched + [CreateRoute];
      if !IsOk(create.status) {
        progressStatus := ErrorStatus;
        return;
      }
      UpdateProgress(4, CreatedStatus);
      notified := Notified(if create.body.OkBody? then Some(create.body.payload) else None);
    }
  }

  // ---------------------------------------------------------------------------------------------
  // Properties of a run

  /** The steps of a run strictly increase: 1, 2, 4 or 1, 2, 3, 4, or a prefix of these ended by an error. */
  lemma StepsIncrease(check: Reply<FrameworkCheck.CheckPayload>, create: Reply<DatabaseIds>)
    ensures var s := Setup(check, create).steps;
      && |s| > 0 && s[0] == 1
      && (forall i, j :: 0 <= i < j < |s| ==> s[i] < s[j])
      && (s == [1, 2, 4] || s == [1, 2, 3, 4] || s == [1] || s == [1, 2, 3])
  {
  }

  /** A framework the check reports is connected with the check's ids, and creation is never asked for. */
  lemma FoundIsConnected(check: Reply<FrameworkCheck.CheckPayload>, create: Reply<DatabaseIds>)
    requires IsOk(check.status) && check.body.OkBody? && check.body.payload.found
    ensures var run := Setup(check, create);
      && CreateRoute !in run.fetched
      && run.steps == [1, 2, 4]
      && run.notified == Notified(check.body.payload.databaseIds)
  {
  }

  /** Otherwise a framework is created, and the callback gets the ids of the creation reply. */
  lemma MissingIsCreated(check: Reply<FrameworkCheck.CheckPayload>, create: Reply<DatabaseIds>)
    requires IsOk(check.status) && !(check.body.OkBody? && check.body.payload.found) && IsOk(create.status)
    ensures var run := Setup(check, create);
      && run.fetched == [CheckRoute, CreateRoute]
      && run.steps == [1, 2, 3, 4]
      && run.notified == Notified(if create.body.OkBody? then Some(create.body.payload) else None)
  {
  }

  /**
   * The run ends in the error status exactly when a route failed, and then the callback is not
   * called; a run that does not fail ends at step 4.
   */
  lemma ErrorMeansNoCallback(check: Reply<FrameworkCheck.CheckPayload>, create: Reply<DatabaseIds>)
    ensures var run := Setup(check, create);
      var failed := !IsOk(check.status) || (!(check.body.OkBody? && check.body.payload.found) && !IsOk(create.status));
      && (run.status == ErrorStatus <==> failed)
      && (run.notified == NotNotified <==> failed)
      && (!failed ==> run.steps[|run.steps| - 1] == 4)
  {
  }

  /**
   * Against the discovery route: a valid request whose search finds Projects and Areas databases is
   * answered so that setup connects to them without creating anything.
   */
  lemma DiscoveredFrameworkIsConnected(body: FrameworkCheck.CheckBody, search: FrameworkCheck.SearchReply,
                                       query: FrameworkCheck.QueryReply, create: Reply<DatabaseIds>)
    requires Truthy(body, "notionToken") && Truthy(body, "userId")
    requires FrameworkCheck.CheckExistingParaFramework(search, query, body["userId"]).found
    ensures var check := FrameworkCheck.HandleCheck("POST", Parsed(body), search, query);
      var run := Setup(check, create);
      && run.fetched == [CheckRoute]
      && run.notified == Notified(FrameworkCheck.CheckExistingParaFramework(search, query, body["userId"]).ids)
  {
    FrameworkCheck.AnswerIsDiscovery(body, search, query);
  }

  /** A client run: a token-less setup changes nothing; a reset after a run restores the initial state. */
  method SetupThenReset(setup: ParaFrameworkSetup, settings: Settings, userId: string,
                        check: Reply<FrameworkCheck.CheckPayload>, create: Reply<DatabaseIds>)
    modifies setup
    ensures setup.isCreating == false && setup.progressStep == 0 && setup.progressStatus == ""
    ensures !Truthy(settings, "notionToken") ==> setup.steps == old(setup.steps)
  {
    var fetched, notified := setup.SetupParaFramework(settings, userId, check, create);
    setup.ResetProgress();
  }
}
