/**
 * The onboarding conversation: eight questions asked one after the other, each answer stored in
 * the persona under the question's field. The answers about interests and current projects are
 * comma-separated lists; every other answer is kept as typed.
 */
module Onboarding {
  import opened Text
  import opened ParaTypes

  // ---------------------------------------------------------------------------------------------
  // Parsing one answer

  /** The non-empty trims of `parts`, in order (`parts.map(trim).filter(p => p.length > 0)`). */
  function TrimmedNonEmpty(parts: seq<string>): (r: seq<string>)
    ensures |r| <= |parts|
    ensures forall i :: 0 <= i < |r| ==> r[i] != []
  {
    if parts == [] then []
    else
      var t := Trim(parts[0]);
      (if t != [] then [t] else []) + TrimmedNonEmpty(parts[1..])
  }

  /** The items of a comma-separated answer. */
  function ListItems(response: string): seq<string> {
    TrimmedNonEmpty(Split(response, ','))
  }

  /** The fields whose answer is a list. */
  predicate IsListField(field: string) {
    field == "interests" || field == "currentProjects"
  }

  /** processUserResponse: the answer, as its list items for a list field, stored under `field`. */
  function ProcessUserResponse(persona: Persona, response: string, field: string): Persona {
    var processed := if IsListField(field) then Items(ListItems(response)) else Text(response);
    persona[field := processed]
  }

  /**
   * Processing an answer stores it under `field`, as non-empty list items for a list field and as
   * the raw text otherwise, and keeps every other field of the persona.
   */
  lemma ProcessUpdatesField(persona: Persona, response: string, field: string)
    ensures var r := ProcessUserResponse(persona, response, field);
      && r.Keys == persona.Keys + {field}
      && (forall k :: k in persona && k != field ==> r[k] == persona[k])
      && (IsListField(field) ==> r[field] == Items(ListItems(response)))
      && (!IsListField(field) ==> r[field] == Text(response))
  {
  }

  /** An item is a non-empty trim of a piece of the input, and every non-empty trim is an item. */
  lemma {:induction false} TrimmedNonEmptyMembers(parts: seq<string>)
    ensures forall x :: x in TrimmedNonEmpty(parts) <==> x != [] && exists p :: p in parts && Trim(p) == x
  {
    if parts != [] {
      TrimmedNonEmptyMembers(parts[1..]);
      var t := Trim(parts[0]);
      assert TrimmedNonEmpty(parts) == (if t != [] then [t] else []) + TrimmedNonEmpty(parts[1..]);
      forall x | x != [] && exists p :: p in parts && Trim(p) == x
        ensures x in TrimmedNonEmpty(parts)
      {
        var p :| p in parts && Trim(p) == x;
        if p != parts[0] {
          assert p in parts[1..];
        }
      }
    }
  }

  /** Trimming twice trims once. */
  lemma TrimIdempotent(p: string)
    ensures Trim(Trim(p)) == Trim(p)
  {
    TrimIsSlice(p);
    TrimOfTrimmed(Trim(p));
  }

  /** Trimming keeps a character out that the input does not contain. */
  lemma TrimKeepsOut(p: string, c: char)
    requires c !in p
    ensures c !in Trim(p)
  {
    TrimIsSlice(p);
  }

  /**
   * The items of an answer: exactly the non-empty trims of its comma-separated pieces, each trimmed
   * and free of commas, at most one per piece.
   */
  lemma ListItemsAreThePieces(response: string)
    ensures var items := ListItems(response);
      && |items| <= |Split(response, ',')|
      && (forall x :: x in items <==> x != [] && exists p :: p in Split(response, ',') && Trim(p) == x)
      && (forall x :: x in items ==> Trim(x) == x && ',' !in x)
  {
    var pieces := Split(response, ',');
    var items := ListItems(response);
    TrimmedNonEmptyMembers(pieces);
    forall x | x in items
      ensures Trim(x) == x && ',' !in x
    {
      var p :| p in pieces && Trim(p) == x;
      TrimIdempotent(p);
      TrimKeepsOut(p, ',');
    }
  }

  /** An answer without a comma is one item, its trim, unless it is blank. */
  lemma SingleItem(response: string)
    requires ',' !in response
    ensures ListItems(response) == if Trim(response) == [] then [] else [Trim(response)]
  {
    assert Split(response, ',') == [response] by {
      SplitWithoutSeparator(response, ',');
    }
  }

  lemma {:induction false} SplitWithoutSeparator(s: string, sep: char)
    requires sep !in s
    ensures Split(s, sep) == [s]
  {
    if s != [] {
      assert sep !in s[1..];
      SplitWithoutSeparator(s[1..], sep);
      assert [s[0]] + s[1..] == s;
    }
  }

  // ---------------------------------------------------------------------------------------------
  // The conversation

  datatype Role = User | Assistant

  datatype Message = Message(role: Role, content: string)

  datatype OnboardingStep = OnboardingStep(question: string, field: string)

  /**
   * What the assistant says: the greeting, one question per step with the persona field its answer
   * goes to, and the closing text. The conversation logic below is stated for any script; the
   * chat runs `OnboardingScript`.
   */
  datatype Script = Script(greeting: string, steps: seq<OnboardingStep>, completion: string)

  const Greeting: string :=
    "Hi there! I'm your AI productivity assistant. I'd like to get to know you better so I can help "
    + "set up your personalized PARA framework in Notion. Could you start by telling me your name?"

  const CompletionText: string :=
    "Thank you for sharing all this information! I now have a good understanding of your needs and "
    + "preferences. I'll use this to set up your personalized PARA framework in Notion."

  /** The questions of the conversation, in order, with the persona field each answer goes to. */
  const OnboardingSteps: seq<OnboardingStep> := [
    OnboardingStep("Could you tell me your name?", "name"),
    OnboardingStep("Nice to meet you! If you don't mind sharing, what's your age?", "age"),
    OnboardingStep("What do you do for work?", "occupation"),
    OnboardingStep("What are some of your interests or hobbies?", "interests"),
    OnboardingStep("Are you currently working on any projects? If so, could you briefly describe them?",
      "currentProjects"),
    OnboardingStep("How would you describe your work style? (e.g., detail-oriented, big-picture "
      + "thinker, deadline-driven)", "workStyle"),
    OnboardingStep("Do you have any specific preferences for how you like to organize your tasks?",
      "preferences"),
    OnboardingStep("Is there anything else you'd like me to know to help personalize your experience?",
      "additionalInfo")
  ]

  const OnboardingScript: Script := Script(Greeting, OnboardingSteps, CompletionText)

  /** The eight questions fill eight different fields, two of them lists. */
  lemma StepsFillDistinctFields()
    ensures |OnboardingSteps| == 8
    ensures forall i, j :: 0 <= i < j < |OnboardingSteps| ==> OnboardingSteps[i].field != OnboardingSteps[j].field
    ensures forall i :: 0 <= i < |OnboardingSteps| ==> (IsListField(OnboardingSteps[i].field) <==> i == 3 || i == 4)
  {
  }

  /** The assistant's message after the answer that brings the conversation to `nextStep`. */
  function AssistantReply(script: Script, nextStep: nat): string {
    if nextStep >= |script.steps| then script.completion else script.steps[nextStep].question
  }

  /** The fields answered in the first `n` steps. */
  function AnsweredFields(steps: seq<OnboardingStep>, n: nat): set<string>
    requires n <= |steps|
  {
    set k | 0 <= k < n :: steps[k].field
  }

  /** The fields answered in the first `n` steps gain one field per step. */
  lemma AnsweredFieldsStep(steps: seq<OnboardingStep>, n: nat)
    requires n < |steps|
    ensures AnsweredFields(steps, n + 1) == AnsweredFields(steps, n) + {steps[n].field}
  {
  }

  /** The chat's state: the transcript, the text typed, the loading flag, the step, the answers, completion. */
  datatype ChatState = ChatState(messages: seq<Message>, input: string, isLoading: bool, currentStep: nat,
                                 persona: Persona, completed: bool)

  /** The chat as first shown: the greeting, no answers, nothing typed. */
  function InitialChat(script: Script): ChatState {
    ChatState([Message(Assistant, script.greeting)], "", false, 0, map[], false)
  }

  /**
   * handleSubmit: a blank input, or a submit while loading, changes nothing. Otherwise the trimmed
   * input becomes a user message and the input is cleared. With a question left, the answer is
   * stored under its field, the step advances and the assistant's next message follows, completion
   * being scheduled after the last question. Past the last question the step lookup throws, which
   * is caught: only the user message is added.
   */
  function Submit(script: Script, s: ChatState): ChatState {
    var answer := Trim(s.input);
    if answer == [] || s.isLoading then s
    else if s.currentStep >= |script.steps| then
      s.(messages := s.messages + [Message(User, answer)], input := "", isLoading := false)
    else
      var nextStep := s.currentStep + 1;
      s.(messages := s.messages + [Message(User, answer), Message(Assistant, AssistantReply(script, nextStep))],
         input := "", isLoading := false, currentStep := nextStep,
         persona := ProcessUserResponse(s.persona, answer, script.steps[s.currentStep].field),
         completed := s.completed || nextStep >= |script.steps|)
  }

  /**
   * A conversation after `currentStep` answers: the greeting, then for each answered step the
   * user's answer and the assistant's next message; after the last step only user messages follow.
   * The persona holds exactly the fields answered, and completion is scheduled exactly after the
   * last step.
   */
  predicate Conversation(script: Script, s: ChatState) {
    && s.currentStep <= |script.steps|
    && |s.messages| >= 1 + 2 * s.currentStep
    && s.messages[0] == Message(Assistant, script.greeting)
    && (forall k :: 0 <= k < s.currentStep ==>
          && s.messages[2 * k + 1].role == User
          && s.messages[2 * k + 2] == Message(Assistant, AssistantReply(script, k + 1)))
    && (s.currentStep < |script.steps| ==> |s.messages| == 1 + 2 * s.currentStep)
    && (forall i :: 1 + 2 * s.currentStep <= i < |s.messages| ==> s.messages[i].role == User)
    && s.persona.Keys == AnsweredFields(script.steps, s.currentStep)
    && (s.completed <==> s.currentStep == |script.steps|)
  }

  /** The conversation starts with the greeting alone. */
  lemma ConversationStarts(script: Script)
    requires |script.steps| > 0
    ensures Conversation(script, InitialChat(script))
  {
    assert AnsweredFields(script.steps, 0) == {};
  }

  /** A blank answer, or one sent while loading, is ignored. */
  lemma SubmitIgnoresBlank(script: Script, s: ChatState)
    requires Trim(s.input) == [] || s.isLoading
    ensures Submit(script, s) == s
  {
  }

  /**
   * An answer to a question left adds the trimmed answer and exactly one assistant message, the
   * next question or the closing text; the step advances by one, the input is cleared and the
   * answer is processed into the question's field.
   */
  lemma SubmitAnswers(script: Script, s: ChatState)
    requires Trim(s.input) != [] && !s.isLoading && s.currentStep < |script.steps|
    ensures var r := Submit(script, s);
      && r.currentStep == s.currentStep + 1 && r.input == "" && !r.isLoading
      && |r.messages| == |s.messages| + 2 && r.messages[..|s.messages|] == s.messages
      && r.messages[|s.messages|] == Message(User, Trim(s.input))
      && r.messages[|s.messages| + 1].role == Assistant
      && (r.currentStep == |script.steps| ==> r.messages[|s.messages| + 1].content == script.completion && r.completed)
      && (r.currentStep < |script.steps| ==>
            r.messages[|s.messages| + 1].content == script.steps[r.currentStep].question)
      && r.persona == ProcessUserResponse(s.persona, Trim(s.input), script.steps[s.currentStep].field)
  {
  }

  /** An answer after the last question only adds the user's message and clears the input. */
  lemma SubmitPastEnd(script: Script, s: ChatState)
    requires Trim(s.input) != [] && !s.isLoading && s.currentStep >= |script.steps|
    ensures Submit(script, s).messages == s.messages + [Message(User, Trim(s.input))]
    ensures Submit(script, s).(messages := s.messages, input := s.input) == s
  {
  }

  /** An answer to a question left keeps the conversation well formed. */
  lemma {:induction false} AnswerAdvances(script: Script, s: ChatState)
    requires Conversation(script, s) && Trim(s.input) != [] && !s.isLoading && s.currentStep < |script.steps|
    ensures Conversation(script, Submit(script, s))
  {
    var r := Submit(script, s);
    var step := s.currentStep;
    AnsweredFieldsStep(script.steps, step);
    ProcessUpdatesField(s.persona, Trim(s.input), script.steps[step].field);
    assert r.messages == s.messages + [Message(User, Trim(s.input)), Message(Assistant, AssistantReply(script, step + 1))];
    forall k | 0 <= k < step + 1
      ensures && r.messages[2 * k + 1].role == User
              && r.messages[2 * k + 2] == Message(Assistant, AssistantReply(script, k + 1))
    {
      if k < step {
        assert r.messages[2 * k + 1] == s.messages[2 * k + 1] && r.messages[2 * k + 2] == s.messages[2 * k + 2];
      }
    }
  }

  /** An answer after the last question keeps the conversation well formed. */
  lemma AnswerPastEnd(script: Script, s: ChatState)
    requires Conversation(script, s) && Trim(s.input) != [] && !s.isLoading && s.currentStep >= |script.steps|
    ensures Conversation(script, Submit(script, s))
  {
    var r := Submit(script, s);
    assert r.messages == s.messages + [Message(User, Trim(s.input))];
    assert forall k :: 0 <= k < s.currentStep ==>
      r.messages[2 * k + 1] == s.messages[2 * k + 1] && r.messages[2 * k + 2] == s.messages[2 * k + 2];
  }

  /** Every submit keeps the conversation well formed. */
  lemma SubmitKeepsConversation(script: Script, s: ChatState)
    requires Conversation(script, s)
    ensures Conversation(script, Submit(script, s))
  {
    if Trim(s.input) != [] && !s.isLoading {
      if s.currentStep < |script.steps| {
        AnswerAdvances(script, s);
      } else {
        AnswerPastEnd(script, s);
      }
    }
  }

  /**
   * After the last answer the conversation is complete: every question's field is filled and the
   * closing text follows the last answer.
   */
  lemma CompleteConversation(script: Script, s: ChatState)
    requires Conversation(script, s) && s.currentStep == |script.steps|
    ensures s.completed
    ensures forall k :: 0 <= k < |script.steps| ==> script.steps[k].field in s.persona
    ensures |script.steps| > 0 ==> s.messages[2 * |script.steps|] == Message(Assistant, script.completion)
  {
    forall k | 0 <= k < |script.steps|
      ensures script.steps[k].field in s.persona
    {
      assert script.steps[k].field in AnsweredFields(script.steps, |script.steps|);
    }
    if |script.steps| > 0 {
      var last := |script.steps| - 1;
      assert s.messages[2 * last + 2] == Message(Assistant, AssistantReply(script, last + 1));
    }
  }

  /** The chat's conversation, once complete, has filled both list fields. */
  lemma OnboardingFillsLists(s: ChatState)
    requires Conversation(OnboardingScript, s) && s.currentStep == |OnboardingSteps|
    ensures s.completed && "interests" in s.persona && "currentProjects" in s.persona
  {
    CompleteConversation(OnboardingScript, s);
    assert OnboardingSteps[3].field == "interests" && OnboardingSteps[4].field == "currentProjects";
  }

  /** The state of the onboarding chat. */
  class OnboardingChat {
    /** The component's questions, fixed when it is created. */
    const script: Script
    var messages: seq<Message>
    var input: string
    var isLoading: bool
    var currentStep: nat
    var persona: Persona
    /** The completion callback has been scheduled. */
    var completed: bool

    function State(): ChatState
      reads this
    {
      ChatState(messages, input, isLoading, currentStep, persona, completed)
    }

    predicate Valid()
      reads this
    {
      Conversation(script, State())
    }

    constructor()
      ensures script == OnboardingScript && State() == InitialChat(OnboardingScript) && Valid()
    {
      script := OnboardingScript;
      messages := [Message(Assistant, Greeting)];
      input := "";
      isLoading := false;
      currentStep := 0;
      persona := map[];
      completed := false;
      ConversationStarts(OnboardingScript);
    }

    /** handleInputChange: the typed text replaces the input. */
    method SetInput(value: string)
      modifies this
      ensures State() == old(State()).(input := value)
    {
      input := value;
    }

    /** handleSubmit, as `Submit` describes it for the chat's script. */
    method HandleSubmit()
      requires Valid()
      modifies this
      ensures State() == Submit(script, old(State()))
      ensures Valid()
    {
      SubmitKeepsConversation(script, State());
      var answer := Trim(input);
      if answer == [] || isLoading {
        return;
      }
      var userMessage := Message(User, answer);
      messages := messages + [userMessage];
      input := "";
      isLoading := true;
      if currentStep >= |script.steps| {
        // `onboardingSteps[currentStep]` is undefined: the TypeError is caught.
        isLoading := false;
        return;
      }
      persona := ProcessUserResponse(persona, answer, script.steps[currentStep].field);
      var nextStep := currentStep + 1;
      currentStep := nextStep;
      if nextStep >= |script.steps| {
        messages := messages + [Message(Assistant, script.completion)];
        completed := true;
      } else {
        messages := messages + [Message(Assistant, script.steps[nextStep].question)];
      }
      isLoading := false;
    }
  }
}
