# PARA pipeline of the AI productivity tool, in Dafny

This project models the part of the productivity assistant that turns conversation output into
PARA records (Projects, Areas, Resources, Archive) and writes them to Notion. It covers these parts:

- **Schema-adaptive record writer** (`NotionWriter`, from `lib/notion.ts`). For each element with
  a title, it reads the target database's schema and builds the page properties. `Name` is always
  written. Type, Description, Due Date, Priority, Tags and Context are written only when the
  element has the value and the schema has the field. The encoding follows the field's kind. A
  description with no Description field is folded into the title. The writer awaits one create
  after another and throws at the first rejected create, naming that element's title.
- **Response normaliser** (`AiNormalizer`, from `lib/ai.ts`). It strips code fences from a
  model reply and trims the rest. Prose becomes one of two fixed empty skeletons, and a parse
  failure falls back to a default.
- **Framework discovery** (`FrameworkCheck`, from `pages/api/check-para-framework.ts`). It
  searches the workspace for databases titled exactly `projects`, `areas`, `resources` and
  `archive`, ignoring case, and validates the route's request.
- **Framework provisioner** (`FrameworkCreate`, from `pages/api/create-para-framework.ts`). It
  creates four databases from a fixed template under the first page found, then seeds them from
  the stored persona. Requests are appended to a log.
- **Setup progress hook** (`SetupProgress`, from `hooks/use-para-framework.ts`). The state goes
  check, then connect or create, through steps 1, 2, (3,) 4, with error and reset states.
- **User settings hook** (`UserSettings`, from `hooks/use-user-settings.ts`). It holds the
  settings being edited and the browser's localStorage.
- **Persona store** (`SavePersona`, from `pages/api/save-persona.ts`). It is the route's
  in-memory map from user id to persona.
- **Onboarding chat** (`Onboarding`, from `components/OnboardingChatInterface.tsx`). Eight
  questions are asked in turn. List answers are split on commas, trimmed, and empty pieces are
  dropped.
- **Push routes** (`PushTasks` and `PushPara`, from `pages/api/push-to-notion.ts` and
  `pages/api/push-para-to-notion.ts`).

Shared vocabulary lives in `Base` (Option, Result, HTTP replies), `Text` (the JavaScript string
built-ins used: `trim`, `split`, `join`, `toLowerCase`, `includes`), `ParaTypes` (the records) and
`NotionApi` (property values, create requests, and the semantics of create calls awaited in
sequence that stop at the first rejection).

Remote services are oracles:
- A create call's answer is `reply(k)`, the answer to the k-th create call.
- A schema retrieval's answer is `schemaAt(k)`.
- Search and query answers are parameters.
- `JSON.parse` is an uninterpreted function `string -> Option<T>`.

An optional string that is absent or empty is written `""`, which matches JavaScript truthiness.

Four behaviours of the code are easy to expect otherwise; the model keeps what the code does:
- **No rediscovery.** The setup hook runs discovery before provisioning, so one would expect a
  second setup to connect to the framework the first one made. But discovery matches the titles
  `projects`/`areas`/…, and provisioning creates `PARA - Projects` and so on, so what provisioning
  creates is never rediscovered (`FrameworkCreate.ProvisionedNotRediscovered`). The provisioning
  route also performs no existence check of its own.
- **No continuing after a failure.** The writer's catch block carries the comment "Continue with
  other elements even if one fails" (lib/notion.ts:144), but the next statement throws. So the
  writer stops at the first failed create and reports it (`NotionWriter.CreateNotionParaElements`).
- **No reconciler.** No code in the repository merges, confirms or rejects extracted elements
  against a working set before they are written; the elements go to the writer as extracted.
- **Saving drops the database id.** `saveSettings` removes `notionDatabaseId`, so after any save
  `getUserNotionConfig` finds no configuration (`UserSettings.SavedSettingsHaveNoConfig`).

## Model

| member | source | states |
|---|---|---|
| `NotionWriter.GetUserNotionConfig` | lib/notion.ts:8-29 | a config is returned iff in the browser the user's stored settings parse and have a non-empty token and database id; it carries those two values |
| `NotionWriter.NameProperty` | lib/notion.ts:79-132 | `Name` is always present: exactly `title + " - " + description` when there is a description and no Description field, else exactly the title |
| `NotionWriter.TypeProperty` | lib/notion.ts:87-93 | Type is present iff the element has a type and the schema a Type field; a select of the upper-cased type for a select field, else rich text |
| `NotionWriter.DescriptionProperty` | lib/notion.ts:95-97 | Description is present iff both element and schema have it, as rich text |
| `NotionWriter.DueDateProperty` | lib/notion.ts:99-105 | Due Date is present iff both have it; a date start for a date field, else rich text |
| `NotionWriter.PriorityProperty` | lib/notion.ts:107-113 | Priority is present iff both have it; a select for a select field, else rich text, not upper-cased |
| `NotionWriter.TagsProperty` | lib/notion.ts:115-121 | Tags is present iff there are tags and the field; one multi-select option per tag in order for a multi_select field, else the tags joined with ", " |
| `NotionWriter.ContextProperty` | lib/notion.ts:123-125 | Context is present iff both have it, as rich text |
| `NotionWriter.PropertyKeys` | lib/notion.ts:78-125 | a record carries no property besides Name and the six optional ones |
| `NotionWriter.PropertyAt` | lib/notion.ts:86-125 | every optional property is present and valued exactly by its per-field rule, whatever the others do |
| `NotionWriter.BareSchemaGivesNameOnly` | lib/notion.ts:69-132 | when the schema cannot be retrieved, the record holds only `Name`, with the description folded in |
| `NotionWriter.TitleHeadsName` | lib/notion.ts:127-132 | the title is recoverable as the prefix of the written `Name` on every encoding path |
| `NotionWriter.TitledAreTheTitled` | lib/notion.ts:66-67 | the elements attempted are exactly those with a non-empty title |
| `NotionWriter.UntitledBatchSendsNothing` | lib/notion.ts:64-67 | a batch whose elements all lack a title sends no request and reports no page |
| `NotionWriter.CreateNotionParaElements` | lib/notion.ts:45-150 | with every create accepted, it returns one id per titled element in input order and sends one request each; at the first rejection it fails with a message naming that element's title, and no later element is attempted |
| `NotionApi.FirstRejected` | lib/notion.ts:134-146 | the position of the first rejected create: every earlier one was accepted |
| `NotionApi.CreatedIds` | lib/notion.ts:141 | the results are the ids of the accepted creates, in order |
| `NotionApi.SendAllOutcome` | pages/api/create-para-framework.ts:244-262 | awaited creates in sequence send a prefix of the plan; the run fails iff some create is rejected, and then the last request sent is the first one rejected |
| `AiNormalizer.CleanJsonResponse` | lib/ai.ts:8-27 | the result always starts with `{`, holds no code fence and has no surrounding whitespace; which object it is, for fenced objects and for prose, is stated by `FencedObjectUnwrapped` and `ProseSkeletonChoice` |
| `AiNormalizer.NoFenceLeft` | lib/ai.ts:11-12 | after the global "```" replacement no "```" remains anywhere |
| `AiNormalizer.CleanKeepsClean` | lib/ai.ts:10-26 | a reply that already is a fence-free object without surrounding whitespace is returned unchanged |
| `AiNormalizer.CleanKeepsBareObject` | lib/ai.ts:10-26 | a reply without backticks whose trim starts with `{` is returned trimmed |
| `AiNormalizer.CleanIdempotent` | lib/ai.ts:8-27 | cleaning a cleaned reply changes nothing |
| `AiNormalizer.ProseAboutProjects` | lib/ai.ts:17-21 | prose that mentions "project" in any letter case becomes the four-empty-lists PARA skeleton |
| `AiNormalizer.ProseAboutPara` | lib/ai.ts:17-21 | prose that mentions "para" in any letter case becomes the four-empty-lists PARA skeleton |
| `AiNormalizer.ProseSkeletonChoice` | lib/ai.ts:17-23 | for prose, the PARA skeleton is returned iff the lower-cased raw reply contains "para" or "project", and the tasks skeleton iff it contains neither |
| `AiNormalizer.SkeletonsDiffer` | lib/ai.ts:19-23 | the two skeletons are different texts |
| `AiNormalizer.FencedObjectUnwrapped` | lib/ai.ts:8-27 | an object wrapped as "```json", white space, the object, white space, "```" comes back as exactly the object |
| `AiNormalizer.ProseOtherwise` | lib/ai.ts:17-23 | prose that mentions neither "para" nor "project" becomes `{"tasks": []}` |
| `AiNormalizer.SkeletonsAreClean` | lib/ai.ts:19-23 | both skeletons are objects without fences |
| `AiNormalizer.SafeJsonParse` | lib/ai.ts:30-38 | never fails: the parse of the cleaned reply, or the fallback when it does not parse |
| `AiNormalizer.ExtractParaFromChat` | lib/ai.ts:136-141 | all four lists empty when the completion fails; a reply without content is read as `{}` |
| `FrameworkCheck.FirstTitled` | pages/api/check-para-framework.ts:80-110 | the first search result whose joined title, lower-cased, equals the name exactly; none when no result matches |
| `FrameworkCheck.CheckExistingParaFramework` | pages/api/check-para-framework.ts:57-178 | a framework is found iff the search succeeds and both a "projects" and an "areas" database are among the results; ids are present exactly then |
| `FrameworkCheck.OwnershipSampleIrrelevant` | pages/api/check-para-framework.ts:112-169 | the user-id sample of the Projects database never changes the answer |
| `FrameworkCheck.FoundIdsAreFirstMatches` | pages/api/check-para-framework.ts:79-169 | each reported id is that of the first result with the category's exact title, or "" when no result has it |
| `FrameworkCheck.NothingToFind` | pages/api/check-para-framework.ts:74-177 | an empty or a failed search reports no framework, not an error |
| `FrameworkCheck.HandleCheck` | pages/api/check-para-framework.ts:13-55 | 405 iff not POST; 500 iff the body does not parse; 400 iff the token or the user id is missing |
| `FrameworkCheck.RejectedBeforeSearch` | pages/api/check-para-framework.ts:13-36 | a rejected request's answer does not depend on the workspace, and a missing token is reported first |
| `FrameworkCheck.AnswerIsDiscovery` | pages/api/check-para-framework.ts:36-49 | a valid request is answered 200 with discovery's flag and ids |
| `FrameworkCreate.DatabaseOrder` | pages/api/create-para-framework.ts:111-212 | four databases, Projects, Areas, Resources, Archive in this order, all under the parent page |
| `FrameworkCreate.CommonFieldsEverywhere` | pages/api/create-para-framework.ts:76-108 | every database declares Name, Status, Priority, Due Date, Notes and UserId as the template does |
| `FrameworkCreate.DatabaseExtras` | pages/api/create-para-framework.ts:122-211 | each database has exactly the common properties plus its own extras, of the template's kinds |
| `FrameworkCreate.ProjectPages` | pages/api/create-para-framework.ts:243-263 | one Projects page per current project, in order, Not Started and Medium |
| `FrameworkCreate.WorkPages` | pages/api/create-para-framework.ts:266-281 | a Work area exactly when there is an occupation |
| `FrameworkCreate.AreaPages` | pages/api/create-para-framework.ts:284-297 | one Areas page per standard area, in order |
| `FrameworkCreate.ResourcePages` | pages/api/create-para-framework.ts:300-317 | one "Resources on X" page per interest, in order, with category Other |
| `FrameworkCreate.SeedCount` | pages/api/create-para-framework.ts:243-317 | the seeding plan has one page per current project, one more with an occupation, four standard areas and one page per interest |
| `FrameworkCreate.SeedPagesCarryUser` | pages/api/create-para-framework.ts:257-312 | every seeded page carries UserId = the user's id |
| `FrameworkCreate.SeedProjectsFirst` | pages/api/create-para-framework.ts:243-263 | the seeding starts with the project pages |
| `FrameworkCreate.SeedAreasNext` | pages/api/create-para-framework.ts:265-297 | then the Work page if any, then Health, Finances, Relationships, Personal Development |
| `FrameworkCreate.SeedResourcesLast` | pages/api/create-para-framework.ts:299-317 | the seeding ends with the interest pages |
| `FrameworkCreate.SendInOrder` | pages/api/create-para-framework.ts:244-262 | the awaited loop sends the plan in order and stops at the first rejection, as `SendAll` describes |
| `FrameworkCreate.PopulateInitialData` | pages/api/create-para-framework.ts:236-318 | the seeding sends the seeding plan in order and stops at the first rejection |
| `FrameworkCreate.SendSections` | pages/api/create-para-framework.ts:242-317 | the four seeding sections sent one after the other behave as the single concatenated plan |
| `FrameworkCreate.CreateParaFramework` | pages/api/create-para-framework.ts:52-234 | the outcome and the requests sent are those of `Provision`: parent page, databases, then seeding when there is a persona |
| `FrameworkCreate.ProvisionSuccess` | pages/api/create-para-framework.ts:60-229 | on success the parent is the first page found, the ids are exactly the four created databases', and the log is the databases followed by the whole seeding plan |
| `FrameworkCreate.ProvisionFailure` | pages/api/create-para-framework.ts:57-233 | a failure is the failed search, "No pages found" with nothing sent, or the rejection of the last request sent |
| `FrameworkCreate.DatabasesFirst` | pages/api/create-para-framework.ts:71-212 | the first requests sent are the database creations under the first page |
| `FrameworkCreate.PagesAfterDatabases` | pages/api/create-para-framework.ts:214-222 | everything sent after the four databases creates a page |
| `FrameworkCreate.ProvisionedNotRediscovered` | pages/api/create-para-framework.ts:116-120 | discovery run over exactly the four provisioned databases reports no framework |
| `FrameworkCreate.HandleCreate` | pages/api/create-para-framework.ts:13-50 | 405, 500 for an unparsable body, 400 for a missing token then user id, all sending nothing; otherwise provisioning with the stored persona, answered 200 with the ids or 500 with the error |
| `ParaTypes.SettingsKey` | hooks/use-user-settings.ts:58 | the key is `user_settings_` followed by the user id |
| `ParaTypes.SettingsKeyInjective` | hooks/use-user-settings.ts:58 | different users never share a settings key |
| `SetupProgress.ParaFrameworkSetup.constructor` | hooks/use-para-framework.ts:12-16 | the state starts as {false, 0, ''} |
| `SetupProgress.ParaFrameworkSetup.UpdateProgress` | hooks/use-para-framework.ts:19-21 | only the step and the status change |
| `SetupProgress.ParaFrameworkSetup.ResetProgress` | hooks/use-para-framework.ts:23-25 | the state returns to {false, 0, ''} |
| `SetupProgress.ParaFrameworkSetup.SetupParaFramework` | hooks/use-para-framework.ts:75-152 | without a token nothing changes and nothing is fetched; otherwise `isCreating` is set and the steps, status, routes fetched and callback value are those of `Setup` |
| `SetupProgress.StepsIncrease` | hooks/use-para-framework.ts:89-125 | the steps visited strictly increase: 1,2,4 or 1,2,3,4, or a prefix of these ended by an error |
| `SetupProgress.FoundIsConnected` | hooks/use-para-framework.ts:102-105 | an existing framework goes to step 4, hands the check's ids to `onSuccess` and never calls create |
| `SetupProgress.MissingIsCreated` | hooks/use-para-framework.ts:115-127 | otherwise steps 3 then 4, and `onSuccess` gets the create response's ids |
| `SetupProgress.ErrorMeansNoCallback` | hooks/use-para-framework.ts:138-140 | the error status is shown iff a route failed, and then `onSuccess` is not called |
| `SetupProgress.DiscoveredFrameworkIsConnected` | hooks/use-para-framework.ts:94-105 | when the discovery route finds Projects and Areas, setup connects to discovery's ids and fetches nothing else |
| `SetupProgress.SetupThenReset` | hooks/use-para-framework.ts:75-151 | a reset after any run restores the initial state; a token-less run records no step |
| `UserSettings.UserSettingsStore.constructor` | hooks/use-user-settings.ts:15-18 | the hook starts with empty settings, loading, not saving |
| `UserSettings.UserSettingsStore.LoadSettings` | hooks/use-user-settings.ts:21-37 | once loaded and signed in with a user, stored settings that parse replace the current ones and loading ends |
| `UserSettings.UserSettingsStore.UpdateSetting` | hooks/use-user-settings.ts:40-42 | only the named key changes |
| `UserSettings.UserSettingsStore.SaveSettings` | hooks/use-user-settings.ts:45-71 | throws iff not signed in, changing nothing; otherwise the stored value and new state are the old settings minus `notionDatabaseId`, and `isSaving` ends false |
| `UserSettings.UserSettingsStore.UpdateParaDatabaseIds` | hooks/use-user-settings.ts:74-95 | with a user, the four database ids are set, the rest is kept and the result is stored under the user's key; a no-op without a user |
| `UserSettings.UserSettingsStore.ResetSettings` | hooks/use-user-settings.ts:98-109 | the stored settings, when they parse, replace the current ones |
| `UserSettings.WithDatabaseIds` | hooks/use-user-settings.ts:82-88 | the four `*DatabaseId` fields take the ids and every other field is unchanged |
| `UserSettings.SavedSettingsHaveNoConfig` | hooks/use-user-settings.ts:52-58 | after a save, the writer's configuration lookup finds no configuration for that user |
| `UserSettings.SaveKeepsOtherUsers` | hooks/use-user-settings.ts:58 | a save leaves every other user's stored record as it was |
| `UserSettings.SaveEditReset` | hooks/use-user-settings.ts:45-109 | a reset after a save and an edit restores the saved settings |
| `SavePersona.PersonaStore.constructor` | pages/api/save-persona.ts:17 | the store starts empty |
| `SavePersona.PersonaStore.GetPersonaData` | pages/api/save-persona.ts:56-58 | the persona last saved for the user, or none |
| `SavePersona.PersonaStore.HandleSave` | pages/api/save-persona.ts:19-53 | 405 for non-POST; 400 for a missing persona before the user-id check; a successful save sets the user's entry and leaves all others unchanged |
| `SavePersona.SaveTwice` | pages/api/save-persona.ts:37 | a second save for the same user overwrites the first; other users keep theirs |
| `Onboarding.TrimmedNonEmpty` | components/OnboardingChatInterface.tsx:126-129 | no more items than pieces, and every item is non-empty |
| `Onboarding.ListItemsAreThePieces` | components/OnboardingChatInterface.tsx:125-130 | the items are exactly the non-empty trims of the comma-separated pieces, each trimmed and free of commas |
| `Onboarding.TrimmedNonEmptyMembers` | components/OnboardingChatInterface.tsx:128-129 | an item is a non-empty trim of a piece, and every non-empty trim is an item |
| `Onboarding.SingleItem` | components/OnboardingChatInterface.tsx:126-129 | an answer without a comma is one item, its trim, unless it is blank |
| `Onboarding.ProcessUpdatesField` | components/OnboardingChatInterface.tsx:120-140 | the answer is stored under its field, as list items for interests/currentProjects and raw otherwise; every other field is kept |
| `Onboarding.StepsFillDistinctFields` | components/OnboardingChatInterface.tsx:42-51 | eight questions fill eight distinct fields, and only the 4th and 5th are lists |
| `Onboarding.ConversationStarts` | components/OnboardingChatInterface.tsx:29-37 | the chat starts as a well-formed conversation holding only the greeting |
| `Onboarding.SubmitIgnoresBlank` | components/OnboardingChatInterface.tsx:67 | a blank input or a submit while loading changes nothing |
| `Onboarding.SubmitAnswers` | components/OnboardingChatInterface.tsx:65-118 | an answer appends the trimmed user message and exactly one assistant message, the completion text when the next step reaches the end or else that step's question, and advances the step by 1 |
| `Onboarding.SubmitPastEnd` | components/OnboardingChatInterface.tsx:75-117 | past the last question the step lookup throws and is caught: only the user message is added |
| `Onboarding.AnswerAdvances` | components/OnboardingChatInterface.tsx:65-118 | an answer keeps the transcript, persona and completion flag consistent with the step |
| `Onboarding.AnswerPastEnd` | components/OnboardingChatInterface.tsx:108-117 | an answer after the end keeps the conversation well formed |
| `Onboarding.SubmitKeepsConversation` | components/OnboardingChatInterface.tsx:65-118 | every submit keeps the conversation well formed |
| `Onboarding.CompleteConversation` | components/OnboardingChatInterface.tsx:84-97 | after the last answer every field is filled, completion is scheduled and the closing text follows |
| `Onboarding.OnboardingFillsLists` | components/OnboardingChatInterface.tsx:46-47 | a finished onboarding has filled interests and currentProjects |
| `Onboarding.OnboardingChat.constructor` | components/OnboardingChatInterface.tsx:29-54 | the chat starts with the greeting alone, step 0, no answers |
| `Onboarding.OnboardingChat.SetInput` | components/OnboardingChatInterface.tsx:61-63 | only the typed input changes |
| `Onboarding.OnboardingChat.HandleSubmit` | components/OnboardingChatInterface.tsx:65-118 | the new state is `Submit` of the old one, and the conversation stays well formed |
| `PushTasks.TaskPropertiesFields` | pages/api/push-to-notion.ts:26-45 | Name is always the title; Due Date, Priority and Category are rich text and appear exactly when present |
| `PushTasks.TaskPlanRequests` | pages/api/push-to-notion.ts:21-47 | one request per titled task and nothing else |
| `PushTasks.UntitledTasksWriteNothing` | pages/api/push-to-notion.ts:22 | tasks without titles produce no requests |
| `PushTasks.PushSucceedsExactly` | pages/api/push-to-notion.ts:20-52 | the push succeeds iff every planned create is accepted; otherwise it stops right after the first rejected one |
| `PushTasks.PushAll` | pages/api/push-to-notion.ts:21-47 | the loop sends the task plan in order and stops at the first rejection |
| `PushTasks.HandlePushTasks` | pages/api/push-to-notion.ts:9-54 | 405 for non-POST and 400 for a non-array or empty tasks value, with nothing sent; otherwise 200 when all creates succeed, 500 at the first failure |
| `PushPara.HandlePushPara` | pages/api/push-para-to-notion.ts:6-38 | after authentication, 405 for non-POST, then 400 for missing elements, then 400 for a missing config, all before any write; on success the count equals the number of pages created, on error 500 with the writer's message |

## Left out

- Notion and OpenAI calls (search, database retrieve/query/create, page create, chat completion) are oracles: their answers are parameters, their wire formats are not modelled, and the chat prompt text is not reproduced.
- `JSON.parse` and `JSON.stringify` are not interpreted: parsing is an abstract function, and a settings record stored in localStorage is kept as its parsed value.
- Logging, toasts, and the `setTimeout` delays before `resetProgress` and `onComplete` are not modelled. The reset is modelled as a separate call, and completion as a flag. So the stale `personaData` captured by the completion callback is not modelled.
- React state batching and render timing are not modelled: each handler runs to the end as one step.
- `String.prototype.toLowerCase`/`toUpperCase` are modelled on ASCII letters only. For the fixed words compared against ("projects", "para", "project", ...) this agrees with full Unicode case mapping.
- A thrown value that is not an `Error` yields "Unknown error" in the routes. The model always carries the remote failure's message.
- A `null` element in the writer's or the task route's array (`element?.title`) is modelled as an element with an empty title.
- The "Failed to save settings to localStorage" branch of `saveSettings` is not modelled: the value just written is always read back non-empty.
- The search options (query text, page size 50, sort by last edit) are not modelled. The search answer is a parameter in the order Notion returns it.
- `withAuth` (utils/withAuth.ts) is modelled only as the authentication guard inside `PushPara.HandlePushPara`. The rest of the authentication is not part of this model.
- Merging, confirming or rejecting extracted elements against a working set before writing them: the repository has no code for it, so there is nothing to model.
- UI components, voice transcription, chat streaming, middleware, `pages/api/submit.ts`, `pages/api/extract-tasks.ts` and the browser extension are not part of this model.
- `SetupProgress.ParaFrameworkSetup.SetupParaFramework`: does not model the thrown error's text, which only reaches a toast; the state keeps only the fixed error status.
