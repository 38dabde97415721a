# Jira-aware Slack bot — a Dafny model

This project models the message-handling core of a proof-of-concept Slack
bot. The bot answers questions about Jira issues. It is mentioned in a channel
thread (`app_mention`) or messaged directly. It then posts a "thinking"
placeholder and reads the thread. From there it takes one of two routes:

- it picks the registered Jira issue keys out of the messages, fetches those
  issues, and asks an OpenAI model with the issue data as context;
- or it routes the thread through a tool agent or an intent detector first.

Finally it deletes the placeholder and replies in the thread. The repository
holds three generations of this flow side by side, and each is modelled:

- the single-file bot (`src/slack.ts`): thread summary, tool agent
  (`src/agent.ts`, `src/toolRunner.ts`), project registry (`src/jira.ts`);
- the draft bot (`src/slack/index.ts`, `src/slack/utils`): role-tagged chat
  history, issue-key extraction and batch fetch (`src/features/jira/helpers.ts`),
  the `jira <KEY>` command;
- the service layer (`src/services/slack`): listeners, the staged
  `handleBotInteraction`, intent detection and execution
  (`src/features/jira/intent*.ts`, `functions.ts`), the AI helpers
  (`src/features/ai/helpers.ts`).

Each handler is a pure function. It takes the handler's inputs and the
answers of the outside world: Slack's `conversations.replies` and
`users.info`, the Jira client, and the model calls. It returns an `Outcome`:
the trace of Slack effects (post the placeholder, delete it, `say`) and
whether the handler threw. Text is `seq<char>`. JavaScript truthiness (`||`
on optional strings) is written out as `Common.Truthy` and `Common.OrElse`.
The three regular expressions the code relies on are written as scanners,
and each scanner is proved equivalent to a declarative statement of its
pattern:

- `<@([A-Z0-9]+)>` and `<@(U[A-Z0-9]+)>`, the mentions;
- `<key>-\d+(?:[^\w-]|$)` (case-insensitive, anywhere in the text), the issue keys;
- `/^jira\s+([A-Z]+-\d+)/i`, the jira command.

Modules follow the source files. `Common` holds sequences, trimming, splitting
and ASCII case. `SlackTypes`, `JiraTypes`, `Mentions`, `Threads` and `Ordering`
hold shared data and scanners. The remaining modules have one module per source
file or handler.

## Model

| member | source | states |
|---|---|---|
| Common.Filter | src/services/slack/utils/getConversationHistory.ts:42-45 | `Array.filter` keeps the elements the predicate accepts, each as often as it occurs, and nothing else, in their original order (a subsequence); everything when everything is accepted |
| Common.FilterIsDetermined | src/services/slack/utils/getConversationHistory.ts:42-45 | the filter's contract pins its result: any subsequence with the accepted elements at their full multiplicity and nothing else is the filter's result |
| Common.Dedup | src/slack/index.ts:128-132 | `Array.from(new Set(xs))` has no repeats, has exactly the members of `xs`, and is no longer than `xs` |
| Common.DedupOfDistinct | src/features/jira/helpers.ts:26-27 | a list without repeats passes through the `Set` round trip unchanged |
| Common.DedupKeepsFirstOccurrenceOrder | src/features/jira/helpers.ts:26-27 | a `Set` lists elements in insertion order: of two deduplicated elements, the earlier one first occurs earlier in the input |
| Common.DedupPrefix | src/features/jira/helpers.ts:26-27 | the `Set` keeps first occurrences in insertion order: appending elements only extends the deduplicated prefix |
| Common.FlatMap | src/slack/index.ts:129 | `flatMap` holds exactly the elements of the lists the callback gives for some element |
| Common.FlatMapEmpty | src/slack/index.ts:129 | the flattened list is empty exactly when every list the callback gives is |
| Common.DistinctImages | src/features/jira/helpers.ts:26-40 | mapping then deduplicating gives each image of the input exactly once, ordered by the first element that yields it, and nothing for an empty input |
| Common.Trim | src/services/slack/utils/getConversationHistory.ts:49 | `String.trim` yields an infix of the text with neither end a JavaScript whitespace character |
| Common.TrimSplits | src/slack/index.ts:183 | a text is exactly whitespace, then its trimmed form, then whitespace |
| Common.ToUpperAscii | src/slack/index.ts:225 | upper-casing keeps the length and changes only the ASCII lower-case letters, each to its capital |
| Common.SplitOnChar | src/slack/index.ts:225 | `split(' ')` yields at least one field and no field contains the separator |
| Common.SplitWithoutSeparator | src/slack/index.ts:225 | a text without the separator is a single field |
| Common.SplitAtFirstSeparator | src/slack/index.ts:225 | the fields of a text are the part before its first separator, then the fields of the rest |
| SlackTypes.ThreadMessages | src/services/slack/utils/getConversationHistory.ts:33-36 | the thread's messages are available exactly when the replies call succeeded with a non-empty `messages` list |
| SlackTypes.FirstBotUser | src/slack.ts:179 | `messages.find(m => m.bot_id)?.user`: the `user` of the first bot message (absent when that message names none), and absent when no message comes from a bot |
| SlackTypes.NameFromProfile | src/slack.ts:112-118 | a profile's name is `real_name`, else `name`, else the id, and the id when the profile lookup fails |
| SlackTypes.GetUserName | src/slack.ts:107-119 | a missing sender is "Unknown User"; a present one gets the profile's name, which is never empty |
| SlackTypes.ThreadOf | src/services/slack/handlers/onMessage.ts:20 | `'thread_ts' in message ? message.thread_ts : message.ts`: presence of the key decides, not its value |
| SlackTypes.DeletePlaceholder | src/services/slack/handlers/handleBotInteraction.ts:35-42 | the placeholder is deleted exactly when its timestamp is truthy |
| Threads.KeptInOrder | src/services/slack/utils/getConversationHistory.ts:40-45 | sort-then-filter keeps exactly the messages that have text and are not the placeholder, each as often as it occurs in the thread, in timestamp order |
| Threads.IdsOfMessages | src/services/slack/utils/getConversationHistory.ts:79-93 | the collected ids are exactly the senders and user mentions of the thread's messages |
| Threads.NameMap | src/slack.ts:167-209 | the id-to-name map has exactly the collected ids as keys, each mapped to the bot's name (`'@assistant'` in `src/slack.ts:198`) for the bot and the profile's name otherwise |
| Threads.IdsOfMessageAreMapped | src/slack.ts:181-193 | every sender and user mention of a thread message has an entry in the name map |
| Threads.NoEmptyIdCollected | src/slack.ts:182-191 | the truthiness guards keep the empty id out of the name map |
| Ordering.SortSortsAndPermutes | src/services/slack/utils/getConversationHistory.ts:41 | sorting by timestamp gives a sorted permutation of the messages |
| Ordering.SortIsStable | src/services/slack/utils/getConversationHistory.ts:41 | messages with equal timestamps keep their relative order, as `Array.sort` guarantees |
| Ordering.SortOfSortedIsIdentity | src/slack/utils/getConversationHistory.ts:43 | an already ordered thread is left as it is |
| Ordering.FilterKeepsSorted | src/services/slack/utils/getConversationHistory.ts:41-45 | filtering after sorting keeps the order |
| Mentions.MentionAtStartIsRegex | src/slack.ts:151 | the mention scanner accepts a prefix of length n exactly when `<@([A-Z0-9]+)>` (or the `U`-prefixed pattern) matches it |
| Mentions.MentionIdsAreIds | src/slack.ts:186-188 | every id a mention pattern captures is a non-empty run of `[A-Z0-9]`, and starts with `U` for the user pattern |
| Mentions.ReplaceDependsOnlyOnIds | src/slack.ts:151-155 | a global `replace` with a callback depends only on the callback's answers for the ids actually mentioned |
| Mentions.ReplaceWithSelfIsIdentity | src/slack/utils/getConversationHistory.ts:65-68 | replacing every mention by its own text gives back the original text |
| Mentions.UnchangedWhenIdsKept | src/slack/utils/getConversationHistory.ts:65-68 | a replacement that renders each mentioned id as its own mention leaves the text unchanged |
| Mentions.MentionIdsOfTrim | src/services/slack/utils/getConversationHistory.ts:49 | trimming a message does not change the mentions found in it |
| Mentions.UserMentionsAreFilteredMentions | src/slack.ts:186-188 | the user-mention pattern finds exactly the general pattern's matches whose id starts with `U`, in order |
| Mentions.UserIdMentionsSeenByBoth | src/slack.ts:186-188 | a `U`-id mention found by the general pattern is also collected by the user pattern |
| ServicesHistory.MentionRenderIsAtName | src/services/slack/utils/getConversationHistory.ts:57-65 | a mention renders as `@name` for a mapped non-empty name and `@Unknown` otherwise, the bot as `@assistant` |
| ServicesHistory.GetConversationHistory | src/services/slack/utils/getConversationHistory.ts:8-55 | no thread or no messages gives the empty history; otherwise one item per kept message, in timestamp order, naming the sender and formatting the trimmed text |
| ServicesHistory.ItemIsNamed | src/services/slack/utils/getConversationHistory.ts:46-50 | each item's sender is the mapped name (or "Unknown User"), its timestamp the message's `ts`, and its text has every mention replaced by the named form |
| ServicesHistory.MessageIsNamed | src/services/slack/utils/getConversationHistory.ts:49-65 | formatting a kept message through the map agrees with rendering each mention straight from the profile lookup |
| ServicesHistory.FormattedMentionsAreNamed | src/services/slack/utils/getConversationHistory.ts:57-65 | when the map covers every mentioned id, formatting agrees with naming each mention directly |
| RoleHistory.SenderIds | src/slack/utils/getConversationHistory.ts:86-90 | the collected ids are exactly the truthy senders of the thread |
| RoleHistory.SenderNameMap | src/slack/utils/getConversationHistory.ts:82-101 | the map has exactly the senders as keys, each mapped to its profile's name |
| RoleHistory.GetConversationHistory | src/slack/utils/getConversationHistory.ts:6-80 | no thread or no messages gives the empty chat; otherwise one chat message per kept message, in timestamp order, with the bot found in the sorted thread |
| RoleHistory.ChatOfSays | src/slack/utils/getConversationHistory.ts:54-72 | a message is the assistant's exactly when it comes from a bot; bot text is only trimmed, user text is quoted with the sender's name and has bot mentions rewritten |
| RoleHistory.OtherMentionsKept | src/slack/utils/getConversationHistory.ts:65-68 | a text that does not mention the bot is not rewritten |
| RoleHistory.BotMentionsBecomeAssistant | src/slack/utils/getConversationHistory.ts:65-68 | a mention becomes `@assistant` exactly when it names the bot |
| ThreadSummary.SummaryLines | src/slack.ts:145-158 | the lines exist exactly when every message's line does; then there is one per message, in order |
| ThreadSummary.GetSummarizedThreadMessages | src/slack.ts:121-165 | a failed call gives the error text, an empty thread the "no messages" text, otherwise the non-placeholder messages' lines joined by newlines, or the error text when one line throws |
| ThreadSummary.SummaryMentionsResolve | src/slack.ts:151-155 | a mention in the summary shows the user's name, and the bare id when that name is empty or the id has no entry in the map |
| ThreadSummary.SummaryNameOf | src/slack.ts:149 | a line's speaker is the bot's name for bot messages, the mapped name for a sender, and `undefined` without one |
| AiResponse.PrepareAIInput | src/features/ai/helpers.ts:11-20 | the model input is the system message, then the context message, then the user messages unchanged |
| AiResponse.ParseAIResponse | src/features/ai/helpers.ts:28-31 | converting `**` to `*` shortens the text by one per replacement, never touches other characters, and keeps a non-empty text non-empty |
| AiResponse.UnchangedIffNoDoubleStar | src/features/ai/helpers.ts:30 | the conversion leaves a text unchanged exactly when it contains no `**` |
| AiResponse.NoTripleLeavesNoDouble | src/features/ai/helpers.ts:30 | a text without `***` has no `**` after one conversion |
| AiResponse.NotIdempotent | src/features/ai/helpers.ts:30 | the conversion is not idempotent: `***` becomes `**`, then `*` |
| AiResponse.BoldBecomesSlackBold | src/features/ai/helpers.ts:30 | Markdown bold `**bold**` becomes Slack bold `*bold*` |
| ToolRunner.ClassifyError | src/toolRunner.ts:21-29 | status 404 gives the not-found text, 401 or 403 the unauthorised text, anything else the generic text with the error's message |
| ToolRunner.CallHelper | src/toolRunner.ts:17-30 | a synchronous client error is classified; a returned promise is passed on un-awaited, so its rejection escapes unclassified |
| ToolRunner.RunTool | src/toolRunner.ts:4-15 | unparsable arguments throw; the two known tools go to their helpers; any other name throws "Unknown tool" |
| ToolRunner.WordingsAreDistinct | src/toolRunner.ts:23-28 | the three error wordings never coincide, and not-found reads the same for both tools |
| ToolRunner.RejectionsAreNotClassified | src/toolRunner.ts:18-20 | a rejected issue fetch reaches the agent as a throw, not as a classified message |
| Agent.RunJiraToolAgent | src/agent.ts:16-81 | an uninitialised registry throws; otherwise the result is the model's response followed by one tool message per tool call, in call order, and the agent fails exactly when the model call does |
| Agent.ToolContentIsOutputOrError | src/agent.ts:49-73 | a tool message holds the tool's output, or "Error: " with the thrown message, or the unknown-error text |
| Agent.NoToolCallsGiveResponseOnly | src/agent.ts:40-42 | a response without tool calls is returned alone |
| Agent.UnknownToolAnswersInItsSlot | src/agent.ts:65-73 | an unknown tool name is answered in its own tool message with the "Unknown tool" error |
| ProjectRegistry.GetInstance | src/jira.ts:21-26 | the singleton is created once and returned unchanged afterwards |
| ProjectRegistry.GetInstanceIsStable | src/jira.ts:21-26 | a second `getInstance` returns the same manager and leaves the process as the first left it |
| ProjectRegistry.Initialize | src/jira.ts:28-40 | a successful listing replaces the keys and marks the manager initialised; a failure leaves it unchanged and reports the wrapped message |
| ProjectRegistry.GetProjectKeys | src/jira.ts:42-47 | the keys are returned exactly when the manager is initialised, and the fixed error is thrown otherwise |
| ProjectRegistry.RegistryHistory | src/jira.ts:28-47 | after any sequence of initialisations, the keys are those of the last successful listing, and none succeeded exactly when `getProjectKeys` throws |
| IssueKeys.MatchAtIsRegexMatch | src/features/jira/helpers.ts:10 | the key scanner accepts a position exactly when `<key>-\d+(?:[^\w-]|$)` matches there case-insensitively: the key, a hyphen, digits, then end of text or a character that is neither a word character nor a hyphen |
| IssueKeys.MatchesJiraKeyPattern | src/features/jira/helpers.ts:9-12 | a text matches a project key exactly when the pattern matches at some position |
| IssueKeys.IsJiraIssueKeyProvided | src/features/jira/helpers.ts:17-19 | a text names an issue exactly when it matches some registered key, and never when none are registered |
| IssueKeys.MatchesPlainKey | src/features/jira/__tests__/index.test.ts:5 | `PROJ-123` matches `PROJ` |
| IssueKeys.MatchesKeyInsideText | src/features/jira/__tests__/index.test.ts:6 | a key inside running text matches |
| IssueKeys.MatchesLowerCaseKey | src/features/jira/__tests__/index.test.ts:7 | matching ignores case |
| IssueKeys.MatchesKeyBeforePunctuation | src/features/jira/__tests__/index.test.ts:8 | a key followed by punctuation matches |
| IssueKeys.RejectsMissingHyphen | src/features/jira/__tests__/index.test.ts:12 | `PROJ123` does not match |
| IssueKeys.RejectsMissingDigits | src/features/jira/__tests__/index.test.ts:13 | `PROJ-` does not match |
| IssueKeys.RejectsLongerProject | src/features/jira/__tests__/index.test.ts:14 | `PROJX-123` does not match `PROJ` |
| IssueKeys.RejectsOtherProject | src/features/jira/__tests__/index.test.ts:15 | `OTHER-123` does not match `PROJ` |
| IssueKeys.SplitWords | src/features/jira/helpers.ts:25 | `split(/[\s,;]+/)` yields at least one word and no word contains a separator |
| IssueKeys.SingleTokenSplit | src/features/jira/helpers.ts:25 | a text without separators is one word |
| IssueKeys.SplitWordsAtSeparatorRun | src/features/jira/helpers.ts:25 | a word followed by a maximal run of whitespace, `,` or `;` is split off as the first word, and the rest is split on its own |
| IssueKeys.SplitWordsKeepsText | src/features/jira/helpers.ts:25 | the words joined back together are the text with its separators removed |
| IssueKeys.FirstMatchingKey | src/features/jira/helpers.ts:33-35 | a key is found exactly when the word names an issue, and the found key is registered and matches the word |
| IssueKeys.FirstMatchingKeyIsFind | src/features/jira/helpers.ts:33-35 | the found key is the first registered key that matches, as `Array.find` returns |
| IssueKeys.FirstDigitRun | src/features/jira/helpers.ts:37 | `/\d+/` finds nothing exactly when the word has no digit, and otherwise the maximal digit run starting at the first digit |
| IssueKeys.NormalizeAlwaysRewrites | src/features/jira/helpers.ts:32-39 | as written, every matching word becomes the found key, a hyphen and the word's first digit run |
| IssueKeys.MatchingWords | src/features/jira/helpers.ts:28-31 | the kept words are exactly those that name a registered issue, each as often as it occurs, in text order |
| IssueKeys.ExtractIssueKeysAsWritten | src/features/jira/helpers.ts:24-43 | as written, the result has no repeats and holds exactly the rewritten forms of the matching words |
| IssueKeys.ExtractAsWrittenShape | src/features/jira/helpers.ts:32-39 | every key extracted as written is a registered key, a hyphen and the first digit run of some word of the text |
| IssueKeys.NormalizeToken | src/features/jira/helpers.ts:32-39 | a word that names no issue is kept; one that does becomes the registered key, a hyphen and the digits that follow the key in the match |
| IssueKeys.ExtractIssueKeys | src/features/jira/helpers.ts:24-43 | the keys have no repeats and are exactly the normalised forms of the matching words |
| IssueKeys.ExtractKeepsTokenOrder | src/features/jira/helpers.ts:26-40 | both extractions hold exactly the keys the matching words yield, and list them in the order of the first word that yields each |
| IssueKeys.ExtractionsEmptyTogether | src/features/jira/helpers.ts:24-43 | both extractions find no key exactly when no word of the text names a registered issue |
| IssueKeys.ExtractCanonicalizesCase | src/features/jira/helpers.ts:32-39 | a key written in any case with any digits is extracted as the registered key with those digits |
| IssueKeys.NormalizeAsWrittenOfKeyToken | src/features/jira/helpers.ts:32-39 | as written, a word made of a typed key, a hyphen and a number is rewritten to the registered key and the typed key's first digits, whenever the typed key holds digits |
| IssueKeys.ExtractAsWrittenTakesKeyDigits | src/features/jira/helpers.ts:37-39 | as written, for a registered key that holds a digit, the key typed in any case with a number is extracted with the key's own first digits in place of the number, so it differs from the corrected result whenever those digits are not the number |
| IssueKeys.ExtractAsWrittenLosesNumber | src/features/jira/helpers.ts:37-39 | as written, `AB1-23` with project key `AB1` is extracted as `AB1-1` |
| IssueKeys.ExtractKeepsNumber | src/features/jira/helpers.ts:37-39 | the corrected extraction gives `AB1-23` for the same input |
| IssueBatch.LinkKey | src/features/jira/helpers.ts:75 | a link's key is the outward issue's key when truthy, else the inward one's, else none |
| IssueBatch.LastComment | src/features/jira/helpers.ts:84-86 | `slice(-1)` keeps at most the last comment |
| IssueBatch.ShapeIssue | src/features/jira/helpers.ts:55-92 | shaping throws exactly when status, priority or type is missing; otherwise each field comes from the issue, with "No description", "Unassigned" and "Unknown" for missing texts, one entry per subtask and link, and only the last comment |
| IssueBatch.FetchRecord | src/features/jira/helpers.ts:52-101 | each record keeps its key; it holds data exactly when the fetch and the shaping succeed, that data is the shaped issue, and the not-found error otherwise |
| IssueBatch.FetchIssuesForLLM | src/features/jira/helpers.ts:48-122 | no keys gives the "no issues" sentinel; otherwise one record per key, in key order, each failing independently, and each found record holding its key's shaped issue |
| IssueBatch.RecordsAreIndependent | src/features/jira/helpers.ts:51-114 | each key's record depends only on that key, so one failing issue neither drops nor changes the others, and a found record is that key's shaped issue |
| JiraFunctions.GetStatus | src/features/jira/functions.ts:21-32 | the status is returned exactly when the issue is found with a status and category, and a prefixed error otherwise |
| JiraFunctions.GetDetails | src/features/jira/functions.ts:34-51 | the details are returned exactly when the issue is found with status, priority and reporter, each field copied from the issue |
| JiraFunctions.StatusAgreesWithDetails | src/features/jira/functions.ts:21-51 | both projections report the same status, and details without status means the category is missing |
| JiraFunctions.DetailsAgreeWithBatchRecord | src/features/jira/functions.ts:34-51 | the details projection agrees with the batch record's status, priority and assignee for the same issue |
| JiraFunctions.IsValidJiraFunction | src/features/jira/functions.ts:58-60 | `name in jiraFunctions` accepts both projections |
| JiraFunctions.CallInherited | src/features/jira/intentHandler.ts:31 | calling an inherited member of `jiraFunctions` with the id throws exactly for `__proto__` and the two `__define…__` methods; the property tests answer whether the id is a projection's name, `toString` gives the object tag |
| JiraFunctions.ValidityOfNames | src/features/jira/functions.ts:58-60 | every mapped intent is a valid function, "unknown" is not, and an inherited name such as `toString` passes the `in` test |
| IntentCatalog.CatalogShape | src/features/jira/intents.ts:3-44 | the catalog has `getStatus`, `getDetails` and `unknown`, with distinct names; the first two take one required `ticketId` and `unknown` takes none |
| IntentCatalog.ToFunctionParameter | src/features/jira/intentMapping.ts:14-17 | a parameter keeps its name, description and required flag, and gets type `string` |
| IntentCatalog.FromEntries | src/features/jira/intentMapping.ts:6-20 | `Object.fromEntries` has exactly the intents' names as keys, each mapped from an intent of that name |
| IntentCatalog.BuildMapping | src/features/jira/intentMapping.ts:6-20 | the mapping covers exactly the named intents other than `unknown`, each under its own function name with its description and converted parameters |
| IntentCatalog.MappingOfCatalog | src/features/jira/intentMapping.ts:6-20 | the mapping of the catalog is exactly the two projections with a `ticketId` parameter |
| IntentCatalog.MappingKeys | src/features/jira/intentMapping.ts:7-8 | the mapping's keys are exactly `getStatus` and `getDetails` |
| IntentDetection.DetectIntents | src/features/jira/intentDetection.ts:14-58 | a failed call, an unparsable reply or a missing `intents` array gives no intents; otherwise the known intents above 0.7 survive, each as often as in the reply, in reply order |
| IntentDetection.ThresholdIsStrict | src/features/jira/intentDetection.ts:51 | confidence exactly 0.7 is dropped and 0.71 kept |
| IntentDetection.UnknownAndForeignDropped | src/features/jira/intentDetection.ts:50-52 | `unknown` and names outside the catalog never survive |
| IntentDetection.GenerateAsWritten | src/features/ai/index.ts:49-55 | as written, a completed call always yields one of the fixed texts, never the model's content |
| IntentDetection.Generate | src/features/ai/index.ts:49-55 | the intended reply is the model's content when truthy, else the fixed fallback for the format, and the failure text when the call throws |
| IntentDetection.DetectionNeverFiresAsWritten | src/features/jira/intentDetection.ts:33-45 | with the code as written, intent detection finds nothing whatever the model says |
| IntentDetection.DetectionFiresWhenIntended | src/features/jira/intentDetection.ts:33-53 | with the intended generator, a confident `getStatus` from the model is detected |
| IntentHandler.TicketIdOf | src/features/jira/intentHandler.ts:22 | the ticket id is the first parameter's value, if any |
| IntentHandler.ExecuteIntent | src/features/jira/intentHandler.ts:19-43 | a missing id fails with its fixed error; otherwise the call succeeds exactly for a projection that succeeds or an inherited member that does not throw, its return value becomes the data, and any failure is the prefixed error |
| IntentHandler.InheritedNamesReachPrototype | src/features/jira/intentHandler.ts:31 | an intent named `toString` succeeds with the object tag, one named `__proto__` fails |
| IntentHandler.HandleIntents | src/features/jira/intentHandler.ts:12-67 | one result per intent, in order, each the result of executing that intent; the reply is the composed text, or the apology when composing throws |
| IntentHandler.ResultsAreIndependent | src/features/jira/intentHandler.ts:18-44 | an intent's result depends only on the intent itself, not on its neighbours |
| IntentHandler.DetectedIntentsReachProjections | src/features/jira/intentHandler.ts:21-42 | every detected intent names a valid function, and with an id it fails only when its projection does |
| IntentHandler.ReplyAsWritten | src/features/jira/intentHandler.ts:47-62 | with the generator as written, the composed reply is always a fixed text |
| BotInteraction.RunStages | src/services/slack/handlers/handleBotInteraction.ts:50-67 | the pipeline succeeds exactly when each stage does on the previous one's output, and its answer is the handler stage's |
| BotInteraction.HandleBotInteraction | src/services/slack/handlers/handleBotInteraction.ts:20-83 | the placeholder is posted first; a failed post throws; without a thread nothing more happens; otherwise the placeholder is deleted and the answer, or the apology when a stage throws, is said in the thread |
| BotInteraction.LaterStagesNotConsulted | src/services/slack/handlers/handleBotInteraction.ts:50-67 | once the history stage throws, the later stages cannot affect the result |
| BotInteraction.RepliesOnceInThread | src/services/slack/handlers/handleBotInteraction.ts:71-81 | with a thread and a posted placeholder there is exactly one reply, last, in that thread, after the deletion |
| BotInteraction.RepositoryRepliesAreFixedTexts | src/services/slack/handlers/handleBotInteraction.ts:50-67 | with the repository's stages nothing throws and the reply is always one of the generator's fixed texts |
| BotInteraction.IntendedRepliesCarryModelText | src/services/slack/handlers/handleBotInteraction.ts:50-71 | with the intended generator, the composing model's text is the reply |
| BotInteraction.UpdateMessageBuffer | src/services/slack/handlers/handleBotInteraction.ts:88-93 | the new entry is appended, the oldest dropped once the buffer is full, and the size never exceeds ten |
| BotInteraction.ReplayKeepsLastEntries | src/services/slack/handlers/handleBotInteraction.ts:85-93 | after any sequence of updates the buffer holds the last ten entries, in order |
| ServiceEvents.OnMessage | src/services/slack/handlers/onMessage.ts:7-32 | only direct messages with a `user` key reach the handler, and then the effects are exactly the handler's, in `thread_ts` if that key is present and the message's `ts` otherwise |
| ServiceEvents.OnAppMention | src/services/slack/handlers/onAppMention.ts:5-17 | the handler gets the raw `thread_ts`, so a mention outside a thread leaves only the placeholder |
| ServiceEvents.DirectMessageRepliesOnce | src/services/slack/handlers/onMessage.ts:14-28 | a direct message outside a thread is answered exactly once, in the thread it starts |
| ServiceEvents.DirectMessageAnsweredInItsThread | src/services/slack/handlers/onMessage.ts:14-28 | a direct message with a non-empty thread is answered exactly once, last, in that thread, and a failed placeholder post leaves only the post |
| ServiceEvents.EmptySenderSplitsTheListeners | src/slack/index.ts:201 | an empty `user` is ignored by the draft listener but handled by the service listener |
| AppMention.Answer | src/slack.ts:43-69 | the final model call sees the system prompt and the agent's messages, and a failing agent ends the `try` |
| AppMention.ReplyText | src/slack.ts:32-77 | a throw gives the failure text; otherwise the content (or the failure text when it is missing or empty) with `**` converted |
| AppMention.MentionAnswer | src/slack.ts:43-69 | the thread's summary goes to the agent; a failing agent ends the `try`; otherwise the final model call sees the system prompt naming the mentioning user, then the agent's messages |
| AppMention.PromptNamesUser | src/slack.ts:53-65 | the joined system prompt carries the tracker host in the link example and the mentioning user's name right before the closing sentences |
| AppMention.OnAppMention | src/slack.ts:16-81 | the placeholder goes to `thread_ts \|\| ts`; a failed post throws; otherwise the placeholder is deleted and the reply is said under the mention |
| AppMention.HandleAppMention | src/slack.ts:16-77 | the placeholder goes to `thread_ts \|\| ts`; a failed post throws; otherwise the last effect is the reply to the mention's answer, under the mention |
| AppMention.UninitialisedRegistryRepliesFailure | src/slack.ts:43-80 | with an uninitialised registry and a posted placeholder, the model is never asked and the one reply, last, is the failure text under the mention |
| AppMention.RepliesOnceUnderTheMention | src/slack.ts:71-77 | exactly one reply, last, under the mention's own timestamp, and never empty |
| AppMention.PlaceholderAndReplyThreadsDiffer | src/slack.ts:17-75 | inside a thread, the placeholder and the reply go to different timestamps |
| AppMention.MissingContentLooksLikeFailure | src/slack.ts:74 | a missing or empty answer reads exactly like a failure |
| AppMention.UninitialisedRegistryFails | src/slack.ts:43-80 | an uninitialised registry makes the reply the failure text |
| DraftBot.KeysOfHistory | src/slack/index.ts:128-130 | the flattened keys are exactly those `extractJiraIssueKeys`, as written, finds in some message of the history |
| DraftBot.HistoryIssueKeys | src/slack/index.ts:128-132 | the unique keys have no repeats and are exactly those the as-written extraction finds in some message |
| DraftBot.HandleInteraction | src/slack/index.ts:83-170 | the placeholder is posted first; a failed post throws; with `DISABLE_AI` the placeholder is deleted and the disabled text said |
| DraftBot.NoKeysIffNoMessageNamesOne | src/slack/index.ts:128-132 | the history yields no key exactly when the as-written extraction finds none in any message |
| DraftBot.NoIssuesReplyIffNoKeys | src/slack/index.ts:150-159 | unless AI is disabled, the "no issues" reply is the last effect exactly when the as-written extraction finds no key in any message |
| DraftBot.NoIssuesReplyIffNoMatchingWord | src/slack/index.ts:128-159 | unless AI is disabled, the "no issues" reply is the last effect exactly when no word of any message names a registered issue, and the corrected extraction decides the same |
| DraftBot.StripWithoutMentions | src/slack/index.ts:183 | a text without mentions is only trimmed |
| DraftBot.StripIsSinglePass | src/slack/index.ts:183 | one pass of mention removal can leave a mention behind: `<@<@A1>B>` becomes `<@B>` |
| DraftBot.OnAppMention | src/slack/index.ts:172-196 | without a sender it apologises; otherwise the handler runs in `thread_ts \|\| ts` |
| DraftBot.OnDirectMessage | src/slack/index.ts:198-216 | only direct messages with a non-empty sender reach the handler, in `thread_ts` if present and `ts` otherwise |
| JiraCommand.MatchCommandIsRegex | src/slack/index.ts:218 | the scanner matches exactly when `/^jira\s+([A-Z]+-\d+)/i` does, and returns the greedy match: the same white space and letters as any match, and at least as many digits |
| JiraCommand.ErrorMessage | src/slack/index.ts:248-253 | a "does not exist" error reads as not found, another error shows its message, a non-error the unknown text |
| JiraCommand.IssueCard | src/slack/index.ts:236-241 | the card is built exactly when status, type and priority exist, and starts with the bold key and summary |
| JiraCommand.CommandReply | src/slack/index.ts:224-258 | one top-level reply: the card for a found issue, the apology with the error message otherwise |
| JiraCommand.KeyAsWritten | src/slack/index.ts:225 | `split(' ')[1]` of the whole match is undefined exactly when the match has no space |
| JiraCommand.OnJiraCommandAsWritten | src/slack/index.ts:218-259 | as written, a matching message with a sender gets one reply, keyed by the second split field and apologising with the match's second character |
| JiraCommand.ApologyShowsLetterI | src/slack/index.ts:256 | the match's second character is always `i` or `I` |
| JiraCommand.AsWrittenApologyNamesI | src/slack/index.ts:255-257 | as written, the apology for `jira ABC-1` names `i` |
| JiraCommand.DoubleSpaceLooksUpEmptyKey | src/slack/index.ts:225 | as written, `jira  ABC-1` looks up the empty key |
| JiraCommand.TabMatchHasNoKey | src/slack/index.ts:218-225 | as written, `jira<TAB>ABC-1` matches but reading its key throws |
| JiraCommand.OnJiraCommand | src/slack/index.ts:218-259 | the corrected listener looks up and names the captured key, upper-cased |
| JiraCommand.LookedUpKeyIsIssueKey | src/slack/index.ts:218-225 | the corrected key is always upper-case letters, a hyphen and digits |
| JiraCommand.AgreesWhenOneSpaceEndsTheGap | src/slack/index.ts:225 | when a single space ends the gap after `jira`, both versions look up the same key and send the same card |

## Left out

- The "hey intern" greeting listener in `src/slack/index.ts:62-81` is not modelled. It sends a fixed greeting and has no logic to verify.
- `joinAllPublicSlackChannels`, `src/app`, `src/config`, `src/index.ts` and the logger are not modelled. They are start-up and I/O code.
- Every outside call is a function parameter: Slack (`conversations.replies`, `users.info`, `chat.postMessage`, `chat.delete`, `say`), the Jira client (including `getJiraIssue` in `src/jira.ts:55-66`), and every model call (`getAIResponse`, `runLLM`, the `generateAIResponse` completion, `getThreadSummaryForIntents`, `getSummarizedContext`). Their failures are `Err` values.
- `getAIResponse` in `src/openai/index.ts` catches its own errors, so with the repository's client the draft handler's throwing model branch does not arise. The model keeps that branch because the call is a parameter.
- `parseFloat` on timestamps becomes an integer rank parameter. `NaN` and floating-point order are not modelled.
- ISO rendering of timestamps (`new Date(...).toISOString()`) is a parameter.
- `JSON.parse` and `JSON.stringify` are parameters or abstract values. The tool arguments and the intent reply come back already parsed.
- `Promise.all` is modelled as its result in input order. Concurrency and interleaving are not modelled.
- The deletion of the placeholder and the reply run concurrently in `src/slack.ts`. They are listed deletion first. Failures of `say` and `chat.delete` are not modelled.
- V8's exact `TypeError` wording is modelled as a fixed text naming the property read. `null` and `undefined` are both `None`.
- In the draft bot, a `jira ...` direct message reaches both the command listener and the direct-message listener. The two are modelled separately, not interleaved.
- `toUpperCase` is modelled on ASCII letters only.
- Prompt texts are kept as constants where replies depend on them. Prompts that only reach the model are not spelled out.
- `onAppMention` in the service layer does not await the handler. The model records the effects of one run and ignores when they happen.
- The unused `text` and `channelId` arguments are dropped.
- The message buffer in `handleBotInteraction.ts:85-93` is never read by the handler. Only its update rule is modelled.
- The draft bot imports `extractJiraIssueKeys` and the batch fetch from `'../jira'`, which resolves to `src/jira.ts`; that file exports `jira`, `JiraProjectManager` and `getJiraIssue`, but neither of those two functions. The model uses the versions in `src/features/jira/helpers.ts`, as they are written: the draft bot's keys come from `IssueKeys.ExtractIssueKeysAsWritten`, so a key holding a digit loses its number there as in the first finding.
- `THINKING_TEXT` and `THINKING_TEXT_RAW` (`src/constants.ts:28-29`) are opaque constants. The placeholder filter compares against them.
- Defensive copies (`[...messages]`) are implicit, because sequences are values.
- Logging (`console.error`, `logger`) is not modelled.
- The names `Object.prototype` contributes to `name in jiraFunctions` are its twelve standard properties (Annex B's `__proto__` and accessor helpers included). What an inherited member returns is a tag (`JiraFunctions.InheritedValue`), not its serialised form.
- IssueKeys.MatchesJiraKeyPattern: project keys are taken to be Jira keys, compared literally. `helpers.ts:10` builds the pattern from the unescaped key, so a key holding a regular-expression metacharacter would match differently; keys come from the tracker's `project.key` (`src/features/jira/index.ts:20`), which holds none.
- IssueKeys.NormalizeAlwaysRewrites: project keys are taken to be non-empty, as the tracker's are. With an empty registered key the source's `if (!matchedProject)` (`helpers.ts:36`) keeps the word, while `IssueKeys.NormalizeTokenAsWritten` rewrites it.
- IntentDetection.DetectIntents: the reply's intents are typed records. A `null` element, which makes the filter throw and so yields no intents, and a string `confidence`, which `>` coerces to a number, are not modelled.
- DraftBot.HandleInteraction: its own contract states only the first effect, the failed post and the `DISABLE_AI` reply. The "no issues" path is stated by `DraftBot.NoIssuesReplyIffNoKeys`. The path after the model call is stated by `DraftBot.ModelAnswerOrThrow`, which Dafny proves from the definition alone.
- ServiceEvents.OnAppMention: states that the last effect is a reply in the thread, not its text. The text is given by `BotInteraction.HandleBotInteraction`.

## Findings

| source | as written | input that shows it | evidently intended | confidence | as-written member | corrected member |
|---|---|---|---|---|---|---|
| src/features/jira/helpers.ts:37-39 | the issue number is the first digit run anywhere in the word | project key `AB1`, text `AB1-23`: extracted as `AB1-1` (`IssueKeys.ExtractAsWrittenLosesNumber`; corrected: `IssueKeys.ExtractKeepsNumber`) | the digits after the matched key and hyphen: `AB1-23` | not executed | IssueKeys.ExtractAsWrittenTakesKeyDigits | IssueKeys.ExtractCanonicalizesCase |
| src/features/ai/index.ts:49-51 | `content \|\| isJson ? '{}' : '…'` parses as `(content \|\| isJson) ? '{}' : '…'`, so the model's content is never returned | any completion: JSON format gives `{}`, text format gives a fixed text, so no intent is ever detected | `content \|\| (isJson ? '{}' : '…')` | not executed | IntentDetection.DetectionNeverFiresAsWritten | IntentDetection.DetectionFiresWhenIntended |
| src/slack/index.ts:256 | the apology interpolates `match[1]` of the string `match`, that is its second character | `jira ABC-1` with a failing lookup apologises for `i` | the captured key `ABC-1` | not executed | JiraCommand.AsWrittenApologyNamesI | JiraCommand.OnJiraCommand |
| src/slack/index.ts:225 | the key is `split(' ')[1]` of the whole match, although `\s+` allows any whitespace gap | `jira  ABC-1` looks up the empty key; `jira<TAB>ABC-1` throws reading `toUpperCase` | the captured group, upper-cased | not executed | JiraCommand.DoubleSpaceLooksUpEmptyKey | JiraCommand.OnJiraCommand |

The first finding's as-written extraction is what the draft bot uses (`DraftBot.MessageKeys`); the corrected `IssueKeys.ExtractIssueKeys` is the reference it is compared with, and `DraftBot.NoIssuesReplyIffNoMatchingWord` shows that the "no issues" decision is the same under both.

In the intent pipeline of the second finding, `BotInteraction.RepositoryStages` takes the generator as a parameter. `BotInteraction.RepositoryRepliesAreFixedTexts` shows what the written expression does to a whole interaction. `BotInteraction.IntendedRepliesCarryModelText` shows the intended one.
