# WhatsApp assistant bot: verified model of its tool-calling core

This project models, in Dafny, the parts of the WhatsApp assistant bot that
make decisions. The rest of the bot is HTTP, OAuth and SDK glue, which the
model leaves out. The modelled parts are:

- **The tool-calling turn** (`src/aiHandler.js`). `availableFunctions` is the table of tool handlers.
  - The `delete_google_drive_file` confirmation guard is modelled exactly.
  - So are the argument positions each handler passes, including the rotated arguments of `create_linear_issue`.
  - `processMessage` is modelled with its capped `while` loop, its inner `for` loop over each batch of function calls, its unknown-function guard, its error envelope, and its per-user history truncated to 40 entries. `clearHistory` is modelled too.
  - The turn is imperative Dafny: an `Assistant` class owns the `conversationHistory` map, and a `ChatSession` class holds the chat. Each method is proved against a functional specification of the turn (`TurnSpec`, `RunLoop`, `RunBatch`).
  - The Gemini chat is a script: the k-th `sendMessage` of a turn receives `script(k)`, either the model's reply or the error that call threw.
  - The Drive and Linear client functions are an oracle. It maps the client call a handler makes to what the awaited call returned or threw.
- **The Linear integration** (`src/linear.js`, `src/linear/teams.js`, `whatsapp-bot-app/src/linear/issues.js`, `test.js`).
  - `isLikelyUuid` is written as a predicate over character positions.
  - The resolvers `resolveTeamId`, `resolveProjectId`, `resolveAssigneeId` and `resolveIssueId` are functions of the list that the GraphQL query returned.
  - The listing operations, `getIssue`, `updateIssueStatus` and both versions of `createIssue` are modelled, each with its refusals. The `input` object is built one conditional field at a time.
  - Both GraphQL clients are modelled: `test.js` joins the error messages, `src/linear.js` throws only the first one.
  - Each GraphQL request is an oracle value. "Fails before any request" is stated as "the result is the same whatever that request would answer".
- **The string helpers.**
  - `src/utils.js`: `extractPhoneNumber`, `formatPhoneNumber` and `formatMessageForStorage`.
  - `src/googleDrive.js`: the `readDoc` text-extraction loop (an imperative method over the document body), the `writeToDoc` insertion request, the `createFolder` metadata, the Drive query strings and the document URLs.

JavaScript semantics are written out explicitly:
- truthiness: an absent string and `""` are both `""`, and a resolved id tested by `if (!resolved)` counts as not found when it is `""` (`TruthyId`); `listProjects` of `src/linear.js` compares with `===` instead, so there `""` stays an id;
- ASCII `toLowerCase`;
- the `\s`, `\d`, `\w` and `\b` regex classes, as character predicates;
- `trim`, `includes`, `join`, `split(/\s+/).filter(Boolean)`, `replace(/\s+/g, " ")`;
- `Array.prototype.find` and `filter`;
- the rendering of a count inside a template string.

Modules: `Base` (Option, Result and the `{success, …}` envelope), `JsStrings`, `JsArrays`, `Uuid`, `Utils`,
`GoogleDrive`, `LinearResolve`, `LinearOps`, `AiHandler`.

Where the model departs from the code:
- **Inherited names in the tool table.** `availableFunctions[name]` also finds the members every object inherits from `Object.prototype`, such as `toString`. The turn uses the own-property lookup instead, and the as-written lookup is kept beside it (see Findings).
- **Stop-word-only project names.** `createIssue` with lookups (`CreateIssueWithLookups`) resolves project names as written, so a name that cleans to nothing picks the first project. A guarded variant, `CreateIssueWithLookupsChecked`, refuses such a name and otherwise agrees with the code (see Findings).
- **Handler errors.** A handler that throws is not caught inside the loop: the whole turn ends in the `catch` and returns the error envelope. The model does the same.

## Model

| member | source | states |
|---|---|---|
| JsStrings.TrimIsSlice | whatsapp-bot-app/src/linear/issues.js:117 | `trim` returns a contiguous slice of its input, and only whitespace was cut from either end; the result neither starts nor ends with whitespace |
| JsStrings.ToLowerIdempotent | whatsapp-bot-app/src/linear/issues.js:117 | lower-casing twice is lower-casing once |
| JsStrings.IncludesIff | whatsapp-bot-app/src/linear/issues.js:146-148 | `h.includes(n)` holds exactly when `n` occurs in `h` at some index |
| JsStrings.JoinIncludesEach | src/aiHandler.js:486-488 | every joined part occurs in the result of `join` |
| JsStrings.NatToStringRoundTrip | src/linear/teams.js:105 | the decimal rendering of a count reads back as that count |
| JsStrings.NatToStringInjective | src/linear/teams.js:105 | different counts render differently |
| JsStrings.CollapseSpaces | whatsapp-bot-app/src/linear/issues.js:122 | the result is empty exactly when the input is; every whitespace character left is a single space and no two are adjacent; the first character is whitespace exactly when the input's is |
| JsStrings.CollapseKeepsTokens | whatsapp-bot-app/src/linear/issues.js:122 | collapsing whitespace keeps the words: the input and the result split into the same tokens, in the same order |
| JsStrings.TokensOccur | whatsapp-bot-app/src/linear/issues.js:152 | every token of `split(/\s+/).filter(Boolean)` occurs in the split text |
| JsStrings.TokensAreWords | whatsapp-bot-app/src/linear/issues.js:152 | every token is non-empty and contains no whitespace |
| JsArrays.Find | src/linear/teams.js:33-35 | `find` yields nothing exactly when no element satisfies the predicate; otherwise it yields an element that does, with none before it |
| JsArrays.FindFirst | src/linear/teams.js:33-37 | the first satisfying element is the one `find` returns |
| JsArrays.Filter | src/linear.js:122-124 | `filter` keeps exactly the elements that satisfy the predicate |
| JsArrays.FilterAppend | src/linear.js:122-124 | filtering keeps the relative order: filtering a concatenation concatenates the filtered parts |
| JsArrays.FilterAllOrNone | src/linear.js:122-124 | filtering keeps everything when all elements pass, and nothing when none do |
| Uuid.UuidFromGroups | src/linear.js:33-37 | five groups joined by '-' form a likely UUID exactly when they have lengths 8, 4, 4, 4 and 12 and are all hex digits |
| Uuid.UuidSplits | src/linear.js:33-37 | every likely UUID is five all-hex groups of lengths 8-4-4-4-12 joined by '-' |
| Uuid.UuidIgnoresCase | src/linear/teams.js:3-7 | the test is case-insensitive: lower-casing the input does not change the verdict |
| Uuid.UuidIsTruthy | src/linear.js:56-57 | a likely UUID is non-empty and unchanged by `trim`, so it passes the falsy check and is returned as given |
| Utils.ExtractPhoneNumberSpec | src/utils.js:24-29 | a number is extracted exactly when the chat id starts with one or more digits and then '@'; it is non-empty, all digits, and followed by '@' it is a prefix of the chat id |
| Utils.ExtractPhoneNumberOfChatId | src/utils.js:25-28 | the number of `<digits>@c.us` or `<digits>@g.us` is those digits |
| Utils.Digits | src/utils.js:36 | removing the non-digits leaves only digits, and never lengthens the text |
| Utils.DigitsAppend | src/utils.js:36 | removing non-digits keeps the digits in order: it distributes over concatenation |
| Utils.DigitsOfDigits | src/utils.js:36 | a text of digits is unchanged by the removal |
| Utils.FormatPhoneNumber | src/utils.js:34-44 | the output is always '+' followed only by digits |
| Utils.FormatPhoneNumberDigits | src/utils.js:36-43 | the digits of the output are "1" followed by the input's digits when there are exactly ten of them, and the input's digits otherwise |
| Utils.FormatPhoneNumberIdempotent | src/utils.js:34-44 | formatting a formatted number changes nothing |
| Utils.FormatMessageRoundTrip | src/utils.js:6-19 | every field is stored unchanged and can be read back, `author` is null exactly when it was falsy, and the time is the seconds times 1000 |
| GoogleDrive.ExtractText | src/googleDrive.js:247-258 | the loop over the body computes the body's text: the non-empty `textRun.content` of each paragraph element, in document order |
| GoogleDrive.AppendRuns | src/googleDrive.js:252-256 | the inner loop appends the text runs of one paragraph, in order, to the text so far |
| GoogleDrive.BodyTextAppend | src/googleDrive.js:250-258 | the text of two consecutive runs of elements is the first run's text followed by the second's |
| GoogleDrive.BodyTextIsRuns | src/googleDrive.js:250-258 | the body's text is the concatenation of the list of its paragraph runs, in order |
| GoogleDrive.NonParagraphsAddNothing | src/googleDrive.js:251 | an element that is not a paragraph contributes nothing, wherever it stands |
| GoogleDrive.ReadDoc | src/googleDrive.js:240-282 | success exactly when the fetch succeeded; the content is the trimmed text of the runs and the URL leads back to the document id; a failure keeps the thrown message |
| GoogleDrive.DocUrlRoundTrip | src/googleDrive.js:268 | the document id can be read back from its URL |
| GoogleDrive.DocUrlInjective | src/googleDrive.js:223 | different documents have different URLs (the same builder serves `createDoc`, `readDoc` and `writeToDoc`) |
| GoogleDrive.SearchFilesQueryRoundTrip | src/googleDrive.js:71 | the query text sits verbatim between the two single quotes, can be read back, and the query filters on "trashed=false" |
| GoogleDrive.SearchDocsQueryIsFilesQuery | src/googleDrive.js:387 | the docs search is the Docs mime-type clause followed by the file search for the same text, so its text reads back the same way |
| GoogleDrive.ListDocsQueryShape | src/googleDrive.js:414 | the docs listing is the Docs mime-type clause with "trashed=false" |
| GoogleDrive.WriteToDocRequest | src/googleDrive.js:285-316 | an update is sent exactly when the body is non-empty. It is one `insertText` of the text plus "\n", at index 1 for "start" and otherwise at the last element's `endIndex - 1`. An empty body fails |
| GoogleDrive.WriteToDocUrl | src/googleDrive.js:327 | a successful write returns the URL of the written document |
| GoogleDrive.NewFolderMetadata | src/googleDrive.js:97-104 | the metadata always has the name and the folder mime type, and has `parents = [parentFolderId]` exactly when the parent is truthy |
| GoogleDrive.BuildFolderMetadata | src/googleDrive.js:97-104 | building the object step by step yields that metadata |
| LinearResolve.TeamPassthrough | src/linear/teams.js:25-27 | falsy input resolves to null; a likely UUID resolves to itself whatever the team list |
| LinearResolve.KeyTierWins | src/linear/teams.js:29-37 | the first team whose lower-cased key equals the trimmed, lower-cased needle wins |
| LinearResolve.NameTierWins | src/linear/teams.js:41-44 | with no key match anywhere, the first team whose name equals the needle wins |
| LinearResolve.PartialTierWins | src/linear/teams.js:46-52 | with no exact match anywhere, the first team whose name or key contains the needle wins |
| LinearResolve.ExactIsPartial | src/linear/teams.js:46-50 | an exact key or name match is also a partial match |
| LinearResolve.TeamNotFoundIff | src/linear/teams.js:33-52 | a looked-up team is not found exactly when no team matches even partially |
| LinearResolve.ResolvedTeamIsKnown | src/linear.js:55-78 | a resolved team id is the UUID input itself or the id of a fetched team |
| LinearResolve.StripWord | whatsapp-bot-app/src/linear/issues.js:121 | a whole word is replaced by one space exactly when it is a stop word, and otherwise kept |
| LinearResolve.StripAppend | whatsapp-bot-app/src/linear/issues.js:121 | stop-word removal distributes over a concatenation at a `\b` boundary |
| LinearResolve.ProjectNeedleExample | whatsapp-bot-app/src/linear/issues.js:117-123 | "the ATLAS project" cleans to "atlas", the example the code's own comment gives |
| LinearResolve.StopWordsOnlyNeedle | whatsapp-bot-app/src/linear/issues.js:117-123 | "the project" needs a lookup and cleans to the empty needle |
| LinearResolve.ProjectPassthrough | whatsapp-bot-app/src/linear/issues.js:113-115 | falsy input resolves to null; a likely UUID resolves to itself whatever the project list |
| LinearResolve.ProjectExactWins | whatsapp-bot-app/src/linear/issues.js:141-143 | the first project whose lower-cased name equals the needle wins |
| LinearResolve.ProjectContainsWins | whatsapp-bot-app/src/linear/issues.js:145-149 | with no exact name anywhere, the first project whose name contains the needle wins |
| LinearResolve.ProjectTokensWin | whatsapp-bot-app/src/linear/issues.js:151-157 | with no name containing the needle, the first project whose name contains every token wins |
| LinearResolve.BlankNeedleFindsNothing | whatsapp-bot-app/src/linear/issues.js:151-159 | without tokens the token tier matches nothing, so a needle that no name contains finds no project |
| LinearResolve.BlankNeedlePicksFirst | whatsapp-bot-app/src/linear/issues.js:146-149 | as written, when every project has a name, a needle that cleans to "" is contained in every name, so the first project is returned |
| LinearResolve.ProjectByNeedleMatches | whatsapp-bot-app/src/linear/issues.js:141-159 | a project found by name contains the needle or every one of its tokens |
| LinearResolve.CheckedProjectMatchesNeedle | whatsapp-bot-app/src/linear/issues.js:117-159 | with the blank-needle guard, a looked-up project has a non-empty needle and its name contains the needle or every token |
| LinearResolve.CheckedAgreesOnNonBlank | whatsapp-bot-app/src/linear/issues.js:113-159 | the guarded resolver agrees with the code on every input that does not clean to "" |
| LinearResolve.ResolvedProjectIsKnown | whatsapp-bot-app/src/linear/issues.js:113-159 | a resolved project id is the UUID input itself or the id of a fetched project |
| LinearResolve.AssigneePassthrough | test.js:52-56 | falsy input resolves to null; a likely UUID resolves to itself whatever the user list |
| LinearResolve.AssigneeExactTiers | test.js:58-86 | email beats display name, which beats name: a user whose email matches, with no earlier user matching on any field, is chosen; a display-name match wins when no user's email matches; a name match wins when no email or display name matches |
| LinearResolve.UserExactTiers | whatsapp-bot-app/src/linear/issues.js:183-196 | the same tier order for the cleaned needle of the issues.js resolver |
| LinearResolve.AssigneePartialWins | test.js:88-103 | with no exact match anywhere, the first user matched partially wins |
| LinearResolve.UserPartialWins | whatsapp-bot-app/src/linear/issues.js:198-213 | the same for the issues.js resolver |
| LinearResolve.EmptyFieldsNeverMatch | test.js:90-93 | a user whose fields are all empty never matches partially, since empty fields are filtered out |
| LinearResolve.PartialUserMatchWitness | test.js:93-100 | a non-empty field that contains the needle, is contained in it, or contains a token makes the user a partial match |
| LinearResolve.ResolvedAssigneeIsKnown | test.js:52-104 | a resolved assignee id is the UUID input itself or the id of a fetched user |
| LinearResolve.UserByNeedleIsKnown | whatsapp-bot-app/src/linear/issues.js:182-213 | a user found by needle is one of the fetched users |
| LinearResolve.ResolveIssueId | whatsapp-bot-app/src/linear/issues.js:102-110 | a likely UUID is returned unchanged; otherwise an id is returned exactly when the search returned hits, and it is the first hit's id |
| LinearOps.CountMessageRoundTrip | src/linear/teams.js:105 | the count in a `Found <n> …` message reads back as `n` |
| LinearOps.Messages | test.js:28 | the error messages, one per error, in the original order |
| LinearOps.MissingKeyPostsNothing | test.js:13-14 | without `LINEAR_API_KEY` the request throws "LINEAR_API_KEY is not set" and nothing is posted, whatever the server would answer |
| LinearOps.ErrorsAreJoined | test.js:27-29 | a reply with errors throws a message that contains every error message, and a single error's message is thrown as it is |
| LinearOps.ErrorOrderKept | test.js:28 | joining with "; " keeps the order of the errors: two batches join as the first, "; ", then the second |
| LinearOps.NoErrorsReturnsData | test.js:27-32 | a reply without errors returns its data |
| LinearOps.FirstErrorAgrees | src/linear.js:6-31 | the `src/linear.js` client posts exactly when the `test.js` one does and succeeds on the same replies with the same data; its error message is contained in the joined one, and the two are equal unless the reply holds two or more errors |
| LinearOps.ResolveTeamFetchesOnlyWhenNeeded | src/linear/teams.js:25-30 | falsy and UUID input never fetch teams; otherwise a failed fetch is reported and a successful one decides by `resolveTeamId` |
| LinearOps.ListTeams | src/linear/teams.js:55-72 | success exactly when the fetch succeeded, with every team and their count in the message; otherwise the thrown message |
| LinearOps.ListProjectsContents | src/linear.js:100-131 | with no team, every project is listed; with a team, exactly the projects on the resolved team, in order; the message counts the list |
| LinearOps.ListProjectsKeepsOrder | src/linear.js:121-125 | the team filter keeps the relative order of the projects |
| LinearOps.ListProjectsUnknownTeam | src/linear.js:121-131 | an unresolved team lists no project and still reports success with "Found 0 projects" |
| LinearOps.TeamProjectsUnknownTeam | src/linear/teams.js:76-85 | a given team that is unresolved, or resolved to the id `""`, fails with `projects: []` and "Team not found…", whatever the project queries would answer |
| LinearOps.TeamProjectsAll | src/linear/teams.js:88-107 | no team lists every project with success, and the message counts them, without the team query |
| LinearOps.TeamProjectsOfResolvedTeam | src/linear/teams.js:109-136 | a resolved team lists that team's projects, or [] when the team or its projects are missing |
| LinearOps.TrimOneTrailingSpace | src/linear/teams.js:135 | the trailing space a missing team name leaves is trimmed away |
| LinearOps.IssueStatesGuard | src/linear/teams.js:150-156 | an unresolved team, or one resolved to the id `""`, fails with "Team not found…", whatever the states query would answer |
| LinearOps.IssueStatesCounted | src/linear/teams.js:158-182 | the states are the resolved team's, or [] when missing, and the message counts exactly them |
| LinearOps.SearchIssues | whatsapp-bot-app/src/linear/issues.js:4-41 | success exactly when the search succeeded, with the hits and their count; otherwise the thrown message and the fixed failure text |
| LinearOps.ResolveIssueCases | src/linear.js:285-293 | a UUID is not searched for; other input resolves to the first hit of a one-result search, or to nothing when the search fails or is empty |
| LinearOps.GetIssueBranches | src/linear.js:226-274 | a UUID is fetched by id and never searched, other input is searched and never fetched by id. By id: a failed query gives "Failed to get Linear issue" with its message, a missing issue gives "No issue found for that identifier", a found one is returned with "Found issue <identifier>". By search: a failed or empty search gives "No issue found for that identifier", otherwise the first hit is returned with "Found issue <identifier>" |
| LinearOps.UpdateIssueStatusReply | src/linear.js:385-396 | once the update is sent for a resolved issue: a thrown request fails with its message and "Failed to update Linear issue status"; a reply without an issue fails with the `TypeError` of reading `state` of null; otherwise `success` is the reply's and the message is "Issue updated to <state name>" |
| LinearOps.UpdateIssueStatusGuard | src/linear.js:355-363 | an unresolved issue, or a hit whose id is `""`, fails with "No issue found for that identifier" and sends no update; otherwise the update carries the resolved id (the UUID itself for UUID input) |
| LinearOps.NewIssueInput | src/linear.js:313-318 | `title` and `teamId` are always set. `description`, `projectId`, `stateId` and `assigneeId` are present exactly when truthy, and then as given. `labelIds` is present exactly when it is a non-empty array |
| LinearOps.BuildIssueInput | src/linear.js:313-318 | the field-by-field construction yields that input |
| LinearOps.CreateIssueGuard | src/linear.js:295-318 | an unresolved or falsy team, or one resolved to the id `""`, fails with "Team not found…" and sends no mutation; a team resolved to a truthy id sends the built input with that id |
| LinearOps.SendCreateReply | src/linear.js:340-351 | once the input is sent: a thrown request fails with its message and "Failed to create Linear issue"; a reply without an issue fails with the `TypeError` of reading `identifier` of null; otherwise `success` is the reply's and the message is "Issue created: <identifier>" |
| LinearOps.CreateWithLookupsRefusals | whatsapp-bot-app/src/linear/issues.js:226-256 | as written, the refusals come in order: team, then a given but unknown project, then a given but unknown assignee, a lookup resolved to the id `""` refusing like one that found nothing. None of them sends a mutation, and a mutation is sent only for a team resolved to a truthy id |
| LinearOps.CreateWithLookupsInput | whatsapp-bot-app/src/linear/issues.js:259-264 | whenever no lookup refuses, the mutation carries the resolved team id, and the resolved project and assignee ids only when they are truthy; an absent project or assignee leaves its field out, and a UUID project or assignee is sent as given |
| LinearOps.UuidResolvesToItself | whatsapp-bot-app/src/linear/issues.js:113-115 | a UUID project or assignee resolves to itself without a fetch |
| LinearOps.LookupsReachCreate | whatsapp-bot-app/src/linear/issues.js:237-266 | with the team resolved and no project or assignee refusal, the mutation sent is the input built from the resolved ids, an absent project or assignee resolving to nothing |
| LinearOps.BlankProjectSentToFirst | whatsapp-bot-app/src/linear/issues.js:237-264 | as written, a project name that cleans to nothing, with a resolved team, no assignee refusal and a non-empty list of named projects, sends the mutation with the first project's id, or refuses with "Project not found…" when that id is `""` |
| LinearOps.CheckedRefusesBlankProject | whatsapp-bot-app/src/linear/issues.js:237-245 | with the blank-needle guard, a resolved team and a project name that cleans to nothing end in "Project not found…" and send no mutation |
| LinearOps.CheckedCreateAgrees | whatsapp-bot-app/src/linear/issues.js:226-266 | the guarded `createIssue` does exactly what the code does for every project argument that does not clean to nothing |
| AiHandler.ToolNamesDistinct | src/aiHandler.js:16-91 | the registered names are pairwise distinct, and looking up each one finds its own tool |
| AiHandler.ToolNameNotInherited | src/aiHandler.js:482 | no registered name is one of the names every object inherits from `Object.prototype` |
| AiHandler.ToolNameInjective | src/aiHandler.js:16-91 | no two tools share a name |
| AiHandler.LookupIff | src/aiHandler.js:482-483 | the own-property lookup finds a tool exactly when the name is registered, and the tool found has that name |
| AiHandler.LookupOfToolName | src/aiHandler.js:482 | looking up a tool's name finds that tool |
| AiHandler.InheritedNameBypassesGuard | src/aiHandler.js:482-483 | as written, every inherited name (such as "toString", "__defineGetter__" or "propertyIsEnumerable") is not registered, yet the guard does not fire for it |
| AiHandler.OwnLookupGuard | src/aiHandler.js:481-489 | with the own-property lookup, the guard fires exactly for unregistered names, and it agrees with the code for every name that is not inherited |
| AiHandler.DeleteGuard | src/aiHandler.js:34-43 | delete answers without a client call exactly when `confirm` is falsy, with `success: false` and the fixed confirmation text; otherwise it deletes `args.fileId` |
| AiHandler.DeleteOnlyWhenConfirmed | src/aiHandler.js:16-91 | only the delete handler answers without a client call, and a file is deleted only by a confirmed delete |
| AiHandler.HandlerDefaults | src/aiHandler.js:50-74 | `location` is never sent undefined: a given location is passed as is, and a missing one becomes "end". A missing `first` becomes 10, and the project listing's `teamId` is never undefined (null when missing) |
| AiHandler.RotatedCreateIssueArgs | src/aiHandler.js:78-87 | `create_linear_issue` passes `args.teamId` as the title and `args.title` as the description. Without a description the team is null, and `createIssue` then refuses with "Team not found…" |
| AiHandler.UnknownFunctionMessage | src/aiHandler.js:484-489 | the unknown-function reply fails, starts with "Unknown function: <name>", and lists every registered name |
| AiHandler.CallsAreCallParts | src/aiHandler.js:471 | the calls of a reply are exactly its function-call parts |
| AiHandler.Last40 | src/aiHandler.js:515-517 | at most 40 entries are kept, they are the last ones in the original order, and a history of at most 40 is kept whole |
| AiHandler.SendAppends | src/aiHandler.js:496-505 | a send appends the message and the model's reply to the history, and consumes one scripted reply |
| AiHandler.BatchInOrder | src/aiHandler.js:471-506 | a completed batch sends one message per call: the k-th function turn answers the k-th call. `response` ends as the reply to the last call, and the client calls are the handlers', in batch order |
| AiHandler.UnknownNeverInvoked | src/aiHandler.js:481-489 | an unregistered name never reaches a handler or a client: it is answered by the guard |
| AiHandler.MissingArgsAreEmpty | src/aiHandler.js:475 | a call without `args` is dispatched exactly like one with `{}` |
| AiHandler.RegisteredCallDispatch | src/aiHandler.js:490-493 | a registered call hands its whole `args` object to its own handler |
| AiHandler.LoopBound | src/aiHandler.js:463-470 | the counter never passes 6. It ends at 5 or less exactly when no calls are pending, and at 6 exactly when calls are pending and the cap stopped the loop |
| AiHandler.NoCallsNoLoop | src/aiHandler.js:467-470 | a first reply without calls never enters the loop |
| AiHandler.BatchCompletes | src/aiHandler.js:473-506 | when no handler throws and every reply arrives (with calls), a batch completes after one send per call, and its response is the last reply |
| AiHandler.AlwaysCallingHitsCap | src/aiHandler.js:463-470 | a model that always asks for calls is stopped by the cap after five batches, with the counter at 6 |
| AiHandler.CapStopsEndlessCalls | src/aiHandler.js:460-470 | a turn whose model always asks for calls still completes, with at least six sends and the cap triggered |
| AiHandler.DispatchAnswers | src/aiHandler.js:481-493 | when no client call throws, every call is answered |
| AiHandler.HistoryAfterTurn | src/aiHandler.js:430-536 | the turn touches only its user's key. A completed turn stores the last min(n, 40) entries of the chat history, in order; a failed one leaves the history as initialized |
| AiHandler.CompletedLogExtendsStored | src/aiHandler.js:456-460 | the chat history of a completed turn extends the stored one, starting with the user's message, and holds two entries per send |
| AiHandler.LoopLog | src/aiHandler.js:467-507 | the loop only appends to the history, two entries per send |
| AiHandler.AbortedReply | src/aiHandler.js:528-536 | the reply fails exactly when the turn threw, and then it is "Sorry, I encountered an error: " followed by the thrown message |
| AiHandler.LoopStopsAtCap | src/aiHandler.js:467-470 | at the cap with calls pending, the loop stops and the post-increment leaves the counter at 6 |
| AiHandler.StoreThenTruncate | src/aiHandler.js:513-517 | storing the history and then its last 40 entries stores the last 40 entries |
| AiHandler.ChatSession.constructor | src/aiHandler.js:456-458 | a chat starts from the stored history, with no message sent |
| AiHandler.ChatSession.SendMessage | src/aiHandler.js:496-505 | one send consumes the next scripted reply; when the reply arrives the message and the reply are appended to the history, and when the call throws the history is unchanged |
| AiHandler.DispatchCall | src/aiHandler.js:479-493 | the guard or the handler answers a call exactly as the dispatch specification does |
| AiHandler.AnswerCalls | src/aiHandler.js:473-506 | the `for` loop over a batch leaves the chat as the batch specification does, or ends with its error |
| AiHandler.CallTools | src/aiHandler.js:467-507 | the `while` loop leaves the chat as the loop specification does, and the last response is the loop's |
| AiHandler.RunTurn | src/aiHandler.js:456-507 | the chat of one turn ends as the turn specification does, or ends with the error it threw |
| AiHandler.Assistant.constructor | src/aiHandler.js:425 | the history map starts empty and the tool table is the registered one |
| AiHandler.Assistant.ProcessMessage | src/aiHandler.js:430-537 | the reply and the new history map are those of the turn specification, run from the user's stored history |
| AiHandler.Assistant.ClearHistory | src/aiHandler.js:542-545 | exactly the user's key is removed, and the reply is success with "Conversation history cleared" |
| AiHandler.ClearKeepsOthers | src/aiHandler.js:542-545 | after the removal the user has no history, and every other user's history is unchanged |

## Left out

- The Gemini SDK, the googleapis clients and the axios transport are not modelled. The chat is a script of replies, the Drive, Docs and Linear calls are oracles, and a thrown error is an `Err` value.
- The system prompt, the model name and the function declarations are not modelled. They only configure the model and do not change what the code does with its replies.
- The Drive operations without decisions are modelled only as the client calls the handlers make: `listFiles`, `deleteFile`, `getFileMetadata`, `shareFile`, `createDoc` (apart from its URL, which is `DocUrl`), `replaceTextInDoc` and `listDocs`.
- LinearOps.LinearRequestFirstError: the operations of `src/linear.js` take each request's outcome as an oracle, so they are not tied to one client; `FirstErrorAgrees` relates the two clients' messages.
- The ISO rendering of the timestamp in `formatMessageForStorage` is not modelled: the record keeps the millisecond value handed to `new Date`.
- `main` and `listUsers` in `test.js` are not modelled: they are a command-line driver and a bare fetch of the user list, whose result `resolveAssigneeId` takes as input.
- `sendMessageToNumber`, `getAllChats`, `getMessagesByPhoneNumber` and `getContactInfo` in `src/utils.js` are not modelled: each wraps one WhatsApp client call in a try/catch.
- Logging (`console.*`) and the "safety triggered" warning are not modelled, since they have no effect on results.
- Two turns of the same user running at once are not modelled: each `processMessage` is atomic. Interleaving them would race on `conversationHistory`.
- Unicode case folding is not modelled: `toLowerCase` is ASCII only, and other letters are kept.
- Tool arguments nested inside objects are not modelled (`Value` has no object case). The handlers only read top-level fields.
- `response.text()` throwing is not modelled: a completed turn's reply is the concatenated text of the final response.
- AiHandler.InheritedNameBypassesGuard: calling an inherited member with the arguments is not modelled. The lemma shows that the guard lets such a name through; it does not model what the call then does.
- AiHandler.HistoryAfterTurn: the chat is assumed to keep its own copy of the history given to `startChat`. If it aliased `conversationHistory[userId]`, a failed turn could leave the stored history changed.
- AiHandler.AlwaysCallingHitsCap: states a lower bound on the number of sends (at least one per batch), not the exact count, since batches may hold several calls.
- LinearResolve.ProjectNeedleExample: the worked examples take their literals as parameters, with the input written as a concatenation of its words.

## Findings

| source | as written | input that shows it | evidently intended | confidence | as-written member | corrected member |
|---|---|---|---|---|---|---|
| src/aiHandler.js:482-483 | `availableFunctions[functionName]` also finds the members every object inherits, so `if (!fn)` does not fire for them | a function call named "toString" (or "valueOf", "hasOwnProperty") | report "Unknown function: …" for every name that is not a registered tool | not executed | AiHandler.InheritedNameBypassesGuard | AiHandler.OwnLookupGuard |
| whatsapp-bot-app/src/linear/issues.js:117-149 | a name made only of stop words cleans to the empty needle, and `"".includes` is true for every name, so the contains tier picks the first project | project name "the project" with any non-empty list of projects whose names are non-empty | a needle that cleans to nothing matches no project ("Project not found…") | not executed | LinearResolve.BlankNeedlePicksFirst | LinearResolve.CheckedProjectMatchesNeedle |
