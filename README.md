# A verified model of the aiorchestrator request pipeline

This project models, in Dafny, the core of an Azure Functions service that answers user
questions with retrieval-augmented generation. The model has five parts:

- **The HTTP endpoints** of `FunctionAIOrchestrator` (module `Orchestrator`).
  - The bearer-token guard they share, and the shared secret the constructor resolves.
  - The `Run` endpoint: it checks the prompt, assigns a conversation id, and turns the
    pipeline's JSON answer into a `ProcessResponse`.
  - `GetToken`, `UploadFile` and `GetAllUploadStatus`.
- **The pipeline** `Process.RunProcessAsync` (modules `Process` and `ProcessText`). In order:
  - read four settings;
  - reformulate the query with a chat completion;
  - embed the original query;
  - search;
  - read the chat-history size as a 16-bit integer;
  - load the history;
  - fill the final prompt template with `{0}`, `{1}` and `{2}`;
  - ask for the final completion and parse it as JSON;
  - create or extend the conversation record.
- **The search service** `CognitiveSearchService.SearchAsync` (module `CognitiveSearch`):
  - the argument guard and the search options;
  - the per-document field checks and the cast of `content`;
  - the `\r`-joined `Title:Content` result, or the `no source available.` sentinel.
- **The Cosmos DB store** `CosmosDbService` (modules `CosmosStore` and `Ordering`):
  - create with stamping;
  - lookup of the first record for a (SessionId, PersonId) pair, with the chats cut to
    the newest `chatCount`;
  - append-and-upsert;
  - the last fifty upload statuses, with their timestamps shifted by five hours and
    sorted by state timestamp.
- **`Utilities.NormalizeFileName`** (module `Utilities`):
  - the path split into directory, name and extension;
  - lower-casing and the seven accent replacements;
  - whitespace runs replaced by `-`;
  - symbols removed;
  - the parts recombined.

The external services are parameters:

- **Chat completion, embedding, the search SDK and the JSON parser:** functions held by
  a `Gateways` value.
- **Backend faults of the store:** an `Option<CosmosFault>` for each read or write.
- **The clock and fresh identifiers:** passed in.

Each operation is written twice:

- a specification function that says what a run returns, which calls it makes in
  order, and which records it leaves;
- a method that performs the operation step by step against the store class
  (`CosmosStore.ConversationStore`) or the endpoint class
  (`Orchestrator.FunctionAIOrchestrator`), proved equal to that function.

The lemmas state what the source promises about those functions.

## Model

| member | source | states |
|---|---|---|
| CosmosStore.Raise | Integration/Services/CosmosDbService.cs:125-136 | A rethrown Cosmos fault keeps its status and its message. |
| CosmosStore.MatchingEmpty | Integration/Services/CosmosDbService.cs:92-114 | The query returns nothing exactly when no record has the requested SessionId and PersonId. |
| CosmosStore.MatchingFirst | Integration/Services/CosmosDbService.cs:92-114 | The first result of the query is the first matching record in retrieval order. |
| CosmosStore.MatchingMember | Integration/Services/CosmosDbService.cs:92-104 | Every result of the query is a stored record with both keys equal to the requested ones. |
| CosmosStore.NewestFirst | Integration/Services/CosmosDbService.cs:117-118 | Ordering the chats by date, newest first, is a permutation of them. |
| CosmosStore.Window | Integration/Services/CosmosDbService.cs:115-121 | A history no longer than the requested count comes back untouched. |
| CosmosStore.WindowKeepsNewest | Integration/Services/CosmosDbService.cs:115-121 | A longer history is cut to exactly the count (none for a negative count). The kept chats are newest first, drawn from the stored ones, and no dropped chat is newer than a kept one. |
| CosmosStore.WindowExample | TestProject1/CosmosDbServiceTests.cs:135-179 | Three chats ten minutes apart, cut to two, give the newest two with "Mensaje 3" first. |
| CosmosStore.LookupNull | Integration/Services/CosmosDbService.cs:99-123 | GetConversationAsync returns null exactly on a NotFound fault, or with no fault and no matching record. |
| CosmosStore.LookupRethrows | Integration/Services/CosmosDbService.cs:125-136 | Any fault other than NotFound reaches the caller with its status and message. |
| CosmosStore.LookupFirstMatch | Integration/Services/CosmosDbService.cs:114-123 | The first matching record is returned with only its chats windowed. |
| CosmosStore.LookupFirstExample | TestProject1/CosmosDbServiceTests.cs:342-386 | With two records for one key, the first one's chat comes back. |
| CosmosStore.ItemIndex | Integration/Services/CosmosDbService.cs:46 | Finds the item with an id in a partition, or reports that there is none. |
| CosmosStore.CreateStamps | Integration/Services/CosmosDbService.cs:40-47 | Create succeeds exactly when there is no fault and the new id is free in the partition. It then appends the record with a non-empty fresh id and both dates set to now, keeps keys, tags and chats, keeps every earlier record, and keeps ids unique. |
| CosmosStore.AppendNotFound | Integration/Services/CosmosDbService.cs:49-53 | Appending to a key with no record fails with "Conversation not found.". |
| CosmosStore.AppendExtendsFirstMatch | Integration/Services/CosmosDbService.cs:49-59 | Appending rewrites only the first matching record: its full stored history followed by the new chats, DateModify refreshed, everything else kept. |
| CosmosStore.AppendKeepsItems | Integration/Services/CosmosDbService.cs:55-58 | A successful append keeps the number of records and the uniqueness of ids. |
| CosmosStore.CreateThenLookup | Integration/Services/CosmosDbService.cs:40-123 | Round trip: a record created for a key that had none is what the next lookup returns, chats unchanged. |
| CosmosStore.ShiftDocument | Integration/Services/CosmosDbService.cs:72-79 | Shifting timestamps changes no other field of an upload status. |
| CosmosStore.ShiftAll | Integration/Services/CosmosDbService.cs:72-79 | Every status is shifted, in place and in order. |
| CosmosStore.LastHistoriesShape | Integration/Services/CosmosDbService.cs:61-85 | At most fifty statuses, exactly the first ones the container yields, each one shifted, sorted by descending state timestamp. |
| CosmosStore.ConversationStore.GetConversation | Integration/Services/CosmosDbService.cs:87-137 | The paged read followed by FirstOrDefault and the chat window equals Lookup. |
| CosmosStore.ConversationStore.CreateConversation | Integration/Services/CosmosDbService.cs:40-47 | The container becomes Create's result, or is unchanged when Create throws. |
| CosmosStore.ConversationStore.UpdateChats | Integration/Services/CosmosDbService.cs:49-59 | The container becomes AppendChats' result, or is unchanged when it throws. |
| CosmosStore.ConversationStore.GetLastDocumentHistory | Integration/Services/CosmosDbService.cs:61-85 | Returns LastHistories of the upload container, or the backend fault. |
| Ordering.InsertDesc | Integration/Services/CosmosDbService.cs:117-118 | One insertion step adds exactly the new element. |
| Ordering.SortDesc | Integration/Services/CosmosDbService.cs:81-83 | The descending sort is a permutation of its input. |
| Ordering.InsertDescSorted | Integration/Services/CosmosDbService.cs:117-118 | Inserting into a sequence sorted by descending key keeps it sorted. |
| Ordering.SortDescSorted | Integration/Services/CosmosDbService.cs:81-83 | The sort's output is ordered by descending key for any total preorder. |
| Ordering.PrefixHoldsLargest | Integration/Services/CosmosDbService.cs:117-119 | After a descending sort, Take(k) holds elements at least as large as every element left out. |
| StringOrder.StrLeqTotal | Integration/Services/CosmosDbService.cs:81-83 | Any two timestamps are comparable under ordinal comparison. |
| StringOrder.StrLeqTrans | Integration/Services/CosmosDbService.cs:81-83 | Ordinal comparison is transitive. |
| StringOrder.StrLeqTotalPreorder | Integration/Services/CosmosDbService.cs:81-83 | Ordinal string comparison is a total preorder, so it can key the sort. |
| CognitiveSearch.Options | Integration/Services/CognitiveSearchService.cs:54-74 | Three results, an empty filter, and a vector query (k = 3 on "contentVector") exactly when an embedding is given. |
| CognitiveSearch.Sanitize | Integration/Services/CognitiveSearchService.cs:112 | Each carriage return and line feed becomes a space, and nothing else changes. |
| CognitiveSearch.SupportQualifies | Integration/Services/CognitiveSearchService.cs:101-112 | A document yields an entry exactly when all five fields are strings, with the concatenated title and the sanitised content. The cast fails exactly when content is neither a string nor null. |
| CognitiveSearch.Supports | Integration/Services/CognitiveSearchService.cs:97-114 | At most one entry per document. |
| CognitiveSearch.SupportsFails | Integration/Services/CognitiveSearchService.cs:102-105 | Gathering fails exactly when some document's content is neither a string nor null. |
| CognitiveSearch.SupportsPrefixFails | Integration/Services/CognitiveSearchService.cs:98-105 | A failed cast among the first documents is the failure of the whole gathering. |
| CognitiveSearch.SupportsSanitized | Integration/Services/CognitiveSearchService.cs:112 | No gathered content holds a carriage return or a line feed. |
| CognitiveSearch.Entries | Integration/Services/CognitiveSearchService.cs:122 | One "Title:Content" string per entry, in order. |
| CognitiveSearch.AssembleSentinel | Integration/Services/CognitiveSearchService.cs:116-122 | The result is "no source available." exactly when nothing qualified. |
| CognitiveSearch.SplitJoin | Integration/Services/CognitiveSearchService.cs:122 | Splitting the joined parts on '\r' gives them back when no part holds '\r'. |
| CognitiveSearch.AssembleSplits | Integration/Services/CognitiveSearchService.cs:116-122 | Round trip: when no title holds '\r', the result splits into one entry per qualifying document, in order. |
| CognitiveSearch.SearchOutcomes | Integration/Services/CognitiveSearchService.cs:49-83 | With neither query nor embedding, an ArgumentException before any call. An SDK failure propagates with its message, and a null result value is an InvalidOperationException. A failed content cast propagates. Otherwise the qualifying entries are assembled, which gives the "no source available." sentinel exactly when none qualifies. |
| CognitiveSearch.SearchAsync | Integration/Services/CognitiveSearchService.cs:44-126 | The guard, the call and the loop over the results equal Search. |
| ProcessText.ParseInt16 | cms-genai-rag-aiorchestrator/Process.cs:66 | A parsed history size lies in the 16-bit range. |
| ProcessText.ParseRender | cms-genai-rag-aiorchestrator/Process.cs:66 | Reading back a rendered 16-bit value gives the value. |
| ProcessText.ParseOverflow | cms-genai-rag-aiorchestrator/Process.cs:66 | A value above 32767 is an OverflowException, not a truncation. |
| ProcessText.Lines | cms-genai-rag-aiorchestrator/Process.cs:74-79 | A non-empty history ends with a newline. |
| ProcessText.LinesAppend | cms-genai-rag-aiorchestrator/Process.cs:75-78 | The history text of chats followed by more chats is the first text followed by the second, so appending to a conversation only extends its history text. |
| ProcessText.HistoryPlaceholderOnlyForNull | cms-genai-rag-aiorchestrator/Process.cs:68-80 | The history text is "no chat history available." exactly when the store had no conversation. |
| ProcessText.RenderHistory | cms-genai-rag-aiorchestrator/Process.cs:74-79 | The StringBuilder loop produces Lines of the chats. |
| ProcessText.ReplaceSkip | cms-genai-rag-aiorchestrator/Process.cs:83-86 | Replace copies unchanged a prefix in which the pattern never starts. |
| ProcessText.ReplaceHit | cms-genai-rag-aiorchestrator/Process.cs:83-86 | Replace substitutes an occurrence at the front and goes on after it. |
| ProcessText.FillFirst | cms-genai-rag-aiorchestrator/Process.cs:84 | The first replacement puts the query in place of "{0}" and keeps the other placeholders, whatever braces the template's text holds, when that text holds no "{0}". |
| ProcessText.SkipClear | cms-genai-rag-aiorchestrator/Process.cs:83-86 | Replace copies unchanged a text in which the placeholder does not occur when a '{' follows it, whatever other braces the text holds. |
| ProcessText.ReplaceNothing | cms-genai-rag-aiorchestrator/Process.cs:83-86 | A replacement leaves text in which its placeholder does not occur unchanged. |
| ProcessText.PlainIsClear | cms-genai-rag-aiorchestrator/Process.cs:83-86 | Text without '{' holds no placeholder. |
| ProcessText.FillSecond | cms-genai-rag-aiorchestrator/Process.cs:85 | The second replacement puts the history in place of "{1}" when no other "{1}" occurs before or after the placeholder. |
| ProcessText.FillThird | cms-genai-rag-aiorchestrator/Process.cs:86 | The third replacement puts the documents in place of "{2}" when no other "{2}" occurs before or after the placeholder. |
| ProcessText.FillPromptPlaces | cms-genai-rag-aiorchestrator/Process.cs:83-86 | A template with each placeholder once, in order, gets the query, the history and the documents in those places. The template's text may hold braces, such as a JSON example, and so may the query and the history, such as stored JSON answers. The only condition is that no placeholder occurs where a replacement would meet it first: no "{0}" in the template's text, no other "{1}" before or after the "{1}" placeholder, and no other "{2}" before or after the "{2}" placeholder. |
| ProcessText.FillPromptSequential | cms-genai-rag-aiorchestrator/Process.cs:83-86 | The replacements run in sequence: a "{2}" typed in the query becomes the document content. |
| Process.ReadSettingsFirstMissing | cms-genai-rag-aiorchestrator/Process.cs:37-44 | The settings are read exactly when all four keys are present. Otherwise the exception names the first key missing, in source order. |
| Process.MissingSettingCallsNothing | cms-genai-rag-aiorchestrator/Process.cs:37-44 | A missing setting fails the run before any gateway or store call and writes nothing. |
| Process.FailureWritesNothing | cms-genai-rag-aiorchestrator/Process.cs:30-134 | A run that fails leaves the stored conversations as they were. |
| Process.RetrievalStages | cms-genai-rag-aiorchestrator/Process.cs:48-66 | Reformulation, embedding of the original query, then search with the reformulated text, each only after the previous one succeeded. A halt carries the failure of the last step. The run goes on only when the search and the history size both succeed. |
| Process.RetrievalProceeds | cms-genai-rag-aiorchestrator/Process.cs:48-66 | When the three calls and the parse succeed, retrieval hands on the documents, the count and exactly those three calls. |
| Process.AnsweringStages | cms-genai-rag-aiorchestrator/Process.cs:66-99 | History load with the configured count, then the final completion of the filled template, then the parse. Each failure stops the run with its own exception and no write. A parsed answer leads to the write. |
| Process.PersistingWritesOnce | cms-genai-rag-aiorchestrator/Process.cs:101-121 | Exactly one write after the parse: create when no history was found, append otherwise. A failed write changes nothing, and success returns the parsed answer. |
| Process.CallsInSourceOrder | cms-genai-rag-aiorchestrator/Process.cs:48-121 | At most seven calls, in the source's order, with their exact arguments. Each is made only when every earlier step succeeded. |
| Process.UnparsableAnswerWritesNothing | cms-genai-rag-aiorchestrator/Process.cs:98-121 | An answer that is not JSON fails the run after the parse and before any write. |
| Process.SuccessWritesOnce | cms-genai-rag-aiorchestrator/Process.cs:101-125 | A successful run returns the parsed answer after one write. The write carries the query as "user" and the raw answer as "system". It creates a record with the request's ids and no tags when none was found, and appends otherwise. |
| Process.GatewayFailuresPropagate | cms-genai-rag-aiorchestrator/Process.cs:48-63 | A failing reformulation, embedding or search ends the run with that failure after one, two or three calls. |
| Process.LookupFaultPropagates | cms-genai-rag-aiorchestrator/Process.cs:66 | A store fault on the history load other than NotFound ends the run with that fault after four calls. |
| Process.BadHistorySizeAfterSearch | cms-genai-rag-aiorchestrator/Process.cs:63-66 | A history size that is not a 16-bit number fails the run after the search and before the history load. |
| Process.FirstExchangeCreates | cms-genai-rag-aiorchestrator/Process.cs:30-125 | The first exchange of a session, with every service answering, creates one record holding the query and the answer, and returns the parsed answer. |
| Process.RunProcess | cms-genai-rag-aiorchestrator/Process.cs:30-134 | The step-by-step run against the store returns Pipeline's result and calls, and leaves Pipeline's records. |
| Process.RetrieveAndAnswer | cms-genai-rag-aiorchestrator/Process.cs:48-66 | The first half of the run equals Exchange. |
| Process.AnswerAndStore | cms-genai-rag-aiorchestrator/Process.cs:66-99 | The second half of the run equals Answering. |
| Process.StoreExchange | cms-genai-rag-aiorchestrator/Process.cs:101-121 | The write equals Persisting. |
| Orchestrator.UnsetSecretAdmitsBareBearer | cms-genai-rag-aiorchestrator/FunctionAIOrchestrator.cs:34-40 | As written, a KeyName that names an unset secret, with no Security:Token, gives a null secret, and the header "Bearer " passes the guard. |
| Orchestrator.ResolveSecretConfigured | cms-genai-rag-aiorchestrator/FunctionAIOrchestrator.cs:34-40 | The resolved secret is always a configured value: the named secret, else Security:Token, else an exception. It agrees with the code wherever the code finds a secret. |
| Orchestrator.AuthorizedExactly | cms-genai-rag-aiorchestrator/FunctionAIOrchestrator.cs:75 | The guard admits exactly "Bearer " followed by the secret. It is case- and space-sensitive about the scheme. |
| Orchestrator.AdmittedKeepsRequest | cms-genai-rag-aiorchestrator/FunctionAIOrchestrator.cs:92-93 | Only an empty conversation id is replaced, by the fresh id. Every other field is kept. |
| Orchestrator.RespondShape | cms-genai-rag-aiorchestrator/FunctionAIOrchestrator.cs:95-111 | An admitted request always gets a ProcessResponse with its conversation id. The status is 200 with Success exactly when answer and thoughts are strings. Otherwise it is 500 with Fail and the exception's message, including "Failed to get answer" and "Failed to get thoughts". |
| Orchestrator.UploadingOutcome | cms-genai-rag-aiorchestrator/FunctionAIOrchestrator.cs:213-235 | The files attempted are a prefix of the form's files, and the answer is 200 exactly when all are named and uploaded. A nameless file is a bad request after the files before it. A failed upload is a 500, and it is the last file attempted. |
| Orchestrator.UploadingStep | cms-genai-rag-aiorchestrator/FunctionAIOrchestrator.cs:218-230 | A named file uploaded without error lets the loop go on with the rest. |
| Orchestrator.FunctionAIOrchestrator.constructor | cms-genai-rag-aiorchestrator/FunctionAIOrchestrator.cs:27-41 | The endpoint object holds the resolved secret and the injected services. |
| Orchestrator.FunctionAIOrchestrator.Run | cms-genai-rag-aiorchestrator/FunctionAIOrchestrator.cs:71-112 | A wrong header is 401. A body that is not JSON throws out of the endpoint. An empty or null body, or an empty prompt, is 400. None of these calls the pipeline. Otherwise the pipeline gets the admitted request and its outcome is shaped by Respond. |
| Orchestrator.FunctionAIOrchestrator.GetToken | cms-genai-rag-aiorchestrator/FunctionAIOrchestrator.cs:142-169 | A wrong header is 401. A body that is not JSON throws out of the endpoint. An empty or null body, or an empty blob name, is 400. Otherwise the SAS token is returned, or a 500 "Internal Server Error". |
| Orchestrator.FunctionAIOrchestrator.UploadFile | cms-genai-rag-aiorchestrator/FunctionAIOrchestrator.cs:204-236 | A wrong header is 401 and an unreadable form is 500. Otherwise the loop's response and the uploaded names equal Uploading. |
| Orchestrator.FunctionAIOrchestrator.GetAllUploadStatus | cms-genai-rag-aiorchestrator/FunctionAIOrchestrator.cs:270-286 | A wrong header is 401. Otherwise the last upload statuses, or a 500 when the store fails. |
| Orchestrator.NewOrchestrator | cms-genai-rag-aiorchestrator/FunctionAIOrchestrator.cs:34-40 | The corrected constructor: it fails exactly when no secret can be resolved, and otherwise the object holds the resolved secret. Where the code as written builds an object with a null secret, it fails instead (see Findings). |
| Utilities.LastIndexOf | cms-genai-rag-aiorchestrator/Utilities/Utilities.cs:13-15 | The index found, if any, holds the character searched for. |
| Utilities.LastIndexOfIsLast | cms-genai-rag-aiorchestrator/Utilities/Utilities.cs:13-15 | No later index holds it. |
| Utilities.PartsWithoutSeparator | cms-genai-rag-aiorchestrator/Utilities/Utilities.cs:13-15 | The file name, its stem and its extension hold no '/'. The extension is empty or starts with '.'. |
| Utilities.StemAndExtension | cms-genai-rag-aiorchestrator/Utilities/Utilities.cs:14-15 | The file name is its stem followed by its extension, or by a lone trailing '.'. |
| Utilities.LowerChar | cms-genai-rag-aiorchestrator/Utilities/Utilities.cs:18 | No capital A-Z survives lower-casing. |
| Utilities.DropWhiteSpaceSuffix | cms-genai-rag-aiorchestrator/Utilities/Utilities.cs:28 | Dropping a whitespace run leaves a suffix that starts with non-whitespace, after a removed prefix that is all whitespace. |
| Utilities.HyphenateNoWhiteSpace | cms-genai-rag-aiorchestrator/Utilities/Utilities.cs:28 | After the whitespace replacement no whitespace remains. |
| Utilities.HyphenateRun | cms-genai-rag-aiorchestrator/Utilities/Utilities.cs:28 | A whole run of whitespace becomes a single '-'. |
| Utilities.HyphenateWords | cms-genai-rag-aiorchestrator/Utilities/Utilities.cs:28 | Between two words, one space becomes one '-' and the first word is kept. |
| Utilities.StripNoSymbols | cms-genai-rag-aiorchestrator/Utilities/Utilities.cs:31 | After symbol removal none of @ # $ & % + / = \ ? remains. |
| Utilities.StripKeeps | cms-genai-rag-aiorchestrator/Utilities/Utilities.cs:31 | Removing symbols keeps any property every character already had. |
| Utilities.NormalizeNameClean | cms-genai-rag-aiorchestrator/Utilities/Utilities.cs:17-31 | A normalised name has no whitespace, no symbol and no capital A-Z. |
| Utilities.NormalizeNameIdempotent | cms-genai-rag-aiorchestrator/Utilities/Utilities.cs:17-31 | Normalising a normalised name changes nothing. |
| Utilities.NormalizeWord | cms-genai-rag-aiorchestrator/Utilities/Utilities.cs:17-31 | A name with no whitespace and no symbol is only lower-cased and unaccented. |
| Utilities.NormalizeSpace | cms-genai-rag-aiorchestrator/Utilities/Utilities.cs:17-31 | A space between two names becomes '-' between their normalised forms. |
| Utilities.NormalizeSymbol | cms-genai-rag-aiorchestrator/Utilities/Utilities.cs:17-31 | A symbol between two names disappears, joining their normalised forms. |
| Utilities.NormalizeFileNameParts | cms-genai-rag-aiorchestrator/Utilities/Utilities.cs:8-33 | A blank name is an ArgumentException, and nothing else is. Otherwise the result is the directory, a separator only when one is needed, the normalised stem, and the extension unchanged. |
| Utilities.BareName | cms-genai-rag-aiorchestrator/Utilities/Utilities.cs:13-15 | A name with no '/' and a last '.' at a given index has no directory, a stem before that '.' and an extension from it. |
| Utilities.NormalizeBareName | cms-genai-rag-aiorchestrator/Utilities/Utilities.cs:8-33 | Such a name normalises to its normalised stem followed by its extension. |
| Utilities.SpacesBecomeHyphens | TestProject1/UtilitiesTests.cs:32-43 | "Mi Archivo con espacios.doc" becomes "mi-archivo-con-espacios.doc". |
| Utilities.SymbolsRemoved | TestProject1/UtilitiesTests.cs:18-30 | "Árbol#con%espacios.txt" becomes "arbolconespacios.txt". |
| Utilities.TildeFolded | TestProject1/UtilitiesTests.cs:45-58 | "Archivo con Ñ.pdf" becomes "archivo-con-n.pdf". |
| Utilities.BlankRefused | TestProject1/UtilitiesTests.cs:10-16 | The empty name (also the null name) and the name " \t\u3000" made only of whitespace throw an ArgumentException about the file name. |

## Left out

- Logging, console output, cancellation tokens and the HTTP stream reading are left out. Only the values the handlers read are modelled.
- JSON and multipart deserialisation are left out. A request body is the deserialised value, `None` for an empty or `null` body, or the exception malformed JSON throws. That exception is raised outside any try block, so it leaves the endpoint as an `Err` result; what the Functions host then answers is not modelled. A form is the list of its file names or the exception reading it threw.
- The OpenAI client (`OpenIAServices`), `BlobStorageService`, `BlobProcess` and `Program` are not part of this model. The completion, embedding, SAS and upload calls are gateway functions. A null embedding value is the empty vector, as `GetEmbeddingAsync` returns it.
- The `CosmosDbService` constructor (endpoint, database, container and key settings) is not modelled. The store is handed over as a `ConversationStore`.
- The Cosmos DB SDK's paging, partitioning and conflict rules are reduced to a sequence of records, with unique ids within a partition and a fault parameter per call.
- Exception messages that the .NET runtime produces (`Convert.ToInt16`, the failed cast, `GetProperty` and `GetString`) are named constants that stand for them.
- The clock is one `now` per operation. Both chats of an exchange get the same date, and CreateConversationAsync's two reads of `DateTime.UtcNow` are one instant.
- Date parsing and formatting of upload statuses are parameters. The fixed -5 hour shift is modelled.
- `Environment.NewLine` is "\n".
- The project's own `AuthorRole` type is not part of this model. Its tests show only that `ToString` returns the label it was built with and that equality ignores case. The model assumes `AuthorRole.User` and `AuthorRole.System` print as "user" and "system", the `UserRole` and `SystemRole` constants. Other labels, such as the "User" that the repository's test fixtures store, would change only the stored mode strings.
- Configuration lookups are exact map keys. `IConfiguration`'s indexer ignores case, so a `Security:KeyName` value, or a setting key, that differs in case from the configured key finds its value in the code but not in the model.
- A null string is modelled as "". In the Cosmos lookup (CosmosDbService.cs:92-104), a null PersonId or SessionId therefore matches a record that stores "", and a record that stores null is matched by "". The query itself tells null apart from the empty string.
- CosmosStore.ShiftTimestamp: the shift always succeeds. `DateTime.AddHours(-5)` throws for a timestamp within five hours of `DateTime.MinValue`, which would make `GetLastDocumentHistoryAsync` throw and `GetAllUploadStatus` answer 500. That case is not modelled.
- Utilities.DirectoryName: only '/' separates directories. Windows '\' separators, root names, and the collapsing of repeated separators by `Path.GetDirectoryName` are not modelled.
- Utilities.LowerChar: only ASCII and Latin-1 capitals are lower-cased. Other scripts and culture-specific rules of `ToLower` are not modelled, and decomposed accents are not folded.
- ProcessText.ParseInt16: leading and trailing whitespace, which `Convert.ToInt16` tolerates, is not accepted.
- CosmosStore.LastHistories: timestamps are ordered by ordinal comparison, not by the current culture's comparer.
- Ordering.SortDesc: equal keys keep their input order, as LINQ's stable sort does. Stability is not stated as a lemma.
- Where the code's behaviour differs from its documentation, the model follows the code:
  - a non-string, non-null `content` field makes the search fail with an invalid cast instead of being skipped;
  - the history size is parsed after the search, so a bad setting fails after three calls;
  - UploadFile keeps the files uploaded before a nameless file.
- Orchestrator.FunctionAIOrchestrator: the endpoints compare against the corrected secret resolution (see Findings). The code as written is modelled separately by ResolveSecretAsWritten.
- Orchestrator.NewOrchestrator: this is the corrected constructor. When Security:KeyName names an unset secret and Security:Token is absent, the code as written builds the object with a null secret; NewOrchestrator fails instead (see Findings).

## Findings

| source | as written | input that shows it | evidently intended | confidence | as-written member | corrected member |
|---|---|---|---|---|---|---|
| cms-genai-rag-aiorchestrator/FunctionAIOrchestrator.cs:34-40 | When Security:KeyName is set, the fallback `configuration[secretName] ?? configuration["Security:Token"]` is not guarded by the `throw`, which binds only to the other branch. The secret can therefore be null. | Security:KeyName = "Security:Secret", with neither "Security:Secret" nor Security:Token configured. The secret is null, and the header "Bearer " is authorized on every endpoint, if the host passes that header value through untrimmed. | The constructor throws "Missing Security:Token in configuration." whenever no secret value is found. | medium, not executed | Orchestrator.UnsetSecretAdmitsBareBearer | Orchestrator.ResolveSecretConfigured |
