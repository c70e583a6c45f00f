/**
 * The orchestration pipeline of cms-genai-rag-aiorchestrator/Process.cs, RunProcessAsync.
 *
 * The chat-completion and embedding clients, the search SDK and the JSON parser are
 * gateways: functions handed in with the request. The conversation store is the
 * ConversationStore class, with its backend faults handed in. Pipeline says what one
 * run does: its result, the calls it makes in order, and the records it leaves;
 * RunProcess performs the run step by step against a store.
 */
module Process {
  import opened Common
  import opened Models
  import opened CosmosStore
  import opened CognitiveSearch
  import opened ProcessText

  const AmountKey := "CosmosDb:AmountHistoricalChatToRecover"
  const InitialSystemKey := "Prompt:InitialTemplateSystem"
  const FinalSystemKey := "Prompt:FinalTemplateSystem"
  const FinalUserKey := "Prompt:FinalTemplateUser"
  /** The settings in the order the pipeline reads them. */
  const SettingKeys := [AmountKey, InitialSystemKey, FinalSystemKey, FinalUserKey]
  /** The message thrown when the final completion is null. */
  const NullAnswer := "Failed to get search query"
  /**
   * The labels AuthorRole.User and AuthorRole.System are assumed to print as. That
   * type's definition is not part of this model.
   */
  const UserRole := "user"
  const SystemRole := "system"

  datatype Settings = Settings(amount: string, initialSystem: string, finalSystem: string, finalUser: string)

  /** What the chat-completion client gives back: the first content part's text (maybe null), or a failure. */
  datatype Completion = Completed(text: Option<string>) | CompletionFailed(message: string)

  /** What the embedding client gives back: a vector, a response whose Value is null, or a failure. */
  datatype EmbeddingResponse = Embedded(vector: seq<real>) | NoEmbedding | EmbeddingFailed(message: string)

  /** The services the pipeline calls out to. */
  datatype Gateways = Gateways(
    complete: (string, string) -> Completion,                    // (system prompt, user message)
    embed: string -> EmbeddingResponse,
    search: (Option<string>, SearchOptions) -> SearchResponse,
    parseJson: string -> Result<Json, string>)

  /** The backend faults the store meets: on the history load, on UpdateChatsAsync's reload, and on the write. */
  datatype StoreFaults = StoreFaults(lookup: Option<CosmosFault>, reload: Option<CosmosFault>, write: Option<CosmosFault>)

  /** One call the pipeline makes to a gateway or to the store. */
  datatype Call =
    | Reformulate(system: string, user: string)
    | Embed(input: string)
    | Retrieve(query: Option<string>, embedding: seq<real>)
    | LoadHistory(sessionId: string, personId: string, chatCount: int)
    | FinalCompletion(system: string, user: string)
    | ParseAnswer(text: string)
    | CreateRecord(record: Conversation)
    | UpdateRecord(sessionId: string, personId: string, chats: seq<Chat>)

  /** What a run returns, the calls it made, and the records it leaves behind. */
  datatype Outcome = Outcome(result: Result<Json, Exception>, trace: seq<Call>, records: seq<Conversation>)

  function MissingSetting(key: string): Exception
  {
    Exception(InvalidOperation, "Missing " + key + " in configuration")
  }

  /** The four settings, or the exception naming the first one missing. */
  function ReadSettings(config: map<string, string>): Result<Settings, Exception>
  {
    if AmountKey !in config then Err(MissingSetting(AmountKey))
    else if InitialSystemKey !in config then Err(MissingSetting(InitialSystemKey))
    else if FinalSystemKey !in config then Err(MissingSetting(FinalSystemKey))
    else if FinalUserKey !in config then Err(MissingSetting(FinalUserKey))
    else Ok(Settings(config[AmountKey], config[InitialSystemKey], config[FinalSystemKey], config[FinalUserKey]))
  }

  /** Reading succeeds exactly when all four keys are present; otherwise it names the first absent key. */
  lemma ReadSettingsFirstMissing(config: map<string, string>)
    ensures ReadSettings(config).Ok? <==> forall i :: 0 <= i < |SettingKeys| ==> SettingKeys[i] in config
    ensures ReadSettings(config).Err? ==>
      exists i :: 0 <= i < |SettingKeys| && SettingKeys[i] !in config
        && (forall j :: 0 <= j < i ==> SettingKeys[j] in config)
        && ReadSettings(config).error == MissingSetting(SettingKeys[i])
  {
    if AmountKey !in config {
      assert SettingKeys[0] !in config;
    } else if InitialSystemKey !in config {
      assert SettingKeys[1] !in config;
    } else if FinalSystemKey !in config {
      assert SettingKeys[2] !in config;
    } else if FinalUserKey !in config {
      assert SettingKeys[3] !in config;
    }
  }

  /** GetEmbeddingAsync: a null response value gives the empty vector. */
  function EmbeddingOf(response: EmbeddingResponse): Result<seq<real>, Exception>
  {
    match response
    case Embedded(v) => Ok(v)
    case NoEmbedding => Ok([])
    case EmbeddingFailed(m) => Err(Exception(Gateway, m))
  }

  /** The two chats a successful run stores: the user's query, then the raw answer. */
  function NewChats(query: string, answer: string, now: Instant): seq<Chat>
  {
    [Chat(query, UserRole, now), Chat(answer, SystemRole, now)]
  }

  /** The record created for a first exchange: no id, no dates and no tags until the store stamps it. */
  function NewConversation(req: RequestBody, chats: seq<Chat>): Conversation
  {
    Conversation("", req.conversationId, req.personId, 0, 0, map[], chats)
  }

  /** RunProcessAsync: the settings are read before anything else is called. */
  function Pipeline(config: map<string, string>, req: RequestBody, gw: Gateways, records: seq<Conversation>,
                    faults: StoreFaults, now: Instant, newId: string): Outcome
  {
    match ReadSettings(config)
    case Err(e) => Outcome(Err(e), [], records)
    case Ok(s) => Exchange(s, req, gw, records, faults, now, newId)
  }

  /** Where the first half of a run ends: a failure, or the documents and the history size it found. */
  datatype Retrieved =
    | Halted(error: Exception, trace: seq<Call>)
    | Found(documents: string, count: int, trace: seq<Call>)

  /** The run once the settings are read: retrieval, then the answer and the write. */
  function Exchange(s: Settings, req: RequestBody, gw: Gateways, records: seq<Conversation>,
                    faults: StoreFaults, now: Instant, newId: string): Outcome
  {
    match Retrieval(s, req, gw)
    case Halted(e, t) => Outcome(Err(e), t, records)
    case Found(documents, count, t) => Answering(s, req, documents, count, t, gw, records, faults, now, newId)
  }

  /** Reformulation, embedding of the original query, search, and reading the history size. */
  function Retrieval(s: Settings, req: RequestBody, gw: Gateways): Retrieved
  {
    var t1 := [Reformulate(s.initialSystem, req.query)];
    var reformulated := gw.complete(s.initialSystem, req.query);
    if reformulated.CompletionFailed? then Halted(Exception(Gateway, reformulated.message), t1)
    else
      var t2 := t1 + [Embed(req.query)];
      var vector := EmbeddingOf(gw.embed(req.query));
      if vector.Err? then Halted(vector.error, t2)
      else
        var t3 := t2 + [Retrieve(reformulated.text, vector.value)];
        var documents := Search(reformulated.text, Some(vector.value), gw.search);
        if documents.Err? then Halted(documents.error, t3)
        else
          var count := ParseInt16(s.amount);
          if count.Err? then Halted(count.error, t3)
          else Found(documents.value, count.value, t3)
  }

  /** History load, prompt fill, final completion, and parsing of the answer. */
  function Answering(s: Settings, req: RequestBody, documents: string, count: int, t3: seq<Call>, gw: Gateways,
                     records: seq<Conversation>, faults: StoreFaults, now: Instant, newId: string): Outcome
  {
    var t4 := t3 + [LoadHistory(req.conversationId, req.personId, count)];
    match Lookup(records, req.conversationId, req.personId, count, faults.lookup)
    case Err(e) => Outcome(Err(e), t4, records)
    case Ok(conversation) =>
      var prompt := FillPrompt(s.finalUser, req.query, HistoryText(conversation), documents);
      var t5 := t4 + [FinalCompletion(s.finalSystem, prompt)];
      match gw.complete(s.finalSystem, prompt)
      case CompletionFailed(m) => Outcome(Err(Exception(Gateway, m)), t5, records)
      case Completed(None) => Outcome(Err(Exception(InvalidOperation, NullAnswer)), t5, records)
      case Completed(Some(answer)) =>
        var t6 := t5 + [ParseAnswer(answer)];
        match gw.parseJson(answer)
        case Err(m) => Outcome(Err(Exception(JsonError, m)), t6, records)
        case Ok(json) => Persisting(req, answer, json, conversation.None?, t6, records, faults, now, newId)
  }

  /** A first exchange creates the record; a later one appends to it. */
  function Persisting(req: RequestBody, answer: string, json: Json, first: bool, t6: seq<Call>,
                      records: seq<Conversation>, faults: StoreFaults, now: Instant, newId: string): Outcome
  {
    var chats := NewChats(req.query, answer, now);
    if first then
      var c := NewConversation(req, chats);
      match Create(records, c, newId, now, faults.write)
      case Err(e) => Outcome(Err(e), t6 + [CreateRecord(c)], records)
      case Ok(after) => Outcome(Ok(json), t6 + [CreateRecord(c)], after)
    else
      match AppendChats(records, req.conversationId, req.personId, chats, now, faults.reload, faults.write)
      case Err(e) => Outcome(Err(e), t6 + [UpdateRecord(req.conversationId, req.personId, chats)], records)
      case Ok(after) => Outcome(Ok(json), t6 + [UpdateRecord(req.conversationId, req.personId, chats)], after)
  }

  // ---------------------------------------------------------------------------
  // Properties of a run

  /** A missing setting fails the run before any gateway or store call, naming the first absent key. */
  lemma MissingSettingCallsNothing(config: map<string, string>, req: RequestBody, gw: Gateways, records: seq<Conversation>,
                                   faults: StoreFaults, now: Instant, newId: string, i: nat)
    requires i < |SettingKeys| && SettingKeys[i] !in config
    requires forall j :: 0 <= j < i ==> SettingKeys[j] in config
    ensures var o := Pipeline(config, req, gw, records, faults, now, newId);
      o.result == Err(MissingSetting(SettingKeys[i])) && o.trace == [] && o.records == records
  {
    assert SettingKeys[0] == AmountKey && SettingKeys[1] == InitialSystemKey;
    assert SettingKeys[2] == FinalSystemKey && SettingKeys[3] == FinalUserKey;
    if i > 0 { assert SettingKeys[0] in config; }
    if i > 1 { assert SettingKeys[1] in config; }
    if i > 2 { assert SettingKeys[2] in config; }
  }

  /**
   * The first three calls, each made only when the step before succeeded; a halt names
   * the failure of the last call made, and the run goes on only once the search and the
   * history size both succeed.
   */
  lemma RetrievalStages(s: Settings, req: RequestBody, gw: Gateways)
    ensures var r := Retrieval(s, req, gw);
      var reformulated := gw.complete(s.initialSystem, req.query);
      var vector := EmbeddingOf(gw.embed(req.query));
      && 1 <= |r.trace| <= 3
      && r.trace[0] == Reformulate(s.initialSystem, req.query)
      && (|r.trace| == 1 ==> reformulated.CompletionFailed? && r == Halted(Exception(Gateway, reformulated.message), r.trace))
      && (|r.trace| >= 2 ==> reformulated.Completed? && r.trace[1] == Embed(req.query))
      && (|r.trace| == 2 ==> vector.Err? && r == Halted(vector.error, r.trace))
      && (|r.trace| == 3 ==> vector.Ok? && r.trace[2] == Retrieve(reformulated.text, vector.value))
      && (|r.trace| == 3 && Search(reformulated.text, Some(vector.value), gw.search).Err? ==>
            r == Halted(Search(reformulated.text, Some(vector.value), gw.search).error, r.trace))
      && (|r.trace| == 3 && Search(reformulated.text, Some(vector.value), gw.search).Ok? ==>
            if ParseInt16(s.amount).Err? then r == Halted(ParseInt16(s.amount).error, r.trace)
            else r == Found(Search(reformulated.text, Some(vector.value), gw.search).value, ParseInt16(s.amount).value, r.trace))
  {
    var t1 := [Reformulate(s.initialSystem, req.query)];
    var reformulated := gw.complete(s.initialSystem, req.query);
    if reformulated.Completed? {
      var t2 := t1 + [Embed(req.query)];
      assert t2[0] == t1[0];
      var vector := EmbeddingOf(gw.embed(req.query));
      if vector.Ok? {
        var t3 := t2 + [Retrieve(reformulated.text, vector.value)];
        assert t3[..2] == t2;
      }
    }
  }

  /** A run that fails leaves the records as they were. */
  lemma FailureWritesNothing(config: map<string, string>, req: RequestBody, gw: Gateways, records: seq<Conversation>,
                             faults: StoreFaults, now: Instant, newId: string)
    ensures var o := Pipeline(config, req, gw, records, faults, now, newId);
      o.result.Err? ==> o.records == records
  {
    if ReadSettings(config).Ok? {
      var s := ReadSettings(config).value;
      var r := Retrieval(s, req, gw);
      if r.Found? {
        AnsweringStages(s, req, r.documents, r.count, r.trace, gw, records, faults, now, newId);
        var o := Answering(s, req, r.documents, r.count, r.trace, gw, records, faults, now, newId);
        if |o.trace| == |r.trace| + 4 {
          PersistingWritesOnce(req, o.trace[|r.trace| + 2].text, gw.parseJson(o.trace[|r.trace| + 2].text).value,
                               Lookup(records, req.conversationId, req.personId, r.count, faults.lookup).value.None?,
                               o.trace[..|r.trace| + 3], records, faults, now, newId);
        }
      }
    }
  }

  /** The calls after the search, relative to the calls made before. */
  lemma AnsweringStages(s: Settings, req: RequestBody, documents: string, count: int, t3: seq<Call>, gw: Gateways,
                        records: seq<Conversation>, faults: StoreFaults, now: Instant, newId: string)
    ensures var o := Answering(s, req, documents, count, t3, gw, records, faults, now, newId);
      var n := |t3|;
      var loaded := Lookup(records, req.conversationId, req.personId, count, faults.lookup);
      && n + 1 <= |o.trace| <= n + 4
      && o.trace[..n] == t3
      && o.trace[n] == LoadHistory(req.conversationId, req.personId, count)
      && (|o.trace| == n + 1 ==> loaded.Err? && o.result == Err(loaded.error) && o.records == records)
      && (|o.trace| >= n + 2 ==>
            loaded.Ok?
            && o.trace[n + 1] == FinalCompletion(s.finalSystem, FillPrompt(s.finalUser, req.query, HistoryText(loaded.value), documents)))
      && (|o.trace| == n + 2 ==> o.result.Err? && o.records == records)
      && (|o.trace| >= n + 3 ==>
            gw.complete(o.trace[n + 1].system, o.trace[n + 1].user).Completed?
            && gw.complete(o.trace[n + 1].system, o.trace[n + 1].user).text.Some?
            && o.trace[n + 2] == ParseAnswer(gw.complete(o.trace[n + 1].system, o.trace[n + 1].user).text.value))
      && (|o.trace| == n + 3 ==>
            gw.parseJson(o.trace[n + 2].text).Err?
            && o.result == Err(Exception(JsonError, gw.parseJson(o.trace[n + 2].text).error)) && o.records == records)
      && (|o.trace| == n + 4 ==>
            gw.parseJson(o.trace[n + 2].text).Ok?
            && o == Persisting(req, o.trace[n + 2].text, gw.parseJson(o.trace[n + 2].text).value, loaded.value.None?,
                               o.trace[..n + 3], records, faults, now, newId))
  {
    var o := Answering(s, req, documents, count, t3, gw, records, faults, now, newId);
    var n := |t3|;
    var t4 := t3 + [LoadHistory(req.conversationId, req.personId, count)];
    match Lookup(records, req.conversationId, req.personId, count, faults.lookup)
    case Err(e) =>
      assert o.trace == t4;
      assert o.trace[..n] == t3;
    case Ok(conversation) =>
      var prompt := FillPrompt(s.finalUser, req.query, HistoryText(conversation), documents);
      var t5 := t4 + [FinalCompletion(s.finalSystem, prompt)];
      match gw.complete(s.finalSystem, prompt)
      case CompletionFailed(m) =>
        assert o.trace == t5;
        assert o.trace[..n] == t3;
      case Completed(None) =>
        assert o.trace == t5;
        assert o.trace[..n] == t3;
      case Completed(Some(answer)) =>
        var t6 := t5 + [ParseAnswer(answer)];
        match gw.parseJson(answer)
        case Err(m) =>
          assert o.trace == t6;
          assert o.trace[..n] == t3;
        case Ok(json) =>
          assert o == Persisting(req, answer, json, conversation.None?, t6, records, faults, now, newId);
          PersistingWritesOnce(req, answer, json, conversation.None?, t6, records, faults, now, newId);
          assert o.trace[..n + 3] == t6;
          assert o.trace[..n] == t3;
  }

  /** The write is the one call made after the parse. */
  lemma PersistingWritesOnce(req: RequestBody, answer: string, json: Json, first: bool, t6: seq<Call>,
                             records: seq<Conversation>, faults: StoreFaults, now: Instant, newId: string)
    ensures var o := Persisting(req, answer, json, first, t6, records, faults, now, newId);
      var chats := NewChats(req.query, answer, now);
      && |o.trace| == |t6| + 1 && o.trace[..|t6|] == t6
      && (first ==> o.trace[|t6|] == CreateRecord(NewConversation(req, chats)))
      && (!first ==> o.trace[|t6|] == UpdateRecord(req.conversationId, req.personId, chats))
      && (o.result.Err? ==> o.records == records)
      && (o.result.Ok? ==> o.result.value == json)
      && (first && o.result.Ok? ==> Create(records, NewConversation(req, chats), newId, now, faults.write) == Ok(o.records))
      && (!first && o.result.Ok? ==>
            AppendChats(records, req.conversationId, req.personId, chats, now, faults.reload, faults.write) == Ok(o.records))
  {
    var o := Persisting(req, answer, json, first, t6, records, faults, now, newId);
    assert o.trace[..|t6|] == t6;
  }

  /**
   * The calls of a run follow the source's order, each made only when every earlier
   * step succeeded: the reformulation with the initial system prompt and the query;
   * the embedding of the original query (not the reformulated text); the search with
   * the reformulated text and that embedding; the history load with the configured
   * count; the final completion of the filled template; the parse of its text; and
   * one write. Nothing is called twice.
   */
  lemma CallsInSourceOrder(s: Settings, req: RequestBody, gw: Gateways, records: seq<Conversation>,
                           faults: StoreFaults, now: Instant, newId: string)
    ensures var t := Exchange(s, req, gw, records, faults, now, newId).trace;
      && 1 <= |t| <= 7
      && t[0] == Reformulate(s.initialSystem, req.query)
      && (|t| >= 2 ==> gw.complete(s.initialSystem, req.query).Completed? && t[1] == Embed(req.query))
      && (|t| >= 3 ==>
            EmbeddingOf(gw.embed(req.query)).Ok?
            && t[2] == Retrieve(gw.complete(s.initialSystem, req.query).text, EmbeddingOf(gw.embed(req.query)).value))
      && (|t| >= 4 ==>
            Search(t[2].query, Some(t[2].embedding), gw.search).Ok? && ParseInt16(s.amount).Ok?
            && t[3] == LoadHistory(req.conversationId, req.personId, ParseInt16(s.amount).value))
      && (|t| >= 5 ==>
            Lookup(records, req.conversationId, req.personId, t[3].chatCount, faults.lookup).Ok?
            && t[4] == FinalCompletion(s.finalSystem,
                 FillPrompt(s.finalUser, req.query,
                   HistoryText(Lookup(records, req.conversationId, req.personId, t[3].chatCount, faults.lookup).value),
                   Search(t[2].query, Some(t[2].embedding), gw.search).value)))
      && (|t| >= 6 ==>
            gw.complete(t[4].system, t[4].user).Completed?
            && gw.complete(t[4].system, t[4].user).text.Some?
            && t[5] == ParseAnswer(gw.complete(t[4].system, t[4].user).text.value))
      && (|t| == 7 ==> gw.parseJson(t[5].text).Ok? && (t[6].CreateRecord? || t[6].UpdateRecord?))
  {
    var r := Retrieval(s, req, gw);
    RetrievalStages(s, req, gw);
    if r.Found? {
      AnsweringStages(s, req, r.documents, r.count, r.trace, gw, records, faults, now, newId);
    }
  }

  /**
   * An answer that does not parse as JSON fails the run after the parse and before
   * any write: the parse is the last call and the records are unchanged.
   */
  lemma UnparsableAnswerWritesNothing(s: Settings, req: RequestBody, gw: Gateways, records: seq<Conversation>,
                                      faults: StoreFaults, now: Instant, newId: string)
    ensures var o := Exchange(s, req, gw, records, faults, now, newId);
      |o.trace| >= 6 && o.trace[5].ParseAnswer? && gw.parseJson(o.trace[5].text).Err? ==>
        |o.trace| == 6 && o.records == records && o.result == Err(Exception(JsonError, gw.parseJson(o.trace[5].text).error))
  {
    var r := Retrieval(s, req, gw);
    RetrievalStages(s, req, gw);
    if r.Found? {
      AnsweringStages(s, req, r.documents, r.count, r.trace, gw, records, faults, now, newId);
    }
  }

  /**
   * A successful run makes exactly one write, after the parse: it creates a record
   * when the history load found none and appends otherwise. The write carries two
   * chats, the query as "user" and the raw answer as "system", and a created record
   * has the request's ids and no tags.
   */
  lemma SuccessWritesOnce(s: Settings, req: RequestBody, gw: Gateways, records: seq<Conversation>,
                          faults: StoreFaults, now: Instant, newId: string)
    ensures var o := Exchange(s, req, gw, records, faults, now, newId);
      o.result.Ok? ==>
        && |o.trace| == 7
        && o.trace[3].LoadHistory? && o.trace[5].ParseAnswer?
        && gw.parseJson(o.trace[5].text) == Ok(o.result.value)
        && var loaded := Lookup(records, req.conversationId, req.personId, o.trace[3].chatCount, faults.lookup).value;
           var chats := [Chat(req.query, "user", now), Chat(o.trace[5].text, "system", now)];
           && (o.trace[6].CreateRecord? <==> loaded.None?)
           && (o.trace[6].CreateRecord? ==>
                 && o.trace[6].record == Conversation("", req.conversationId, req.personId, 0, 0, map[], chats)
                 && Create(records, o.trace[6].record, newId, now, faults.write) == Ok(o.records))
           && (o.trace[6].UpdateRecord? ==>
                 && o.trace[6] == UpdateRecord(req.conversationId, req.personId, chats)
                 && AppendChats(records, req.conversationId, req.personId, chats, now, faults.reload, faults.write) == Ok(o.records))
  {
    var o := Exchange(s, req, gw, records, faults, now, newId);
    var r := Retrieval(s, req, gw);
    RetrievalStages(s, req, gw);
    if r.Found? {
      AnsweringStages(s, req, r.documents, r.count, r.trace, gw, records, faults, now, newId);
      if |o.trace| == 7 {
        var loaded := Lookup(records, req.conversationId, req.personId, r.count, faults.lookup).value;
        PersistingWritesOnce(req, o.trace[5].text, gw.parseJson(o.trace[5].text).value, loaded.None?, o.trace[..6],
                             records, faults, now, newId);
      }
    }
  }

  /** Each gateway failure ends the run with that failure, unchanged. */
  lemma GatewayFailuresPropagate(s: Settings, req: RequestBody, gw: Gateways, records: seq<Conversation>,
                                 faults: StoreFaults, now: Instant, newId: string)
    ensures var o := Exchange(s, req, gw, records, faults, now, newId);
      && (gw.complete(s.initialSystem, req.query).CompletionFailed? ==>
            o.result == Err(Exception(Gateway, gw.complete(s.initialSystem, req.query).message)) && |o.trace| == 1)
      && (gw.complete(s.initialSystem, req.query).Completed? && gw.embed(req.query).EmbeddingFailed? ==>
            o.result == Err(Exception(Gateway, gw.embed(req.query).message)) && |o.trace| == 2)
      && (gw.complete(s.initialSystem, req.query).Completed? && !gw.embed(req.query).EmbeddingFailed?
          && gw.search(gw.complete(s.initialSystem, req.query).text, Options(Some(EmbeddingOf(gw.embed(req.query)).value))).Failed? ==>
            o.result == Err(Exception(Gateway,
              gw.search(gw.complete(s.initialSystem, req.query).text, Options(Some(EmbeddingOf(gw.embed(req.query)).value))).message))
            && |o.trace| == 3)
  {
  }

  /** A store fault on the history load other than NotFound ends the run with that fault. */
  lemma LookupFaultPropagates(s: Settings, req: RequestBody, gw: Gateways, records: seq<Conversation>,
                              faults: StoreFaults, now: Instant, newId: string)
    requires faults.lookup.Some? && faults.lookup.value.status != NotFoundStatus
    ensures var o := Exchange(s, req, gw, records, faults, now, newId);
      |o.trace| >= 4 ==> o.result == Err(Raise(faults.lookup.value)) && |o.trace| == 4 && o.records == records
  {
    var r := Retrieval(s, req, gw);
    RetrievalStages(s, req, gw);
    if r.Found? {
      AnsweringStages(s, req, r.documents, r.count, r.trace, gw, records, faults, now, newId);
      LookupRethrows(records, req.conversationId, req.personId, r.count, faults.lookup.value);
    }
  }

  /**
   * A history size setting that is not a 16-bit number fails the run after the
   * search and before the history load.
   */
  lemma BadHistorySizeAfterSearch(s: Settings, req: RequestBody, gw: Gateways, records: seq<Conversation>,
                                  faults: StoreFaults, now: Instant, newId: string)
    requires ParseInt16(s.amount).Err?
    ensures var o := Exchange(s, req, gw, records, faults, now, newId);
      |o.trace| <= 3 && o.result.Err? && o.records == records
      && (|o.trace| == 3 ==>
            o.trace[2].Retrieve?
            && (Search(o.trace[2].query, Some(o.trace[2].embedding), gw.search).Ok? ==> o.result == Err(ParseInt16(s.amount).error)))
  {
    RetrievalStages(s, req, gw);
  }

  /** Once the search and the history size succeed, the run goes on to the history load. */
  lemma RetrievalProceeds(s: Settings, req: RequestBody, gw: Gateways,
                          query: Option<string>, vector: seq<real>, documents: string, count: int)
    requires gw.complete(s.initialSystem, req.query) == Completed(query)
    requires EmbeddingOf(gw.embed(req.query)) == Ok(vector)
    requires Search(query, Some(vector), gw.search) == Ok(documents)
    requires ParseInt16(s.amount) == Ok(count)
    ensures Retrieval(s, req, gw)
         == Found(documents, count, [Reformulate(s.initialSystem, req.query), Embed(req.query), Retrieve(query, vector)])
  {
    var t1 := [Reformulate(s.initialSystem, req.query)];
    assert t1 + [Embed(req.query)] + [Retrieve(query, vector)]
        == [Reformulate(s.initialSystem, req.query), Embed(req.query), Retrieve(query, vector)];
  }

  /**
   * The first exchange of a session: with every setting present, every gateway
   * answering, no stored record for the pair and no store fault, the run creates one
   * record holding exactly the user's query and the answer, and returns the parsed answer.
   */
  lemma FirstExchangeCreates(config: map<string, string>, req: RequestBody, gw: Gateways, records: seq<Conversation>,
                             now: Instant, newId: string, reformulated: string, answer: string, json: Json)
    requires UniqueItems(records) && newId != ""
    requires AmountKey in config && InitialSystemKey in config && FinalSystemKey in config && FinalUserKey in config
    requires config[AmountKey] == "10"
    requires forall k :: 0 <= k < |records| ==> !Matches(records[k], req.conversationId, req.personId)
    requires forall k :: 0 <= k < |records| ==> records[k].id != newId
    requires gw.complete(config[InitialSystemKey], req.query) == Completed(Some(reformulated))
    requires gw.embed(req.query) == NoEmbedding
    requires gw.search(Some(reformulated), Options(Some([]))) == Results([])
    requires gw.complete(config[FinalSystemKey], FillPrompt(config[FinalUserKey], req.query, NoHistory, NoSource))
          == Completed(Some(answer))
    requires gw.parseJson(answer) == Ok(json)
    ensures var o := Pipeline(config, req, gw, records, StoreFaults(None, None, None), now, newId);
      && o.result == Ok(json)
      && |o.trace| == 7
      && o.trace[2] == Retrieve(Some(reformulated), [])
      && o.trace[4] == FinalCompletion(config[FinalSystemKey],
           FillPrompt(config[FinalUserKey], req.query, NoHistory, NoSource))
      && o.records == records + [Conversation(newId, req.conversationId, req.personId, now, now, map[],
                                              [Chat(req.query, "user", now), Chat(answer, "system", now)])]
  {
    var s := Settings(config[AmountKey], config[InitialSystemKey], config[FinalSystemKey], config[FinalUserKey]);
    assert ReadSettings(config) == Ok(s);
    var faults := StoreFaults(None, None, None);
    assert EmbeddingOf(gw.embed(req.query)) == Ok([]);
    assert Supports([]) == Ok([]);
    AssembleSentinel([]);
    assert Search(Some(reformulated), Some([]), gw.search) == Ok(NoSource);
    assert ParseInt16("10") == Ok(10) by {
      ParseRender(10);
      assert Render(10) == "10";
    }
    var t3 := [Reformulate(s.initialSystem, req.query), Embed(req.query), Retrieve(Some(reformulated), [])];
    RetrievalProceeds(s, req, gw, Some(reformulated), [], NoSource, 10);
    LookupNull(records, req.conversationId, req.personId, 10, None);
    MatchingEmpty(records, req.conversationId, req.personId);
    assert Lookup(records, req.conversationId, req.personId, 10, None) == Ok(None);
    var chats := NewChats(req.query, answer, now);
    var c := NewConversation(req, chats);
    var t6 := t3 + [LoadHistory(req.conversationId, req.personId, 10),
                    FinalCompletion(s.finalSystem, FillPrompt(s.finalUser, req.query, NoHistory, NoSource)),
                    ParseAnswer(answer)];
    assert Answering(s, req, NoSource, 10, t3, gw, records, faults, now, newId)
        == Persisting(req, answer, json, true, t6, records, faults, now, newId);
    assert ItemIndex(records, newId, c.sessionId).None?;
    assert Create(records, c, newId, now, None) == Ok(records + [Stamp(c, newId, now)]);
  }

  // ---------------------------------------------------------------------------
  // The run, step by step

  /** RunProcessAsync against the store: every step in order, rethrowing the first failure. */
  method RunProcess(config: map<string, string>, req: RequestBody, gw: Gateways, store: ConversationStore,
                    faults: StoreFaults, now: Instant, newId: string)
    returns (result: Result<Json, Exception>, trace: seq<Call>)
    requires store.Valid() && newId != ""
    modifies store
    ensures store.Valid() && store.histories == old(store.histories)
    ensures var o := Pipeline(config, req, gw, old(store.records), faults, now, newId);
      result == o.result && trace == o.trace && store.records == o.records
  {
    var settings := ReadSettings(config);
    if settings.Err? {
      return Err(settings.error), [];
    }
    result, trace := RetrieveAndAnswer(settings.value, req, gw, store, faults, now, newId);
  }

  /** The reformulation, the embedding and the search: the first half of RunProcessAsync. */
  method RetrieveAndAnswer(s: Settings, req: RequestBody, gw: Gateways, store: ConversationStore,
                           faults: StoreFaults, now: Instant, newId: string)
    returns (result: Result<Json, Exception>, trace: seq<Call>)
    requires store.Valid() && newId != ""
    modifies store
    ensures store.Valid() && store.histories == old(store.histories)
    ensures var o := Exchange(s, req, gw, old(store.records), faults, now, newId);
      result == o.result && trace == o.trace && store.records == o.records
  {
    trace := [Reformulate(s.initialSystem, req.query)];
    var first := gw.complete(s.initialSystem, req.query);
    if first.CompletionFailed? {
      return Err(Exception(Gateway, first.message)), trace;
    }
    var query := first.text;

    trace := trace + [Embed(req.query)];
    var embedding := EmbeddingOf(gw.embed(req.query));
    if embedding.Err? {
      return Err(embedding.error), trace;
    }

    trace := trace + [Retrieve(query, embedding.value)];
    var documentContent := SearchAsync(query, Some(embedding.value), gw.search);
    if documentContent.Err? {
      return Err(documentContent.error), trace;
    }

    var count := ParseInt16(s.amount);
    if count.Err? {
      return Err(count.error), trace;
    }
    assert Retrieval(s, req, gw) == Found(documentContent.value, count.value, trace);
    result, trace := AnswerAndStore(s, req, documentContent.value, count.value, trace, gw, store, faults, now, newId);
  }

  /** The history load, the final completion and its parse: the second half of RunProcessAsync. */
  method AnswerAndStore(s: Settings, req: RequestBody, documents: string, count: int, calls: seq<Call>, gw: Gateways,
                        store: ConversationStore, faults: StoreFaults, now: Instant, newId: string)
    returns (result: Result<Json, Exception>, trace: seq<Call>)
    requires store.Valid() && newId != ""
    modifies store
    ensures store.Valid() && store.histories == old(store.histories)
    ensures var o := Answering(s, req, documents, count, calls, gw, old(store.records), faults, now, newId);
      result == o.result && trace == o.trace && store.records == o.records
  {
    trace := calls + [LoadHistory(req.conversationId, req.personId, count)];
    var conversation := store.GetConversation(req.conversationId, req.personId, count, faults.lookup);
    if conversation.Err? {
      return Err(conversation.error), trace;
    }

    var chatHistory := NoHistory;
    if conversation.value.Some? {
      chatHistory := RenderHistory(conversation.value.value.chats);
    }
    var finalPrompt := FillPrompt(s.finalUser, req.query, chatHistory, documents);

    trace := trace + [FinalCompletion(s.finalSystem, finalPrompt)];
    var finalAnswer := gw.complete(s.finalSystem, finalPrompt);
    if finalAnswer.CompletionFailed? {
      return Err(Exception(Gateway, finalAnswer.message)), trace;
    }
    if finalAnswer.text.None? {
      return Err(Exception(InvalidOperation, NullAnswer)), trace;
    }
    var answer := finalAnswer.text.value;

    trace := trace + [ParseAnswer(answer)];
    var answerObject := gw.parseJson(answer);
    if answerObject.Err? {
      return Err(Exception(JsonError, answerObject.error)), trace;
    }
    result, trace := StoreExchange(req, answer, answerObject.value, conversation.value.None?, trace, store, faults, now, newId);
  }

  /** Creates the conversation on a first exchange, and appends the two chats otherwise. */
  method StoreExchange(req: RequestBody, answer: string, json: Json, first: bool, calls: seq<Call>,
                       store: ConversationStore, faults: StoreFaults, now: Instant, newId: string)
    returns (result: Result<Json, Exception>, trace: seq<Call>)
    requires store.Valid() && newId != ""
    modifies store
    ensures store.Valid() && store.histories == old(store.histories)
    ensures var o := Persisting(req, answer, json, first, calls, old(store.records), faults, now, newId);
      result == o.result && trace == o.trace && store.records == o.records
  {
    var newChats := NewChats(req.query, answer, now);
    if first {
      var record := NewConversation(req, newChats);
      trace := calls + [CreateRecord(record)];
      var created := store.CreateConversation(record, newId, now, faults.write);
      if created.Err? {
        return Err(created.error), trace;
      }
    } else {
      trace := calls + [UpdateRecord(req.conversationId, req.personId, newChats)];
      var updated := store.UpdateChats(req.conversationId, req.personId, newChats, now, faults.reload, faults.write);
      if updated.Err? {
        return Err(updated.error), trace;
      }
    }
    return Ok(json), trace;
  }
}
