/**
 * The HTTP endpoints of cms-genai-rag-aiorchestrator/FunctionAIOrchestrator.cs: the
 * bearer guard they share, the request checks and response shaping of Run, and the
 * decisions of GetToken, UploadFile and GetAllUploadStatus.
 *
 * Reading the request stream, JSON and multipart deserialisation are inputs: a body
 * is the deserialised value, None for an empty or "null" body, or the exception that
 * malformed JSON throws. That exception is raised before any try block, so it leaves
 * the endpoint: the endpoint's result is then Err. The injected services are fields of the class:
 * the pipeline as a function of the request, the SAS issuer and the blob upload as
 * functions that may throw, and the conversation store.
 */
module Orchestrator {
  import opened Common
  import opened Models
  import opened CosmosStore

  const KeyNameSetting := "Security:KeyName"
  const TokenSetting := "Security:Token"
  const MissingKeyName := "Missing Configuration Security:KeyName in configuration."
  const MissingToken := "Missing Security:Token in configuration."

  const BearerPrefix := "Bearer "
  const EmptyPrompt := "User prompt is empty "
  const EmptyBlobName := "BlobName is empty "
  const FileRequired := "File is required."
  const FilesUploaded := "Files uploaded successfully"
  const ServerError := "Internal Server Error"
  const MissingAnswer := "Failed to get answer"
  const MissingThoughts := "Failed to get thoughts"
  const SuccessDetail := "Success"
  const FailDetail := "Fail"
  const OkStatus := 200
  const ServerErrorStatus := 500
  /** Stand for the runtime's messages when JsonElement.GetProperty or GetString meet the wrong element. */
  const PropertyMissing := "The given key was not present in the dictionary."
  const NotAnObject := "The requested operation requires an element of type 'Object'."
  const NotAString := "The requested operation requires an element of type 'String'."

  /** The response body of the orchestrator endpoint. */
  datatype ProcessResponse = ProcessResponse(
    answer: string,
    thoughts: string,
    currentState: bool,
    detail: string,
    error: string,
    conversationId: string)

  const EmptyResponse := ProcessResponse("", "", false, "", "", "")

  /** What an object result carries. */
  datatype Body = Response(response: ProcessResponse) | Message(text: string) | Uploads(histories: seq<DocumentHistory>)

  /** UnauthorizedResult, BadRequestObjectResult, and an object result with its status code. */
  datatype ActionResult = Unauthorized | BadRequest(message: string) | ObjectResult(status: int, body: Body)

  // ---------------------------------------------------------------------------
  // The shared secret

  /**
   * The constructor's choice of the shared secret, as written: when Security:KeyName
   * names a secret, the fallback to Security:Token is not checked for null, so the
   * secret can be null (None).
   */
  function ResolveSecretAsWritten(config: map<string, string>): Result<Option<string>, Exception>
  {
    if KeyNameSetting !in config then Err(Exception(InvalidOperation, MissingKeyName))
    else
      var secretName := config[KeyNameSetting];
      if !IsBlank(secretName) then
        if secretName in config then Ok(Some(config[secretName]))
        else if TokenSetting in config then Ok(Some(config[TokenSetting]))
        else Ok(None)
      else if TokenSetting in config then Ok(Some(config[TokenSetting]))
      else Err(Exception(InvalidOperation, MissingToken))
  }

  /** The guard as written: a null secret interpolates as the empty string. */
  predicate GuardAsWritten(header: string, secret: Option<string>)
  {
    header == BearerPrefix + (if secret.Some? then secret.value else "")
  }

  /**
   * With Security:KeyName naming a secret that is not configured and no
   * Security:Token, the secret is null and the bare header "Bearer " passes the guard.
   */
  lemma UnsetSecretAdmitsBareBearer()
    ensures var config := map[KeyNameSetting := "Security:Secret"];
      ResolveSecretAsWritten(config) == Ok(None) && GuardAsWritten("Bearer ", ResolveSecretAsWritten(config).value)
  {
    var config := map[KeyNameSetting := "Security:Secret"];
    assert !IsBlank("Security:Secret") by {
      assert !IsWhiteSpace("Security:Secret"[0]);
    }
    assert "Security:Secret" != KeyNameSetting;
  }

  /** The secret the endpoints compare against, failing like the other branch when none is configured. */
  function ResolveSecret(config: map<string, string>): Result<string, Exception>
  {
    if KeyNameSetting !in config then Err(Exception(InvalidOperation, MissingKeyName))
    else
      var secretName := config[KeyNameSetting];
      if !IsBlank(secretName) && secretName in config then Ok(config[secretName])
      else if TokenSetting in config then Ok(config[TokenSetting])
      else Err(Exception(InvalidOperation, MissingToken))
  }

  /**
   * The resolved secret is always a configured value: the one Security:KeyName names
   * when that is set, otherwise Security:Token; and it agrees with the code as written
   * wherever that finds a secret.
   */
  lemma ResolveSecretConfigured(config: map<string, string>)
    ensures var r := ResolveSecret(config);
      && (r.Ok? <==> KeyNameSetting in config
                     && ((!IsBlank(config[KeyNameSetting]) && config[KeyNameSetting] in config) || TokenSetting in config))
      && (r.Ok? ==> (var name := config[KeyNameSetting];
                     if !IsBlank(name) && name in config then r.value == config[name] else r.value == config[TokenSetting]))
      && (ResolveSecretAsWritten(config).Ok? && ResolveSecretAsWritten(config).value.Some? ==>
            r == Ok(ResolveSecretAsWritten(config).value.value))
      && (ResolveSecretAsWritten(config).Err? ==> r == Err(ResolveSecretAsWritten(config).error))
  {
  }

  /** The bearer guard every endpoint applies first. */
  predicate Authorized(header: string, secret: string)
  {
    header == BearerPrefix + secret
  }

  /** The guard accepts exactly one header per secret, and is case- and space-sensitive about the scheme. */
  lemma AuthorizedExactly(header: string, secret: string)
    ensures Authorized(header, secret) <==>
              |header| == |BearerPrefix| + |secret| && header[..|BearerPrefix|] == BearerPrefix && header[|BearerPrefix|..] == secret
    ensures !Authorized("bearer " + secret, secret) && !Authorized(secret, secret)
  {
    if |header| == |BearerPrefix| + |secret| && header[..|BearerPrefix|] == BearerPrefix && header[|BearerPrefix|..] == secret {
      assert header == header[..|BearerPrefix|] + header[|BearerPrefix|..];
    }
    assert ("bearer " + secret)[0] != (BearerPrefix + secret)[0];
    assert |secret| != |BearerPrefix + secret|;
  }

  // ---------------------------------------------------------------------------
  // Run: the orchestrator endpoint

  /** The request handed to the pipeline: an empty Conversation_id replaced by the fresh id. */
  function Admitted(req: RequestBody, freshId: string): RequestBody
  {
    if req.conversationId == "" then req.(conversationId := freshId) else req
  }

  /** Only the conversation id may change, and it is never empty afterwards. */
  lemma AdmittedKeepsRequest(req: RequestBody, freshId: string)
    requires freshId != ""
    ensures var a := Admitted(req, freshId);
      && a.personId == req.personId && a.tags == req.tags && a.query == req.query
      && a.conversationId != ""
      && (req.conversationId != "" ==> a.conversationId == req.conversationId)
      && (req.conversationId == "" ==> a.conversationId == freshId)
  {
  }

  /** GetProperty(name).GetString(): the string, None for a JSON null, or the exception thrown. */
  function StringProperty(j: Json, name: string): Result<Option<string>, Exception>
  {
    match j
    case JObject(props) =>
      if name !in props then Err(Exception(KeyNotFound, PropertyMissing))
      else (match props[name]
            case JString(s) => Ok(Some(s))
            case JNull => Ok(None)
            case _ => Err(Exception(InvalidOperation, NotAString)))
    case _ => Err(Exception(InvalidOperation, NotAnObject))
  }

  /** A property that must be a non-null string. */
  function RequiredString(j: Json, name: string, missing: string): Result<string, Exception>
  {
    match StringProperty(j, name)
    case Err(e) => Err(e)
    case Ok(None) => Err(Exception(InvalidOperation, missing))
    case Ok(Some(s)) => Ok(s)
  }

  /** The answer and the thoughts, read in that order. */
  function AnswerFields(j: Json): Result<(string, string), Exception>
  {
    match RequiredString(j, "answer", MissingAnswer)
    case Err(e) => Err(e)
    case Ok(a) =>
      match RequiredString(j, "thoughts", MissingThoughts)
      case Err(e) => Err(e)
      case Ok(t) => Ok((a, t))
  }

  /** The response to an admitted request, given what the pipeline returned or threw. */
  function Respond(conversationId: string, outcome: Result<Json, Exception>): ActionResult
  {
    var fields: Result<(string, string), Exception> := if outcome.Err? then Err(outcome.error) else AnswerFields(outcome.value);
    match fields
    case Ok(pair) => ObjectResult(OkStatus, Response(ProcessResponse(pair.0, pair.1, true, SuccessDetail, "", conversationId)))
    case Err(e) => ObjectResult(ServerErrorStatus, Response(EmptyResponse.(detail := FailDetail, error := e.message, conversationId := conversationId)))
  }

  /**
   * An admitted request always gets a ProcessResponse echoing its conversation id.
   * It is 200 with Current_state true exactly when the pipeline returned an object
   * whose answer and thoughts are strings, and then carries them with Detail
   * "Success". Otherwise it is 500 with Current_state false, Detail "Fail", no answer,
   * and the message of the exception: the pipeline's own, or "Failed to get answer"
   * / "Failed to get thoughts" for a null field.
   */
  lemma RespondShape(conversationId: string, outcome: Result<Json, Exception>)
    ensures var r := Respond(conversationId, outcome);
      && r.ObjectResult? && r.body.Response?
      && r.body.response.conversationId == conversationId
      && (r.status == OkStatus <==> r.body.response.currentState)
      && (r.status == OkStatus || r.status == ServerErrorStatus)
      && (r.status == OkStatus <==>
            outcome.Ok? && StringProperty(outcome.value, "answer").Ok? && StringProperty(outcome.value, "answer").value.Some?
            && StringProperty(outcome.value, "thoughts").Ok? && StringProperty(outcome.value, "thoughts").value.Some?)
      && (r.status == OkStatus ==>
            && r.body.response.answer == outcome.value.properties["answer"].s
            && r.body.response.thoughts == outcome.value.properties["thoughts"].s
            && r.body.response.detail == SuccessDetail)
      && (r.status == ServerErrorStatus ==>
            && r.body.response.detail == FailDetail && r.body.response.answer == "" && r.body.response.thoughts == "")
      && (outcome.Err? ==> r.body.response.error == outcome.error.message)
      && (outcome.Ok? && StringProperty(outcome.value, "answer") == Ok(None) ==> r.body.response.error == MissingAnswer)
      && ((outcome.Ok? && StringProperty(outcome.value, "answer").Ok? && StringProperty(outcome.value, "answer").value.Some?
           && StringProperty(outcome.value, "thoughts") == Ok(None)) ==> r.body.response.error == MissingThoughts)
  {
  }

  // ---------------------------------------------------------------------------
  // UploadFile

  /**
   * The upload loop: each named file is uploaded in turn; a file without a name stops
   * the loop with a bad request and a failed upload with an error, leaving the files
   * before it uploaded. Returns the response and the names uploaded.
   */
  function Uploading(files: seq<string>, upload: string -> Option<Exception>): (ActionResult, seq<string>)
    decreases |files|
  {
    if files == [] then (ObjectResult(OkStatus, Message(FilesUploaded)), [])
    else if files[0] == "" then (BadRequest(FileRequired), [])
    else if upload(files[0]).Some? then (ObjectResult(ServerErrorStatus, Message(ServerError)), [files[0]])
    else
      var rest := Uploading(files[1..], upload);
      (rest.0, [files[0]] + rest.1)
  }

  /**
   * The files attempted are a prefix of the form's files. All of them are uploaded,
   * and the answer is 200, exactly when every file has a name and every upload
   * succeeds. A bad request names the first file without a name, after uploading
   * every file before it; an error follows a failed upload, which is the last attempted.
   */
  lemma {:induction false} UploadingOutcome(files: seq<string>, upload: string -> Option<Exception>)
    ensures var (r, attempted) := Uploading(files, upload);
      && |attempted| <= |files| && attempted == files[..|attempted|]
      && (r == ObjectResult(OkStatus, Message(FilesUploaded)) <==>
            forall i :: 0 <= i < |files| ==> files[i] != "" && upload(files[i]).None?)
      && (r.ObjectResult? && r.status == OkStatus ==> attempted == files)
      && (r.BadRequest? ==>
            && r.message == FileRequired
            && |attempted| < |files| && files[|attempted|] == ""
            && forall i :: 0 <= i < |attempted| ==> attempted[i] != "" && upload(attempted[i]).None?)
      && (r.ObjectResult? && r.status != OkStatus ==>
            && r == ObjectResult(ServerErrorStatus, Message(ServerError))
            && |attempted| > 0 && upload(attempted[|attempted| - 1]).Some?
            && forall i :: 0 <= i < |attempted| - 1 ==> upload(attempted[i]).None?)
      && !r.Unauthorized?
    decreases |files|
  {
    if files != [] && files[0] != "" && upload(files[0]).None? {
      UploadingOutcome(files[1..], upload);
      var rest := Uploading(files[1..], upload);
      var attempted := [files[0]] + rest.1;
      assert attempted == files[..|attempted|] by {
        assert files == [files[0]] + files[1..];
      }
      if rest.0 == ObjectResult(OkStatus, Message(FilesUploaded)) {
        forall i | 0 <= i < |files| ensures files[i] != "" && upload(files[i]).None? {
          if i > 0 { assert files[i] == files[1..][i - 1]; }
        }
      } else {
        var k :| 0 <= k < |files[1..]| && !(files[1..][k] != "" && upload(files[1..][k]).None?);
        assert !(files[k + 1] != "" && upload(files[k + 1]).None?);
      }
      forall i | 0 <= i < |attempted| - 1 && rest.0.ObjectResult? && rest.0.status != OkStatus
        ensures upload(attempted[i]).None?
      {
        if i > 0 { assert attempted[i] == rest.1[i - 1]; }
      }
      forall i | 0 <= i < |attempted| && rest.0.BadRequest? ensures attempted[i] != "" && upload(attempted[i]).None? {
        if i > 0 { assert attempted[i] == rest.1[i - 1]; }
      }
    } else if files != [] {
      assert !(files[0] != "" && upload(files[0]).None?);
    }
  }

  /** One more named file uploaded without error: the loop goes on with the rest. */
  lemma UploadingStep(files: seq<string>, i: nat, upload: string -> Option<Exception>)
    requires i < |files| && files[i] != "" && upload(files[i]).None?
    ensures Uploading(files[i..], upload) == (Uploading(files[i + 1..], upload).0, [files[i]] + Uploading(files[i + 1..], upload).1)
  {
    assert files[i..][1..] == files[i + 1..];
  }

  // ---------------------------------------------------------------------------
  // The endpoints

  class FunctionAIOrchestrator {
    /** The secret the bearer guard compares against. */
    const secret: string
    /** IProcess.RunProcessAsync: the pipeline's parsed answer, or what it throws. */
    const process: RequestBody -> Result<Json, Exception>
    /** IBlobProcess.GenerateReadSasTokenAsync. */
    const generateSas: string -> Result<string, Exception>
    /** IBlobProcess.UploadFileAsync: Some when the upload throws. */
    const upload: string -> Option<Exception>
    const store: ConversationStore

    constructor (secret: string, process: RequestBody -> Result<Json, Exception>,
                 generateSas: string -> Result<string, Exception>, upload: string -> Option<Exception>,
                 store: ConversationStore)
      ensures this.secret == secret && this.process == process && this.generateSas == generateSas
      ensures this.upload == upload && this.store == store
    {
      this.secret := secret;
      this.process := process;
      this.generateSas := generateSas;
      this.upload := upload;
      this.store := store;
    }

    /**
     * Run: the guard, then the body, then the prompt check, then the conversation id,
     * then the pipeline, whose answer or failure is shaped into a ProcessResponse. A
     * body that is not JSON throws out of the endpoint. Also returns the request the
     * pipeline was called with, if it was called.
     */
    method Run(authorization: string, body: Result<Option<RequestBody>, Exception>, freshId: string)
      returns (result: Result<ActionResult, Exception>, invoked: Option<RequestBody>)
      requires freshId != ""
      ensures !Authorized(authorization, secret) ==> result == Ok(Unauthorized) && invoked.None?
      ensures Authorized(authorization, secret) && body.Err? ==> result == Err(body.error) && invoked.None?
      ensures Authorized(authorization, secret) && body.Ok? && (body.value.None? || body.value.value.query == "") ==>
        result == Ok(BadRequest(EmptyPrompt)) && invoked.None?
      ensures Authorized(authorization, secret) && body.Ok? && body.value.Some? && body.value.value.query != "" ==>
        && invoked == Some(Admitted(body.value.value, freshId))
        && result == Ok(Respond(invoked.value.conversationId, process(invoked.value)))
    {
      if authorization != BearerPrefix + secret {
        return Ok(Unauthorized), None;
      }
      if body.Err? {
        return Err(body.error), None;
      }
      var parsed := body.value;
      if parsed.None? || parsed.value.query == "" {
        return Ok(BadRequest(EmptyPrompt)), None;
      }
      var requestUser := parsed.value;
      if requestUser.conversationId == "" {
        requestUser := requestUser.(conversationId := freshId);
      }
      invoked := Some(requestUser);

      var processResponse := EmptyResponse;
      var answerObject := process(requestUser);
      var failure: Option<Exception> := None;
      if answerObject.Err? {
        failure := Some(answerObject.error);
      } else {
        var ans := RequiredString(answerObject.value, "answer", MissingAnswer);
        if ans.Err? {
          failure := Some(ans.error);
        } else {
          var thoughts := RequiredString(answerObject.value, "thoughts", MissingThoughts);
          if thoughts.Err? {
            failure := Some(thoughts.error);
          } else {
            processResponse := processResponse.(answer := ans.value);
            processResponse := processResponse.(thoughts := thoughts.value);
            processResponse := processResponse.(currentState := true);
            processResponse := processResponse.(detail := SuccessDetail);
            processResponse := processResponse.(conversationId := requestUser.conversationId);
          }
        }
      }
      if failure.Some? {
        processResponse := processResponse.(currentState := false);
        processResponse := processResponse.(detail := FailDetail);
        processResponse := processResponse.(error := failure.value.message);
        processResponse := processResponse.(conversationId := requestUser.conversationId);
        return Ok(ObjectResult(ServerErrorStatus, Response(processResponse))), invoked;
      }
      return Ok(ObjectResult(OkStatus, Response(processResponse))), invoked;
    }

    /**
     * GetToken: the guard, the body, the blob name check, then the SAS token or a
     * generic error. A body that is not JSON throws out of the endpoint.
     */
    method GetToken(authorization: string, body: Result<Option<string>, Exception>)
      returns (result: Result<ActionResult, Exception>, requested: Option<string>)
      ensures !Authorized(authorization, secret) ==> result == Ok(Unauthorized) && requested.None?
      ensures Authorized(authorization, secret) && body.Err? ==> result == Err(body.error) && requested.None?
      ensures Authorized(authorization, secret) && body.Ok? && (body.value.None? || body.value.value == "") ==>
        result == Ok(BadRequest(EmptyBlobName)) && requested.None?
      ensures Authorized(authorization, secret) && body.Ok? && body.value.Some? && body.value.value != "" ==>
        && requested == body.value
        && (generateSas(body.value.value).Ok? ==> result == Ok(ObjectResult(OkStatus, Message(generateSas(body.value.value).value))))
        && (generateSas(body.value.value).Err? ==> result == Ok(ObjectResult(ServerErrorStatus, Message(ServerError))))
    {
      if authorization != BearerPrefix + secret {
        return Ok(Unauthorized), None;
      }
      if body.Err? {
        return Err(body.error), None;
      }
      var blobName := body.value;
      if blobName.None? || blobName.value == "" {
        return Ok(BadRequest(EmptyBlobName)), None;
      }
      var token := generateSas(blobName.value);
      if token.Err? {
        return Ok(ObjectResult(ServerErrorStatus, Message(ServerError))), blobName;
      }
      return Ok(ObjectResult(OkStatus, Message(token.value))), blobName;
    }

    /**
     * UploadFile: the guard, then each file of the form in turn. A form that cannot
     * be read is a generic error. Returns the names handed to the upload.
     */
    method UploadFile(authorization: string, form: Result<seq<string>, Exception>)
      returns (result: ActionResult, uploaded: seq<string>)
      ensures !Authorized(authorization, secret) ==> result == Unauthorized && uploaded == []
      ensures Authorized(authorization, secret) && form.Err? ==>
        result == ObjectResult(ServerErrorStatus, Message(ServerError)) && uploaded == []
      ensures Authorized(authorization, secret) && form.Ok? ==> (result, uploaded) == Uploading(form.value, upload)
    {
      if authorization != BearerPrefix + secret {
        return Unauthorized, [];
      }
      if form.Err? {
        return ObjectResult(ServerErrorStatus, Message(ServerError)), [];
      }
      var files := form.value;
      uploaded := [];
      var i := 0;
      assert files[0..] == files && files[..0] == [];
      assert files[..0] + Uploading(files, upload).1 == Uploading(files, upload).1;
      while i < |files|
        invariant 0 <= i <= |files|
        invariant uploaded == files[..i]
        invariant Uploading(files, upload) == (Uploading(files[i..], upload).0, files[..i] + Uploading(files[i..], upload).1)
      {
        if files[i] == "" {
          assert files[..i] + [] == files[..i];
          return BadRequest(FileRequired), uploaded;
        }
        uploaded := uploaded + [files[i]];
        assert files[..i + 1] == files[..i] + [files[i]];
        if upload(files[i]).Some? {
          return ObjectResult(ServerErrorStatus, Message(ServerError)), uploaded;
        }
        UploadingStep(files, i, upload);
        ghost var rest := Uploading(files[i + 1..], upload);
        assert files[..i] + ([files[i]] + rest.1) == files[..i + 1] + rest.1;
        i := i + 1;
      }
      assert files[i..] == [];
      assert Uploading([], upload) == (ObjectResult(OkStatus, Message(FilesUploaded)), []);
      assert files[..i] + [] == files;
      assert Uploading(files[i..], upload) == Uploading([], upload);
      assert Uploading(files, upload) == (ObjectResult(OkStatus, Message(FilesUploaded)), files);
      assert uploaded == files;
      result := ObjectResult(OkStatus, Message(FilesUploaded));
      assert (result, uploaded) == Uploading(form.value, upload);
      return result, uploaded;
    }

    /** GetAllUploadStatus: the guard, then the last upload statuses or a generic error. */
    method GetAllUploadStatus(authorization: string, parse: string -> Option<Instant>, format: Instant -> string,
                              fault: Option<CosmosFault>)
      returns (result: ActionResult)
      ensures !Authorized(authorization, secret) ==> result == Unauthorized
      ensures Authorized(authorization, secret) && fault.Some? ==> result == ObjectResult(ServerErrorStatus, Message(ServerError))
      ensures Authorized(authorization, secret) && fault.None? ==>
        result == ObjectResult(OkStatus, Uploads(LastHistories(store.histories, parse, format)))
    {
      if authorization != BearerPrefix + secret {
        return Unauthorized;
      }
      var fileUploads := store.GetLastDocumentHistory(parse, format, fault);
      if fileUploads.Err? {
        return ObjectResult(ServerErrorStatus, Message(ServerError));
      }
      return ObjectResult(OkStatus, Uploads(fileUploads.value));
    }
  }

  /** The constructor: resolves the secret, or throws when none is configured. */
  method NewOrchestrator(config: map<string, string>, process: RequestBody -> Result<Json, Exception>,
                         generateSas: string -> Result<string, Exception>, upload: string -> Option<Exception>,
                         store: ConversationStore)
    returns (r: Result<FunctionAIOrchestrator, Exception>)
    ensures ResolveSecret(config).Err? ==> r == Err(ResolveSecret(config).error)
    ensures ResolveSecret(config).Ok? ==> r.Ok? && r.value.secret == ResolveSecret(config).value && r.value.store == store
  {
    var secret := ResolveSecret(config);
    if secret.Err? {
      return Err(secret.error);
    }
    var o := new FunctionAIOrchestrator(secret.value, process, generateSas, upload, store);
    return Ok(o);
  }
}
