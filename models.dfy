/**
 * The record shapes of Integration/Models: a conversation with its chats, the
 * upload-status documents, and the JSON values the pipeline hands back.
 * Nullable strings of the source are written as strings; null is the empty string,
 * which every check in the core treats the same way.
 */
module Models {
  import opened Common

  /** One message of a conversation: its text, who produced it, and when. */
  datatype Chat = Chat(text: string, mode: string, date: Instant)

  /** A stored conversation record, keyed externally by (sessionId, personId). */
  datatype Conversation = Conversation(
    id: string,
    sessionId: string,
    personId: string,
    dateCreate: Instant,
    dateModify: Instant,
    tags: map<string, string>,
    chats: seq<Chat>)

  /** An entry of the upload-status container; every field is a free-form string. */
  datatype DocumentHistory = DocumentHistory(
    id: string,
    fileName: string,
    state: string,
    startTimestamp: string,
    stateDescription: string,
    stateTimestamp: string)

  /** A parsed JSON element, as far as the core looks into it. */
  datatype Json =
    | JObject(properties: map<string, Json>)
    | JString(s: string)
    | JNull
    | JOther   // numbers, booleans, arrays

  /** The body of a request to the orchestrator endpoint. */
  datatype RequestBody = RequestBody(
    conversationId: string,
    personId: string,
    tags: Option<map<string, string>>,
    query: string)
}
