/**
 * The conversation store of Integration/Services/CosmosDbService.cs.
 *
 * The Cosmos DB containers are sequences in retrieval order: `records` for the
 * conversations, `histories` for the upload statuses. A fault the backend raises
 * while reading or writing is a parameter of the operation that meets it; so are
 * the clock and the freshly generated id.
 *
 * The functions below say what each operation does to a sequence of records; the
 * class ConversationStore performs the operations step by step on its fields and
 * is proved to agree with them.
 */
module CosmosStore {
  import opened Common
  import opened Models
  import opened Ordering
  import opened StringOrder

  /** int.MaxValue: the chat count UpdateChatsAsync asks for. */
  const Int32Max := 0x7fff_ffff
  const NotFoundStatus := 404
  const ConflictStatus := 409
  /** Cosmos DB's message for an item whose id is already taken in its partition. */
  const ConflictMessage := "Entity with the specified id already exists in the system."
  const ConversationNotFound := "Conversation not found."
  /** GetLastDocumentHistory reads at most this many upload statuses. */
  const HistoryLimit := 50
  /** The fixed timezone correction applied to upload-status timestamps. */
  const TimestampShift := -5 * SecondsPerHour

  /** A CosmosException raised by the backend: its HTTP status and its message. */
  datatype CosmosFault = CosmosFault(status: int, message: string)

  function Raise(f: CosmosFault): (e: Exception)
    ensures e.kind == Cosmos(f.status) && e.message == f.message
  {
    Exception(Cosmos(f.status), f.message)
  }

  // ---------------------------------------------------------------------------
  // Lookup by (SessionId, PersonId)

  predicate Matches(c: Conversation, sessionId: string, personId: string)
  {
    c.sessionId == sessionId && c.personId == personId
  }

  /** The records the query returns, in retrieval order. */
  function Matching(records: seq<Conversation>, sessionId: string, personId: string): (m: seq<Conversation>)
    ensures |m| <= |records|
  {
    if records == [] then []
    else
      var last := records[|records| - 1];
      Matching(records[..|records| - 1], sessionId, personId) + (if Matches(last, sessionId, personId) then [last] else [])
  }

  lemma {:induction false} MatchingEmpty(records: seq<Conversation>, sessionId: string, personId: string)
    ensures Matching(records, sessionId, personId) == [] <==>
            forall k :: 0 <= k < |records| ==> !Matches(records[k], sessionId, personId)
  {
    if records != [] {
      var front := records[..|records| - 1];
      MatchingEmpty(front, sessionId, personId);
      assert forall k :: 0 <= k < |front| ==> front[k] == records[k];
    }
  }

  /** The query's first result is the first matching record in retrieval order. */
  lemma {:induction false} MatchingFirst(records: seq<Conversation>, sessionId: string, personId: string, j: nat)
    requires j < |records| && Matches(records[j], sessionId, personId)
    requires forall k :: 0 <= k < j ==> !Matches(records[k], sessionId, personId)
    ensures Matching(records, sessionId, personId) != []
    ensures Matching(records, sessionId, personId)[0] == records[j]
  {
    var front := records[..|records| - 1];
    if j < |records| - 1 {
      MatchingFirst(front, sessionId, personId, j);
    } else {
      MatchingEmpty(front, sessionId, personId);
    }
  }

  // ---------------------------------------------------------------------------
  // The bounded history window

  function ChatDate(c: Chat): int { c.date }

  predicate IntLeq(a: int, b: int) { a <= b }

  /** OrderByDescending(c => c.Date). */
  function NewestFirst(chats: seq<Chat>): (r: seq<Chat>)
    ensures multiset(r) == multiset(chats)
  {
    SortDesc(chats, ChatDate, IntLeq)
  }

  /** The chats GetConversationAsync hands back for a stored history and a requested count. */
  function Window(chats: seq<Chat>, chatCount: int): (w: seq<Chat>)
    ensures |chats| <= chatCount ==> w == chats
  {
    if |chats| > chatCount then
      var sorted := NewestFirst(chats);
      if chatCount <= 0 then [] else sorted[..chatCount]
    else chats
  }

  /**
   * A longer history is cut to exactly chatCount chats (none for a negative count):
   * newest first, drawn from the stored chats, and no chat left out is newer than
   * any chat kept.
   */
  lemma WindowKeepsNewest(chats: seq<Chat>, chatCount: int)
    requires |chats| > chatCount
    ensures var w := Window(chats, chatCount);
      && |w| == (if chatCount < 0 then 0 else chatCount)
      && SortedDesc(w, ChatDate, IntLeq)
      && multiset(w) <= multiset(chats)
      && forall c, i :: c in multiset(chats) - multiset(w) && 0 <= i < |w| ==> c.date <= w[i].date
  {
    var sorted := NewestFirst(chats);
    var k := if chatCount < 0 then 0 else chatCount;
    SortDescSorted(chats, ChatDate, IntLeq);
    PrefixHoldsLargest(sorted, k, ChatDate, IntLeq);
    assert sorted == sorted[..k] + sorted[k..];
    assert multiset(sorted) == multiset(sorted[..k]) + multiset(sorted[k..]);
    assert Window(chats, chatCount) == sorted[..k];
  }

  /** Three chats ten minutes apart, window of two: the newest comes first. */
  lemma WindowExample()
    ensures var m1 := Chat("Mensaje 1", "", -1800);
      var m2 := Chat("Mensaje 2", "", -1200);
      var m3 := Chat("Mensaje 3", "", -600);
      Window([m1, m2, m3], 2) == [m3, m2]
  {
    var m1 := Chat("Mensaje 1", "", -1800);
    var m2 := Chat("Mensaje 2", "", -1200);
    var m3 := Chat("Mensaje 3", "", -600);
    var s3 := SortDesc([m3], ChatDate, IntLeq);
    assert [m3][1..] == [];
    assert s3 == [m3];
    var s23 := SortDesc([m2, m3], ChatDate, IntLeq);
    assert [m2, m3][1..] == [m3];
    assert !IntLeq(ChatDate(m3), ChatDate(m2));
    assert InsertDesc(m2, [], ChatDate, IntLeq) == [m2];
    assert s23 == [m3, m2];
    assert [m1, m2, m3][1..] == [m2, m3];
    assert [m3, m2][1..] == [m2];
    assert [m2][1..] == [];
    assert InsertDesc(m1, [], ChatDate, IntLeq) == [m1];
    assert InsertDesc(m1, [m2], ChatDate, IntLeq) == [m2, m1];
    assert InsertDesc(m1, [m3, m2], ChatDate, IntLeq) == [m3, m2, m1];
    assert NewestFirst([m1, m2, m3]) == [m3, m2, m1];
  }

  /** GetConversationAsync: null on a NotFound fault or no match; any other fault rethrown. */
  function Lookup(records: seq<Conversation>, sessionId: string, personId: string, chatCount: int,
                  fault: Option<CosmosFault>): Result<Option<Conversation>, Exception>
  {
    if fault.Some? then
      if fault.value.status == NotFoundStatus then Ok(None) else Err(Raise(fault.value))
    else
      var found := Matching(records, sessionId, personId);
      if found == [] then Ok(None)
      else Ok(Some(found[0].(chats := Window(found[0].chats, chatCount))))
  }

  /** Lookup yields null exactly on a NotFound fault, or with no fault and no matching record. */
  lemma LookupNull(records: seq<Conversation>, sessionId: string, personId: string, chatCount: int,
                   fault: Option<CosmosFault>)
    ensures Lookup(records, sessionId, personId, chatCount, fault) == Ok(None) <==>
            (fault.Some? && fault.value.status == NotFoundStatus) ||
            (fault.None? && forall k :: 0 <= k < |records| ==> !Matches(records[k], sessionId, personId))
  {
    MatchingEmpty(records, sessionId, personId);
  }

  /** Any fault other than NotFound reaches the caller unchanged. */
  lemma LookupRethrows(records: seq<Conversation>, sessionId: string, personId: string, chatCount: int,
                       fault: CosmosFault)
    requires fault.status != NotFoundStatus
    ensures Lookup(records, sessionId, personId, chatCount, Some(fault)).Err?
    ensures Lookup(records, sessionId, personId, chatCount, Some(fault)).error.kind == Cosmos(fault.status)
    ensures Lookup(records, sessionId, personId, chatCount, Some(fault)).error.message == fault.message
  {
  }

  /** The first matching record is the one returned, with only its chats windowed. */
  lemma LookupFirstMatch(records: seq<Conversation>, sessionId: string, personId: string, chatCount: int, j: nat)
    requires j < |records| && Matches(records[j], sessionId, personId)
    requires forall k :: 0 <= k < j ==> !Matches(records[k], sessionId, personId)
    ensures Lookup(records, sessionId, personId, chatCount, None)
         == Ok(Some(records[j].(chats := Window(records[j].chats, chatCount))))
  {
    MatchingFirst(records, sessionId, personId, j);
  }

  /** Two records for one key: the first one's chat is what comes back. */
  lemma LookupFirstExample(now: Instant)
    ensures var c1 := Conversation("1", "session1", "person1", now, now, map[], [Chat("Conv1-Chat1", "", now)]);
      var c2 := Conversation("2", "session1", "person1", now, now, map[], [Chat("Conv2-Chat1", "", now)]);
      var r := Lookup([c1, c2], "session1", "person1", 10, None);
      r.Ok? && r.value.Some? && |r.value.value.chats| > 0 && r.value.value.chats[0].text == "Conv1-Chat1"
  {
    var c1 := Conversation("1", "session1", "person1", now, now, map[], [Chat("Conv1-Chat1", "", now)]);
    var c2 := Conversation("2", "session1", "person1", now, now, map[], [Chat("Conv2-Chat1", "", now)]);
    LookupFirstMatch([c1, c2], "session1", "person1", 10, 0);
  }

  // ---------------------------------------------------------------------------
  // Items: identity is (id, partition key = SessionId)

  /** No two items share an id within a partition. */
  ghost predicate UniqueItems(records: seq<Conversation>)
  {
    forall i, j :: 0 <= i < j < |records| ==>
      !(records[i].id == records[j].id && records[i].sessionId == records[j].sessionId)
  }

  /** Where the item with this id lives in this partition, if anywhere. */
  function ItemIndex(records: seq<Conversation>, id: string, partition: string): (k: Option<nat>)
    ensures k.Some? ==> k.value < |records| && records[k.value].id == id && records[k.value].sessionId == partition
    ensures k.None? ==> forall i :: 0 <= i < |records| ==> !(records[i].id == id && records[i].sessionId == partition)
  {
    if records == [] then None
    else if records[0].id == id && records[0].sessionId == partition then Some(0)
    else
      match ItemIndex(records[1..], id, partition)
      case Some(k) => Some(k + 1)
      case None => None
  }

  /** UpsertItemAsync: replaces the item with the same id and partition, or inserts it. */
  function Upsert(records: seq<Conversation>, c: Conversation): seq<Conversation>
  {
    match ItemIndex(records, c.id, c.sessionId)
    case Some(k) => records[k := c]
    case None => records + [c]
  }

  /** CreateConversationAsync's stamping: a new id and both timestamps. */
  function Stamp(c: Conversation, newId: string, now: Instant): Conversation
  {
    c.(id := newId, dateCreate := now, dateModify := now)
  }

  /** The container after CreateConversationAsync, or the exception it throws. */
  function Create(records: seq<Conversation>, c: Conversation, newId: string, now: Instant,
                  fault: Option<CosmosFault>): Result<seq<Conversation>, Exception>
  {
    if fault.Some? then Err(Raise(fault.value))
    else if ItemIndex(records, newId, c.sessionId).Some? then Err(Exception(Cosmos(ConflictStatus), ConflictMessage))
    else Ok(records + [Stamp(c, newId, now)])
  }

  /**
   * A successful create appends the given record with a fresh non-empty id and
   * both timestamps set, leaving SessionId, PersonId, Tags and Chats as given and
   * every earlier record in place.
   */
  lemma CreateStamps(records: seq<Conversation>, c: Conversation, newId: string, now: Instant,
                     fault: Option<CosmosFault>)
    requires newId != ""
    requires UniqueItems(records)
    ensures var r := Create(records, c, newId, now, fault);
      && (r.Ok? <==> fault.None? && forall i :: 0 <= i < |records| ==> !(records[i].id == newId && records[i].sessionId == c.sessionId))
      && (r.Ok? ==>
           && |r.value| == |records| + 1
           && r.value[..|records|] == records
           && UniqueItems(r.value)
           && (var s := r.value[|records|];
               s.id == newId && s.id != "" && s.dateCreate == now && s.dateModify == now
               && s.sessionId == c.sessionId && s.personId == c.personId && s.tags == c.tags && s.chats == c.chats))
  {
    var r := Create(records, c, newId, now, fault);
    if r.Ok? {
      assert r.value[..|records|] == records;
    }
  }

  /** The container after UpdateChatsAsync, or the exception it throws. */
  function AppendChats(records: seq<Conversation>, sessionId: string, personId: string, chats: seq<Chat>,
                       now: Instant, readFault: Option<CosmosFault>, writeFault: Option<CosmosFault>)
    : Result<seq<Conversation>, Exception>
  {
    match Lookup(records, sessionId, personId, Int32Max, readFault)
    case Err(e) => Err(e)
    case Ok(None) => Err(Exception(General, ConversationNotFound))
    case Ok(Some(conv)) =>
      var updated := conv.(chats := conv.chats + chats, dateModify := now);
      if writeFault.Some? then Err(Raise(writeFault.value))
      else Ok(Upsert(records, updated))
  }

  /** Appending to a (SessionId, PersonId) with no record fails with "Conversation not found.". */
  lemma AppendNotFound(records: seq<Conversation>, sessionId: string, personId: string, chats: seq<Chat>,
                       now: Instant, writeFault: Option<CosmosFault>)
    requires forall k :: 0 <= k < |records| ==> !Matches(records[k], sessionId, personId)
    ensures AppendChats(records, sessionId, personId, chats, now, None, writeFault)
         == Err(Exception(General, ConversationNotFound))
  {
    MatchingEmpty(records, sessionId, personId);
  }

  /**
   * Appending to an existing conversation rewrites its first matching record only:
   * the full stored history followed by the new chats, in order, with DateModify
   * refreshed and everything else (id, keys, DateCreate, Tags) kept.
   */
  lemma AppendExtendsFirstMatch(records: seq<Conversation>, sessionId: string, personId: string,
                                chats: seq<Chat>, now: Instant, j: nat)
    requires UniqueItems(records)
    requires j < |records| && Matches(records[j], sessionId, personId)
    requires forall k :: 0 <= k < j ==> !Matches(records[k], sessionId, personId)
    requires |records[j].chats| <= Int32Max
    ensures AppendChats(records, sessionId, personId, chats, now, None, None)
         == Ok(records[j := records[j].(chats := records[j].chats + chats, dateModify := now)])
  {
    LookupFirstMatch(records, sessionId, personId, Int32Max, j);
    var updated := records[j].(chats := records[j].chats + chats, dateModify := now);
    var k := ItemIndex(records, updated.id, updated.sessionId);
    assert k.Some?;
    assert k.value == j;
  }

  /** A successful append keeps the number of records and the uniqueness of their ids. */
  lemma AppendKeepsItems(records: seq<Conversation>, sessionId: string, personId: string, chats: seq<Chat>,
                         now: Instant, readFault: Option<CosmosFault>, writeFault: Option<CosmosFault>)
    requires UniqueItems(records)
    ensures var r := AppendChats(records, sessionId, personId, chats, now, readFault, writeFault);
      r.Ok? ==> |r.value| == |records| && UniqueItems(r.value)
  {
    var r := AppendChats(records, sessionId, personId, chats, now, readFault, writeFault);
    if r.Ok? {
      var found := Matching(records, sessionId, personId);
      MatchingMember(records, sessionId, personId);
      assert found[0] in records;
      var conv := found[0].(chats := Window(found[0].chats, Int32Max));
      var updated := conv.(chats := conv.chats + chats, dateModify := now);
      var k := ItemIndex(records, updated.id, updated.sessionId);
      var i :| 0 <= i < |records| && records[i] == found[0];
      assert records[i].id == updated.id && records[i].sessionId == updated.sessionId;
      assert k.Some?;
      var after := records[k.value := updated];
      forall a, b | 0 <= a < b < |after|
        ensures !(after[a].id == after[b].id && after[a].sessionId == after[b].sessionId)
      {
        if a == k.value || b == k.value {
          assert updated.id == records[k.value].id && updated.sessionId == records[k.value].sessionId;
        }
      }
    }
  }

  lemma {:induction false} MatchingMember(records: seq<Conversation>, sessionId: string, personId: string)
    ensures forall c :: c in Matching(records, sessionId, personId) ==> c in records && Matches(c, sessionId, personId)
  {
    if records != [] {
      var front := records[..|records| - 1];
      MatchingMember(front, sessionId, personId);
      assert forall c :: c in front ==> c in records;
    }
  }

  /**
   * Round trip: a record created for a key that had none is what the next lookup
   * with a large enough count returns, chats unchanged and in stored order.
   */
  lemma CreateThenLookup(records: seq<Conversation>, c: Conversation, newId: string, now: Instant, chatCount: int)
    requires UniqueItems(records) && newId != ""
    requires forall k :: 0 <= k < |records| ==> !Matches(records[k], c.sessionId, c.personId)
    requires |c.chats| <= chatCount
    requires Create(records, c, newId, now, None).Ok?
    ensures Lookup(Create(records, c, newId, now, None).value, c.sessionId, c.personId, chatCount, None)
         == Ok(Some(Stamp(c, newId, now)))
  {
    var after := records + [Stamp(c, newId, now)];
    assert forall k :: 0 <= k < |records| ==> after[k] == records[k];
    LookupFirstMatch(after, c.sessionId, c.personId, chatCount, |records|);
  }

  // ---------------------------------------------------------------------------
  // Upload statuses

  /** A timestamp is parsed and, when it parses, shifted by the fixed offset and reformatted. */
  function ShiftTimestamp(t: string, parse: string -> Option<Instant>, format: Instant -> string): string
  {
    match parse(t)
    case Some(v) => format(v + TimestampShift)
    case None => t
  }

  function ShiftDocument(d: DocumentHistory, parse: string -> Option<Instant>, format: Instant -> string): (r: DocumentHistory)
    ensures r.id == d.id && r.fileName == d.fileName && r.state == d.state && r.stateDescription == d.stateDescription
  {
    d.(startTimestamp := ShiftTimestamp(d.startTimestamp, parse, format),
       stateTimestamp := ShiftTimestamp(d.stateTimestamp, parse, format))
  }

  function ShiftAll(docs: seq<DocumentHistory>, parse: string -> Option<Instant>, format: Instant -> string)
    : (r: seq<DocumentHistory>)
    ensures |r| == |docs|
    ensures forall i :: 0 <= i < |docs| ==> r[i] == ShiftDocument(docs[i], parse, format)
  {
    seq(|docs|, i requires 0 <= i < |docs| => ShiftDocument(docs[i], parse, format))
  }

  function StateKey(d: DocumentHistory): string { d.stateTimestamp }

  /** What GetLastDocumentHistory returns for the container's contents. */
  function LastHistories(histories: seq<DocumentHistory>, parse: string -> Option<Instant>, format: Instant -> string)
    : seq<DocumentHistory>
  {
    var taken := if |histories| <= HistoryLimit then histories else histories[..HistoryLimit];
    SortDesc(ShiftAll(taken, parse, format), StateKey, StrLeq)
  }

  /**
   * At most fifty statuses, the first ones the container yields; each with both
   * timestamps shifted when they parse and left alone when they do not; ordered by
   * descending state timestamp.
   */
  lemma LastHistoriesShape(histories: seq<DocumentHistory>, parse: string -> Option<Instant>, format: Instant -> string)
    ensures var r := LastHistories(histories, parse, format);
      var n := if |histories| <= HistoryLimit then |histories| else HistoryLimit;
      && |r| == n
      && multiset(r) == multiset(ShiftAll(histories[..n], parse, format))
      && SortedDesc(r, StateKey, StrLeq)
  {
    var n := if |histories| <= HistoryLimit then |histories| else HistoryLimit;
    assert histories[..|histories|] == histories;
    StrLeqTotalPreorder();
    SortDescSorted(ShiftAll(histories[..n], parse, format), StateKey, StrLeq);
  }

  // ---------------------------------------------------------------------------
  // The service object

  class ConversationStore {
    /** The conversations container, in retrieval order. */
    var records: seq<Conversation>
    /** The upload-status container, in retrieval order. */
    var histories: seq<DocumentHistory>

    ghost predicate Valid()
      reads this
    {
      UniqueItems(records)
    }

    constructor (records: seq<Conversation>, histories: seq<DocumentHistory>)
      requires UniqueItems(records)
      ensures Valid()
      ensures this.records == records && this.histories == histories
    {
      this.records := records;
      this.histories := histories;
    }

    /** GetConversationAsync: gathers every page of the query, then keeps the first record. */
    method GetConversation(sessionId: string, personId: string, chatCount: int, fault: Option<CosmosFault>)
      returns (r: Result<Option<Conversation>, Exception>)
      ensures r == Lookup(records, sessionId, personId, chatCount, fault)
    {
      if fault.Some? {
        if fault.value.status == NotFoundStatus {
          return Ok(None);
        }
        return Err(Raise(fault.value));
      }
      var conversations: seq<Conversation> := [];
      var i := 0;
      while i < |records|
        invariant 0 <= i <= |records|
        invariant conversations == Matching(records[..i], sessionId, personId)
      {
        assert records[..i + 1][..i] == records[..i];
        if Matches(records[i], sessionId, personId) {
          conversations := conversations + [records[i]];
        }
        i := i + 1;
      }
      assert records[..i] == records;
      if conversations == [] {
        return Ok(None);
      }
      var conversation := conversations[0];
      if |conversation.chats| > chatCount {
        conversation := conversation.(chats := Window(conversation.chats, chatCount));
      }
      return Ok(Some(conversation));
    }

    /** CreateConversationAsync: stamps id and timestamps, then creates the item. */
    method CreateConversation(c: Conversation, newId: string, now: Instant, fault: Option<CosmosFault>)
      returns (r: Result<Conversation, Exception>)
      requires Valid() && newId != ""
      modifies this
      ensures Valid() && histories == old(histories)
      ensures var expected := Create(old(records), c, newId, now, fault);
        && (expected.Ok? ==> r == Ok(Stamp(c, newId, now)) && records == expected.value)
        && (expected.Err? ==> r == Err(expected.error) && records == old(records))
    {
      var conversation := Stamp(c, newId, now);
      if fault.Some? {
        return Err(Raise(fault.value));
      }
      if ItemIndex(records, newId, c.sessionId).Some? {
        return Err(Exception(Cosmos(ConflictStatus), ConflictMessage));
      }
      CreateStamps(records, c, newId, now, fault);
      records := records + [conversation];
      return Ok(conversation);
    }

    /** UpdateChatsAsync: reloads the whole history, appends, and upserts. */
    method UpdateChats(sessionId: string, personId: string, chats: seq<Chat>, now: Instant,
                       readFault: Option<CosmosFault>, writeFault: Option<CosmosFault>)
      returns (r: Result<(), Exception>)
      requires Valid()
      modifies this
      ensures Valid() && histories == old(histories)
      ensures var expected := AppendChats(old(records), sessionId, personId, chats, now, readFault, writeFault);
        && (expected.Ok? ==> r == Ok(()) && records == expected.value)
        && (expected.Err? ==> r == Err(expected.error) && records == old(records))
    {
      var loaded := GetConversation(sessionId, personId, Int32Max, readFault);
      if loaded.Err? {
        return Err(loaded.error);
      }
      if loaded.value.None? {
        return Err(Exception(General, ConversationNotFound));
      }
      var conversation := loaded.value.value;
      conversation := conversation.(chats := conversation.chats + chats);
      conversation := conversation.(dateModify := now);
      if writeFault.Some? {
        return Err(Raise(writeFault.value));
      }
      AppendKeepsItems(records, sessionId, personId, chats, now, readFault, writeFault);
      records := Upsert(records, conversation);
      return Ok(());
    }

    /** GetLastDocumentHistory: takes fifty, shifts each one's timestamps, sorts. */
    method GetLastDocumentHistory(parse: string -> Option<Instant>, format: Instant -> string, fault: Option<CosmosFault>)
      returns (r: Result<seq<DocumentHistory>, Exception>)
      ensures fault.Some? ==> r == Err(Raise(fault.value))
      ensures fault.None? ==> r == Ok(LastHistories(histories, parse, format))
    {
      if fault.Some? {
        return Err(Raise(fault.value));
      }
      var docs := if |histories| <= HistoryLimit then histories else histories[..HistoryLimit];
      ghost var taken := docs;
      var i := 0;
      while i < |docs|
        invariant 0 <= i <= |docs| == |taken|
        invariant forall k :: 0 <= k < i ==> docs[k] == ShiftDocument(taken[k], parse, format)
        invariant forall k :: i <= k < |docs| ==> docs[k] == taken[k]
      {
        var doc := docs[i];
        var start := doc.startTimestamp;
        match parse(start) {
          case Some(v) => doc := doc.(startTimestamp := format(v + TimestampShift));
          case None =>
        }
        match parse(doc.stateTimestamp) {
          case Some(v) => doc := doc.(stateTimestamp := format(v + TimestampShift));
          case None =>
        }
        docs := docs[i := doc];
        i := i + 1;
      }
      assert docs == ShiftAll(taken, parse, format);
      return Ok(SortDesc(docs, StateKey, StrLeq));
    }
  }
}
