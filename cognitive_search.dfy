/**
 * Retrieval result assembly of Integration/Services/CognitiveSearchService.cs.
 *
 * The search SDK call is a parameter: given the text query and the options it
 * returns the result documents (field maps), a response whose Value is null, or
 * throws. Everything after it is string and sequence logic.
 */
module CognitiveSearch {
  import opened Common

  /** Result size, and k of the vector query. */
  const Top := 3
  const VectorField := "contentVector"
  const NoSource := "no source available."
  const MissingArguments := "Either query or embedding must be provided"
  const NullResult := "fail to get search result"
  /** Stands for the runtime's message when a non-string content value is cast to string. */
  const InvalidCastMessage := "Unable to cast object to type 'System.String'."
  const Separator := '\r'

  /** A field of a result document: a string, null (or absent), or any other JSON value. */
  datatype FieldValue = Str(s: string) | Null | Other

  type Document = map<string, FieldValue>

  datatype VectorQuery = VectorQuery(vector: seq<real>, k: nat, fields: seq<string>)

  datatype SearchOptions = SearchOptions(filter: string, size: nat, vectorQueries: seq<VectorQuery>)

  /** What SearchClient.SearchAsync gives back. */
  datatype SearchResponse =
    | Results(documents: seq<Document>)
    | NullValue
    | Failed(message: string)

  datatype SupportingContent = SupportingContent(title: string, content: string)

  /** The options SearchAsync sends: three results, and a vector query only for an embedding. */
  function Options(embedding: Option<seq<real>>): (o: SearchOptions)
    ensures o.size == Top && o.filter == ""
    ensures o.vectorQueries != [] <==> embedding.Some?
    ensures embedding.Some? ==> o.vectorQueries == [VectorQuery(embedding.value, Top, [VectorField])]
  {
    SearchOptions("", Top, if embedding.Some? then [VectorQuery(embedding.value, Top, [VectorField])] else [])
  }

  function FieldOf(d: Document, key: string): FieldValue
  {
    if key in d then d[key] else Null
  }

  /** content.Replace('\r', ' ').Replace('\n', ' ') */
  function Sanitize(s: string): (r: string)
    ensures |r| == |s|
    ensures Separator !in r && '\n' !in r
    ensures forall i :: 0 <= i < |s| ==> r[i] == (if s[i] == '\r' || s[i] == '\n' then ' ' else s[i])
  {
    if s == [] then []
    else [if s[0] == '\r' || s[0] == '\n' then ' ' else s[0]] + Sanitize(s[1..])
  }

  function Title(page: string, uri: string, document: string, documentUri: string): string
  {
    page + " Uri: " + uri + " Document: " + document + " Uri document: " + documentUri
  }

  /** One iteration of the loop over the results: an entry, a skip, or the failed cast of "content". */
  function Support(d: Document): Result<Option<SupportingContent>, Exception>
  {
    var content := FieldOf(d, "content");
    if content.Other? then Err(Exception(InvalidCast, InvalidCastMessage))
    else if FieldOf(d, "chunk_file").Str? && content.Str? && FieldOf(d, "chunk_uri").Str?
         && FieldOf(d, "file_name").Str? && FieldOf(d, "file_uri").Str?
    then
      Ok(Some(SupportingContent(
        Title(FieldOf(d, "chunk_file").s, FieldOf(d, "chunk_uri").s, FieldOf(d, "file_name").s, FieldOf(d, "file_uri").s),
        Sanitize(content.s))))
    else Ok(None)
  }

  /** A document yields an entry exactly when all five fields are strings, with that title and the sanitised content. */
  lemma SupportQualifies(d: Document)
    ensures Support(d).Ok? && Support(d).value.Some? <==>
      FieldOf(d, "chunk_file").Str? && FieldOf(d, "content").Str? && FieldOf(d, "chunk_uri").Str?
      && FieldOf(d, "file_name").Str? && FieldOf(d, "file_uri").Str?
    ensures Support(d).Ok? && Support(d).value.Some? ==>
      Support(d).value.value == SupportingContent(
        FieldOf(d, "chunk_file").s + " Uri: " + FieldOf(d, "chunk_uri").s + " Document: " + FieldOf(d, "file_name").s
          + " Uri document: " + FieldOf(d, "file_uri").s,
        Sanitize(FieldOf(d, "content").s))
    ensures Support(d).Err? <==> FieldOf(d, "content").Other?
  {
  }

  /** The entries gathered from the documents, in result order, or the first failed cast. */
  function Supports(docs: seq<Document>): (r: Result<seq<SupportingContent>, Exception>)
    ensures r.Ok? ==> |r.value| <= |docs|
  {
    if docs == [] then Ok([])
    else
      match Supports(docs[..|docs| - 1])
      case Err(e) => Err(e)
      case Ok(entries) =>
        match Support(docs[|docs| - 1])
        case Err(e) => Err(e)
        case Ok(None) => Ok(entries)
        case Ok(Some(entry)) => Ok(entries + [entry])
  }

  /** Gathering fails exactly when some document's content is neither a string nor null. */
  lemma {:induction false} SupportsFails(docs: seq<Document>)
    ensures Supports(docs).Err? <==> exists i :: 0 <= i < |docs| && FieldOf(docs[i], "content").Other?
  {
    if docs != [] {
      var front := docs[..|docs| - 1];
      SupportsFails(front);
      if exists i :: 0 <= i < |front| && FieldOf(front[i], "content").Other? {
        var i :| 0 <= i < |front| && FieldOf(front[i], "content").Other?;
        assert docs[i] == front[i];
      }
      if exists i :: 0 <= i < |docs| && FieldOf(docs[i], "content").Other? {
        var i :| 0 <= i < |docs| && FieldOf(docs[i], "content").Other?;
        if i < |front| { assert front[i] == docs[i]; }
      }
    }
  }

  /** No gathered content holds a carriage return or a line feed. */
  lemma {:induction false} SupportsSanitized(docs: seq<Document>)
    requires Supports(docs).Ok?
    ensures forall e :: e in Supports(docs).value ==> Separator !in e.content && '\n' !in e.content
  {
    if docs != [] {
      SupportsSanitized(docs[..|docs| - 1]);
    }
  }

  function Entry(e: SupportingContent): string
  {
    e.title + ":" + e.content
  }

  function Entries(es: seq<SupportingContent>): (r: seq<string>)
    ensures |r| == |es|
    ensures forall i :: 0 <= i < |es| ==> r[i] == Entry(es[i])
  {
    seq(|es|, i requires 0 <= i < |es| => Entry(es[i]))
  }

  /** string.Join("\r", parts) */
  function Join(parts: seq<string>): string
  {
    if parts == [] then ""
    else if |parts| == 1 then parts[0]
    else parts[0] + [Separator] + Join(parts[1..])
  }

  /** The string SearchAsync returns for the gathered entries. */
  function Assemble(es: seq<SupportingContent>): string
  {
    if es == [] then NoSource else Join(Entries(es))
  }

  /** The sentinel cannot be confused with real content: it comes back exactly when nothing qualified. */
  lemma AssembleSentinel(es: seq<SupportingContent>)
    ensures Assemble(es) == NoSource <==> es == []
  {
    if es != [] {
      var parts := Entries(es);
      var first := parts[0];
      assert first == es[0].title + ":" + es[0].content;
      assert first[|es[0].title|] == ':';
      var joined := Join(parts);
      if |parts| == 1 {
        assert joined == first;
      } else {
        assert joined == first + [Separator] + Join(parts[1..]);
        assert joined[|es[0].title|] == first[|es[0].title|];
      }
      assert ':' in joined;
      assert ':' !in NoSource;
    }
  }

  /** Splitting on '\r', as string.Split('\r') does. */
  function Split(s: string): (r: seq<string>)
    ensures |r| >= 1
  {
    if s == [] then [""]
    else
      var rest := Split(s[1..]);
      if s[0] == Separator then [""] + rest
      else [[s[0]] + rest[0]] + rest[1..]
  }

  lemma {:induction false} SplitPlain(x: string, y: string)
    requires Separator !in x
    ensures Split(x + y)[0] == x + Split(y)[0]
    ensures Split(x + y)[1..] == Split(y)[1..]
  {
    if x == [] {
      assert x + y == y;
    } else {
      var s := x + y;
      assert s[0] == x[0] && s[1..] == x[1..] + y;
      SplitPlain(x[1..], y);
      assert x == [x[0]] + x[1..];
    }
  }

  lemma SplitAt(x: string, y: string)
    requires Separator !in x
    ensures Split(x + [Separator] + y) == [x] + Split(y)
  {
    var t := [Separator] + y;
    SplitPlain(x, t);
    assert x + [Separator] + y == x + t;
    assert t[1..] == y;
    assert Split(t) == [""] + Split(y);
    var s := Split(x + t);
    assert s[0] == x + "";
    assert x + "" == x;
    assert s[1..] == Split(t)[1..] == Split(y);
    assert s == [s[0]] + s[1..];
  }

  /** Join then Split gives the parts back when no part holds the separator. */
  lemma {:induction false} SplitJoin(parts: seq<string>)
    requires parts != []
    requires forall p :: p in parts ==> Separator !in p
    ensures Split(Join(parts)) == parts
  {
    if |parts| == 1 {
      SplitPlain(parts[0], []);
      assert parts[0] + [] == parts[0];
    } else {
      SplitAt(parts[0], Join(parts[1..]));
      SplitJoin(parts[1..]);
    }
  }

  /**
   * Round trip: when no title holds a carriage return, the assembled string splits
   * on '\r' back into one "Title:Content" entry per qualifying document, in order.
   */
  lemma AssembleSplits(es: seq<SupportingContent>)
    requires es != []
    requires forall e :: e in es ==> Separator !in e.title && Separator !in e.content
    ensures Split(Assemble(es)) == Entries(es)
  {
    var parts := Entries(es);
    forall p | p in parts ensures Separator !in p {
      var i :| 0 <= i < |parts| && parts[i] == p;
      assert p == es[i].title + ":" + es[i].content;
      assert es[i] in es;
    }
    SplitJoin(parts);
  }

  /** SearchAsync as a function of its arguments and what the SDK answers. */
  function Search(query: Option<string>, embedding: Option<seq<real>>,
                  backend: (Option<string>, SearchOptions) -> SearchResponse): Result<string, Exception>
  {
    if query.None? && embedding.None? then Err(Exception(Argument, MissingArguments))
    else
      match backend(query, Options(embedding))
      case Failed(m) => Err(Exception(Gateway, m))
      case NullValue => Err(Exception(InvalidOperation, NullResult))
      case Results(docs) =>
        match Supports(docs)
        case Err(e) => Err(e)
        case Ok(es) => Ok(Assemble(es))
  }

  /**
   * The outcomes of a search: the argument guard before any call, the SDK failure
   * and the null-result failure, a failed cast, and otherwise the assembled entries,
   * which are the sentinel exactly when no document qualifies.
   */
  lemma SearchOutcomes(query: Option<string>, embedding: Option<seq<real>>,
                       backend: (Option<string>, SearchOptions) -> SearchResponse)
    ensures query.None? && embedding.None? ==> Search(query, embedding, backend) == Err(Exception(Argument, MissingArguments))
    ensures (query.Some? || embedding.Some?) && backend(query, Options(embedding)).Failed? ==>
      Search(query, embedding, backend) == Err(Exception(Gateway, backend(query, Options(embedding)).message))
    ensures (query.Some? || embedding.Some?) && backend(query, Options(embedding)).NullValue? ==>
      Search(query, embedding, backend) == Err(Exception(InvalidOperation, NullResult))
    ensures (query.Some? || embedding.Some?) && backend(query, Options(embedding)).Results? ==>
      var docs := backend(query, Options(embedding)).documents;
      (Supports(docs).Err? ==> Search(query, embedding, backend) == Err(Supports(docs).error))
      && (Supports(docs).Ok? ==> Search(query, embedding, backend) == Ok(Assemble(Supports(docs).value)))
    ensures (query.Some? || embedding.Some?) && backend(query, Options(embedding)).Results? ==>
      var docs := backend(query, Options(embedding)).documents;
      (Search(query, embedding, backend) == Ok(NoSource) <==> Supports(docs) == Ok([]))
  {
    if (query.Some? || embedding.Some?) && backend(query, Options(embedding)).Results? {
      var docs := backend(query, Options(embedding)).documents;
      if Supports(docs).Ok? {
        AssembleSentinel(Supports(docs).value);
      }
    }
  }

  /** The service method: guard, options, SDK call, then a loop over the results. */
  method SearchAsync(query: Option<string>, embedding: Option<seq<real>>,
                     backend: (Option<string>, SearchOptions) -> SearchResponse)
    returns (r: Result<string, Exception>)
    ensures r == Search(query, embedding, backend)
  {
    if query.None? && embedding.None? {
      return Err(Exception(Argument, MissingArguments));
    }
    var top := Top;
    var options := SearchOptions("", top, []);
    if embedding.Some? {
      options := options.(vectorQueries := [VectorQuery(embedding.value, top, [VectorField])]);
    }
    var response := backend(query, options);
    if response.Failed? {
      return Err(Exception(Gateway, response.message));
    }
    if response.NullValue? {
      return Err(Exception(InvalidOperation, NullResult));
    }
    var docs := response.documents;
    var sb: seq<SupportingContent> := [];
    var i := 0;
    while i < |docs|
      invariant 0 <= i <= |docs|
      invariant Supports(docs[..i]) == Ok(sb)
    {
      assert docs[..i + 1][..i] == docs[..i];
      var support := Support(docs[i]);
      if support.Err? {
        assert Supports(docs[..i + 1]).Err?;
        SupportsPrefixFails(docs, i + 1);
        return Err(support.error);
      }
      if support.value.Some? {
        sb := sb + [support.value.value];
      }
      i := i + 1;
    }
    assert docs[..i] == docs;
    if sb == [] {
      return Ok(NoSource);
    }
    return Ok(Join(Entries(sb)));
  }

  /** A failed cast in the first n documents is the failure of the whole gathering. */
  lemma {:induction false} SupportsPrefixFails(docs: seq<Document>, n: nat)
    requires n <= |docs|
    requires Supports(docs[..n]).Err?
    ensures Supports(docs) == Supports(docs[..n])
    decreases |docs| - n
  {
    if n < |docs| {
      assert docs[..n + 1][..n] == docs[..n];
      SupportsPrefixFails(docs, n + 1);
    } else {
      assert docs[..n] == docs;
    }
  }
}
