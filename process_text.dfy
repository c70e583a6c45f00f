/**
 * The text handling of cms-genai-rag-aiorchestrator/Process.cs: reading the history
 * size setting (Convert.ToInt16), rendering the chat history, and filling the final
 * prompt template with string.Replace.
 */
module ProcessText {
  import opened Common
  import opened Models

  const NoHistory := "no chat history available."
  /** Environment.NewLine on the hosts the function runs on. */
  const NewLine := "\n"
  const Int16Min := -0x8000
  const Int16Max := 0x7fff
  /** Stand for the runtime's messages of the two ways Convert.ToInt16 fails. */
  const FormatMessage := "The input string was not in a correct format."
  const OverflowMessage := "Value was either too large or too small for an Int16."

  // ---------------------------------------------------------------------------
  // Convert.ToInt16

  predicate IsDigit(c: char) { '0' <= c <= '9' }

  predicate AllDigits(s: string) { forall i :: 0 <= i < |s| ==> IsDigit(s[i]) }

  /** The number a run of decimal digits denotes. */
  function DigitsValue(ds: string): nat
    requires AllDigits(ds)
  {
    if ds == [] then 0 else DigitsValue(ds[..|ds| - 1]) * 10 + (ds[|ds| - 1] as int - '0' as int)
  }

  /** An optional sign and one or more decimal digits, within the range of a 16-bit integer. */
  function ParseInt16(s: string): (r: Result<int, Exception>)
    ensures r.Ok? ==> Int16Min <= r.value <= Int16Max
  {
    var signed := |s| > 0 && (s[0] == '-' || s[0] == '+');
    var digits := if signed then s[1..] else s;
    if digits == [] || !AllDigits(digits) then Err(Exception(Format, FormatMessage))
    else
      var v: int := if |s| > 0 && s[0] == '-' then -(DigitsValue(digits) as int) else DigitsValue(digits);
      if v < Int16Min || v > Int16Max then Err(Exception(Overflow, OverflowMessage)) else Ok(v)
  }

  /** The decimal digits of a natural number, most significant first. */
  function Decimal(n: nat): (r: string)
    ensures r != [] && AllDigits(r)
  {
    if n < 10 then [('0' as int + n) as char] else Decimal(n / 10) + [('0' as int + n % 10) as char]
  }

  lemma {:induction false} DecimalValue(n: nat)
    ensures DigitsValue(Decimal(n)) == n
  {
    if n >= 10 {
      var d := Decimal(n);
      assert d[..|d| - 1] == Decimal(n / 10);
      DecimalValue(n / 10);
    }
  }

  /** The usual rendering of a setting such as "10" or "-3". */
  function Render(v: int): string
  {
    if v < 0 then "-" + Decimal(-v) else Decimal(v)
  }

  /** Reading back a rendered 16-bit value gives the value. */
  lemma ParseRender(v: int)
    requires Int16Min <= v <= Int16Max
    ensures ParseInt16(Render(v)) == Ok(v)
  {
    if v < 0 {
      var d := Decimal(-v);
      DecimalValue(-v);
      var s := Render(v);
      assert s == "-" + d;
      assert s[0] == '-' && s[1..] == d;
      assert DigitsValue(d) == -v;
    } else {
      var d := Decimal(v);
      DecimalValue(v);
      assert Render(v) == d;
      assert d[0] != '-' && d[0] != '+';
    }
  }

  /** A value outside the 16-bit range is an OverflowException, not a truncation. */
  lemma ParseOverflow(v: int)
    requires v > Int16Max
    ensures ParseInt16(Render(v)) == Err(Exception(Overflow, OverflowMessage))
  {
    var d := Decimal(v);
    DecimalValue(v);
    assert Render(v) == d;
    assert d[0] != '-' && d[0] != '+';
  }

  // ---------------------------------------------------------------------------
  // The history text

  function Line(c: Chat): string
  {
    c.mode + ": " + c.text + NewLine
  }

  /** What the StringBuilder holds after one AppendLine per chat. */
  function Lines(chats: seq<Chat>): (r: string)
    ensures chats != [] ==> |r| > 0 && r[|r| - 1] == '\n'
  {
    if chats == [] then "" else Lines(chats[..|chats| - 1]) + Line(chats[|chats| - 1])
  }

  /** The history text: the placeholder when there is no conversation, otherwise its chats' lines. */
  function HistoryText(conversation: Option<Conversation>): string
  {
    if conversation.None? then NoHistory else Lines(conversation.value.chats)
  }

  /**
   * The placeholder appears only when the store had no conversation: a conversation
   * with no chats gives the empty text, and any other gives lines ending in a newline.
   */
  lemma HistoryPlaceholderOnlyForNull(conversation: Option<Conversation>)
    ensures HistoryText(conversation) == NoHistory <==> conversation.None?
  {
    if conversation.Some? {
      var text := Lines(conversation.value.chats);
      assert text != NoHistory by {
        if conversation.value.chats != [] {
          assert text[|text| - 1] == '\n';
          assert NoHistory[|NoHistory| - 1] == '.';
        }
      }
    }
  }

  /**
   * The lines of two runs of chats are the lines of the first followed by those of
   * the second: the history of a conversation extended by an append extends its
   * earlier history text.
   */
  lemma {:induction false} LinesAppend(a: seq<Chat>, b: seq<Chat>)
    ensures Lines(a + b) == Lines(a) + Lines(b)
    decreases |b|
  {
    if b == [] {
      assert a + b == a;
    } else {
      var ab, front, last := a + b, b[..|b| - 1], b[|b| - 1];
      assert ab[..|ab| - 1] == a + front;
      assert Lines(ab) == Lines(a + front) + Line(last);
      assert Lines(b) == Lines(front) + Line(last);
      LinesAppend(a, front);
    }
  }

  /** The foreach over the chats, appending one line each. */
  method RenderHistory(chats: seq<Chat>) returns (text: string)
    ensures text == Lines(chats)
  {
    text := "";
    var i := 0;
    while i < |chats|
      invariant 0 <= i <= |chats|
      invariant text == Lines(chats[..i])
    {
      assert chats[..i + 1][..i] == chats[..i];
      text := text + chats[i].mode + ": " + chats[i].text + NewLine;
      i := i + 1;
    }
    assert chats[..i] == chats;
  }

  // ---------------------------------------------------------------------------
  // string.Replace and the prompt template

  /** Whether pattern occurs in s at index i. */
  predicate StartsAt(s: string, i: nat, pattern: string)
  {
    i + |pattern| <= |s| && s[i..i + |pattern|] == pattern
  }

  /** string.Replace: every occurrence, scanning left to right without overlaps. */
  function Replace(s: string, pattern: string, replacement: string): string
    requires pattern != []
    decreases |s|
  {
    if |s| < |pattern| then s
    else if s[..|pattern|] == pattern then replacement + Replace(s[|pattern|..], pattern, replacement)
    else [s[0]] + Replace(s[1..], pattern, replacement)
  }

  /** A prefix in which the pattern never starts is copied unchanged. */
  lemma {:induction false} ReplaceSkip(x: string, y: string, pattern: string, replacement: string)
    requires pattern != []
    requires forall i :: 0 <= i < |x| ==> !StartsAt(x + y, i, pattern)
    ensures Replace(x + y, pattern, replacement) == x + Replace(y, pattern, replacement)
    decreases |x|
  {
    if x != [] {
      var s := x + y;
      if |s| < |pattern| {
        assert Replace(y, pattern, replacement) == y;
      } else {
        assert !StartsAt(s, 0, pattern);
        assert s[0..|pattern|] == s[..|pattern|];
        assert Replace(s, pattern, replacement) == [s[0]] + Replace(s[1..], pattern, replacement);
        assert s[0] == x[0];
        assert s[1..] == x[1..] + y;
        forall i | 0 <= i < |x[1..]| ensures !StartsAt(x[1..] + y, i, pattern) {
          assert !StartsAt(s, i + 1, pattern);
          if i + |pattern| <= |x[1..] + y| {
            assert s[i + 1..i + 1 + |pattern|] == s[1..][i..i + |pattern|];
          }
        }
        ReplaceSkip(x[1..], y, pattern, replacement);
        assert x == [x[0]] + x[1..];
      }
    } else {
      assert x + y == y;
    }
  }

  /** An occurrence at the front is replaced. */
  lemma ReplaceHit(y: string, pattern: string, replacement: string)
    requires pattern != []
    ensures Replace(pattern + y, pattern, replacement) == replacement + Replace(y, pattern, replacement)
  {
    assert (pattern + y)[..|pattern|] == pattern;
    assert (pattern + y)[|pattern|..] == y;
  }

  /** The placeholder "{d}" for a digit d. */
  function Placeholder(d: char): string { ['{', d, '}'] }

  /** Another placeholder is copied over by a replacement of "{d}". */
  lemma SkipOther(e: char, y: string, d: char, replacement: string)
    requires e != d && e != '{'
    ensures Replace(Placeholder(e) + y, Placeholder(d), replacement) == Placeholder(e) + Replace(y, Placeholder(d), replacement)
  {
    var s := Placeholder(e) + y;
    assert s[0] == '{' && s[1] == e && s[2] == '}';
    forall i | 0 <= i < 3 ensures !StartsAt(s, i, Placeholder(d)) {
      assert i + 3 <= |s| ==> s[i..i + 3][0] == s[i] && s[i..i + 3][1] == s[i + 1];
    }
    ReplaceSkip(Placeholder(e), y, Placeholder(d), replacement);
  }

  /** No "{d}" occurs in s. */
  predicate Clear(s: string, d: char)
  {
    forall i :: 0 <= i < |s| ==> !StartsAt(s, i, Placeholder(d))
  }

  /** Text without '{' holds no placeholder. */
  lemma PlainIsClear(s: string, d: char)
    requires '{' !in s
    ensures Clear(s, d)
  {
    forall i | 0 <= i < |s| ensures !StartsAt(s, i, Placeholder(d)) {
      assert s[i] != '{';
    }
  }

  /** A replacement of "{d}" leaves text in which "{d}" does not occur as it was. */
  lemma ReplaceNothing(x: string, d: char, replacement: string)
    requires Clear(x, d)
    ensures Replace(x, Placeholder(d), replacement) == x
  {
    assert x + [] == x;
    ReplaceSkip(x, [], Placeholder(d), replacement);
  }

  /**
   * Text in which "{d}" does not occur is copied over when a placeholder follows it:
   * no occurrence can start in it and run on into the next '{'.
   */
  lemma SkipClear(x: string, y: string, d: char, replacement: string)
    requires Clear(x, d) && d != '{'
    requires y != [] && y[0] == '{'
    ensures Replace(x + y, Placeholder(d), replacement) == x + Replace(y, Placeholder(d), replacement)
  {
    var s := x + y;
    forall i | 0 <= i < |x| ensures !StartsAt(s, i, Placeholder(d)) {
      if i + 3 <= |x| {
        assert s[i..i + 3] == x[i..i + 3];
        assert !StartsAt(x, i, Placeholder(d));
      } else if i + 1 == |x| {
        assert s[i + 1] == '{';
        assert i + 3 <= |s| ==> s[i..i + 3][1] == s[i + 1];
      } else {
        assert s[i + 2] == '{';
        assert i + 3 <= |s| ==> s[i..i + 3][2] == s[i + 2];
      }
    }
    ReplaceSkip(x, y, Placeholder(d), replacement);
  }

  /** The final user prompt: {0} the query, then {1} the history, then {2} the document content. */
  function FillPrompt(template: string, query: string, history: string, documents: string): string
  {
    Replace(Replace(Replace(template, Placeholder('0'), query), Placeholder('1'), history), Placeholder('2'), documents)
  }

  /**
   * The first replacement puts the query in place of "{0}" and leaves the other
   * placeholders, when the template's own text holds no "{0}".
   */
  lemma FillFirst(t0: string, t1: string, t2: string, t3: string, query: string)
    requires Clear(t0, '0') && Clear(t1, '0') && Clear(t2, '0') && Clear(t3, '0')
    ensures Replace(t0 + ("{0}" + (t1 + ("{1}" + (t2 + ("{2}" + t3))))), Placeholder('0'), query)
         == t0 + (query + (t1 + ("{1}" + (t2 + ("{2}" + t3)))))
  {
    var p0, p1, p2 := Placeholder('0'), Placeholder('1'), Placeholder('2');
    assert p0 == "{0}" && p1 == "{1}" && p2 == "{2}";
    var tail := t1 + (p1 + (t2 + (p2 + t3)));
    ReplaceNothing(t3, '0', query);
    SkipOther('2', t3, '0', query);
    SkipClear(t2, p2 + t3, '0', query);
    SkipOther('1', t2 + (p2 + t3), '0', query);
    SkipClear(t1, p1 + (t2 + (p2 + t3)), '0', query);
    ReplaceHit(tail, p0, query);
    SkipClear(t0, p0 + tail, '0', query);
  }

  /** The second replacement puts the history in place of "{1}" when no other "{1}" occurs. */
  lemma FillSecond(lead: string, t2: string, t3: string, history: string)
    requires Clear(lead, '1') && Clear(t2, '1') && Clear(t3, '1')
    ensures Replace(lead + ("{1}" + (t2 + ("{2}" + t3))), Placeholder('1'), history)
         == lead + (history + (t2 + ("{2}" + t3)))
  {
    var p1, p2 := Placeholder('1'), Placeholder('2');
    assert p1 == "{1}" && p2 == "{2}";
    var rest := t2 + (p2 + t3);
    ReplaceNothing(t3, '1', history);
    SkipOther('2', t3, '1', history);
    SkipClear(t2, p2 + t3, '1', history);
    ReplaceHit(rest, p1, history);
    SkipClear(lead, p1 + rest, '1', history);
  }

  /** The third replacement puts the document content in place of "{2}" when no other "{2}" occurs. */
  lemma FillThird(lead: string, t3: string, documents: string)
    requires Clear(lead, '2') && Clear(t3, '2')
    ensures Replace(lead + ("{2}" + t3), Placeholder('2'), documents) == lead + (documents + t3)
  {
    var p2 := Placeholder('2');
    assert p2 == "{2}";
    ReplaceNothing(t3, '2', documents);
    ReplaceHit(t3, p2, documents);
    SkipClear(lead, p2 + t3, '2', documents);
  }

  /**
   * A template holding each placeholder once, in order, gets the query, the history
   * and the document content in those three places. The template's text, the query
   * and the history may hold braces, such as a JSON example or the JSON answers a
   * history stores. The only condition is that no placeholder occurs where a
   * replacement would find it first: no "{0}" in the template's text, no "{1}" from
   * the start up to the "{1}" placeholder or after it, and no "{2}" from the start up
   * to the "{2}" placeholder or after it.
   */
  lemma FillPromptPlaces(t0: string, t1: string, t2: string, t3: string, query: string, history: string, documents: string)
    requires Clear(t0, '0') && Clear(t1, '0') && Clear(t2, '0') && Clear(t3, '0')
    requires Clear(t0 + query + t1, '1') && Clear(t2, '1') && Clear(t3, '1')
    requires Clear(t0 + query + t1 + history + t2, '2') && Clear(t3, '2')
    ensures FillPrompt(t0 + "{0}" + t1 + "{1}" + t2 + "{2}" + t3, query, history, documents)
         == t0 + query + t1 + history + t2 + documents + t3
  {
    var template := t0 + "{0}" + t1 + "{1}" + t2 + "{2}" + t3;
    assert template == t0 + ("{0}" + (t1 + ("{1}" + (t2 + ("{2}" + t3)))));
    FillFirst(t0, t1, t2, t3, query);
    SecondInTemplate(t0, t1, t2, t3, query, history);
    ThirdInTemplate(t0, t1, t2, t3, query, history, documents);
  }

  /** The second replacement, applied to what the first one left of the template. */
  lemma SecondInTemplate(t0: string, t1: string, t2: string, t3: string, query: string, history: string)
    requires Clear(t0 + query + t1, '1') && Clear(t2, '1') && Clear(t3, '1')
    ensures Replace(t0 + (query + (t1 + ("{1}" + (t2 + ("{2}" + t3))))), Placeholder('1'), history)
         == (t0 + query + t1 + history + t2) + ("{2}" + t3)
  {
    var lead := t0 + query + t1;
    assert t0 + (query + (t1 + ("{1}" + (t2 + ("{2}" + t3))))) == lead + ("{1}" + (t2 + ("{2}" + t3)));
    FillSecond(lead, t2, t3, history);
    assert lead + (history + (t2 + ("{2}" + t3))) == (lead + history + t2) + ("{2}" + t3);
  }

  /** The third replacement, applied to what the second one left of the template. */
  lemma ThirdInTemplate(t0: string, t1: string, t2: string, t3: string, query: string, history: string, documents: string)
    requires Clear(t0 + query + t1 + history + t2, '2') && Clear(t3, '2')
    ensures Replace((t0 + query + t1 + history + t2) + ("{2}" + t3), Placeholder('2'), documents)
         == t0 + query + t1 + history + t2 + documents + t3
  {
    FillThird(t0 + query + t1 + history + t2, t3, documents);
  }

  /** The replacements run one after the other: a "{2}" typed in the query becomes the document content. */
  lemma FillPromptSequential(documents: string)
    ensures FillPrompt("{0}", "{2}", "", documents) == documents
  {
    var p0, p1, p2 := Placeholder('0'), Placeholder('1'), Placeholder('2');
    ReplaceHit([], p0, "{2}");
    assert Replace([], p0, "{2}") == [];
    assert p0 + [] == "{0}";
    assert Replace("{0}", p0, "{2}") == "{2}";
    SkipOther('2', [], '1', "");
    assert Replace([], p1, "") == [];
    assert p2 + [] == "{2}";
    assert Replace("{2}", p1, "") == "{2}";
    ReplaceHit([], p2, documents);
    assert Replace([], p2, documents) == [];
  }
}
