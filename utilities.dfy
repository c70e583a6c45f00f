/**
 * File-name normalisation of cms-genai-rag-aiorchestrator/Utilities/Utilities.cs.
 *
 * Paths use '/' as the directory separator, as on the Linux hosts the functions run
 * on. The name part (the file name without its extension) is lowercased, the Spanish
 * accented vowels and ñ are folded, every whitespace run becomes one '-', and a fixed
 * set of symbols is removed; the directory and the extension are kept as they are.
 */
module Utilities {
  import opened Common

  const Separator := '/'
  /** The message of the ArgumentException, with the parameter name the runtime appends. */
  const BlankFileName := "File name cannot be null or empty (Parameter 'fileName')"

  // ---------------------------------------------------------------------------
  // Path parts

  /** The index of the last occurrence of c in s, or -1. */
  function LastIndexOf(s: string, c: char): (r: int)
    ensures -1 <= r < |s|
    ensures r >= 0 ==> s[r] == c
  {
    if s == [] then -1
    else if s[|s| - 1] == c then |s| - 1
    else LastIndexOf(s[..|s| - 1], c)
  }

  /** No occurrence of c follows the index LastIndexOf finds, and -1 means there is none. */
  lemma {:induction false} LastIndexOfIsLast(s: string, c: char)
    ensures var r := LastIndexOf(s, c);
      forall j :: r < j < |s| ==> s[j] != c
    decreases |s|
  {
    if s != [] && s[|s| - 1] != c {
      LastIndexOfIsLast(s[..|s| - 1], c);
    }
  }

  /** Path.GetDirectoryName: everything before the last separator; the root for a file at the root; "" for a bare name. */
  function DirectoryName(path: string): string
  {
    var k := LastIndexOf(path, Separator);
    if k < 0 then ""
    else if k == 0 then (if |path| == 1 then "" else [Separator])
    else path[..k]
  }

  /** Path.GetFileName: everything after the last separator. */
  function FileName(path: string): string
  {
    path[LastIndexOf(path, Separator) + 1..]
  }

  /** Path.GetExtension: from the last '.' of the file name, or "" when there is none or it ends the name. */
  function Extension(path: string): string
  {
    var name := FileName(path);
    var dot := LastIndexOf(name, '.');
    if dot < 0 || dot == |name| - 1 then "" else name[dot..]
  }

  /** Path.GetFileNameWithoutExtension: the file name up to its last '.'. */
  function Stem(path: string): string
  {
    var name := FileName(path);
    var dot := LastIndexOf(name, '.');
    if dot < 0 then name else name[..dot]
  }

  /** Path.Combine of two relative parts. */
  function Combine(directory: string, name: string): string
  {
    if directory == "" then name
    else if name == "" then directory
    else if directory[|directory| - 1] == Separator then directory + name
    else directory + [Separator] + name
  }

  /** No character of s is the directory separator. */
  predicate NoSeparator(s: string)
  {
    forall i :: 0 <= i < |s| ==> s[i] != Separator
  }

  /** None of the parts after the directory holds a separator, and an extension starts with '.'. */
  lemma PartsWithoutSeparator(path: string)
    ensures NoSeparator(FileName(path)) && NoSeparator(Stem(path)) && NoSeparator(Extension(path))
    ensures Extension(path) == [] || Extension(path)[0] == '.'
  {
    var name := FileName(path);
    NameWithoutSeparator(path);
    var dot := LastIndexOf(name, '.');
    if dot >= 0 {
      SliceWithoutSeparator(name, 0, dot);
      SliceWithoutSeparator(name, dot, |name|);
    }
  }

  /** The file name holds no separator: it starts after the last one. */
  lemma NameWithoutSeparator(path: string)
    ensures NoSeparator(FileName(path))
  {
    LastIndexOfIsLast(path, Separator);
    var k := LastIndexOf(path, Separator);
    var name := FileName(path);
    forall j | 0 <= j < |name| ensures name[j] != Separator {
      assert name[j] == path[k + 1 + j];
    }
  }

  /** A slice of a text without separators has none either. */
  lemma SliceWithoutSeparator(s: string, lo: int, hi: int)
    requires NoSeparator(s) && 0 <= lo <= hi <= |s|
    ensures NoSeparator(s[lo..hi])
  {
    forall j | 0 <= j < hi - lo ensures s[lo..hi][j] != Separator {
      assert s[lo..hi][j] == s[lo + j];
    }
  }

  /** A file name splits into its stem and its extension, except that a final lone '.' is dropped. */
  lemma StemAndExtension(path: string)
    ensures var name := FileName(path);
      name == Stem(path) + Extension(path) || (name == Stem(path) + "." && Extension(path) == "")
  {
    var name := FileName(path);
    var dot := LastIndexOf(name, '.');
    if dot >= 0 {
      assert name == name[..dot] + name[dot..];
      if dot == |name| - 1 {
        assert name[dot..] == ".";
      }
    }
  }

  // ---------------------------------------------------------------------------
  // The name part

  /** ToLower for the Basic Latin and Latin-1 capitals (× excepted); other characters are kept. */
  function LowerChar(c: char): (r: char)
    ensures !('A' <= r <= 'Z')
  {
    if 'A' <= c <= 'Z' || ('\U{00C0}' <= c <= '\U{00DE}' && c != '\U{00D7}') then (c as int + 32) as char else c
  }

  /** The seven replacements: á é í ó ú ü ñ become a e i o u u n. */
  function FoldChar(c: char): char
  {
    match c
    case 'á' => 'a'
    case 'é' => 'e'
    case 'í' => 'i'
    case 'ó' => 'o'
    case 'ú' => 'u'
    case 'ü' => 'u'
    case 'ñ' => 'n'
    case _ => c
  }

  /** The lowercased and folded name, character by character. */
  function Fold(s: string): string
  {
    seq(|s|, i requires 0 <= i < |s| => FoldChar(LowerChar(s[i])))
  }

  /** The whitespace at the front of s removed. */
  function DropWhiteSpace(s: string): (r: string)
    ensures |r| <= |s|
  {
    if s != [] && IsWhiteSpace(s[0]) then DropWhiteSpace(s[1..]) else s
  }

  /** DropWhiteSpace removes a whitespace prefix, up to the first other character. */
  lemma {:induction false} DropWhiteSpaceSuffix(s: string)
    ensures var r := DropWhiteSpace(s);
      && (r == [] || !IsWhiteSpace(r[0]))
      && r == s[|s| - |r|..]
      && forall i :: 0 <= i < |s| - |r| ==> IsWhiteSpace(s[i])
    decreases |s|
  {
    if s != [] && IsWhiteSpace(s[0]) {
      DropWhiteSpaceSuffix(s[1..]);
      var r := DropWhiteSpace(s[1..]);
      assert s[1..][|s[1..]| - |r|..] == s[|s| - |r|..];
    }
  }

  /** Regex.Replace(s, @"\s+", "-"): each maximal whitespace run becomes one '-'. */
  function Hyphenate(s: string): string
    decreases |s|
  {
    if s == [] then []
    else if IsWhiteSpace(s[0]) then "-" + Hyphenate(DropWhiteSpace(s[1..]))
    else [s[0]] + Hyphenate(s[1..])
  }

  /** The characters the second regular expression removes. */
  predicate IsSymbol(c: char)
  {
    c == '@' || c == '#' || c == '$' || c == '&' || c == '%' || c == '+' || c == '/' || c == '=' || c == '\\' || c == '?'
  }

  /** Regex.Replace(s, @"[@#\$&%+/=\\?]", ""). */
  function StripSymbols(s: string): string
  {
    if s == [] then [] else if IsSymbol(s[0]) then StripSymbols(s[1..]) else [s[0]] + StripSymbols(s[1..])
  }

  /** The normalised name part. */
  function NormalizeName(stem: string): string
  {
    StripSymbols(Hyphenate(Fold(stem)))
  }

  /** NormalizeFileName: an ArgumentException for a blank name, otherwise the directory and the normalised file name. */
  function NormalizeFileName(fileName: string): Result<string, Exception>
  {
    if IsBlank(fileName) then Err(Exception(Argument, BlankFileName))
    else Ok(Combine(DirectoryName(fileName), NormalizeName(Stem(fileName)) + Extension(fileName)))
  }

  /** No character of s is whitespace. */
  predicate NoWhiteSpace(s: string)
  {
    forall i :: 0 <= i < |s| ==> !IsWhiteSpace(s[i])
  }

  /** No character of s is one of the removed symbols. */
  predicate NoSymbols(s: string)
  {
    forall i :: 0 <= i < |s| ==> !IsSymbol(s[i])
  }

  // ---------------------------------------------------------------------------
  // Properties

  /** Characters StripSymbols keeps are kept in order. */
  lemma {:induction false} StripKeeps(s: string, p: char -> bool)
    requires forall i :: 0 <= i < |s| ==> p(s[i])
    ensures forall i :: 0 <= i < |StripSymbols(s)| ==> p(StripSymbols(s)[i])
    decreases |s|
  {
    if s != [] {
      StripKeeps(s[1..], p);
      if !IsSymbol(s[0]) {
        var r := StripSymbols(s);
        forall i | 0 <= i < |r| ensures p(r[i]) {
          if i > 0 { assert r[i] == StripSymbols(s[1..])[i - 1]; }
        }
      }
    }
  }

  /** Hyphenation leaves no whitespace. */
  lemma {:induction false} HyphenateNoWhiteSpace(s: string)
    ensures forall i :: 0 <= i < |Hyphenate(s)| ==> !IsWhiteSpace(Hyphenate(s)[i])
    decreases |s|
  {
    if s != [] {
      if IsWhiteSpace(s[0]) {
        HyphenateNoWhiteSpace(DropWhiteSpace(s[1..]));
      } else {
        HyphenateNoWhiteSpace(s[1..]);
      }
    }
  }

  /** Symbol removal leaves no symbol. */
  lemma {:induction false} StripNoSymbols(s: string)
    ensures forall i :: 0 <= i < |StripSymbols(s)| ==> !IsSymbol(StripSymbols(s)[i])
    decreases |s|
  {
    if s != [] {
      StripNoSymbols(s[1..]);
    }
  }

  /** The normalised name holds no whitespace, none of the removed symbols, and no capital letter A-Z. */
  lemma NormalizeNameClean(stem: string)
    ensures var n := NormalizeName(stem);
      forall i :: 0 <= i < |n| ==> !IsWhiteSpace(n[i]) && !IsSymbol(n[i]) && !('A' <= n[i] <= 'Z')
  {
    var h := Hyphenate(Fold(stem));
    HyphenateNoWhiteSpace(Fold(stem));
    HyphenateNoCapitals(Fold(stem));
    StripKeeps(h, c => !IsWhiteSpace(c) && !('A' <= c <= 'Z'));
    StripNoSymbols(h);
  }

  /** Hyphenation adds only '-', so a string without capitals stays without them. */
  lemma {:induction false} HyphenateNoCapitals(s: string)
    requires forall i :: 0 <= i < |s| ==> !('A' <= s[i] <= 'Z')
    ensures forall i :: 0 <= i < |Hyphenate(s)| ==> !('A' <= Hyphenate(s)[i] <= 'Z')
    decreases |s|
  {
    if s != [] {
      DropWhiteSpaceSuffix(s[1..]);
      var rest := if IsWhiteSpace(s[0]) then DropWhiteSpace(s[1..]) else s[1..];
      forall i | 0 <= i < |rest| ensures !('A' <= rest[i] <= 'Z') {
        assert rest[i] == s[|s| - |rest| + i];
      }
      HyphenateNoCapitals(rest);
    }
  }

  /** A whitespace run followed by other text gives a single '-' before that text's hyphenation. */
  lemma HyphenateRun(w: string, y: string)
    requires w != [] && forall i :: 0 <= i < |w| ==> IsWhiteSpace(w[i])
    requires y == [] || !IsWhiteSpace(y[0])
    ensures Hyphenate(w + y) == "-" + Hyphenate(y)
  {
    forall i | 0 <= i < |w| - 1 ensures IsWhiteSpace(w[1..][i]) {
      assert w[1..][i] == w[i + 1];
    }
    DropAll(w[1..], y);
    assert IsWhiteSpace((w + y)[0]);
    assert (w + y)[1..] == w[1..] + y;
  }

  lemma {:induction false} DropAll(w: string, y: string)
    requires forall i :: 0 <= i < |w| ==> IsWhiteSpace(w[i])
    requires y == [] || !IsWhiteSpace(y[0])
    ensures DropWhiteSpace(w + y) == y
    decreases |w|
  {
    if w == [] {
      assert w + y == y;
    } else {
      assert IsWhiteSpace((w + y)[0]);
      assert (w + y)[1..] == w[1..] + y;
      forall i | 0 <= i < |w| - 1 ensures IsWhiteSpace(w[1..][i]) {
        assert w[1..][i] == w[i + 1];
      }
      DropAll(w[1..], y);
    }
  }

  /** Text without whitespace is not changed by hyphenation. */
  lemma {:induction false} HyphenatePlain(s: string)
    requires NoWhiteSpace(s)
    ensures Hyphenate(s) == s
    decreases |s|
  {
    if s != [] {
      HyphenatePlain(s[1..]);
    }
  }

  /** Text without symbols is not changed by the symbol removal. */
  lemma {:induction false} StripPlain(s: string)
    requires NoSymbols(s)
    ensures StripSymbols(s) == s
    decreases |s|
  {
    if s != [] {
      StripPlain(s[1..]);
    }
  }

  /** Normalising a normalised name changes nothing. */
  lemma NormalizeNameIdempotent(stem: string)
    ensures NormalizeName(NormalizeName(stem)) == NormalizeName(stem)
  {
    var n := NormalizeName(stem);
    NormalizeNameClean(stem);
    FoldedFixed(stem);
    assert Fold(n) == n;
    HyphenatePlain(n);
    StripPlain(n);
  }

  /** After folding, lowering and folding again changes no character. */
  predicate NormalizeNameFolded(stem: string)
  {
    var n := NormalizeName(stem);
    forall i :: 0 <= i < |n| ==> FoldChar(LowerChar(n[i])) == n[i]
  }

  /** The characters of the normalised name are fixed points of lowering and folding. */
  lemma FoldedFixed(stem: string)
    ensures NormalizeNameFolded(stem)
  {
    var f := Fold(stem);
    forall i | 0 <= i < |f| ensures FoldChar(LowerChar(f[i])) == f[i] {
      FoldCharFixed(stem[i]);
    }
    HyphenateKeeps(f);
    StripKeeps(Hyphenate(f), c => FoldChar(LowerChar(c)) == c);
  }

  lemma FoldCharFixed(c: char)
    ensures FoldChar(LowerChar(FoldChar(LowerChar(c)))) == FoldChar(LowerChar(c))
  {
  }

  /** Hyphenation keeps the fixed points of lowering and folding, since '-' is one. */
  lemma {:induction false} HyphenateKeeps(s: string)
    requires forall i :: 0 <= i < |s| ==> FoldChar(LowerChar(s[i])) == s[i]
    ensures forall i :: 0 <= i < |Hyphenate(s)| ==> FoldChar(LowerChar(Hyphenate(s)[i])) == Hyphenate(s)[i]
    decreases |s|
  {
    if s != [] {
      DropWhiteSpaceSuffix(s[1..]);
      var rest := if IsWhiteSpace(s[0]) then DropWhiteSpace(s[1..]) else s[1..];
      forall i | 0 <= i < |rest| ensures FoldChar(LowerChar(rest[i])) == rest[i] {
        assert rest[i] == s[|s| - |rest| + i];
      }
      HyphenateKeeps(rest);
    }
  }

  /**
   * A blank name is an ArgumentException. Otherwise the result keeps the directory
   * in front and the extension, verbatim, at the end, with the normalised name
   * between them.
   */
  lemma NormalizeFileNameParts(fileName: string)
    ensures IsBlank(fileName) <==> NormalizeFileName(fileName) == Err(Exception(Argument, BlankFileName))
    ensures !IsBlank(fileName) ==>
      var r := NormalizeFileName(fileName).value;
      var d, n, e := DirectoryName(fileName), NormalizeName(Stem(fileName)), Extension(fileName);
      && |d| <= |r| && r[..|d|] == d
      && |e| <= |r| && r[|r| - |e|..] == e
      && (d == "" ==> r == n + e)
      && (d != "" && n + e != "" ==> r[|r| - |n + e|..] == n + e && r[|d|..|r| - |n + e|] in {"", "/"})
  {
    if !IsBlank(fileName) {
      var r := NormalizeFileName(fileName).value;
      var d, n, e := DirectoryName(fileName), NormalizeName(Stem(fileName)), Extension(fileName);
      if d == "" {
        assert r == n + e;
        assert r[|r| - |e|..] == e;
      } else if n + e == "" {
        assert r == d;
        assert r[|r| - |e|..] == e;
      } else {
        var mid: string := if d[|d| - 1] == Separator then "" else "/";
        assert r == d + mid + (n + e);
        assert r[..|d|] == d;
        assert r[|r| - |n + e|..] == n + e;
        assert r[|d|..|r| - |n + e|] == mid;
        assert r[|r| - |e|..] == e;
      }
    }
  }

  /** Text without whitespace in front is copied before the hyphenation of the rest. */
  lemma {:induction false} HyphenateSplit(x: string, y: string)
    requires NoWhiteSpace(x)
    ensures Hyphenate(x + y) == x + Hyphenate(y)
    decreases |x|
  {
    if x == [] {
      assert x + y == y;
    } else {
      assert (x + y)[1..] == x[1..] + y;
      HyphenateSplit(x[1..], y);
    }
  }

  /** Two words around one space are joined by '-'. */
  lemma HyphenateWords(x: string, y: string)
    requires NoWhiteSpace(x)
    requires y == [] || !IsWhiteSpace(y[0])
    ensures Hyphenate(x + [' '] + y) == x + ['-'] + Hyphenate(y)
  {
    var w := [' '];
    assert x + w + y == x + (w + y);
    HyphenateSplit(x, w + y);
    HyphenateRun(w, y);
  }

  /** Folding works character by character, so it distributes over concatenation. */
  lemma FoldConcat(x: string, y: string)
    ensures Fold(x + y) == Fold(x) + Fold(y)
  {
  }

  /** Folding neither creates nor removes whitespace. */
  lemma FoldWhiteSpace(c: char)
    ensures IsWhiteSpace(FoldChar(LowerChar(c))) <==> IsWhiteSpace(c)
  {
  }

  /** A word without whitespace or symbols normalises to its folded form. */
  lemma NormalizeWord(w: string)
    requires NoWhiteSpace(w) && NoSymbols(w)
    ensures NormalizeName(w) == Fold(w)
  {
    forall i | 0 <= i < |w| ensures !IsWhiteSpace(Fold(w)[i]) && !IsSymbol(Fold(w)[i]) {
      FoldWhiteSpace(w[i]);
    }
    HyphenatePlain(Fold(w));
    StripPlain(Fold(w));
  }

  /**
   * A single space after a word without whitespace, before text that does not start
   * with whitespace, becomes '-', and the two sides normalise independently.
   */
  lemma NormalizeSpace(x: string, y: string)
    requires NoWhiteSpace(x) && (y == [] || !IsWhiteSpace(y[0]))
    ensures NormalizeName(x + [' '] + y) == NormalizeName(x) + ['-'] + NormalizeName(y)
  {
    var fx, fy := Fold(x), Fold(y);
    FoldConcat(x + [' '], y);
    FoldConcat(x, [' ']);
    assert Fold([' ']) == [' '];
    forall i | 0 <= i < |x| ensures !IsWhiteSpace(fx[i]) {
      FoldWhiteSpace(x[i]);
    }
    if y != [] {
      FoldWhiteSpace(y[0]);
    }
    HyphenateWords(fx, fy);
    HyphenatePlain(fx);
    StripConcat(fx + ['-'], Hyphenate(fy));
    StripConcat(fx, ['-']);
    assert StripSymbols(['-']) == ['-'];
  }

  /** A symbol after a word without whitespace disappears, and the two sides normalise independently. */
  lemma NormalizeSymbol(x: string, c: char, y: string)
    requires NoWhiteSpace(x) && IsSymbol(c)
    ensures NormalizeName(x + [c] + y) == NormalizeName(x) + NormalizeName(y)
  {
    var fx, fy := Fold(x), Fold(y);
    assert Fold(x + [c] + y) == fx + ([c] + fy) by {
      FoldConcat(x + [c], y);
      FoldConcat(x, [c]);
      assert Fold([c]) == [c];
    }
    assert NoWhiteSpace(fx) by {
      forall i | 0 <= i < |x| ensures !IsWhiteSpace(fx[i]) {
        FoldWhiteSpace(x[i]);
      }
    }
    assert Hyphenate(fx + ([c] + fy)) == fx + ([c] + Hyphenate(fy)) by {
      HyphenateSplit(fx, [c] + fy);
      assert ([c] + fy)[1..] == fy;
    }
    HyphenatePlain(fx);
    StripConcat(fx, [c] + Hyphenate(fy));
    assert ([c] + Hyphenate(fy))[1..] == Hyphenate(fy);
  }

  /** A word: not empty, with neither whitespace nor symbols. */
  predicate Word(w: string)
  {
    w != [] && NoWhiteSpace(w) && NoSymbols(w)
  }

  /** Three words separated by single spaces become their folded forms separated by '-'. */
  lemma SpacedWords(a: string, b: string, c: string)
    requires Word(a) && Word(b) && Word(c)
    ensures NormalizeName(a + [' '] + (b + [' '] + c)) == Fold(a) + ['-'] + (Fold(b) + ['-'] + Fold(c))
  {
    NormalizeSpace(b, c);
    NormalizeSpace(a, b + [' '] + c);
    NormalizeWord(a);
    NormalizeWord(b);
    NormalizeWord(c);
  }

  /** Four words separated by single spaces become their folded forms separated by '-'. */
  lemma SpacedFourWords(a: string, b: string, c: string, d: string)
    requires Word(a) && Word(b) && Word(c) && Word(d)
    ensures NormalizeName(a + [' '] + (b + [' '] + (c + [' '] + d))) == Fold(a) + ['-'] + (Fold(b) + ['-'] + (Fold(c) + ['-'] + Fold(d)))
  {
    SpacedWords(b, c, d);
    NormalizeSpace(a, b + [' '] + (c + [' '] + d));
    NormalizeWord(a);
  }

  /** Three words separated by two symbols become their folded forms run together. */
  lemma SymbolSeparatedWords(a: string, s1: char, b: string, s2: char, c: string)
    requires Word(a) && Word(b) && Word(c) && IsSymbol(s1) && IsSymbol(s2)
    ensures NormalizeName(a + [s1] + (b + [s2] + c)) == Fold(a) + (Fold(b) + Fold(c))
  {
    NormalizeSymbol(b, s2, c);
    NormalizeSymbol(a, s1, b + [s2] + c);
    NormalizeWord(a);
    NormalizeWord(b);
    NormalizeWord(c);
  }

  /** Symbol removal distributes over concatenation. */
  lemma {:induction false} StripConcat(x: string, y: string)
    ensures StripSymbols(x + y) == StripSymbols(x) + StripSymbols(y)
    decreases |x|
  {
    if x == [] {
      assert x + y == y;
    } else {
      assert (x + y)[1..] == x[1..] + y;
      StripConcat(x[1..], y);
    }
  }

  /** A path without '/' whose last '.' is at index dot splits there. */
  lemma BareName(path: string, dot: nat)
    requires Separator !in path
    requires dot < |path| - 1 && path[dot] == '.' && '.' !in path[dot + 1..]
    ensures DirectoryName(path) == "" && Stem(path) == path[..dot] && Extension(path) == path[dot..]
  {
    LastIndexOfIsLast(path, Separator);
    assert LastIndexOf(path, Separator) == -1;
    assert FileName(path) == path;
    LastIndexOfIsLast(path, '.');
    assert LastIndexOf(path, '.') == dot;
  }

  /** A bare name with an extension keeps the extension after its normalised stem. */
  lemma NormalizeBareName(path: string, dot: nat, name: string)
    requires Separator !in path
    requires dot < |path| - 1 && path[dot] == '.' && '.' !in path[dot + 1..]
    requires NormalizeName(path[..dot]) == name
    ensures NormalizeFileName(path) == Ok(name + path[dot..])
  {
    assert !IsWhiteSpace(path[dot]);
    BareName(path, dot);
  }

  lemma SpacesParts(stem: string)
    requires stem == "Mi Archivo con espacios"
    ensures stem == "Mi" + [' '] + ("Archivo" + [' '] + ("con" + [' '] + "espacios"))
  {
  }

  lemma SpacesWords()
    ensures Word("Mi") && Word("Archivo") && Word("con") && Word("espacios")
  {
  }

  lemma SpacesFolded()
    ensures Fold("Mi") == "mi" && Fold("Archivo") == "archivo" && Fold("con") == "con" && Fold("espacios") == "espacios"
  {
  }

  lemma SpacesJoined()
    ensures "mi" + ['-'] + ("archivo" + ['-'] + ("con" + ['-'] + "espacios")) == "mi-archivo-con-espacios"
  {
  }

  /** "Mi Archivo con espacios" normalises to "mi-archivo-con-espacios". */
  lemma SpacesStem(stem: string)
    requires stem == "Mi Archivo con espacios"
    ensures NormalizeName(stem) == "mi-archivo-con-espacios"
  {
    SpacesParts(stem);
    SpacesWords();
    SpacedFourWords("Mi", "Archivo", "con", "espacios");
    SpacesFolded();
    SpacesJoined();
  }

  lemma SpacesPath(path: string)
    requires path == "Mi Archivo con espacios.doc"
    ensures Separator !in path && path[23] == '.' && '.' !in path[24..]
    ensures path[..23] == "Mi Archivo con espacios" && path[23..] == ".doc"
  {
  }

  lemma SpacesResult()
    ensures "mi-archivo-con-espacios" + ".doc" == "mi-archivo-con-espacios.doc"
  {
  }

  /** The steps of the case below, with the path held in a variable. */
  lemma SpacesCase(path: string)
    requires path == "Mi Archivo con espacios.doc"
    ensures NormalizeFileName(path) == Ok("mi-archivo-con-espacios.doc")
  {
    SpacesPath(path);
    SpacesStem(path[..23]);
    NormalizeBareName(path, 23, "mi-archivo-con-espacios");
    SpacesResult();
  }

  /** "Mi Archivo con espacios.doc" becomes "mi-archivo-con-espacios.doc". */
  lemma SpacesBecomeHyphens()
    ensures NormalizeFileName("Mi Archivo con espacios.doc") == Ok("mi-archivo-con-espacios.doc")
  {
    SpacesCase("Mi Archivo con espacios.doc");
  }

  lemma SymbolsParts(stem: string)
    requires stem == "Árbol#con%espacios"
    ensures stem == "Árbol" + ['#'] + ("con" + ['%'] + "espacios")
  {
  }

  lemma SymbolsWords()
    ensures Word("Árbol") && Word("con") && Word("espacios")
  {
  }

  lemma SymbolsFolded()
    ensures Fold("Árbol") + (Fold("con") + Fold("espacios")) == "arbolconespacios"
  {
    assert Fold("Árbol") == "arbol";
  }

  /** "Árbol#con%espacios" normalises to "arbolconespacios". */
  lemma SymbolsStem(stem: string)
    requires stem == "Árbol#con%espacios"
    ensures NormalizeName(stem) == "arbolconespacios"
  {
    SymbolsParts(stem);
    SymbolsWords();
    SymbolSeparatedWords("Árbol", '#', "con", '%', "espacios");
    SymbolsFolded();
  }

  lemma SymbolsPath(path: string)
    requires path == "Árbol#con%espacios.txt"
    ensures Separator !in path && path[18] == '.' && '.' !in path[19..]
    ensures path[..18] == "Árbol#con%espacios" && path[18..] == ".txt"
  {
  }

  lemma SymbolsResult()
    ensures "arbolconespacios" + ".txt" == "arbolconespacios.txt"
  {
  }

  /** The steps of the case below, with the path held in a variable. */
  lemma SymbolsCase(path: string)
    requires path == "Árbol#con%espacios.txt"
    ensures NormalizeFileName(path) == Ok("arbolconespacios.txt")
  {
    SymbolsPath(path);
    SymbolsStem(path[..18]);
    NormalizeBareName(path, 18, "arbolconespacios");
    SymbolsResult();
  }

  /** "Árbol#con%espacios.txt" becomes "arbolconespacios.txt". */
  lemma SymbolsRemoved()
    ensures NormalizeFileName("Árbol#con%espacios.txt") == Ok("arbolconespacios.txt")
  {
    SymbolsCase("Árbol#con%espacios.txt");
  }

  lemma TildeParts(stem: string)
    requires stem == "Archivo con Ñ"
    ensures stem == "Archivo" + [' '] + ("con" + [' '] + "Ñ")
  {
  }

  lemma TildeWords()
    ensures Word("Archivo") && Word("con") && Word("Ñ")
  {
  }

  lemma TildeFoldedWords()
    ensures Fold("Archivo") + ['-'] + (Fold("con") + ['-'] + Fold("Ñ")) == "archivo-con-n"
  {
    assert Fold("Archivo") == "archivo";
    assert Fold("Ñ") == "n";
  }

  /** "Archivo con Ñ" normalises to "archivo-con-n". */
  lemma TildeStem(stem: string)
    requires stem == "Archivo con Ñ"
    ensures NormalizeName(stem) == "archivo-con-n"
  {
    TildeParts(stem);
    TildeWords();
    SpacedWords("Archivo", "con", "Ñ");
    TildeFoldedWords();
  }

  lemma TildePath(path: string)
    requires path == "Archivo con Ñ.pdf"
    ensures Separator !in path && path[13] == '.' && '.' !in path[14..]
    ensures path[..13] == "Archivo con Ñ" && path[13..] == ".pdf"
  {
  }

  lemma TildeResult()
    ensures "archivo-con-n" + ".pdf" == "archivo-con-n.pdf"
  {
  }

  /** The steps of the case below, with the path held in a variable. */
  lemma TildeCase(path: string)
    requires path == "Archivo con Ñ.pdf"
    ensures NormalizeFileName(path) == Ok("archivo-con-n.pdf")
  {
    TildePath(path);
    TildeStem(path[..13]);
    NormalizeBareName(path, 13, "archivo-con-n");
    TildeResult();
  }

  /** "Archivo con Ñ.pdf" becomes "archivo-con-n.pdf". */
  lemma TildeFolded()
    ensures NormalizeFileName("Archivo con Ñ.pdf") == Ok("archivo-con-n.pdf")
  {
    TildeCase("Archivo con Ñ.pdf");
  }

  /** The step of the case below, with the name held in a variable. */
  lemma BlankCase(fileName: string)
    requires IsBlank(fileName)
    ensures NormalizeFileName(fileName) == Err(Exception(Argument, BlankFileName))
  {
  }

  /** The empty name and a name of whitespace only are refused. */
  lemma BlankRefused()
    ensures NormalizeFileName("") == Err(Exception(Argument, BlankFileName))
    ensures NormalizeFileName(" \t\U{3000}") == Err(Exception(Argument, BlankFileName))
  {
    BlankCase("");
    BlankCase(" \t\U{3000}");
  }
}
