/** The two list output parsers: the comma-separated one and the numbered-list one.
    Both are total functions from the model's reply text to a list of strings. */
module ListParsers {
  import opened Wrappers
  import opened Text

  // ---------------------------------------------------------------------------
  // Comma-separated lists
  // ---------------------------------------------------------------------------

  /** The two-character separator ", " starts at index i of s. */
  predicate SeparatorAt(s: string, i: int) {
    0 <= i && i + 1 < |s| && s[i] == ',' && s[i + 1] == ' '
  }

  /** The index of the first ", " in s, if any (Python's `str.find`). */
  function FindSeparator(s: string): (r: Option<nat>)
    ensures r.Some? ==> SeparatorAt(s, r.value) && forall j :: 0 <= j < r.value ==> !SeparatorAt(s, j)
    ensures r.None? ==> forall j :: !SeparatorAt(s, j)
    decreases |s|
  {
    if |s| < 2 then None
    else if s[0] == ',' && s[1] == ' ' then Some(0)
    else
      match FindSeparator(s[1..])
      case None =>
        assert forall j :: SeparatorAt(s, j) ==> j == 0 || SeparatorAt(s[1..], j - 1);
        None
      case Some(i) =>
        assert forall j :: 0 < j <= i && SeparatorAt(s, j) ==> SeparatorAt(s[1..], j - 1);
        Some(i + 1)
  }

  /** `", " in s`. */
  predicate HasSeparator(s: string) {
    FindSeparator(s).Some?
  }

  /** `s.replace("\n", ", ")`. */
  function ReplaceNewlines(s: string): (r: string)
    ensures '\n' !in r
  {
    if s == [] then []
    else (if s[0] == '\n' then ", " else [s[0]]) + ReplaceNewlines(s[1..])
  }

  /** Drops leading whitespace. */
  function TrimStart(s: string): (r: string)
    ensures |r| <= |s| && r == s[|s| - |r|..]
    ensures r != [] ==> !IsSpace(r[0])
    ensures forall i :: 0 <= i < |s| - |r| ==> IsSpace(s[i])
  {
    if s != [] && IsSpace(s[0]) then
      var t := TrimStart(s[1..]);
      assert forall i :: 1 <= i < |s| - |t| ==> IsSpace(s[i]) by {
        forall i | 1 <= i < |s| - |t| ensures IsSpace(s[i]) {
          assert s[i] == s[1..][i - 1];
        }
      }
      t
    else s
  }

  /** Drops trailing whitespace. */
  function TrimEnd(s: string): (r: string)
    ensures |r| <= |s| && r == s[..|r|]
    ensures r != [] ==> !IsSpace(r[|r| - 1])
    ensures forall i :: |r| <= i < |s| ==> IsSpace(s[i])
  {
    if s != [] && IsSpace(s[|s| - 1]) then TrimEnd(s[..|s| - 1]) else s
  }

  /** The number of whitespace characters at the start of s. */
  function LeadingSpace(s: string): nat {
    |s| - |TrimStart(s)|
  }

  /** `s.strip()`: the contiguous slice of s left after removing whitespace at both ends. */
  function Strip(s: string): (r: string)
    ensures r != [] ==> !IsSpace(r[0]) && !IsSpace(r[|r| - 1])
    ensures LeadingSpace(s) + |r| <= |s| && r == s[LeadingSpace(s)..LeadingSpace(s) + |r|]
    ensures forall i :: 0 <= i < LeadingSpace(s) || LeadingSpace(s) + |r| <= i < |s| ==> IsSpace(s[i])
  {
    var t := TrimStart(s);
    var r := TrimEnd(t);
    assert r == s[|s| - |t|..|s| - |t| + |r|];
    r
  }

  /** `s.split(", ")`: the pieces between successive non-overlapping separators, left to right. */
  function Split(s: string): (parts: seq<string>)
    ensures |parts| >= 1
    decreases |s|
  {
    match FindSeparator(s)
    case None => [s]
    case Some(i) => [s[..i]] + Split(s[i + 2..])
  }

  /** `", ".join(parts)`. */
  function Join(parts: seq<string>): string {
    if parts == [] then ""
    else if |parts| == 1 then parts[0]
    else parts[0] + ", " + Join(parts[1..])
  }

  /** The text after the newline substitution: when the reply contains no ", " but
      does contain a newline, every newline becomes ", ". */
  function NormalizeNewlines(text: string): string {
    if !HasSeparator(text) && '\n' in text then ReplaceNewlines(text) else text
  }

  /** CommaSeparatedListOutputParser.parse. */
  function ParseCommaList(text: string): (items: seq<string>)
    ensures |items| >= 1
  {
    Split(Strip(NormalizeNewlines(text)))
  }

  /** A slice of a text without ", " has no ", " either. */
  lemma NoSeparatorInSlice(s: string, i: nat, j: nat)
    requires i <= j <= |s| && !HasSeparator(s)
    ensures !HasSeparator(s[i..j])
  {
    if HasSeparator(s[i..j]) {
      var k := FindSeparator(s[i..j]).value;
      assert SeparatorAt(s, i + k);
    }
  }

  /** A prefix that ends before the first separator has no separator. */
  lemma NoSeparatorBefore(s: string, i: nat)
    requires i <= |s|
    requires forall j :: 0 <= j < i ==> !SeparatorAt(s, j)
    ensures !HasSeparator(s[..i])
  {
    forall j | 0 <= j
      ensures SeparatorAt(s[..i], j) ==> SeparatorAt(s, j)
    {
    }
  }

  /** No piece produced by Split contains the separator. */
  lemma {:induction false} SplitPiecesHaveNoSeparator(s: string)
    ensures forall k :: 0 <= k < |Split(s)| ==> !HasSeparator(Split(s)[k])
    decreases |s|
  {
    match FindSeparator(s)
    case None =>
    case Some(i) =>
      NoSeparatorBefore(s, i);
      SplitPiecesHaveNoSeparator(s[i + 2..]);
  }

  /** A character absent from the text is absent from every piece. */
  lemma {:induction false} SplitPiecesAvoid(s: string, c: char)
    requires c !in s
    ensures forall k :: 0 <= k < |Split(s)| ==> c !in Split(s)[k]
    decreases |s|
  {
    match FindSeparator(s)
    case None =>
    case Some(i) =>
      assert s == s[..i] + s[i..];
      assert c !in s[i + 2..] by { assert s[i..] == s[i..i + 2] + s[i + 2..]; }
      SplitPiecesAvoid(s[i + 2..], c);
  }

  /** Splitting loses nothing: joining the pieces with ", " gives the text back. */
  lemma {:induction false} JoinSplit(s: string)
    ensures Join(Split(s)) == s
    decreases |s|
  {
    match FindSeparator(s)
    case None =>
    case Some(i) =>
      var rest := Split(s[i + 2..]);
      JoinSplit(s[i + 2..]);
      var parts := [s[..i]] + rest;
      assert |parts| > 1 && parts[0] == s[..i] && parts[1..] == rest;
      assert Join(parts) == s[..i] + ", " + s[i + 2..];
      assert s == s[..i] + ", " + s[i + 2..];
  }

  /** Splitting is the inverse of joining, for pieces that contain no separator. */
  lemma {:induction false} SplitJoin(parts: seq<string>)
    requires parts != []
    requires forall k :: 0 <= k < |parts| ==> !HasSeparator(parts[k])
    ensures Split(Join(parts)) == parts
    decreases |parts|
  {
    if |parts| > 1 {
      var x := parts[0];
      var rest := Join(parts[1..]);
      var s := x + ", " + rest;
      assert SeparatorAt(s, |x|);
      forall j | 0 <= j < |x|
        ensures !SeparatorAt(s, j)
      {
        if j + 1 < |x| && SeparatorAt(s, j) {
          assert SeparatorAt(x, j);
        }
      }
      var f := FindSeparator(s).value;
      assert f == |x|;
      assert s[..|x|] == x && s[|x| + 2..] == rest;
      SplitJoin(parts[1..]);
    } else {
      assert Join(parts) == parts[0];
    }
  }

  /** Joined pieces end with the last piece. */
  lemma {:induction false} JoinEnd(parts: seq<string>)
    requires parts != [] && parts[|parts| - 1] != []
    ensures Join(parts) != [] && Join(parts)[|Join(parts)| - 1] == parts[|parts| - 1][|parts[|parts| - 1]| - 1]
    decreases |parts|
  {
    if |parts| > 1 {
      JoinEnd(parts[1..]);
    }
  }

  /** Joining three pieces. */
  lemma JoinThree(x: string, y: string, z: string)
    ensures Join([x, y, z]) == x + ", " + y + ", " + z
  {
    assert [x, y, z][1..] == [y, z];
    assert [y, z][1..] == [z];
    assert Join([y, z]) == y + ", " + z;
    assert Join([x, y, z]) == x + ", " + (y + ", " + z);
  }

  /** Pieces without separators, the first starting and the last ending with a non-whitespace
      character, are what stripping and splitting their join gives back. */
  lemma StripSplitJoin(parts: seq<string>)
    requires parts != [] && parts[0] != [] && parts[|parts| - 1] != []
    requires !IsSpace(parts[0][0]) && !IsSpace(parts[|parts| - 1][|parts[|parts| - 1]| - 1])
    requires forall k :: 0 <= k < |parts| ==> !HasSeparator(parts[k])
    ensures Split(Strip(Join(parts))) == parts
  {
    var s := Join(parts);
    JoinEnd(parts);
    assert s[0] == parts[0][0];
    assert TrimStart(s) == s;
    assert TrimEnd(s) == s;
    SplitJoin(parts);
  }

  /** The comma parser's pieces joined with ", " are exactly the stripped,
      newline-substituted reply. */
  lemma CommaListRoundTrip(text: string)
    ensures Join(ParseCommaList(text)) == Strip(NormalizeNewlines(text))
  {
    JoinSplit(Strip(NormalizeNewlines(text)));
  }

  /** No item of the comma parser contains ", " (items are not trimmed one by one,
      so they may still begin or end with whitespace). */
  lemma CommaListItemsHaveNoSeparator(text: string)
    ensures forall k :: 0 <= k < |ParseCommaList(text)| ==> !HasSeparator(ParseCommaList(text)[k])
  {
    SplitPiecesHaveNoSeparator(Strip(NormalizeNewlines(text)));
  }

  /** A reply with neither ", " nor a newline comes back as the single stripped item. */
  lemma CommaListSingleItem(text: string)
    requires !HasSeparator(text) && '\n' !in text
    ensures ParseCommaList(text) == [Strip(text)]
  {
    assert NormalizeNewlines(text) == text;
    var r := Strip(text);
    NoSeparatorInSlice(text, LeadingSpace(text), LeadingSpace(text) + |r|);
    assert FindSeparator(r).None?;
  }

  /** A reply with no ", " but with newlines is split at its newlines: no item keeps a newline,
      and the items joined with ", " give the stripped text with each newline replaced by ", ". */
  lemma CommaListSplitsLines(text: string)
    requires !HasSeparator(text) && '\n' in text
    ensures forall k :: 0 <= k < |ParseCommaList(text)| ==> '\n' !in ParseCommaList(text)[k]
    ensures Join(ParseCommaList(text)) == Strip(ReplaceNewlines(text))
  {
    var s := Strip(ReplaceNewlines(text));
    assert '\n' !in s;
    SplitPiecesAvoid(s, '\n');
    JoinSplit(s);
  }

  // ---------------------------------------------------------------------------
  // Numbered lists: every match of the pattern  \d+\.\s([^\n]+)  in turn
  // ---------------------------------------------------------------------------

  /** The length of the run of digits at the start of s. */
  function DigitRun(s: string): (n: nat)
    ensures n <= |s|
    ensures forall i :: 0 <= i < n ==> IsDigit(s[i])
    ensures n < |s| ==> !IsDigit(s[n])
  {
    if s != [] && IsDigit(s[0]) then 1 + DigitRun(s[1..]) else 0
  }

  /** The length of the first line of s, its newline excluded. */
  function LineLength(s: string): (n: nat)
    ensures n <= |s|
    ensures forall i :: 0 <= i < n ==> s[i] != '\n'
    ensures n < |s| ==> s[n] == '\n'
  {
    if s == [] || s[0] == '\n' then 0 else 1 + LineLength(s[1..])
  }

  /** s starts with d digits, a '.', a whitespace character and a character other than a newline:
      the pattern matches at the start of s with digit run s[..d]. */
  predicate NumberedPrefix(s: string, d: int) {
    0 < d && d + 2 < |s| && (forall i :: 0 <= i < d ==> IsDigit(s[i])) &&
    s[d] == '.' && IsSpace(s[d + 1]) && s[d + 2] != '\n'
  }

  /** Where a match captures its group: s[start..end]. */
  datatype Span = Span(start: nat, end: nat)

  /** The match of the pattern anchored at the start of s, if any. Its group runs from just after
      the whitespace character to the end of the line, the greedy extent of [^\n]+. */
  function MatchAt(s: string): (m: Option<Span>)
    ensures m.Some? <==> exists d :: NumberedPrefix(s, d)
    ensures m.Some? ==> NumberedPrefix(s, m.value.start - 2)
    ensures m.Some? ==> m.value.start < m.value.end <= |s|
    ensures m.Some? ==> forall i :: m.value.start <= i < m.value.end ==> s[i] != '\n'
    ensures m.Some? ==> m.value.end < |s| ==> s[m.value.end] == '\n'
  {
    var d := DigitRun(s);
    if 0 < d && d + 2 < |s| && s[d] == '.' && IsSpace(s[d + 1]) && s[d + 2] != '\n' then
      assert NumberedPrefix(s, d);
      Some(Span(d + 2, d + 2 + LineLength(s[d + 2..])))
    else
      None
  }

  /** `re.findall(r"\d+\.\s([^\n]+)", s)`: the group of every match, scanning left to right
      and resuming after the end of each match. */
  function NumberedItems(s: string): (items: seq<string>)
    ensures forall k :: 0 <= k < |items| ==> items[k] != [] && '\n' !in items[k]
    decreases |s|
  {
    if s == [] then []
    else
      match MatchAt(s)
      case Some(m) => [s[m.start..m.end]] + NumberedItems(s[m.end..])
      case None => NumberedItems(s[1..])
  }

  /** NumberedListOutputParser.parse: the items of every match of the pattern; the lemmas below
      say what it returns. */
  function ParseNumberedList(text: string): seq<string> {
    NumberedItems(text)
  }

  /** The parser returns nothing exactly when the pattern matches nowhere in the text. */
  lemma {:induction false} NumberedListEmptyIff(s: string)
    ensures ParseNumberedList(s) == [] <==> forall i, d :: 0 <= i <= |s| ==> !NumberedPrefix(s[i..], d)
    decreases |s|
  {
    if s != [] {
      NumberedListEmptyIff(s[1..]);
      assert forall i :: 1 <= i <= |s| ==> s[1..][i - 1..] == s[i..];
      if MatchAt(s).None? {
        assert s[0..] == s;
        assert forall d :: !NumberedPrefix(s[0..], d);
        if forall i, d :: 0 <= i <= |s[1..]| ==> !NumberedPrefix(s[1..][i..], d) {
          forall i, d | 0 <= i <= |s|
            ensures !NumberedPrefix(s[i..], d)
          {
            if i > 0 {
              assert s[i..] == s[1..][i - 1..];
            }
          }
        }
      } else {
        var d :| NumberedPrefix(s, d);
        assert s[0..] == s;
      }
    }
  }

  /** One numbered line, "<digits>.<whitespace><item>", ended by a newline or by the end of the
      text, yields its item, and scanning resumes right after the item. */
  lemma NumberedListLine(digits: string, w: char, item: string, rest: string)
    requires digits != [] && AllDigits(digits) && IsSpace(w)
    requires item != [] && '\n' !in item
    requires rest == [] || rest[0] == '\n'
    ensures ParseNumberedList(digits + ['.', w] + item + rest) == [item] + ParseNumberedList(rest)
  {
    var s := digits + ['.', w] + item + rest;
    var d := |digits|;
    assert NumberedPrefix(s, d);
    var m := MatchAt(s).value;
    assert m.start == d + 2;
    var x := s[d + 2..];
    assert x == item + rest;
    assert forall i :: 0 <= i < |item| ==> x[i] != '\n';
    assert |item| < |x| ==> x[|item|] == '\n';
    assert m.end == d + 2 + |item|;
    assert s[m.start..m.end] == item;
    assert s[m.end..] == rest;
  }

  /** Text in which no match starts, such as commentary before a list, yields nothing: the
      parser returns only what the rest of the text yields. */
  lemma {:induction false} NumberedListSkipsText(junk: string, rest: string)
    requires forall i, d :: 0 <= i < |junk| ==> !NumberedPrefix((junk + rest)[i..], d)
    ensures ParseNumberedList(junk + rest) == ParseNumberedList(rest)
    decreases |junk|
  {
    var s := junk + rest;
    if junk == [] {
      assert s == rest;
    } else {
      assert s[0..] == s;
      assert forall d :: !NumberedPrefix(s, d);
      assert MatchAt(s).None?;
      assert s[1..] == junk[1..] + rest;
      forall i, d | 0 <= i < |junk[1..]|
        ensures !NumberedPrefix((junk[1..] + rest)[i..], d)
      {
        assert (junk[1..] + rest)[i..] == s[i + 1..];
      }
      NumberedListSkipsText(junk[1..], rest);
    }
  }

  /** A line break between numbered lines yields nothing. */
  lemma NumberedListSkipsNewline(rest: string)
    ensures ParseNumberedList(['\n'] + rest) == ParseNumberedList(rest)
  {
    var s := ['\n'] + rest;
    assert MatchAt(s).None?;
    assert s[1..] == rest;
  }
}

/** Sample replies of the list parsers, worked through for arbitrary one-character items. */
module ListParserExamples {
  import opened Text
  import opened ListParsers

  /** One-character items have no separator. */
  lemma CharsHaveNoSeparator(parts: seq<string>)
    requires forall k :: 0 <= k < |parts| ==> |parts[k]| == 1
    ensures forall k :: 0 <= k < |parts| ==> !HasSeparator(parts[k])
  {
  }

  /** "a, b, c" gives ["a", "b", "c"]. */
  lemma CommaListCommaExample(a: char, b: char, c: char)
    requires !IsSpace(a) && !IsSpace(c)
    ensures ParseCommaList([a, ',', ' ', b, ',', ' ', c]) == [[a], [b], [c]]
  {
    var t := [a, ',', ' ', b, ',', ' ', c];
    JoinThree([a], [b], [c]);
    assert t == [a] + ", " + [b] + ", " + [c];
    assert SeparatorAt(t, 1);
    assert NormalizeNewlines(t) == t;
    CharsHaveNoSeparator([[a], [b], [c]]);
    StripSplitJoin([[a], [b], [c]]);
  }

  /** "a\nb\nc" gives ["a", "b", "c"]: with no ", " in the reply, newlines separate the items. */
  lemma CommaListNewlineExample(a: char, b: char, c: char)
    requires a != '\n' && b != '\n' && c != '\n'
    requires !IsSpace(a) && !IsSpace(c)
    ensures ParseCommaList([a, '\n', b, '\n', c]) == [[a], [b], [c]]
  {
    var t := [a, '\n', b, '\n', c];
    JoinThree([a], [b], [c]);
    assert NormalizeNewlines(t) == Join([[a], [b], [c]]) by {
      assert forall j :: !SeparatorAt(t, j);
      assert FindSeparator(t).None?;
      assert t[1] == '\n';
      assert ReplaceNewlines(t) == [a] + ", " + ReplaceNewlines(t[2..]);
      assert ReplaceNewlines(t[2..]) == [b] + ", " + ReplaceNewlines(t[4..]);
      assert ReplaceNewlines(t[4..]) == [c];
    }
    CharsHaveNoSeparator([[a], [b], [c]]);
    StripSplitJoin([[a], [b], [c]]);
  }

  /** "a\nb\n" has no ", ", so each of its newlines becomes ", ". */
  lemma TrailingNewlineReplaced(a: char, b: char)
    requires a != '\n' && b != '\n'
    ensures NormalizeNewlines([a, '\n', b, '\n']) == [a, ',', ' ', b, ',', ' ']
  {
    var t := [a, '\n', b, '\n'];
    assert forall j :: !SeparatorAt(t, j);
    assert FindSeparator(t).None?;
    assert t[1] == '\n';
    assert t[1..][1..] == t[2..] && t[2..][1..] == t[3..] && t[3..][1..] == [];
    assert ReplaceNewlines(t[3..]) == ", ";
    assert ReplaceNewlines(t[2..]) == [b] + ", ";
    assert ReplaceNewlines(t[1..]) == ", " + [b] + ", ";
    assert ReplaceNewlines(t) == [a] + ", " + [b] + ", ";
  }

  /** Stripping "a, b, " removes only the final space. */
  lemma TrailingSeparatorStripped(a: char, b: char)
    requires !IsSpace(a) && !IsSpace(b)
    ensures Strip([a, ',', ' ', b, ',', ' ']) == Join([[a], [b, ',']])
  {
    var u := [a, ',', ' ', b, ',', ' '];
    assert [[a], [b, ',']][1..] == [[b, ',']];
    assert TrimStart(u) == u;
    assert TrimEnd(u) == u[..5];
  }

  /** "a\nb\n" gives ["a", "b,"]: the trailing newline becomes ", " before stripping,
      strip removes only its space, and the last item keeps a stray comma. */
  lemma CommaListTrailingNewline(a: char, b: char)
    requires a != '\n' && b != '\n'
    requires !IsSpace(a) && !IsSpace(b)
    ensures ParseCommaList([a, '\n', b, '\n']) == [[a], [b, ',']]
  {
    TrailingNewlineReplaced(a, b);
    TrailingSeparatorStripped(a, b);
    assert !HasSeparator([b, ',']) by {
      assert forall j :: !SeparatorAt([b, ','], j);
    }
    SplitJoin([[a], [b, ',']]);
  }

  /** A numbered paragraph "<digit>. <item>" followed by a blank line yields its item. */
  lemma NumberedParagraph(digit: char, item: string, rest: string)
    requires IsDigit(digit)
    requires item != [] && '\n' !in item
    ensures ParseNumberedList([digit, '.', ' '] + item + "\n\n" + rest) == [item] + ParseNumberedList(rest)
  {
    NumberedListSkipsNewline(rest);
    NumberedListSkipsNewline("\n" + rest);
    assert "\n\n" + rest == ['\n'] + (['\n'] + rest);
    NumberedListLine([digit], ' ', item, "\n\n" + rest);
    assert [digit, '.', ' '] + item + "\n\n" + rest == [digit] + ['.', ' '] + item + ("\n\n" + rest);
  }

  /** A last numbered line "<digit>. <item>" yields its item. */
  lemma NumberedLastLine(digit: char, item: string)
    requires IsDigit(digit)
    requires item != [] && '\n' !in item
    ensures ParseNumberedList([digit, '.', ' '] + item) == [item]
  {
    NumberedListLine([digit], ' ', item, []);
    assert [digit, '.', ' '] + item == [digit] + ['.', ' '] + item + [];
  }

  /** "1. foo\n\n2. bar\n\n3. baz" gives ["foo", "bar", "baz"], for any items without newlines. */
  lemma NumberedListExample(x: string, y: string, z: string)
    requires x != [] && y != [] && z != []
    requires '\n' !in x && '\n' !in y && '\n' !in z
    ensures ParseNumberedList("1. " + x + "\n\n" + ("2. " + y + "\n\n" + ("3. " + z))) == [x, y, z]
  {
    NumberedLastLine('3', z);
    NumberedParagraph('2', y, "3. " + z);
    NumberedParagraph('1', x, "2. " + y + "\n\n" + ("3. " + z));
  }

  /** Commentary without digits, such as "Here are the items:\n", yields nothing. */
  lemma DigitFreeTextSkipped(note: string, rest: string)
    requires forall i :: 0 <= i < |note| ==> !IsDigit(note[i])
    ensures ParseNumberedList(note + rest) == ParseNumberedList(rest)
  {
    forall i, d | 0 <= i < |note|
      ensures !NumberedPrefix((note + rest)[i..], d)
    {
      assert (note + rest)[i..][0] == note[i];
    }
    NumberedListSkipsText(note, rest);
  }

  /** Commentary without digits before a list, as in "Here are the items:\n1. foo\n2. bar",
      is dropped: only the items ["foo", "bar"] come back. */
  lemma CommentaryThenList(note: string, x: string, y: string)
    requires forall i :: 0 <= i < |note| ==> !IsDigit(note[i])
    requires x != [] && y != [] && '\n' !in x && '\n' !in y
    ensures ParseNumberedList(note + ("1. " + x + "\n" + ("2. " + y))) == [x, y]
  {
    var list := "1. " + x + "\n" + ("2. " + y);
    DigitFreeTextSkipped(note, list);
    assert ParseNumberedList(list) == [x, y] by {
      var tail := "\n" + ("2. " + y);
      NumberedLastLine('2', y);
      NumberedListSkipsNewline("2. " + y);
      NumberedListLine(['1'], ' ', x, tail);
      assert "1. " == ['1'] + ['.', ' '];
      assert list == "1. " + x + tail;
    }
  }
}
