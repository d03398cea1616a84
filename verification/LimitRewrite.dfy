/** The rewrite that limits a statement (`_limit_statement`), and what the scanner sees of it. */
module LimitRewrite {
  import opened Wrappers
  import opened SqlScanner
  import opened Decimals

  const UNLIMITABLE_WORDS: set<string> := {"LIMIT", "FETCH", "OFFSET", "INTO", "PROCEDURE", "LOCK"}
  const NOT_A_QUERY_WORDS: set<string> := {"INSERT", "UPDATE", "DELETE", "REPLACE"}

  /** The words at depth 0. */
  function Top(words: seq<Word>): seq<string> {
    if words == [] then []
    else (if words[0].depth == 0 then [words[0].text] else []) + Top(words[1..])
  }

  predicate Locks(top: seq<string>) {
    exists i :: 0 <= i < |top| - 1 && top[i] == "FOR" && (top[i + 1] == "UPDATE" || top[i + 1] == "SHARE")
  }

  /** Whether a statement with these words is left alone. */
  predicate Declines(words: seq<Word>) {
    || words == []
    || (words[0].text != "SELECT" && words[0].text != "WITH")
    || (exists i :: 0 <= i < |Top(words)| && Top(words)[i] in UNLIMITABLE_WORDS)
    || Locks(Top(words))
    || (words[0].text == "WITH"
        && ("SELECT" !in Top(words) || exists i :: 0 <= i < |Top(words)| && Top(words)[i] in NOT_A_QUERY_WORDS))
  }

  function RStrip(u: Unicode, s: string): string {
    if s != [] && u.isSpace(s[|s| - 1]) then RStrip(u, s[..|s| - 1]) else s
  }

  predicate Skips(offset: Option<nat>) {
    offset.Some? && offset.value != 0
  }

  function OffsetText(offset: Option<nat>): string {
    if Skips(offset) then " OFFSET " + Decimal(offset.value) else ""
  }

  function Clause(limit: nat, offset: Option<nat>): string {
    "LIMIT " + Decimal(limit) + OffsetText(offset)
  }

  function LimitStatement(u: Unicode, statement: string, limit: Option<nat>, offset: Option<nat>): Option<string>
    requires Sane(u)
  {
    if limit.None? || Declines(Words(u, statement)) then None
    else Some(RStrip(u, statement) + "\n" + Clause(limit.value, offset))
  }

  /** The words of the clause, at the depth the statement ends at. */
  function ClauseWords(offset: Option<nat>, depth: nat): seq<Word> {
    [Word("LIMIT", depth)] + OffsetWords(offset, depth)
  }

  function OffsetWords(offset: Option<nat>, depth: nat): seq<Word> {
    if Skips(offset) then [Word("OFFSET", depth)] else []
  }

  // --- Scanning a statement and its rewrite side by side ----------------------------------------

  /** What the clause is made of besides its words. */
  predicate Plain(u: Unicode, c: char) {
    !IsMark(c) && !u.isAlpha(c) && c != '_'
  }

  /** s and r agree up to n; from there on s is blank, and r goes on with a line break and nothing
      the scanner would take for the start or the end of a quote or a comment. */
  ghost predicate Twins(u: Unicode, s: string, r: string, n: nat) {
    && n <= |s| && n < |r| && s[..n] == r[..n]
    && (forall k :: n <= k < |s| ==> u.isSpace(s[k]))
    && r[n] == '\n' && (forall k :: n <= k < |r| ==> !IsMark(r[k]))
  }

  lemma TwinsAt(u: Unicode, s: string, r: string, n: nat, i: nat)
    requires Twins(u, s, r, n) && i < n
    ensures s[i] == r[i]
  {
    assert s[i] == s[..n][i] == r[..n][i] == r[i];
  }

  lemma BlankScansToNothing(u: Unicode, s: string, n: nat, i: nat, depth: nat)
    requires Sane(u) && n <= i && forall k :: n <= k < |s| ==> u.isSpace(s[k])
    ensures Scan(u, s, i, depth) == Scanned([], depth, true)
    decreases |s| - i
  {
    if i < |s| {
      assert u.isSpace(s[i]);
      BlankScansToNothing(u, s, n, i + 1, depth);
    }
  }

  lemma NoQuoteNoEnd(s: string, quote: char, n: nat, i: nat)
    requires IsQuote(quote) && n <= i && forall k :: n <= k < |s| ==> !IsMark(s[k])
    ensures QuoteEnd(s, quote, i) == None
    decreases |s| - i
  {
    if i < |s| { NoQuoteNoEnd(s, quote, n, i + 1); }
  }

  lemma SpacesAreNoMarks(u: Unicode, s: string, n: nat)
    requires Sane(u) && forall k :: n <= k < |s| ==> u.isSpace(s[k])
    ensures forall k :: n <= k < |s| ==> !IsMark(s[k])
  {
  }

  lemma {:induction false} TwinQuotes(u: Unicode, s: string, r: string, n: nat, quote: char, i: nat)
    requires Sane(u) && Twins(u, s, r, n) && IsQuote(quote)
    ensures QuoteEnd(r, quote, i) == QuoteEnd(s, quote, i)
    ensures QuoteEnd(s, quote, i).Some? ==> QuoteEnd(s, quote, i).value <= n
    decreases |s| - i, n - i
  {
    SpacesAreNoMarks(u, s, n);
    if i >= n {
      NoQuoteNoEnd(s, quote, n, i);
      NoQuoteNoEnd(r, quote, n, i);
    } else {
      TwinsAt(u, s, r, n, i);
      if i + 1 < n { TwinsAt(u, s, r, n, i + 1); }
      TwinQuotes(u, s, r, n, quote, i + 1);
      TwinQuotes(u, s, r, n, quote, i + 2);
    }
  }

  lemma {:induction false} TwinNewlines(u: Unicode, s: string, r: string, n: nat, i: nat)
    requires Sane(u) && Twins(u, s, r, n) && i <= n
    ensures Find(r, "\n", i) <= n
    ensures Find(s, "\n", i) < n ==> Find(r, "\n", i) == Find(s, "\n", i)
    ensures Find(s, "\n", i) >= n ==> Find(r, "\n", i) == n
    decreases n - i
  {
    if i < n {
      TwinsAt(u, s, r, n, i);
      assert "\n" <= s[i..] <==> s[i] == '\n';
      assert "\n" <= r[i..] <==> r[i] == '\n';
      TwinNewlines(u, s, r, n, i + 1);
    } else {
      assert "\n" <= r[n..];
    }
  }

  lemma BlockEndStartsWithStar(s: string, i: nat)
    requires i < |s|
    ensures "*/" <= s[i..] ==> s[i] == '*'
  {
    if "*/" <= s[i..] { assert s[i] == s[i..][0] == "*/"[0]; }
  }

  lemma NoStarNoEnd(s: string, n: nat, i: nat)
    requires n <= i <= |s| && forall k :: n <= k < |s| ==> !IsMark(s[k])
    ensures Find(s, "*/", i) == |s|
    decreases |s| - i
  {
    if i < |s| {
      BlockEndStartsWithStar(s, i);
      NoStarNoEnd(s, n, i + 1);
    }
  }

  lemma {:induction false} TwinBlockEnds(u: Unicode, s: string, r: string, n: nat, i: nat)
    requires Sane(u) && Twins(u, s, r, n) && i <= n
    ensures Find(s, "*/", i) < |s| ==> Find(r, "*/", i) == Find(s, "*/", i) && Find(s, "*/", i) + 2 <= n
    ensures Find(s, "*/", i) == |s| ==> Find(r, "*/", i) == |r|
    decreases n - i
  {
    SpacesAreNoMarks(u, s, n);
    if i == n {
      NoStarNoEnd(s, n, i);
      NoStarNoEnd(r, n, i);
    } else {
      TwinsAt(u, s, r, n, i);
      if i + 1 < n { TwinsAt(u, s, r, n, i + 1); }
      assert "*/" <= s[i..] <==> i + 1 < |s| && s[i] == '*' && s[i + 1] == '/';
      assert "*/" <= r[i..] <==> i + 1 < |r| && r[i] == '*' && r[i + 1] == '/';
      TwinBlockEnds(u, s, r, n, i + 1);
    }
  }

  lemma {:induction false} TwinWords(u: Unicode, s: string, r: string, n: nat, i: nat)
    requires Sane(u) && Twins(u, s, r, n) && i <= n
    ensures WordEnd(u, r, i) == WordEnd(u, s, i) <= n
    decreases n - i
  {
    if i < n {
      TwinsAt(u, s, r, n, i);
      TwinWords(u, s, r, n, i + 1);
    }
  }

  /** The rewrite's scan is the statement's, and then the clause's where that is reached. */
  ghost predicate Continues(u: Unicode, a: Scanned, b: Scanned, r: string, n: nat)
    requires Sane(u) && n < |r|
  {
    if a.closed
    then var tail := Scan(u, r, n, a.depth); b == Scanned(a.words + tail.words, tail.depth, tail.closed)
    else b == a
  }

  lemma TwinComments(u: Unicode, s: string, r: string, n: nat, i: nat)
    requires Sane(u) && Twins(u, s, r, n) && i < n
    ensures OpensLineComment(u, r, i) == OpensLineComment(u, s, i)
    ensures OpensBlockComment(r, i) == OpensBlockComment(s, i) && (OpensBlockComment(s, i) ==> i + 2 <= n)
  {
    TwinsAt(u, s, r, n, i);
    if i + 1 < n { TwinsAt(u, s, r, n, i + 1); }
    if i + 2 < n { TwinsAt(u, s, r, n, i + 2); }
    SpacesAreNoMarks(u, s, n);
  }

  /** A line comment ends in both at the same line break, or runs to the end of the statement and
      to the line break before the clause. */
  lemma TwinLineComments(u: Unicode, s: string, r: string, n: nat, i: nat)
    requires Sane(u) && Twins(u, s, r, n) && i < n
    ensures LineCommentEnd(r, i) == LineCommentEnd(s, i) <= n
            || LineCommentEnd(r, i) == n + 1 <= LineCommentEnd(s, i) + 1
  {
    TwinNewlines(u, s, r, n, i);
  }

  /** The same item in both, but for a line comment that runs to the end. */
  lemma TwinItems(u: Unicode, s: string, r: string, n: nat, i: nat)
    requires Sane(u) && Twins(u, s, r, n) && i < n
    ensures var a, b := ItemAt(u, s, i), ItemAt(u, r, i);
            || (b == a && (!a.Unclosed? ==> a.next <= n))
            || (a.Skipped? && a.next >= n && b == Skipped(n + 1))
  {
    hide QuoteEnd, Find, WordEnd, OpensLineComment, OpensBlockComment, LineCommentEnd;
    TwinsAt(u, s, r, n, i);
    TwinComments(u, s, r, n, i);
    var c := s[i];
    if IsQuote(c) {
      TwinQuotes(u, s, r, n, c, i + 1);
    } else if OpensLineComment(u, s, i) {
      TwinLineComments(u, s, r, n, i);
    } else if OpensBlockComment(s, i) {
      TwinBlockEnds(u, s, r, n, i + 2);
    } else {
      TwinWords(u, s, r, n, i);
    }
  }

  lemma {:induction false} TwinScans(u: Unicode, s: string, r: string, n: nat, i: nat, depth: nat)
    requires Sane(u) && Twins(u, s, r, n) && i <= n
    ensures Continues(u, Scan(u, s, i, depth), Scan(u, r, i, depth), r, n)
    decreases n - i
  {
    hide Scan, Continues, ItemAt, Sane, Twins, Prepend;
    TwinLengths(u, s, r, n);
    if i == n {
      TailIsBlank(u, s, r, n, depth);
    } else {
      TwinItems(u, s, r, n, i);
      ScanGoesOn(u, s, i, depth);
      ScanGoesOn(u, r, i, depth);
      var item := ItemAt(u, s, i);
      if ItemAt(u, r, i) != item || (item.Skipped? && item.next > n) {
        LastComment(u, s, r, n, item.next, depth);
      } else {
        match item {
          case Unclosed => UnclosedContinues(u, depth, r, n);
          case Skipped(next) => TwinScans(u, s, r, n, next, depth);
          case Opening(next) => TwinScans(u, s, r, n, next, depth + 1);
          case Closing(next) => TwinScans(u, s, r, n, next, if depth == 0 then 0 else depth - 1);
          case Named(next) =>
            SameSlice(s, r, n, i, next);
            TwinScans(u, s, r, n, next, depth);
            NamedContinues(u, Word(u.upper(s[i..next]), depth), Scan(u, s, next, depth), Scan(u, r, next, depth), r, n);
        }
      }
    }
  }

  lemma UnclosedContinues(u: Unicode, depth: nat, r: string, n: nat)
    requires Sane(u) && n < |r|
    ensures Continues(u, Scanned([], depth, false), Scanned([], depth, false), r, n)
  {
  }

  lemma NamedContinues(u: Unicode, word: Word, a: Scanned, b: Scanned, r: string, n: nat)
    requires Sane(u) && n < |r| && Continues(u, a, b, r, n)
    ensures Continues(u, Prepend(word, a), Prepend(word, b), r, n)
  {
    hide Scan, Sane;
    var tail := Scan(u, r, n, a.depth);
    assert [word] + (a.words + tail.words) == ([word] + a.words) + tail.words;
  }

  lemma SameSlice(s: string, r: string, n: nat, i: nat, j: nat)
    requires n <= |s| && n <= |r| && s[..n] == r[..n] && i <= j <= n
    ensures s[i..j] == r[i..j]
  {
    assert s[i..j] == s[..n][i..j] && r[i..j] == r[..n][i..j];
  }

  lemma TwinLengths(u: Unicode, s: string, r: string, n: nat)
    requires Twins(u, s, r, n)
    ensures n <= |s| && n < |r| && s[..n] == r[..n]
  {
  }

  lemma TailIsBlank(u: Unicode, s: string, r: string, n: nat, depth: nat)
    requires Sane(u) && Twins(u, s, r, n)
    ensures Continues(u, Scan(u, s, n, depth), Scan(u, r, n, depth), r, n)
  {
    hide Scan;
    BlankScansToNothing(u, s, n, n, depth);
    assert [] + Scan(u, r, n, depth).words == Scan(u, r, n, depth).words;
  }

  /** After a comment that runs to the end, nothing of the statement is left, and the clause is. */
  lemma LastComment(u: Unicode, s: string, r: string, n: nat, next: nat, depth: nat)
    requires Sane(u) && Twins(u, s, r, n) && next >= n
    ensures Continues(u, Scan(u, s, next, depth), Scan(u, r, n + 1, depth), r, n)
  {
    hide Scan;
    BlankScansToNothing(u, s, n, next, depth);
    SkipOne(u, r, n, depth);
    assert [] + Scan(u, r, n, depth).words == Scan(u, r, n, depth).words;
  }

  // --- The clause -----------------------------------------------------------------------------------

  lemma {:induction false} DigitsArePlain(u: Unicode, n: nat)
    requires Sane(u)
    ensures |Decimal(n)| > 0 && forall k :: 0 <= k < |Decimal(n)| ==>
              '0' <= Decimal(n)[k] <= '9' && Plain(u, Decimal(n)[k])
  {
    if n >= 10 { DigitsArePlain(u, n / 10); }
  }

  /** Plain characters are passed over one by one. */
  lemma {:induction false} PlainRun(u: Unicode, s: string, a: nat, b: nat, depth: nat)
    requires Sane(u) && a <= b <= |s| && forall k :: a <= k < b ==> Plain(u, s[k])
    ensures Scan(u, s, a, depth) == Scan(u, s, b, depth)
    decreases b - a
  {
    hide Scan, Plain, Sane;
    if a < b {
      SkipPlain(u, s, a, depth);
      PlainRun(u, s, a + 1, b, depth);
    }
  }

  lemma SkipPlain(u: Unicode, s: string, i: nat, depth: nat)
    requires Sane(u) && i < |s| && Plain(u, s[i])
    ensures Scan(u, s, i, depth) == Scan(u, s, i + 1, depth)
  {
    hide Scan, Sane;
    ScanGoesOn(u, s, i, depth);
    assert ItemAt(u, s, i) == Skipped(i + 1);
  }

  lemma {:induction false} LettersEnd(u: Unicode, s: string, a: nat, b: nat)
    requires Sane(u) && a <= b <= |s| && (forall k :: a <= k < b ==> 'A' <= s[k] <= 'Z')
    requires b < |s| && !InWord(u, s[b])
    ensures WordEnd(u, s, a) == b
    decreases b - a
  {
    if a < b {
      assert 'A' <= s[a] <= 'Z';
      LettersEnd(u, s, a + 1, b);
    }
  }

  /** A word in capitals with a blank after it is one word of the scan. */
  lemma CapitalsAreAWord(u: Unicode, s: string, a: nat, b: nat, depth: nat)
    requires Sane(u) && a < b < |s| && (forall k :: a <= k < b ==> 'A' <= s[k] <= 'Z') && s[b] == ' '
    ensures Scan(u, s, a, depth)
            == Scan(u, s, b, depth).(words := [Word(u.upper(s[a..b]), depth)] + Scan(u, s, b, depth).words)
  {
    LettersEnd(u, s, a, b);
    assert u.isAlpha(s[a]) && !IsMark(s[a]);
  }

  /** Where the parts of a clause are. */
  lemma ClauseParts(s: string, a: nat, word: string, number: string, end: nat)
    requires end == a + |word| + 1 + |number| <= |s| && s[a..end] == word + " " + number
    ensures var b := a + |word|; s[a..b] == word && s[b] == ' ' && s[b + 1..end] == number
  {
    var b, part := a + |word|, s[a..end];
    assert s[a..b] == part[..|word|] && s[b] == part[|word|] && s[b + 1..end] == part[|word| + 1..];
  }

  lemma NumberIsPlain(u: Unicode, s: string, b: nat, n: nat, end: nat)
    requires Sane(u) && end == b + 1 + |Decimal(n)| <= |s| && s[b] == ' ' && s[b + 1..end] == Decimal(n)
    ensures forall k :: b <= k < end ==> Plain(u, s[k])
  {
    hide Decimal;
    DigitsArePlain(u, n);
    assert Plain(u, ' ');
    hide Plain;
    assert forall k :: b < k < end ==> s[k] == s[b + 1..end][k - b - 1];
  }

  /** A word, a blank and a number: one word to the scan. */
  lemma ClausePart(u: Unicode, s: string, a: nat, word: string, n: nat, end: nat, depth: nat)
    requires Sane(u) && word != [] && (forall k :: 0 <= k < |word| ==> 'A' <= word[k] <= 'Z') && u.upper(word) == word
    requires end == a + |word| + 1 + |Decimal(n)| <= |s| && s[a..end] == word + " " + Decimal(n)
    ensures Scan(u, s, a, depth)
            == Scan(u, s, end, depth).(words := [Word(word, depth)] + Scan(u, s, end, depth).words)
  {
    hide Scan, Sane, Decimal, Plain;
    var b := a + |word|;
    ClauseParts(s, a, word, Decimal(n), end);
    assert forall k :: a <= k < b ==> s[k] == s[a..b][k - a];
    CapitalsAreAWord(u, s, a, b, depth);
    NumberIsPlain(u, s, b, n, end);
    PlainRun(u, s, b, end, depth);
  }

  lemma Sliced(r: string, a: nat, first: string, rest: string)
    requires a <= |r| && r[a..] == first + rest
    ensures a + |first| + |rest| == |r| && r[a..a + |first|] == first && r[a + |first|..] == rest
  {
    assert r[a..a + |first|] == r[a..][..|first|] && r[a + |first|..] == r[a..][|first|..];
  }

  lemma SkipOne(u: Unicode, s: string, i: nat, depth: nat)
    requires Sane(u) && i < |s| && (s[i] == '\n' || s[i] == ' ')
    ensures Scan(u, s, i, depth) == Scan(u, s, i + 1, depth)
  {
    hide Scan;
    assert Plain(u, s[i]);
    PlainRun(u, s, i, i + 1, depth);
  }

  lemma LimitPartScans(u: Unicode, r: string, n: nat, limit: nat, rest: string, depth: nat)
    requires Sane(u) && n < |r| && r[n] == '\n' && r[n + 1..] == "LIMIT " + Decimal(limit) + rest
    ensures var end := |r| - |rest|;
            && n < end && r[end..] == rest
            && Scan(u, r, n, depth)
                 == Scan(u, r, end, depth).(words := [Word("LIMIT", depth)] + Scan(u, r, end, depth).words)
  {
    hide Scan, Decimal;
    LimitUpper(u);
    SkipOne(u, r, n, depth);
    var first := "LIMIT " + Decimal(limit);
    assert first == "LIMIT" + " " + Decimal(limit);
    Sliced(r, n + 1, first, rest);
    hide Sane;
    ClausePart(u, r, n + 1, "LIMIT", limit, n + 1 + |first|, depth);
  }

  lemma LimitUpper(u: Unicode)
    requires Sane(u)
    ensures u.upper("LIMIT") == "LIMIT" && u.upper("OFFSET") == "OFFSET"
  {
  }

  lemma OffsetPartScans(u: Unicode, r: string, a: nat, offset: nat, depth: nat)
    requires Sane(u) && a <= |r| && r[a..] == " OFFSET " + Decimal(offset)
    ensures Scan(u, r, a, depth) == Scanned([Word("OFFSET", depth)], depth, true)
  {
    hide Decimal;
    LimitUpper(u);
    var first := "OFFSET " + Decimal(offset);
    assert first == "OFFSET" + " " + Decimal(offset);
    assert r[a..] == " " + first;
    Sliced(r, a, " ", first);
    SkipOne(u, r, a, depth);
    assert r[a + 1..|r|] == first;
    hide Sane;
    ClausePart(u, r, a + 1, "OFFSET", offset, |r|, depth);
  }

  lemma OffsetTextScans(u: Unicode, r: string, a: nat, offset: Option<nat>, depth: nat)
    requires Sane(u) && a <= |r| && r[a..] == OffsetText(offset)
    ensures Scan(u, r, a, depth) == Scanned(OffsetWords(offset, depth), depth, true)
  {
    hide Scan, Sane, Decimal;
    if Skips(offset) { OffsetPartScans(u, r, a, offset.value, depth); } else { ScanGoesOn(u, r, a, depth); }
  }

  /** What follows the statement in its rewrite is scanned as the words of the clause. */
  lemma ClauseScans(u: Unicode, r: string, n: nat, limit: nat, offset: Option<nat>, depth: nat)
    requires Sane(u) && n < |r| && r[n] == '\n' && r[n + 1..] == Clause(limit, offset)
    ensures Scan(u, r, n, depth) == Scanned(ClauseWords(offset, depth), depth, true)
  {
    hide Scan, Sane, Decimal, OffsetText, OffsetWords;
    LimitPartScans(u, r, n, limit, OffsetText(offset), depth);
    OffsetTextScans(u, r, |r| - |OffsetText(offset)|, offset, depth);
  }

  lemma ClauseHasNoMarks(u: Unicode, limit: nat, offset: Option<nat>)
    requires Sane(u)
    ensures forall k :: 0 <= k < |Clause(limit, offset)| ==> !IsMark(Clause(limit, offset)[k])
  {
    DigitsArePlain(u, limit);
    if offset.Some? { DigitsArePlain(u, offset.value); }
    var first := "LIMIT " + Decimal(limit);
    forall k | 0 <= k < |Clause(limit, offset)| ensures !IsMark(Clause(limit, offset)[k]) {
      if k < |first| {
        assert Clause(limit, offset)[k] == first[k];
      } else {
        assert Clause(limit, offset)[k] == (" OFFSET " + Decimal(offset.value))[k - |first|];
      }
    }
  }

  lemma {:induction false} RStripIsPrefix(u: Unicode, s: string)
    ensures var p := RStrip(u, s);
            && |p| <= |s| && p == s[..|p|] && (forall k :: |p| <= k < |s| ==> u.isSpace(s[k]))
            && (p != [] ==> !u.isSpace(p[|p| - 1]))
  {
    if s != [] && u.isSpace(s[|s| - 1]) { RStripIsPrefix(u, s[..|s| - 1]); }
  }

  // --- Reading the window back ---------------------------------------------------------------------------

  /** The rows a clause asks for: how many, and how many to leave out before them. */
  datatype Window = Window(limit: nat, offset: nat)

  /** What follows the last line break, all of it where there is none. */
  ghost function LastLine(text: string): (line: string)
    ensures |line| <= |text|
  {
    if text == [] || text[|text| - 1] == '\n' then [] else LastLine(text[..|text| - 1]) + [text[|text| - 1]]
  }

  /** What stands before the last line break. */
  ghost function LinesBefore(text: string): string {
    var n := |text| - |LastLine(text)|;
    if n == 0 then [] else text[..n - 1]
  }

  /** The digits some text begins with. */
  ghost function LeadingDigits(s: string): (digits: string)
    ensures digits <= s && AllDigits(digits)
  {
    if s == [] || !IsDigit(s[0]) then []
    else
      assert s == [s[0]] + s[1..];
      [s[0]] + LeadingDigits(s[1..])
  }

  /** A clause, read: a number after LIMIT, and where it goes on a number after OFFSET. */
  ghost function ReadClause(line: string): Option<Window> {
    if !("LIMIT " <= line) then None
    else
      var limit := LeadingDigits(line[6..]);
      var rest := line[6 + |limit|..];
      if limit == [] then None
      else if rest == [] then Some(Window(NatOf(limit), 0))
      else if " OFFSET " <= rest && |rest| > 8 && LeadingDigits(rest[8..]) == rest[8..]
      then Some(Window(NatOf(limit), NatOf(rest[8..])))
      else None
  }

  /** The rows the last line of a statement asks for. */
  ghost function WindowOf(text: string): Option<Window> {
    ReadClause(LastLine(text))
  }

  lemma {:induction false} DigitsLead(digits: string, rest: string)
    requires AllDigits(digits) && (rest == [] || !IsDigit(rest[0]))
    ensures LeadingDigits(digits + rest) == digits
  {
    if digits == [] {
      assert digits + rest == rest;
    } else {
      assert (digits + rest)[1..] == digits[1..] + rest;
      DigitsLead(digits[1..], rest);
    }
  }

  lemma {:induction false} LineIsLast(before: string, line: string)
    requires '\n' !in line
    ensures LastLine(before + "\n" + line) == line && LinesBefore(before + "\n" + line) == before
    decreases |line|
  {
    var text := before + "\n" + line;
    if line != [] {
      var init := line[..|line| - 1];
      assert text[..|text| - 1] == before + "\n" + init;
      LineIsLast(before, init);
      assert line[|line| - 1] in line && line == init + [line[|line| - 1]];
    }
    assert LastLine(text) == line;
    assert text[..|before|] == before;
  }

  lemma LimitReads(limit: nat)
    ensures ReadClause("LIMIT " + Decimal(limit)) == Some(Window(limit, 0))
  {
    DecimalRoundTrip(limit);
    var line := "LIMIT " + Decimal(limit);
    assert line[6..] == Decimal(limit) && Decimal(limit) + [] == Decimal(limit);
    DigitsLead(Decimal(limit), []);
    hide Decimal, NatOf;
  }

  lemma OffsetReads(limit: nat, offset: nat)
    ensures ReadClause("LIMIT " + Decimal(limit) + " OFFSET " + Decimal(offset)) == Some(Window(limit, offset))
  {
    hide Decimal, NatOf;
    DecimalRoundTrip(limit);
    DecimalRoundTrip(offset);
    var rest := " OFFSET " + Decimal(offset);
    var line := "LIMIT " + Decimal(limit) + rest;
    assert line[6..] == Decimal(limit) + rest;
    DigitsLead(Decimal(limit), rest);
    assert line[6 + |Decimal(limit)|..] == rest && rest[8..] == Decimal(offset);
    assert Decimal(offset) + [] == Decimal(offset);
    DigitsLead(Decimal(offset), []);
    assert line == "LIMIT " + Decimal(limit) + " OFFSET " + Decimal(offset);
  }

  /** A statement without the blanks at its end. */
  ghost predicate Trims(u: Unicode, part: string, statement: string) {
    && part <= statement && (forall k :: |part| <= k < |statement| ==> u.isSpace(statement[k]))
    && (part != [] ==> !u.isSpace(part[|part| - 1]))
  }

  /** The rewritten statement is the statement, without the blanks at its end, and one more line, which asks
      for exactly the limit and the offset given; none given, or 0, is no OFFSET. */
  lemma RewriteAsksForTheWindow(u: Unicode, statement: string, limit: nat, offset: Option<nat>)
    requires Sane(u) && LimitStatement(u, statement, Some(limit), offset).Some?
    ensures var text := LimitStatement(u, statement, Some(limit), offset).value;
            && Trims(u, LinesBefore(text), statement)
            && WindowOf(text) == Some(Window(limit, if offset.Some? then offset.value else 0))
            && LastLine(text) == "LIMIT " + Decimal(limit)
                                 + if offset.None? || offset.value == 0 then "" else " OFFSET " + Decimal(offset.value)
  {
    hide Decimal, ReadClause, Sane, Declines;
    RStripIsPrefix(u, statement);
    ClauseIsOneLine(limit, offset);
    LineIsLast(RStrip(u, statement), Clause(limit, offset));
    if Skips(offset) {
      OffsetReads(limit, offset.value);
      assert Clause(limit, offset) == "LIMIT " + Decimal(limit) + " OFFSET " + Decimal(offset.value);
    } else {
      LimitReads(limit);
      assert Clause(limit, offset) == "LIMIT " + Decimal(limit);
    }
  }

  lemma ClauseIsOneLine(limit: nat, offset: Option<nat>)
    ensures '\n' !in Clause(limit, offset)
  {
    hide Decimal;
    DecimalRoundTrip(limit);
    if offset.Some? { DecimalRoundTrip(offset.value); }
  }

  // --- Which statements are rewritten ------------------------------------------------------------------

  /** A word that is not in parentheses. */
  predicate AtTop(words: seq<Word>, i: nat, text: string) {
    i < |words| && words[i].depth == 0 && words[i].text == text
  }

  ghost predicate HasTop(words: seq<Word>, text: string) {
    exists i: nat :: AtTop(words, i, text)
  }

  /** Two words not in parentheses, with only words in parentheses between them. */
  ghost predicate TopPair(words: seq<Word>, first: string, second: string) {
    exists i: nat, j: nat :: i < j && AtTop(words, i, first) && AtTop(words, j, second) && AllDeep(words, i + 1, j)
  }

  ghost predicate AllDeep(words: seq<Word>, from: nat, to: nat) {
    forall k :: from <= k < to < |words| ==> words[k].depth > 0
  }

  lemma {:induction false} TopIsTop(words: seq<Word>, text: string)
    ensures text in Top(words) <==> HasTop(words, text)
  {
    if words != [] {
      var rest := words[1..];
      TopIsTop(rest, text);
      if i: nat :| AtTop(words, i, text) {
        if i > 0 { assert AtTop(rest, i - 1, text); }
      }
      if i: nat :| AtTop(rest, i, text) { assert AtTop(words, i + 1, text); }
      if words[0].depth == 0 && words[0].text == text { assert AtTop(words, 0, text); }
    }
  }

  lemma {:induction false} FirstTop(words: seq<Word>, text: string)
    ensures Top(words) != [] && Top(words)[0] == text <==>
            exists j: nat :: AtTop(words, j, text) && AllDeep(words, 0, j)
  {
    if words != [] {
      var rest := words[1..];
      FirstTop(rest, text);
      if words[0].depth == 0 {
        if words[0].text == text { assert AtTop(words, 0, text) && AllDeep(words, 0, 0); }
      } else {
        if j: nat :| AtTop(words, j, text) && AllDeep(words, 0, j) {
          assert AtTop(rest, j - 1, text) && AllDeep(rest, 0, j - 1);
        }
        if j: nat :| AtTop(rest, j, text) && AllDeep(rest, 0, j) {
          assert AtTop(words, j + 1, text) && AllDeep(words, 0, j + 1);
        }
      }
    }
  }

  /** Two words one after the other. */
  ghost predicate InARow(top: seq<string>, first: string, second: string) {
    exists i :: 0 <= i < |top| - 1 && top[i] == first && top[i + 1] == second
  }

  lemma InARowStep(word: string, rest: seq<string>, first: string, second: string)
    ensures InARow([word] + rest, first, second)
            <==> InARow(rest, first, second) || (word == first && rest != [] && rest[0] == second)
  {
    var top := [word] + rest;
    if InARow(top, first, second) {
      var i :| 0 <= i < |top| - 1 && top[i] == first && top[i + 1] == second;
      if i > 0 { assert rest[i - 1] == first && rest[i - 1 + 1] == second; }
    }
    if InARow(rest, first, second) {
      var i :| 0 <= i < |rest| - 1 && rest[i] == first && rest[i + 1] == second;
      assert top[i + 1] == first && top[i + 1 + 1] == second;
    }
    if word == first && rest != [] && rest[0] == second { assert top[0] == first && top[0 + 1] == second; }
  }

  lemma {:induction false} RowIsPair(words: seq<Word>, first: string, second: string)
    ensures InARow(Top(words), first, second) <==> TopPair(words, first, second)
  {
    hide InARow;
    if words == [] {
      assert !InARow([], first, second) by { NoRow(first, second); }
    } else {
      var rest := words[1..];
      RowIsPair(rest, first, second);
      FirstTop(rest, second);
      PairStep(words, first, second);
      if words[0].depth == 0 {
        assert Top(words) == [words[0].text] + Top(rest);
        InARowStep(words[0].text, Top(rest), first, second);
      } else {
        assert Top(words) == Top(rest);
      }
    }
  }

  lemma NoRow(first: string, second: string)
    ensures !InARow([], first, second)
  {
  }

  lemma PairStep(words: seq<Word>, first: string, second: string)
    requires words != []
    ensures TopPair(words, first, second)
            <==> TopPair(words[1..], first, second)
                 || (AtTop(words, 0, first)
                     && exists j: nat :: AtTop(words[1..], j, second) && AllDeep(words[1..], 0, j))
  {
    var rest := words[1..];
    if i: nat, j: nat :|
        i < j && AtTop(words, i, first) && AtTop(words, j, second) && AllDeep(words, i + 1, j) {
      assert AtTop(rest, j - 1, second);
      if i == 0 {
        assert AllDeep(rest, 0, j - 1);
      } else {
        assert AtTop(rest, i - 1, first) && AllDeep(rest, i - 1 + 1, j - 1);
      }
    }
    if i: nat, j: nat :| i < j && AtTop(rest, i, first) && AtTop(rest, j, second) && AllDeep(rest, i + 1, j) {
      assert AtTop(words, i + 1, first) && AtTop(words, j + 1, second) && AllDeep(words, i + 1 + 1, j + 1);
    }
    if AtTop(words, 0, first) {
      if j: nat :| AtTop(rest, j, second) && AllDeep(rest, 0, j) {
        assert AtTop(words, j + 1, second) && AllDeep(words, 0 + 1, j + 1);
      }
    }
  }

  /** A statement is rewritten exactly when there is a limit to set, it begins with SELECT or WITH, and, of the
      words not in parentheses, none is LIMIT, FETCH, OFFSET, INTO, PROCEDURE or LOCK, no FOR is followed by
      UPDATE or SHARE, and, in a WITH, one is SELECT and none INSERT, UPDATE, DELETE or REPLACE. */
  lemma RewrittenExactlyWhen(u: Unicode, statement: string, limit: Option<nat>, offset: Option<nat>)
    requires Sane(u)
    ensures var words := Words(u, statement);
            LimitStatement(u, statement, limit, offset).Some? <==>
              && limit.Some? && words != [] && (words[0].text == "SELECT" || words[0].text == "WITH")
              && !HasTop(words, "LIMIT") && !HasTop(words, "FETCH") && !HasTop(words, "OFFSET")
              && !HasTop(words, "INTO") && !HasTop(words, "PROCEDURE") && !HasTop(words, "LOCK")
              && !TopPair(words, "FOR", "UPDATE") && !TopPair(words, "FOR", "SHARE")
              && (words[0].text == "WITH" ==>
                    && HasTop(words, "SELECT") && !HasTop(words, "INSERT") && !HasTop(words, "UPDATE")
                    && !HasTop(words, "DELETE") && !HasTop(words, "REPLACE"))
  {
    hide Sane, Words, HasTop, TopPair;
    var words := Words(u, statement);
    if words != [] { DeclinesExactly(words); }
  }

  lemma DeclinesExactly(words: seq<Word>)
    requires words != []
    ensures !Declines(words) <==>
              && (words[0].text == "SELECT" || words[0].text == "WITH")
              && !HasTop(words, "LIMIT") && !HasTop(words, "FETCH") && !HasTop(words, "OFFSET")
              && !HasTop(words, "INTO") && !HasTop(words, "PROCEDURE") && !HasTop(words, "LOCK")
              && !TopPair(words, "FOR", "UPDATE") && !TopPair(words, "FOR", "SHARE")
              && (words[0].text == "WITH" ==>
                    && HasTop(words, "SELECT") && !HasTop(words, "INSERT") && !HasTop(words, "UPDATE")
                    && !HasTop(words, "DELETE") && !HasTop(words, "REPLACE"))
  {
    hide HasTop, TopPair, Top;
    var top := Top(words);
    TopIsTop(words, "SELECT");
    UnlimitableExactly(words);
    NoQueryExactly(words);
    RowIsPair(words, "FOR", "UPDATE");
    RowIsPair(words, "FOR", "SHARE");
    assert Locks(top) <==> InARow(top, "FOR", "UPDATE") || InARow(top, "FOR", "SHARE");
  }

  lemma UnlimitableExactly(words: seq<Word>)
    ensures (exists i :: 0 <= i < |Top(words)| && Top(words)[i] in UNLIMITABLE_WORDS) <==>
              || HasTop(words, "LIMIT") || HasTop(words, "FETCH") || HasTop(words, "OFFSET")
              || HasTop(words, "INTO") || HasTop(words, "PROCEDURE") || HasTop(words, "LOCK")
  {
    hide HasTop, Top;
    TopIsTop(words, "LIMIT");
    TopIsTop(words, "FETCH");
    TopIsTop(words, "OFFSET");
    TopIsTop(words, "INTO");
    TopIsTop(words, "PROCEDURE");
    TopIsTop(words, "LOCK");
  }

  lemma NoQueryExactly(words: seq<Word>)
    ensures (exists i :: 0 <= i < |Top(words)| && Top(words)[i] in NOT_A_QUERY_WORDS) <==>
              || HasTop(words, "INSERT") || HasTop(words, "UPDATE") || HasTop(words, "DELETE")
              || HasTop(words, "REPLACE")
  {
    hide HasTop, Top;
    TopIsTop(words, "INSERT");
    TopIsTop(words, "UPDATE");
    TopIsTop(words, "DELETE");
    TopIsTop(words, "REPLACE");
  }

  // --- The results -------------------------------------------------------------------------------------

  /** What the scanner sees of a rewritten statement: the statement's words and then the clause's,
      at the depth the statement ended at - unless the statement ended inside a quote or a block
      comment, which swallows the clause. */
  lemma RewriteIsSeen(u: Unicode, statement: string, limit: nat, offset: Option<nat>)
    requires Sane(u) && LimitStatement(u, statement, Some(limit), offset).Some?
    ensures var scan := Scan(u, statement, 0, 0);
            Scan(u, LimitStatement(u, statement, Some(limit), offset).value, 0, 0) ==
            if scan.closed then scan.(words := scan.words + ClauseWords(offset, scan.depth)) else scan
  {
    var p := RStrip(u, statement);
    var r := p + "\n" + Clause(limit, offset);
    RStripIsPrefix(u, statement);
    ClauseHasNoMarks(u, limit, offset);
    assert r[|p|..][1..] == Clause(limit, offset);
    forall k | |p| <= k < |r| ensures !IsMark(r[k]) {
      if k > |p| { assert r[k] == Clause(limit, offset)[k - |p| - 1]; }
    }
    assert r[..|p|] == p;
    TwinScans(u, statement, r, |p|, 0, 0);
    ClauseScans(u, r, |p|, limit, offset, Scan(u, statement, 0, 0).depth);
  }

  lemma {:induction false} TopOfConcat(a: seq<Word>, b: seq<Word>)
    ensures Top(a + b) == Top(a) + Top(b)
  {
    if a == [] {
      assert a + b == b;
    } else {
      assert (a + b)[0] == a[0] && (a + b)[1..] == a[1..] + b;
      TopOfConcat(a[1..], b);
    }
  }

  lemma {:induction false} TopOfDeep(words: seq<Word>)
    requires forall i :: 0 <= i < |words| ==> words[i].depth != 0
    ensures Top(words) == []
  {
    if words != [] { TopOfDeep(words[1..]); }
  }

  lemma TopOfClause(offset: Option<nat>, depth: nat)
    ensures depth == 0 ==> Top(ClauseWords(offset, depth)) != [] && Top(ClauseWords(offset, depth))[0] == "LIMIT"
    ensures depth != 0 ==> Top(ClauseWords(offset, depth)) == []
  {
    if depth != 0 { TopOfDeep(ClauseWords(offset, depth)); }
  }

  /** A rewritten statement has exactly one LIMIT at its top level, the last clause but for the OFFSET,
      and no clause before it that a LIMIT would have had to precede. */
  lemma OneTopLevelLimit(u: Unicode, statement: string, limit: nat, offset: Option<nat>)
    requires Sane(u) && LimitStatement(u, statement, Some(limit), offset).Some?
    requires Scan(u, statement, 0, 0).closed && Scan(u, statement, 0, 0).depth == 0
    ensures var own := Top(Words(u, statement));
            && Top(Words(u, LimitStatement(u, statement, Some(limit), offset).value))
               == own + ["LIMIT"] + (if Skips(offset) then ["OFFSET"] else [])
            && (forall word :: word in ["LIMIT", "OFFSET", "FETCH", "INTO", "PROCEDURE", "LOCK"] ==> word !in own)
            && !Locks(own)
  {
    hide Scan, Sane, Clause;
    var scan := Scan(u, statement, 0, 0);
    RewriteIsSeen(u, statement, limit, offset);
    TopOfConcat(scan.words, ClauseWords(offset, 0));
    TopOfClauseAtTop(offset);
  }

  lemma TopOfClauseAtTop(offset: Option<nat>)
    ensures Top(ClauseWords(offset, 0)) == ["LIMIT"] + (if Skips(offset) then ["OFFSET"] else [])
  {
    TopOfConcat([Word("LIMIT", 0)], OffsetWords(offset, 0));
    TopOfOne(Word("LIMIT", 0));
    TopOfOne(Word("OFFSET", 0));
  }

  lemma TopOfOne(word: Word)
    requires word.depth == 0
    ensures Top([word]) == [word.text]
  {
    assert [word][1..] == [];
  }

  /** A rewritten statement is rewritten again if and only if the first LIMIT is not the statement's
      own: it was swallowed by a quote or a block comment, or stands inside parentheses. */
  lemma RewritesOnce(u: Unicode, statement: string, limit: nat, offset: Option<nat>)
    requires Sane(u) && LimitStatement(u, statement, Some(limit), offset).Some?
    ensures var r := LimitStatement(u, statement, Some(limit), offset).value;
            var scan := Scan(u, statement, 0, 0);
            Declines(Words(u, r)) <==> scan.closed && scan.depth == 0
  {
    var scan := Scan(u, statement, 0, 0);
    var r := LimitStatement(u, statement, Some(limit), offset).value;
    RewriteIsSeen(u, statement, limit, offset);
    if scan.closed {
      var words, more := scan.words, ClauseWords(offset, scan.depth);
      TopOfConcat(words, more);
      TopOfClause(offset, scan.depth);
      if scan.depth == 0 {
        assert Top(Words(u, r))[|Top(words)|] == "LIMIT";
      } else {
        assert Top(Words(u, r)) == Top(words);
        assert Words(u, r)[0] == words[0];
      }
    }
  }

  lemma OpenQuoteScans(u: Unicode)
    requires Sane(u) && u.upper("SELECT") == "SELECT"
    ensures Scan(u, "SELECT '", 0, 0) == Scanned([Word("SELECT", 0)], 0, false)
  {
    var s := "SELECT '";
    assert s[0..6] == "SELECT";
    CapitalsAreAWord(u, s, 0, 6, 0);
    assert Plain(u, s[6]);
    PlainRun(u, s, 6, 7, 0);
    assert QuoteEnd(s, '\'', 8) == None;
    assert ItemAt(u, s, 7) == Unclosed;
    ScanGoesOn(u, s, 7, 0);
  }

  /** A statement that is rewritten again and again: its quote is never closed. */
  lemma UnclosedQuoteIsRewrittenAgain(u: Unicode)
    requires Sane(u) && u.upper("SELECT") == "SELECT"
    ensures var first := LimitStatement(u, "SELECT '", Some(5), None);
            first.Some? && LimitStatement(u, first.value, Some(5), None).Some?
  {
    hide Sane, Scan;
    var s := "SELECT '";
    OpenQuoteScans(u);
    assert [Word("SELECT", 0)][1..] == [];
    assert Top(Words(u, s)) == ["SELECT"];
    RewritesOnce(u, s, 5, None);
  }
}
