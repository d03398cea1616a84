/**
 The SQL scanner (`_top_level_words`).

 Which characters are letters, alphanumeric or space is Unicode's to say, and so is upper case: a
 Unicode value stands for those tables, and Sane is what is used of them.
 */
module SqlScanner {
  import opened Wrappers

  datatype Unicode = Unicode(
    isAlpha: char -> bool, isAlnum: char -> bool, isSpace: char -> bool, upper: string -> string)

  predicate IsQuote(c: char) {
    c == '\'' || c == '"' || c == '`'
  }

  /** The characters that mean something to the scanner. */
  predicate IsMark(c: char) {
    IsQuote(c) || c == '#' || c == '-' || c == '/' || c == '*' || c == '(' || c == ')' || c == '\\'
  }

  ghost predicate Sane(u: Unicode) {
    && (forall c :: u.isAlpha(c) ==> u.isAlnum(c))
    && (forall c :: u.isSpace(c) ==> !u.isAlnum(c) && !IsMark(c) && c != '_' && c != '$')
    && (forall c :: IsMark(c) ==> !u.isAlnum(c))
    && u.isSpace('\n') && u.isSpace(' ')
    && (forall c :: 'A' <= c <= 'Z' ==> u.isAlpha(c))
    && (forall c :: '0' <= c <= '9' ==> !u.isAlpha(c))
    && u.upper("LIMIT") == "LIMIT" && u.upper("OFFSET") == "OFFSET"
  }

  /** No more is used of the tables than ASCII alone would give. */
  lemma AsciiIsSane()
    ensures Sane(Unicode(c => 'a' <= c <= 'z' || 'A' <= c <= 'Z',
                         c => 'a' <= c <= 'z' || 'A' <= c <= 'Z' || '0' <= c <= '9',
                         c => c == ' ' || '\t' <= c <= '\r', s => s))
  {
  }

  datatype Word = Word(text: string, depth: nat)

  // --- What the scanner steps over ---------------------------------------------------------------

  /** The position of the first match at or after from, or the length. */
  function Find(s: string, pattern: string, from: nat): (i: nat)
    requires from <= |s|
    ensures from <= i <= |s|
    ensures i < |s| ==> pattern <= s[i..]
    decreases |s| - from
  {
    if from == |s| || pattern <= s[from..] then from else Find(s, pattern, from + 1)
  }

  /** The position after the quote that closes a quoted string, or None when it is never closed. */
  function QuoteEnd(s: string, quote: char, from: nat): (end: Option<nat>)
    ensures end.Some? ==> from < end.value <= |s|
    decreases |s| - from
  {
    if from >= |s| then None
    else if quote != '`' && s[from] == '\\' then QuoteEnd(s, quote, from + 2)
    else if s[from] == quote then
      if from + 1 < |s| && s[from + 1] == quote then QuoteEnd(s, quote, from + 2) else Some(from + 1)
    else QuoteEnd(s, quote, from + 1)
  }

  predicate InWord(u: Unicode, c: char) {
    u.isAlnum(c) || c == '_' || c == '$'
  }

  function WordEnd(u: Unicode, s: string, from: nat): (i: nat)
    requires from <= |s|
    ensures from <= i <= |s|
    decreases |s| - from
  {
    if from < |s| && InWord(u, s[from]) then WordEnd(u, s, from + 1) else from
  }

  predicate OpensLineComment(u: Unicode, s: string, i: nat)
    requires i < |s|
  {
    s[i] == '#'
    || (i + 1 < |s| && s[i] == '-' && s[i + 1] == '-' && (i + 2 == |s| || u.isSpace(s[i + 2])))
  }

  predicate OpensBlockComment(s: string, i: nat) {
    i + 1 < |s| && s[i] == '/' && s[i + 1] == '*'
  }

  function LineCommentEnd(s: string, i: nat): (j: nat)
    requires i < |s|
    ensures i < j <= |s|
  {
    var end := Find(s, "\n", i);
    if end == |s| then |s| else end + 1
  }

  /** The position after a block comment, or None when it is never closed. */
  function BlockCommentEnd(s: string, i: nat): (end: Option<nat>)
    requires OpensBlockComment(s, i)
    ensures end.Some? ==> i < end.value <= |s|
  {
    var end := Find(s, "*/", i + 2);
    if end == |s| then None else Some(end + 2)
  }

  // --- What is stepped over, by itself --------------------------------------------------------------

  /** What may stand between two quotes: any character but the quote and, in a string, the backslash; the
      quote twice; and, in a string, a backslash with whatever comes next. */
  ghost predicate Between(quote: char, body: string)
    decreases |body|
  {
    || body == []
    || (body[0] != quote && (quote == '`' || body[0] != '\\') && Between(quote, body[1..]))
    || (|body| >= 2 && body[0] == quote && body[1] == quote && Between(quote, body[2..]))
    || (|body| >= 2 && quote != '`' && body[0] == '\\' && Between(quote, body[2..]))
  }

  /** Quoted text that began before from ends before end, and not earlier. */
  ghost predicate Closes(s: string, quote: char, from: nat, end: nat) {
    from < end <= |s| && s[end - 1] == quote && (end < |s| ==> s[end] != quote) && Between(quote, s[from..end - 1])
  }

  ghost predicate NeverCloses(s: string, quote: char, from: nat) {
    forall end: nat :: !Closes(s, quote, from, end)
  }

  lemma {:induction false} QuoteEndCloses(s: string, quote: char, from: nat)
    requires quote == '\'' || quote == '"' || quote == '`'
    ensures QuoteEnd(s, quote, from).Some? ==> Closes(s, quote, from, QuoteEnd(s, quote, from).value)
    decreases |s| - from
  {
    var end := QuoteEnd(s, quote, from);
    if end.Some? {
      var body := s[from..end.value - 1];
      if s[from] == quote && !(from + 1 < |s| && s[from + 1] == quote) {
        assert body == [];
      } else {
        var step := if (quote != '`' && s[from] == '\\') || s[from] == quote then 2 else 1;
        QuoteEndCloses(s, quote, from + step);
        assert body[step..] == s[from + step..end.value - 1];
      }
    }
  }

  lemma {:induction false} ClosingIsFound(s: string, quote: char, from: nat, end: nat)
    requires (quote == '\'' || quote == '"' || quote == '`') && Closes(s, quote, from, end)
    ensures QuoteEnd(s, quote, from) == Some(end)
    decreases end - from
  {
    var body := s[from..end - 1];
    if body == [] {
      assert from == end - 1;
    } else {
      assert body[0] == s[from] && (|body| >= 2 ==> body[1] == s[from + 1]);
      var step := if (quote != '`' && s[from] == '\\') || s[from] == quote then 2 else 1;
      assert body[step..] == s[from + step..end - 1];
      ClosingIsFound(s, quote, from + step, end);
    }
  }

  lemma NothingCloses(s: string, quote: char, from: nat)
    requires (quote == '\'' || quote == '"' || quote == '`') && QuoteEnd(s, quote, from).None?
    ensures NeverCloses(s, quote, from)
  {
    hide QuoteEnd, Closes;
    forall end: nat | Closes(s, quote, from, end) ensures false { ClosingIsFound(s, quote, from, end); }
  }

  lemma {:induction false} FindIsFirst(s: string, pattern: string, from: nat, i: nat)
    requires from <= i < |s| && pattern <= s[i..]
    ensures Find(s, pattern, from) <= i
    decreases i - from
  {
    if from < i && !(pattern <= s[from..]) { FindIsFirst(s, pattern, from + 1, i); }
  }

  /** The two characters at a position. */
  predicate PairAt(s: string, i: nat, a: char, b: char) {
    i + 1 < |s| && s[i] == a && s[i + 1] == b
  }

  lemma PairIsPattern(s: string, i: nat)
    requires i <= |s|
    ensures "*/" <= s[i..] <==> PairAt(s, i, '*', '/')
    ensures "\n" <= s[i..] <==> i < |s| && s[i] == '\n'
  {
  }

  lemma LineEnds(s: string, i: nat)
    requires i < |s|
    ensures var end := LineCommentEnd(s, i);
            && (forall k :: i <= k < end - 1 ==> s[k] != '\n')
            && (s[end - 1] == '\n' || end == |s|)
  {
    var at := Find(s, "\n", i);
    PairIsPattern(s, at);
    forall k | i <= k < at ensures s[k] != '\n' {
      PairIsPattern(s, k);
      if s[k] == '\n' { FindIsFirst(s, "\n", i, k); }
    }
  }

  lemma BlockEnds(s: string, i: nat)
    requires OpensBlockComment(s, i)
    ensures match BlockCommentEnd(s, i)
            case Some(end) =>
              i + 4 <= end <= |s| && PairAt(s, end - 2, '*', '/')
              && forall k :: i + 2 <= k < end - 2 ==> !PairAt(s, k, '*', '/')
            case None => forall k :: i + 2 <= k ==> !PairAt(s, k, '*', '/')
  {
    var at := Find(s, "*/", i + 2);
    PairIsPattern(s, at);
    forall k | i + 2 <= k && (k < at || at == |s|) ensures !PairAt(s, k, '*', '/') {
      if PairAt(s, k, '*', '/') {
        PairIsPattern(s, k);
        FindIsFirst(s, "*/", i + 2, k);
      }
    }
  }

  lemma {:induction false} WordRuns(u: Unicode, s: string, from: nat)
    requires from <= |s|
    ensures var end := WordEnd(u, s, from);
            && (forall k :: from <= k < end ==> u.isAlnum(s[k]) || s[k] == '_' || s[k] == '$')
            && (end < |s| ==> !u.isAlnum(s[end]) && s[end] != '_' && s[end] != '$')
    decreases |s| - from
  {
    if from < |s| && InWord(u, s[from]) { WordRuns(u, s, from + 1); }
  }

  // --- The scan -------------------------------------------------------------------------------------

  /** What a scan saw: the words, the depth it ended at, and whether it ended inside nothing - a line
      comment that runs to the end is inside nothing, a quote or a block comment is not. */
  datatype Scanned = Scanned(words: seq<Word>, depth: nat, closed: bool)

  /** What starts at a position, and where it ends. */
  datatype Item = Unclosed | Skipped(next: nat) | Opening(next: nat) | Closing(next: nat) | Named(next: nat)

  function ItemAt(u: Unicode, s: string, i: nat): (item: Item)
    requires Sane(u) && i < |s|
    ensures !item.Unclosed? ==> i < item.next <= |s|
  {
    var c := s[i];
    if IsQuote(c) then
      match QuoteEnd(s, c, i + 1)
      case Some(end) => Skipped(end)
      case None => Unclosed
    else if OpensLineComment(u, s, i) then Skipped(LineCommentEnd(s, i))
    else if OpensBlockComment(s, i) then
      match BlockCommentEnd(s, i)
      case Some(end) => Skipped(end)
      case None => Unclosed
    else if c == '(' then Opening(i + 1)
    else if c == ')' then Closing(i + 1)
    else if u.isAlpha(c) || c == '_' then Named(WordEnd(u, s, i))
    else Skipped(i + 1)
  }

  /** A line comment begins with a number sign, or with two dashes before a space or the end. */
  predicate CommentsOut(u: Unicode, s: string, i: nat)
    requires i < |s|
  {
    s[i] == '#' || (PairAt(s, i, '-', '-') && (i + 2 == |s| || u.isSpace(s[i + 2])))
  }

  /** What the scanner takes the text at a position for: quoted text to its closing quote, a comment to its
      end, a parenthesis, a word with all of its characters, or else one character; and when quoted text or a
      comment is not over by the end of the text. */
  lemma ItemsAre(u: Unicode, s: string, i: nat)
    requires Sane(u) && i < |s|
    ensures var c := s[i];
            var quoted, line, block := c in "'\"`", CommentsOut(u, s, i), PairAt(s, i, '/', '*');
            match ItemAt(u, s, i)
            case Unclosed =>
              || (quoted && NeverCloses(s, c, i + 1))
              || (block && forall k :: i + 2 <= k ==> !PairAt(s, k, '*', '/'))
            case Opening(next) => c == '(' && next == i + 1
            case Closing(next) => c == ')' && next == i + 1
            case Named(next) =>
              && (u.isAlpha(c) || c == '_') && !quoted && !line && !block
              && (forall k :: i <= k < next ==> u.isAlnum(s[k]) || s[k] == '_' || s[k] == '$')
              && (next < |s| ==> !u.isAlnum(s[next]) && s[next] != '_' && s[next] != '$')
            case Skipped(next) =>
              || (quoted && Closes(s, c, i + 1, next))
              || (!quoted && line && (forall k :: i <= k < next - 1 ==> s[k] != '\n')
                  && (s[next - 1] == '\n' || next == |s|))
              || (!quoted && !line && block && i + 4 <= next && PairAt(s, next - 2, '*', '/')
                  && forall k :: i + 2 <= k < next - 2 ==> !PairAt(s, k, '*', '/'))
              || (!quoted && !line && !block && next == i + 1
                  && c != '(' && c != ')' && !u.isAlpha(c) && c != '_')
  {
    hide QuoteEnd, Closes, LineCommentEnd, BlockCommentEnd, WordEnd, Find;
    var c := s[i];
    if IsQuote(c) {
      QuoteEndCloses(s, c, i + 1);
      if QuoteEnd(s, c, i + 1).None? { NothingCloses(s, c, i + 1); }
    } else if OpensLineComment(u, s, i) {
      LineEnds(s, i);
    } else if OpensBlockComment(s, i) {
      BlockEnds(s, i);
    } else {
      WordRuns(u, s, i);
    }
  }

  /** The scan of a named item is the word and what the rest is scanned as. */
  function Prepend(word: Word, rest: Scanned): Scanned {
    rest.(words := [word] + rest.words)
  }

  /** The scan from position i on, at a depth. */
  function Scan(u: Unicode, s: string, i: nat, depth: nat): Scanned
    requires Sane(u)
    decreases |s| - i
  {
    if i >= |s| then Scanned([], depth, true)
    else
      match ItemAt(u, s, i)
      case Unclosed => Scanned([], depth, false)
      case Skipped(next) => Scan(u, s, next, depth)
      case Opening(next) => Scan(u, s, next, depth + 1)
      case Closing(next) => Scan(u, s, next, if depth == 0 then 0 else depth - 1)
      case Named(next) =>
        Prepend(Word(u.upper(s[i..next]), depth), Scan(u, s, next, depth))
  }

  function Words(u: Unicode, s: string): seq<Word>
    requires Sane(u)
  {
    Scan(u, s, 0, 0).words
  }

  lemma ScanGoesOn(u: Unicode, s: string, i: nat, depth: nat)
    requires Sane(u)
    ensures i >= |s| ==> Scan(u, s, i, depth) == Scanned([], depth, true)
    ensures i < |s| ==>
              Scan(u, s, i, depth) ==
              match ItemAt(u, s, i)
              case Unclosed => Scanned([], depth, false)
              case Skipped(next) => Scan(u, s, next, depth)
              case Opening(next) => Scan(u, s, next, depth + 1)
              case Closing(next) => Scan(u, s, next, if depth == 0 then 0 else depth - 1)
              case Named(next) => Prepend(Word(u.upper(s[i..next]), depth), Scan(u, s, next, depth))
  {
    hide ItemAt, Sane;
  }

  lemma Appended(words: seq<Word>, word: Word, rest: Scanned)
    ensures words + Prepend(word, rest).words == words + [word] + rest.words
  {
  }

  /** The scanner as it runs: one pass with an index, whatever the statement holds. */
  method TopLevelWords(u: Unicode, statement: string) returns (words: seq<Word>)
    requires Sane(u)
    ensures words == Words(u, statement)
  {
    hide Scan, QuoteEnd, Find, Sane, WordEnd, Prepend;
    words := [];
    var depth: nat := 0;
    var index: nat := 0;
    var length := |statement|;
    while index < length
      invariant words + Scan(u, statement, index, depth).words == Words(u, statement)
      decreases length - index
    {
      var c := statement[index];
      ghost var item := ItemAt(u, statement, index);
      ScanGoesOn(u, statement, index, depth);
      if IsQuote(c) {
        index := StepOverQuote(statement, c, index + 1);
      } else if OpensLineComment(u, statement, index) {
        var end := Find(statement, "\n", index);
        index := if end == length then length else end + 1;
      } else if OpensBlockComment(statement, index) {
        var end := Find(statement, "*/", index + 2);
        index := if end == length then length else end + 2;
      } else if c == '(' {
        depth := depth + 1;
        index := index + 1;
      } else if c == ')' {
        depth := if depth == 0 then 0 else depth - 1;
        index := index + 1;
      } else if u.isAlpha(c) || c == '_' {
        var start := index;
        index := StepOverWord(u, statement, start);
        assert item == Named(index);
        Appended(words, Word(u.upper(statement[start..index]), depth), Scan(u, statement, index, depth));
        words := words + [Word(u.upper(statement[start..index]), depth)];
      } else {
        index := index + 1;
      }
      ScanGoesOn(u, statement, index, depth);
    }
    ScanGoesOn(u, statement, index, depth);
  }

  /** The position where the word that starts here ends. */
  method StepOverWord(u: Unicode, s: string, from: nat) returns (index: nat)
    requires from <= |s|
    ensures index == WordEnd(u, s, from)
  {
    index := from;
    while index < |s| && InWord(u, s[index])
      invariant from <= index <= |s|
      invariant WordEnd(u, s, index) == WordEnd(u, s, from)
      decreases |s| - index
    {
      index := index + 1;
    }
  }

  /** Lands where QuoteEnd says the quoted text is over, and beyond the text where it never is. */
  method StepOverQuote(s: string, quote: char, from: nat) returns (index: nat)
    ensures from < index
    ensures match QuoteEnd(s, quote, from) case Some(end) => index == end case None => |s| < index
  {
    index := from;
    while index < |s|
      invariant from <= index
      invariant QuoteEnd(s, quote, index) == QuoteEnd(s, quote, from)
      decreases |s| - index
    {
      if quote != '`' && s[index] == '\\' {
        index := index + 2;
        continue;
      }
      if s[index] == quote {
        if index + 1 < |s| && s[index + 1] == quote {
          index := index + 2;
          continue;
        }
        break;
      }
      index := index + 1;
    }
    index := index + 1;
  }
}
