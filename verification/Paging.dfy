/** Paging a query: one row more than asked for is fetched, and taken off again. */
module Paging {
  import opened Wrappers
  import opened SqlScanner
  import opened LimitRewrite

  /** What the server makes of a statement. */
  datatype Outcome<T> = Rows(rows: seq<T>) | SyntaxError | OtherError

  /** The outcome of the statement that ran in the end, and whether that was the limited one. */
  datatype Run<T> = Run(outcome: Outcome<T>, limited: bool)

  /** What a client gets; hasMore only for a limited result. */
  datatype Page<T> = Page(rows: seq<T>, hasMore: Option<bool>)

  function RunLimited<T>(
    u: Unicode, server: string -> Outcome<T>, statement: string, limit: Option<nat>, offset: Option<nat>): Run<T>
    requires Sane(u)
  {
    var asked := if limit.Some? then Some(limit.value + 1) else None;
    match LimitStatement(u, statement, asked, offset)
    case None => Run(server(statement), false)
    case Some(limited) =>
      if server(limited).SyntaxError? then Run(server(statement), false) else Run(server(limited), true)
  }

  function PageResult<T>(rows: seq<T>, limit: nat): Page<T> {
    var hasMore := |rows| > limit;
    Page(if hasMore then rows[..limit] else rows, Some(hasMore))
  }

  function ReadPage<T>(
    u: Unicode, server: string -> Outcome<T>, statement: string, limit: nat, offset: nat): Result<Page<T>, Outcome<T>>
    requires Sane(u)
  {
    var run := RunLimited(u, server, statement, Some(limit), Some(offset));
    if !run.outcome.Rows? then Err(run.outcome)
    else if run.limited then Ok(PageResult(run.outcome.rows, limit))
    else Ok(Page(run.outcome.rows, None))
  }

  function Min(a: nat, b: nat): nat {
    if a < b then a else b
  }

  function Slice<T>(rows: seq<T>, offset: nat, count: nat): seq<T> {
    rows[Min(offset, |rows|)..Min(offset + count, |rows|)]
  }

  /** The query can be limited and gives a fixed sequence of rows, and the server, sent the query with a
      line more, answers with the window it reads there. */
  ghost predicate Answers<T(!new)>(u: Unicode, server: string -> Outcome<T>, statement: string, rows: seq<T>)
    requires Sane(u)
  {
    && !Declines(Words(u, statement))
    && forall text :: Trims(u, LinesBefore(text), statement) && WindowOf(text).Some? ==>
         server(text) == Rows(Slice(rows, WindowOf(text).value.offset, WindowOf(text).value.limit))
  }

  /** One page: exactly the rows of its window, and whether any lie beyond it. */
  lemma PageIsItsWindow<T(!new)>(
    u: Unicode, server: string -> Outcome<T>, statement: string, rows: seq<T>, limit: nat, offset: nat)
    requires Sane(u) && Answers(u, server, statement, rows)
    ensures ReadPage(u, server, statement, limit, offset)
            == Ok(Page(Slice(rows, offset, limit), Some(offset + limit < |rows|)))
  {
    hide Answers, LimitStatement, Slice;
    RewriteIsAnswered(u, server, statement, rows, limit + 1, offset);
    CutToItsWindow(rows, offset, limit);
  }

  lemma RewriteIsAnswered<T(!new)>(
    u: Unicode, server: string -> Outcome<T>, statement: string, rows: seq<T>, limit: nat, offset: nat)
    requires Sane(u) && Answers(u, server, statement, rows)
    ensures LimitStatement(u, statement, Some(limit), Some(offset)).Some?
    ensures server(LimitStatement(u, statement, Some(limit), Some(offset)).value) == Rows(Slice(rows, offset, limit))
  {
    hide WindowOf, LinesBefore, LastLine, Trims, Declines, Words, Slice, Clause, RStrip;
    RewriteAsksForTheWindow(u, statement, limit, Some(offset));
  }

  lemma CutToItsWindow<T>(rows: seq<T>, offset: nat, limit: nat)
    ensures PageResult(Slice(rows, offset, limit + 1), limit)
            == Page(Slice(rows, offset, limit), Some(offset + limit < |rows|))
  {
    var fetched := Slice(rows, offset, limit + 1);
    if |fetched| > limit {
      assert fetched[..limit] == Slice(rows, offset, limit);
    } else {
      assert fetched == Slice(rows, offset, limit);
    }
  }

  /** Where a page starts: 0, limit, 2 * limit and so on. */
  function Start(page: nat, limit: nat): nat {
    if page == 0 then 0 else Start(page - 1, limit) + limit
  }

  lemma {:induction false} StartsGrow(page: nat, limit: nat)
    ensures limit >= 1 ==> Start(page, limit) >= page
    ensures limit == 0 ==> Start(page, limit) == 0
  {
    if page > 0 { StartsGrow(page - 1, limit); }
  }

  /** What a client has, and whether it was told it is done, after reading the given number of pages
      one after the other, stopping when told there are no more. */
  function ReadPages<T>(
    u: Unicode, server: string -> Outcome<T>, statement: string, limit: nat, pages: nat
  ): Result<(seq<T>, bool), Outcome<T>>
    requires Sane(u)
  {
    if pages == 0 then Ok(([], false))
    else
      match ReadPages(u, server, statement, limit, pages - 1)
      case Err(e) => Err(e)
      case Ok((rows, done)) =>
        if done then Ok((rows, true))
        else match ReadPage(u, server, statement, limit, Start(pages - 1, limit))
             case Err(e) => Err(e)
             case Ok(page) => Ok((rows + page.rows, page.hasMore != Some(true)))
  }

  /** After any number of pages a client has exactly the rows up to there, none lost and none twice,
      and knows whether those are all. */
  lemma {:induction false} PagesReassemble<T(!new)>(
    u: Unicode, server: string -> Outcome<T>, statement: string, rows: seq<T>, limit: nat, pages: nat)
    requires Sane(u) && Answers(u, server, statement, rows)
    ensures ReadPages(u, server, statement, limit, pages)
            == Ok((rows[..Min(Start(pages, limit), |rows|)], pages > 0 && |rows| <= Start(pages, limit)))
  {
    hide ReadPage, Slice, Answers;
    if pages > 0 {
      PagesReassemble(u, server, statement, rows, limit, pages - 1);
      var before := Start(pages - 1, limit);
      PageIsItsWindow(u, server, statement, rows, limit, before);
      SlicesJoin(rows, before, limit);
    }
  }

  lemma SlicesJoin<T>(rows: seq<T>, before: nat, limit: nat)
    ensures rows[..Min(before, |rows|)] + Slice(rows, before, limit) == rows[..Min(before + limit, |rows|)]
  {
  }

  /** Reading on until told there is no more ends with the whole sequence, if and only if the limit
      is at least one or there is nothing to read. */
  lemma PagingEndsWithEverything<T(!new)>(
    u: Unicode, server: string -> Outcome<T>, statement: string, rows: seq<T>, limit: nat)
    requires Sane(u) && Answers(u, server, statement, rows)
    ensures (exists pages: nat :: ReadPages(u, server, statement, limit, pages) == Ok((rows, true)))
            <==> limit >= 1 || rows == []
    ensures forall pages: nat, got: seq<T> ::
              ReadPages(u, server, statement, limit, pages) == Ok((got, true)) ==> got == rows
  {
    if limit >= 1 || rows == [] {
      var pages := |rows| + 1;
      StartsGrow(pages, limit);
      PagesReassemble(u, server, statement, rows, limit, pages);
      assert rows[..|rows|] == rows;
    }
    forall pages: nat, got: seq<T> | ReadPages(u, server, statement, limit, pages) == Ok((got, true))
      ensures got == rows && (limit >= 1 || rows == [])
    {
      StartsGrow(pages, limit);
      PagesReassemble(u, server, statement, rows, limit, pages);
      assert rows[..|rows|] == rows;
    }
  }

  /** Every other case: a statement no LIMIT can be added to, or that the server rejects one in as a
      syntax error, runs as written, and all its rows are the one page; any other error is raised, and
      nothing is sent again. */
  lemma UnpagedOutcomes<T>(
    u: Unicode, server: string -> Outcome<T>, statement: string, limit: nat, offset: nat)
    requires Sane(u)
    ensures var limited := LimitStatement(u, statement, Some(limit + 1), Some(offset));
            && (limited.None? || server(limited.value) == SyntaxError ==>
                  ReadPage(u, server, statement, limit, offset)
                  == if server(statement).Rows? then Ok(Page(server(statement).rows, None))
                     else Err(server(statement)))
            && (limited.Some? && server(limited.value) == OtherError ==>
                  ReadPage(u, server, statement, limit, offset) == Err(OtherError))
  {
  }
}
