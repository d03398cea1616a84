# Verified model of the MCP server's connection handling

A model, in Dafny 4.11, of the parts of the MariaDB Shell's MCP plugin that are protocols or small
algorithms, with proofs of what they promise: the connection cache and its locks, the SQL scanner and
result rendering, the stored connections, the checks of users and keys, the rate limits, the clients
file, and the deletion of an UpCloud server. `dafny verify dfyconfig.toml` checks it.

## The modules

**The connection cache.** `ConnectionCache` is the cache as it is driven concurrently: threads with
program counters run db.connect, use_session, db.close, the reaper's two passes, the deletion of a
connection and the drops of removed users and ended sign-ins. One event is one hold of the cache
lock, one hold of a connection's lock, or one exchange with the secret store or the database; any
thread may take the next one. The events follow `mcp_plugin/lib/db_functions.py` in its order:
`DoClaimSlot` lines 1006-1027, `DoLockForConnect` to `DoKeepSession` lines 664-676 with 752-904,
`DoBackOut` lines 3355-3361, `DoBeginLookup` and `DoCheckFound` lines 1088-1117, `DoLockForUse` to
`DoLeaveBlock` lines 1258-1305, `DoPopForClose` lines 3813-3814, `DoSetClosed` to `DoCloseTaken` lines
691-721, `DoDropNext` lines 957-976, `DoIdleNext` and `DoCloseIdle` lines 736-749, `DoBeginDelete` and
`DoTakeSnapshot` lines 3176-3177 and 2656-2668, and for a sign-in lines 749-757 of `oauth_builtin.py`
beside it with lines 2716-2724; the check and the password of a sign-in's connection are one event,
as lines 226-248 of that file read both. `ConnectionInvariants` has what holds in every
reachable state, `ConnectionSteps` that every event keeps it, `ConnectionSafety`,
`ConnectionRevocation`, `ConnectionReporting` and `ConnectionPasses` what follows, and
`ConnectionWitness` two concrete runs. `ConnectionTable` is the same cache as a class, for the counting loop, the claim and the lookup,
and as a table with operations on it; `ConnectionPrivacy` shows that every event is at most one of
those operations, and from that what one client can learn of another's connections in a run.

**SQL and results.** `SqlScanner`, `LimitRewrite`, `Paging`, `Decimals`, `DoubleText`, `GridEscapes`,
`GridCell` and `TextGrid`; `GridReadBack` reads each kind of value back from its cell, and `GridLayout`
says what the lines of the grid show.

**Stored connections.** `KeyUpgrade` upgrades the keys against a store in which every step may fail,
before or after it took effect, and keeps a trace of every state an interruption could leave;
`KeyFormats` writes out the formats of the keys.
`ConnectionUri` normalizes URIs; `ConnectionStore` resolves, stores, supersedes, moves and deletes
connections against a store of the same kind, and `ConnectionDetails` is the file with their folders,
captions and colors, which may read as empty when it cannot be read and is written whole.

**Users, keys and limits.** `UserCache` is the cached users file under concurrent calls, `UserDirectory`
the check of an API key as a class, and `KeyChecks` any number of checks at a time, with the cached
keys and the secret store beside the calls of `UserCache`. `RateLimits` is the sliding-window counter,
the throttle and the limit on sign-ins, `ThrottleRuns` the throttle with requests in flight.

**Files and vendors.** `ClientsFile` is the locked, atomically replaced clients file shared by
processes; `UpCloudDelete` the stop, detach and delete of a server.

`Wrappers` and `Clocks` are shared.

## What turned out not to hold

- A session can be lost. `_apply_default_role` reads the role before its try
  (`mcp_plugin/lib/db_functions.py` line 889), so if that read raises, the session just opened is
  closed by nobody. It is the only way (`LeakExactlyWhenRoleUnreadable`, `ASessionIsLeaked`).
- A restart can go unreported. `_session_was_restarted` asks the cache, so a call whose connection
  another call closed meanwhile is told nothing although it opened the session it works on
  (`ReportIsTrueWhileCached`, `ARestartGoesUnreported`).
- A rewritten statement is rewritten again if its scan ends inside a quote, a block comment or a
  parenthesis (`RewritesOnce`).
- Paging with a limit of 0 never ends unless there are no rows (`PagingEndsWithEverything`).
- The key upgrade deletes the old keys even when the folders in them could not be written to their
  file (`UnwrittenFoldersAreLost`); and when the file could not be read it is written without what it
  held (`UnreadFoldersAreLost`), as it is by every change of a connection's details
  (`UnreadChangeLosesTheOthers`).
- Clearing all details of a connection while its URI is given another spelling brings them back, as
  the new spelling takes over what the old one was shown with (`ShownAsAskedExactlyWhen`).
- Updating a connection without changing its URI or list leaves other spellings of it stored, and
  those spellings then do not resolve to it (`Update`, `UpdateInPlace`).
- The users file can be served stale if a version comes back, which having no file does
  (`NeverStaleExactlyWhenSteady`, `RemovedTwiceIsUnsteady`). A failed read is kept as no users until
  the version changes.
- A replaced API key can be accepted for up to 60 s. A check that read it and stores it in the cache
  only after another check has noticed the new file leaves it there for others
  (`KeysAreCurrentExactlyWithoutLatePuts`, `LateKeyIsAccepted`).
- The throttle's ceilings are overshot by as many requests as are in flight, less one
  (`OvershootIsInFlight`, `CeilingHoldsExactlyOneAtATime`).

## Model

| member | source | states |
|---|---|---|
| ConnectionSafety.NoSessionLeak | mcp_plugin/lib/db_functions.py:644-721 | At the end of every run, of any number of threads in any interleaving, each open database session is held by a cached connection, by a removed connection some thread is about to close, or is in the hands of a thread opening or closing it - if and only if no read of a user's default role raised in the run |
| ConnectionSafety.LeakExactlyWhenRoleUnreadable | mcp_plugin/lib/db_functions.py:868-904 | A run loses a session for good if and only if some read of a user's default role raised in it, after the session was opened and outside the try that would close it |
| ConnectionWitness.ASessionIsLeaked | mcp_plugin/lib/db_functions.py:889 | A run of db.connect that ends with such a session: open, and out of everybody's reach |
| ConnectionSafety.LeaksOnlyThen | mcp_plugin/lib/db_functions.py:889 | No other event loses a session |
| ConnectionSafety.AtRestOnlyCachedSessionsAreOpen | mcp_plugin/lib/db_functions.py:945-976 | With no call in flight the open sessions, leaked ones aside, are exactly the sessions of the cached connections |
| ConnectionSteps.NextKeeps | mcp_plugin/lib/db_functions.py:1258-1305 | The invariant on records, locks, threads and sessions is kept by every event of every thread, in any interleaving |
| ConnectionSteps.RunKeeps | mcp_plugin/lib/db_functions.py:1258-1305 | ... and so over every run |
| ConnectionSteps.ReachableInv | mcp_plugin/lib/db_functions.py:644-749 | It holds of every state some run leads to |
| ConnectionSafety.BlockIsExclusive | mcp_plugin/lib/db_functions.py:1258-1276 | While a block of use_session runs, the session it was given is open, is its connection's, and is in no other thread's block or hands; the connection is locked by it and not closed |
| ConnectionSafety.OthersLeaveBlockAlone | mcp_plugin/lib/db_functions.py:1276-1305 | No event of another thread - use, close, reaper, drop - changes the session of a running block, closes it, or touches its restart flag |
| ConnectionSafety.ClosingSpends | mcp_plugin/lib/db_functions.py:706-721 | Only an open session is ever closed, and it is then open no more |
| ConnectionSafety.ClosedAtMostOnce | mcp_plugin/lib/db_functions.py:706-749 | After any event that closes a session, no later event of any run closes it again: block, idle pass, drop and db.close together close it at most once |
| ConnectionSafety.ClosingIsFinal | mcp_plugin/lib/db_functions.py:664-694 | Once the closed flag is set on a connection, it stays set and no session is opened on that connection in any run that follows |
| ConnectionRevocation.DeletionRevokes | mcp_plugin/lib/db_functions.py:2656-2668 | When db.delete_connection returns and the connection was not stored again since its secret went, no cached connection with its URI, of its list and of its user has a session, then or at any later point before it is stored again |
| ConnectionRevocation.EndedSignInRevokes | mcp_plugin/lib/oauth_builtin.py:749-757 | When the end of a sign-in has returned, no connection made with it that is in the cache then, or at any later point before it is there again, has a session |
| ConnectionRevocation.FinishRevokes | mcp_plugin/lib/db_functions.py:3176-3177 | When the drops that follow a deletion or the end of a sign-in are done, what is still cached on the key has no session and is past no check that would open one: the secret went before the cache was looked through, and a slot is claimed before the check |
| ConnectionRevocation.RunKeepsRevocation | mcp_plugin/lib/db_functions.py:752-815 | Every run keeps what a deletion under way has achieved so far, whatever other threads do |
| ConnectionRevocation.RevokedUntilStored | mcp_plugin/lib/db_functions.py:807-815 | What a deletion revoked stays revoked over every run that does not store the key again |
| ConnectionRevocation.PastCheckNeedsConfigured | mcp_plugin/lib/db_functions.py:803-815 | A thread gets past the check that a connection is configured only in an event in which its URI is, in its list and for its user - or the sign-in it was made with is alive |
| ConnectionRevocation.StoringLetsOn | mcp_plugin/lib/db_functions.py:803-815 | Storing a connection lets an opening of it that checks next go on to its password |
| ConnectionRevocation.TakingAwayFails | mcp_plugin/lib/db_functions.py:803-815 | Taking it away makes that opening fail, and the connection's lock is free again |
| ConnectionReporting.LimitsNeverOvershot | mcp_plugin/lib/db_functions.py:1000-1027 | Over every run with any number of concurrent db.connect calls and any passage of time, the cached connections opened less than the lifetime ago are at most as many as the total limit, those of any client as the limit for one client, and those of any user as the limit for one user |
| ConnectionReporting.ClaimingKeepsLimits | mcp_plugin/lib/db_functions.py:1006-1027 | In a reachable state, the event that claims a slot keeps all limits, whatever clock each cached record was asked for its age with |
| ConnectionReporting.FlagIsUpExactlyInOpeningCalls | mcp_plugin/lib/db_functions.py:1258-1304 | The restart flag of a connection is up if and only if a thread is in a block on it whose own call opened the session: never outside a block |
| ConnectionReporting.FlagTellsWhoOpened | mcp_plugin/lib/db_functions.py:1263-1274 | In a block the flag is up if and only if this very call opened the session; if it is down, the session is the one the last db.connect or block left |
| ConnectionReporting.LeftIsWhatWasLeft | mcp_plugin/lib/db_functions.py:1299-1305 | Only the end of a db.connect's open and the end of a block set what a connection is left with, to the session it has then; only the end of a block sets when it was last used, to the time it is |
| ConnectionReporting.UnrestartedCallWorksOnWhatWasLeft | mcp_plugin/lib/db_functions.py:1258-1305 | Over any run between the end of an open or block and a later block that sees no restart, with no other ending in between: that block works on the very session that was left |
| ConnectionReporting.ReportIsTrueWhileCached | mcp_plugin/lib/db_functions.py:1476-1492 | A reported restart is always one this call made; one it made is reported if and only if the connection is still in the cache when the tool asks |
| ConnectionWitness.ARestartGoesUnreported | mcp_plugin/lib/db_functions.py:1489-1492 | A run in which a call opened the session it works on, another call of its client closed the connection, and no restart is reported |
| ConnectionPasses.UsersConnectionsGo | mcp_plugin/lib/db_functions.py:2673-2701 | Once the drop of removed users' connections is over, none that was cached when it began and belongs to a user who is not active is cached, whatever else goes on meanwhile or later; and it drops none of an active user and none of nobody |
| ConnectionPasses.GrantsConnectionsGo | mcp_plugin/lib/db_functions.py:2704-2728 | The same of a sign-in that ended: all connections made with it, and no others |
| ConnectionPasses.DeletionDropsItsOwn | mcp_plugin/lib/db_functions.py:2638-2670 | And of a deletion: all cached connections with the URI, list and user deleted, and no others |
| ConnectionPasses.ReaperDropsTheExpired | mcp_plugin/lib/db_functions.py:1345-1366 | The reaper drops no connection before its lifetime is over |
| ConnectionPasses.IdlePassTakesTheUnused | mcp_plugin/lib/db_functions.py:723-749 | The idle pass takes a session if and only if no thread has the connection's lock, there is a session, and its last use is the idle timeout ago or longer; else it leaves everything as it is |
| ConnectionPasses.SessionGoesOnlyWhen | mcp_plugin/lib/db_functions.py:696-749 | A connection loses its session in no other event than a block that loses it, its closing after it left the cache, or such an idle pass |
| ConnectionPasses.UsedSessionStaysOpen | mcp_plugin/lib/db_functions.py:736-749 | From the end of a block until the idle timeout has passed, in every run in which the connection stays cached and no block loses it, its session stays open |
| ConnectionTable.Cache.constructor | mcp_plugin/lib/db_functions.py:1000-1006 | An empty cache keeps every limit |
| ConnectionTable.Cache.CountConnections | mcp_plugin/lib/db_functions.py:1006-1019 | The counting loop gives the three sizes of what is unexpired and in scope, each record asked with a reading of the clock made during the call |
| ConnectionTable.CountBounds | mcp_plugin/lib/db_functions.py:1006-1019 | Such a size lies between what the scope holds when the counting ends and what it held when it began |
| ConnectionTable.Cache.ClaimSlot | mcp_plugin/lib/db_functions.py:979-1065 | Inserts if and only if the readings made leave room in every scope, changes nothing otherwise, keeps every limit, and names the first limit reached - client, then user, then server |
| ConnectionTable.ClaimKeepsLimits | mcp_plugin/lib/db_functions.py:1006-1027 | A claim that finds room breaks no limit, however the clock moved between the readings |
| ConnectionTable.Cache.GetConnection | mcp_plugin/lib/db_functions.py:1068-1117 | A lookup gives the connection if and only if it is cached, the client's own, and was opened less than the lifetime before the clock reading; a cached one is taken out, whoever asks, if and only if it was opened the lifetime ago or longer, and nothing else changes |
| ConnectionTable.LimitsOutliveTimeAndRemoval | mcp_plugin/lib/db_functions.py:625-642 | Time passing and connections leaving break no limit |
| ConnectionTable.RoomKeepsLimits | mcp_plugin/lib/db_functions.py:1021-1025 | Adding where every scope a connection counts in has room breaks no limit |
| ConnectionTable.OwnConnectionsDecide | mcp_plugin/lib/db_functions.py:925-942 | Two caches that agree on a client's own connections answer every lookup by that client alike, now and later |
| ConnectionTable.OthersStepIsUnseen | mcp_plugin/lib/db_functions.py:1088-1117 | Nothing another client or the reaper does - an expired connection dropped by a lookup included - changes what a client's lookups are answered |
| ConnectionTable.OthersAreInvisible | mcp_plugin/lib/db_functions.py:587-623 | After any operations on the cache - claims, withdrawals, closes, expiries, revocations - a client is answered what it would be after its own and the revocations alone |
| ConnectionPrivacy.EventDoes | mcp_plugin/lib/db_functions.py:945-1117 | Every event of every thread does to the cache exactly what one of these operations does, or nothing |
| ConnectionPrivacy.RunIsOps | mcp_plugin/lib/db_functions.py:945-1117 | Every run of interleaved threads does to the cache what its operations do one after the other, and each of them is possible when its turn comes |
| ConnectionPrivacy.OthersAreInvisibleInRuns | mcp_plugin/lib/db_functions.py:587-623 | At the end of every run, everything a client may ask from then on is answered as if no other client, no reaper and no expiry had done anything: only what the client did itself, and who takes connections away on purpose, makes a difference |
| ConnectionPrivacy.NothingOverIsServed | mcp_plugin/lib/db_functions.py:625-642 | In every run, a check lets its call go on if and only if the connection was opened less than the lifetime ago and is the client's own; one opened longer ago is dropped, whoever asks |
| ConnectionPrivacy.TimeEndsConnections | mcp_plugin/lib/db_functions.py:625-642 | However long passes before a check, it lets a client through to its own connection until the lifetime has passed and no longer |
| ConnectionPrivacy.LookupIsAnswered | mcp_plugin/lib/db_functions.py:1088-1117 | Whatever others do between the lookup and the check that follows it, the call goes on with a connection if and only if it was cached when looked up, is the client's own and, when checked, was opened less than the lifetime ago |
| ConnectionPrivacy.OnlyAdministrationRevokes | mcp_plugin/lib/db_functions.py:945-976 | A run in which nothing is deleted, no sign-in ends and no users go takes no live connection from anybody who did not close it |
| SqlScanner.TopLevelWords | mcp_plugin/lib/db_functions.py:1825-1889 | The one-pass index loop terminates on every input and gives the words and depths of the recursive scan |
| SqlScanner.StepOverQuote | mcp_plugin/lib/db_functions.py:1850-1864 | Lands where the recursive definition says the quoted text is over, and past the end of the statement where it never is |
| SqlScanner.ItemsAre | mcp_plugin/lib/db_functions.py:1841-1887 | What the scanner takes the text at any position for: quoted text up to the quote that closes it, where doubled quotes and, in strings, backslashed characters do not; a # or -- comment up to the line break; a block comment up to the first */; a parenthesis; a word with all its letters, digits, _ and $; or one character; and unclosed exactly where nothing closes it |
| LimitRewrite.TwinItems | mcp_plugin/lib/db_functions.py:1841-1887 | A statement and its rewrite are cut into the same items up to the clause, but for a line comment that runs to the end, which ends at the line break before the clause |
| LimitRewrite.TwinScans | mcp_plugin/lib/db_functions.py:1841-1889 | Scanning the rewrite is scanning the statement and then the clause at the depth the statement ends at - unless the statement ends inside a quote or block comment |
| LimitRewrite.ClauseScans | mcp_plugin/lib/db_functions.py:1946-1951 | The clause is scanned as the word LIMIT, and OFFSET where a nonzero offset is given, and nothing else |
| LimitRewrite.RewriteIsSeen | mcp_plugin/lib/db_functions.py:1903-1951 | For every statement that is rewritten: the words seen in the rewrite are the statement's words followed by LIMIT and OFFSET at the depth it ended at, or exactly the statement's words if it ended inside a quote or block comment |
| LimitRewrite.RewriteAsksForTheWindow | mcp_plugin/lib/db_functions.py:1946-1951 | The rewrite is the statement without the blanks at its end and one more line; read back from that line, it asks for exactly the limit given and for exactly the offset, which 0 or none leaves out |
| LimitRewrite.RewrittenExactlyWhen | mcp_plugin/lib/db_functions.py:1892-1945 | A statement is rewritten if and only if there is a limit, it begins with SELECT or WITH, none of its words outside parentheses is LIMIT, FETCH, OFFSET, INTO, PROCEDURE or LOCK or a FOR before UPDATE or SHARE, and a WITH has a SELECT there and no INSERT, UPDATE, DELETE or REPLACE |
| LimitRewrite.OneTopLevelLimit | mcp_plugin/lib/db_functions.py:1892-1951 | A rewritten statement that ends at depth 0 outside quotes and block comments has exactly one LIMIT at its top level, after all its own words, none of which is a clause a LIMIT would come after |
| LimitRewrite.RewritesOnce | mcp_plugin/lib/db_functions.py:1932-1951 | Rewriting a rewritten statement declines if and only if the statement's scan ends at depth 0 outside quotes and block comments |
| LimitRewrite.UnclosedQuoteIsRewrittenAgain | mcp_plugin/lib/db_functions.py:1841-1864 | A statement with a quote that is never closed is rewritten again |
| Paging.PageIsItsWindow | mcp_plugin/lib/db_functions.py:1959-2020 | Against a server that returns the rows the text of the statement asks for, a page holds exactly the rows of its window, and has_more_pages says whether any row lies beyond it |
| Paging.PagesReassemble | mcp_plugin/lib/db_functions.py:1993-2020 | After any number of pages at offsets 0, limit, 2*limit and so on a client has exactly the rows up to there, none lost and none twice, and knows whether they are all |
| Paging.PagingEndsWithEverything | mcp_plugin/lib/db_functions.py:2009-2020 | Reading until has_more_pages is false gives the whole sequence, and gets there if and only if the limit is at least 1 or there are no rows |
| Paging.UnpagedOutcomes | mcp_plugin/lib/db_functions.py:1959-2020 | A statement that is not rewritten, or whose rewrite is refused as a syntax error, is run as it is written and gives all it returns; any other error of the rewrite is the answer |
| Decimals.DecimalRoundTrip | mcp_plugin/lib/db_functions.py:1947 | A number written in decimal reads back as itself |
| DoubleText.PlacedDigits | mcp_plugin/lib/db_functions.py:2112-2123 | The digits found are the coefficient of the value without zeros at either end, and the point is where the magnitude has it |
| DoubleText.LayoutDenotes | mcp_plugin/lib/db_functions.py:2125-2133 | Whichever of the four placements is taken, the text denotes exactly the digits at their place |
| DoubleText.DoubleTextKeepsValue | mcp_plugin/lib/db_functions.py:2093-2133 | For every sign and every magnitude text - digits, fraction, exponent - the result denotes exactly the same signed number |
| DoubleText.FractionsEndInADigit | mcp_plugin/lib/db_functions.py:2127-2132 | Where there is a point, the fraction after it is not empty and does not end in a zero |
| DoubleText.DoubleTextIsShort | mcp_plugin/lib/db_functions.py:2109-2133 | Zero is written 0, whatever its sign; any other value with a sign exactly where it is negative, no leading zero but a single one before the point, and an exponent, where there is one, without plus sign or leading zero, after a single digit before the point |
| DoubleText.ScientificExactlyWhenFarOff | mcp_plugin/lib/db_functions.py:2125-2127 | Scientific notation is used if and only if the magnitude is below 1e-15, or is a whole number of at least 1e15 |
| DoubleText.WholeExactlyWithoutFraction | mcp_plugin/lib/db_functions.py:2128-2130 | A value is whole exactly when no digit stands after the point |
| DoubleText.PlaceBounds | mcp_plugin/lib/db_functions.py:2115-2122 | The point stands where the magnitude of the value has it: between powers of ten next to each other |
| GridEscapes.UnescapeUndoesEscape | mcp_plugin/lib/db_functions.py:2028-2055 | Unescaping undoes the escapes, for every text |
| GridEscapes.EscapeIsInjective | mcp_plugin/lib/db_functions.py:2040-2055 | No two texts are written alike |
| GridEscapes.EscapedIsTame | mcp_plugin/lib/db_functions.py:2044-2055 | An escaped text holds none of the table's characters but the backslash |
| GridEscapes.UnescapedExactlyWhenTame | mcp_plugin/lib/db_functions.py:2044-2055 | A text is written as it is if and only if it holds none of the table's characters |
| GridEscapes.EscapesExactly | mcp_plugin/lib/db_functions.py:2028-2055 | Exactly the controls, the backslash, the line and paragraph separators and the direction marks are escaped: NUL, tab, newline, return and backslash with a letter, the others below U+0100 in two hexadecimal digits, the rest in four |
| TextGrid.DisplayWidth | mcp_plugin/lib/db_functions.py:2067-2090 | The ASCII fast path and the loop both give the sum of the characters' widths |
| TextGrid.WidthOfConcat | mcp_plugin/lib/db_functions.py:2085-2090 | Display width is additive |
| TextGrid.WidthCounts | mcp_plugin/lib/db_functions.py:2085-2090 | A text is as wide as it has characters, less those that take no cell, and one more for each wide one |
| TextGrid.MeasureLabels | mcp_plugin/lib/db_functions.py:2264-2268 | The header is the escaped labels with their widths, and the columns start as wide as those |
| TextGrid.Widen | mcp_plugin/lib/db_functions.py:2270-2276 | One more row makes each column as wide as the widest so far |
| TextGrid.DrawLine | mcp_plugin/lib/db_functions.py:2278-2284 | A line is its texts padded to the column widths, left or right aligned |
| TextGrid.Draw | mcp_plugin/lib/db_functions.py:2286-2292 | The lines in order: border, header left aligned, border, the rows, and a border after them if there are any |
| TextGrid.Grid | mcp_plugin/lib/db_functions.py:2246-2292 | The text drawn is the grid of the labels and rows, for every table |
| TextGrid.WidestIsWideEnough | mcp_plugin/lib/db_functions.py:2268-2275 | No label and no cell is wider than its column |
| TextGrid.WidestIsThere | mcp_plugin/lib/db_functions.py:2268-2275 | Every column is exactly as wide as its label or one of its cells |
| TextGrid.LinesAreEquallyWide | mcp_plugin/lib/db_functions.py:2286-2292 | The grid has rows + 4 lines, 3 without rows, and they all take up the same number of cells if and only if there is a column, as there always is in a result set |
| TextGrid.ColumnsLineUp | mcp_plugin/lib/db_functions.py:2278-2284 | In every line the k-th column begins where the columns before it end and takes up exactly its width |
| GridLayout.GridShows | mcp_plugin/lib/db_functions.py:2246-2292 | Character by character: the borders are dashes with a plus at each end of every column; every label, escaped, stands left in its column and every cell on its column's side, with only spaces beside it, between bars, in the same place on every line; the rows in their order, and as wide as the widest of the column needs |
| TextGrid.GridBreaksIntoItsLines | mcp_plugin/lib/db_functions.py:2246-2292 | Where no cell's text holds a newline - the hypothesis that GridCell.CellIsTame discharges for every cell there is - the text broken at newlines is exactly the lines of the grid again, whatever the labels hold |
| GridCell.CellIsTame | mcp_plugin/lib/db_functions.py:2203-2243 | The text of every value of any column that can be written - NULL, bytes, bits, flags, times, floats, numbers, text - holds none of the characters the grid does not write as they are |
| GridCell.ValuesBreakIntoTheirLines | mcp_plugin/lib/db_functions.py:2203-2292 | The grid of any result set, of any values, breaks into exactly the lines it was drawn with |
| GridCell.HexCellReadsBack | mcp_plugin/lib/db_functions.py:2220-2225 | The hexadecimal of a binary value reads back as its bytes, and a BIT value's as its number, in all the bytes of its column; it raises if and only if the number does not fit them |
| GridReadBack.HexIsUpper | mcp_plugin/lib/db_functions.py:2220-2225 | The hexadecimal is in capitals |
| GridReadBack.TimeCellReadsBack | mcp_plugin/lib/db_functions.py:2136-2172 | A TIME's cell, negative and over 24 hours included, reads back as the value cut to the digits of its column, and shows just those, with two digits each for minutes and seconds and at least two for hours |
| GridReadBack.MomentCellReadsBack | mcp_plugin/lib/db_functions.py:2136-2172 | A DATETIME's cell reads back as its year, month and day, in four, two and two digits, and its time |
| GridReadBack.NullsAndFlagsShow | mcp_plugin/lib/db_functions.py:2216-2228 | NULL shows as NULL, and a boolean as 1 or 0, or as that number's bits in a BIT column |
| GridReadBack.TextCellReadsBack | mcp_plugin/lib/db_functions.py:2235-2243 | Any other value's text is there, read through its escapes; where the column fills with zeros, its cell is as wide as the column at least, and a number still denotes itself |
| GridReadBack.FixedCellDenotes | mcp_plugin/lib/db_functions.py:2229-2243 | With fixed digits, a float's cell is its sign and that text, filled with zeros or not, and has exactly so many digits after the point |
| GridCell.NumberCellDenotes | mcp_plugin/lib/db_functions.py:2235-2243 | An integer's cell denotes it, and is at least as wide as its column where that fills with zeros |
| GridReadBack.IntegerCellShows | mcp_plugin/lib/db_functions.py:2235-2243 | It is the number's digits, a dash before them where it is negative, and only zeros put in front, up to the column's width, where that fills with them |
| GridCell.DoubleCellDenotes | mcp_plugin/lib/db_functions.py:2229-2243 | In a column without a fixed number of digits a float's cell, filled with zeros or not, denotes exactly its value |
| GridReadBack.DoubleCellShows | mcp_plugin/lib/db_functions.py:2229-2243 | ... and is the text DoubleText gives, with zeros in front, up to the column's width, where that fills with them |
| KeyUpgrade.Shell.MoveKey | mcp_plugin/lib/config.py:774-789 | One key's move: copies the password unless the new key is there, and notes what may be deleted; whatever fails, every connection keeps a password of its own |
| KeyUpgrade.Shell.MoveUnder | mcp_plugin/lib/config.py:764-793 | All keys under one prefix, in the order listed |
| KeyUpgrade.Shell.MoveAll | mcp_plugin/lib/config.py:759-793 | Both kinds, the legacy prefix first; without a failure exactly the moves of the listed keys have been made |
| KeyUpgrade.Shell.MergeFolders | mcp_plugin/lib/config.py:795-801 | Folders are added where what was read of the file has none |
| KeyUpgrade.Shell.FileFolders | mcp_plugin/lib/config.py:795-808 | If the file could be read and written, then before any key is deleted it has every folder it had for a stored connection and those of the keys that may go; it raises, deleting nothing, if the secrets cannot be listed |
| KeyUpgrade.Shell.DeleteAll | mcp_plugin/lib/config.py:810-820 | The old keys are deleted, each only when its new key is there; after every delete, done or failed, every connection has a password |
| KeyUpgrade.Shell.Upgrade | mcp_plugin/lib/config.py:732-830 | Wherever it is interrupted and whichever reads, stores and deletes fail: every connection that had a password has one that was its own, and every folder is kept if the folder file could be read and written; without a failure the secrets are the upgraded ones and the flag is set, after one it is not; it raises only where the secrets cannot be listed |
| KeyUpgrade.UpgradedIsCurrent | mcp_plugin/lib/config.py:774-777 | After a failure-free run no connection key is in an earlier format, and every other secret is as it was |
| KeyUpgrade.UpgradedPassword | mcp_plugin/lib/config.py:779-786 | Exactly the connections that had a password have one: the one their new key had, or else the first old one in the order of processing |
| KeyFormats.KeysAreRead | mcp_plugin/lib/config.py:709-775 | Each format of a key, prefix by prefix: what follows is the URI, or a folder up to the first colon and then the URI; every other secret is nobody's connection |
| KeyFormats.EarliestKeyWins | mcp_plugin/lib/config.py:764-786 | Without a new key, the password kept is that of the connection's old key with the legacy prefix that is listed first, and only without one that of the first other old key |
| KeyUpgrade.WithFoldersIs | mcp_plugin/lib/config.py:795-800 | A connection with a folder keeps it; one without gets one of its keys' folders if any has one |
| KeyUpgrade.SecondRunMovesNothing | mcp_plugin/lib/config.py:743-751 | A second run, however it lists the keys, finds nothing to move |
| KeyUpgrade.UnwrittenFoldersAreLost | mcp_plugin/lib/config.py:802-820 | If the folder file cannot be written, a failure-free run still deletes the old keys: the folders are all kept if and only if each was in the file already |
| KeyUpgrade.UnreadFoldersAreLost | mcp_plugin/lib/config.py:541-611 | If the folder file cannot be read but is written, a failure-free run loses what it held: every connection keeps its folder if and only if each folder in the file is also in a key |
| KeyUpgrade.SlashedUriLosesItsPassword | mcp_plugin/lib/config.py:709-729 | The premise that no URI begins with a slash is needed: with such a URI a failure-free run loses a password |
| KeyUpgrade.NewKeyIsCurrent | mcp_plugin/lib/config.py:709-729 | A key in the current format belongs to the connection it names, unless its URI begins with a slash |
| ConnectionUri.NormalizeIsIdempotent | mcp_plugin/lib/config.py:1045-1111 | A normalized URI is its own normal form, given that what the shell renders of a URI it parsed it parses back |
| ConnectionUri.FoldedExactlyWhenTheSame | mcp_plugin/lib/config.py:1062-1102 | Two spellings with normal forms fold together if and only if, in what the shell's parser says of each, their schemes agree (none is mariadb), their lowered hosts, their ports (the one given, or 3306 for a protocol's host that is no path and no socket given) and their sockets and all the rest; passwords do not matter |
| ConnectionUri.OtherPortsNeverFold | mcp_plugin/lib/config.py:1092-1102 | Two spellings that give different ports never fold together |
| ConnectionUri.SchemeIsLowered | mcp_plugin/lib/config.py:1016-1032 | A scheme before :// is written in small letters and nothing after it is changed |
| ConnectionUri.OtherTextStays | mcp_plugin/lib/config.py:1016-1032 | A text that does not begin with a scheme is left as it is |
| ConnectionUri.LowerSchemeOnce | mcp_plugin/lib/config.py:1027-1032 | Lowering the scheme of a URI leaves nothing to lower |
| ConnectionUri.SchemeCaseIsFolded | mcp_plugin/lib/config.py:1027-1032 | The case of the scheme does not tell URIs apart |
| ConnectionStore.Store.Resolve | mcp_plugin/lib/config.py:1114-1164 | The stored spelling itself, or the only stored spelling of the same connection, or none; refused if and only if there are two |
| ConnectionStore.Store.Find | mcp_plugin/lib/config.py:1167-1217 | The first list that holds the connection, and nothing from the lists before it |
| ConnectionStore.Store.StoreConnection | mcp_plugin/lib/config.py:1259-1316 | Refused before anything is written if and only if the key is over 256 bytes or a detail is refused; else the password first and the details after it, those left out kept, and all other connections shown as before |
| ConnectionStore.Store.DeleteConnection | mcp_plugin/lib/config.py:1384-1405 | Deletes that secret, and once it has gone its details and nobody else's, if the file can be written; one that is not stored is an error |
| ConnectionStore.Store.DropSupersededSpellings | mcp_plugin/lib/config.py:1319-1381 | Deletes exactly the other spellings of the connection; interrupted, some of them, and never anything else. A connection without details takes over those of the first spelling that has any, and no other stored connection is shown differently |
| ConnectionStore.Store.Configure | mcp_plugin/lib/db_functions.py:2898-2904 | Stores and then drops: at every step the connection has its password, and in the end it is shown as was asked, or else as one of its other spellings was |
| ConnectionStore.Store.Add | mcp_plugin/lib/db_functions.py:2801-2922 | Refused, before anything is written, if a detail is, the URI holds a password or has no normal form, or the key is over 256 bytes, and otherwise only where a verification fails; without a fault of the store it succeeds but for a spelling whose own details are refused. Afterwards every spelling of the connection resolves to the one stored; nothing but its other spellings is gone, at no step one that gives another port, and no other connection is shown differently |
| ConnectionStore.Store.Move | mcp_plugin/lib/db_functions.py:3043-3060 | At every step the password is under the old key or the new one, and no secret that is not there is deleted; afterwards the old key is gone and the details have moved along |
| ConnectionStore.Store.Update | mcp_plugin/lib/db_functions.py:2924-3075 | The connection named is re-keyed with its own password and details where no others are given; afterwards every spelling of the target resolves to it. With neither URI nor list changed, that holds if and only if no other spelling was stored |
| ConnectionStore.Store.UpdateInPlace | mcp_plugin/lib/db_functions.py:3009-3019 | Replaces the password and the details that are given and nothing else; other spellings stay |
| ConnectionStore.UnambiguousExactlyWithoutOthers | mcp_plugin/lib/config.py:1134-1164 | A stored connection is what all its spellings resolve to if and only if no other spelling of it is stored |
| ConnectionStore.PasswordIsNeverNowhere | mcp_plugin/lib/db_functions.py:3043-3060 | On the way of a move the password is under one key at least, every connection that is neither moved nor superseded keeps its own, and no other appears |
| ConnectionStore.Store.SetDetails | mcp_plugin/lib/config.py:635-667 | Changes the details given and keeps the others; refused before anything is written if and only if a detail is. Where the file cannot be read, it is written as if it had been empty |
| ConnectionDetails.UnreadChangeLosesTheOthers | mcp_plugin/lib/config.py:541-611 | Then all other connections are shown as before if and only if none of them was shown in any way |
| ConnectionDetails.ChangeShows | mcp_plugin/lib/config.py:587-667 | A change of details shows in its connection, each detail as given or else as it was, and every other stored connection is shown as before though the file is written whole, with nothing in it that is not stored or not shown in any way |
| ConnectionDetails.EachIsSettled | mcp_plugin/lib/config.py:670-684 | A change is refused if and only if one of the details given is; each given is taken in its one form, and none that is not given |
| ConnectionDetails.FirstShownIs | mcp_plugin/lib/config.py:1362-1376 | What is taken over is what the first superseded spelling with any detail is shown with |
| ConnectionDetails.ShownAsAskedExactlyWhen | mcp_plugin/lib/config.py:1362-1376 | A connection reconfigured is shown as was asked if and only if something was asked for, or no spelling it supersedes had details |
| ConnectionDetails.NothingInheritedExactlyWithoutDetails | mcp_plugin/lib/config.py:1362-1376 | Nothing is taken over if and only if none of the superseded spellings had details |
| UserCache.SteadyIsNeverStale | mcp_plugin/lib/auth.py:114-152 | Over every interleaving of calls of users() and writes of the file, no call is answered with users older than the file was when it began, unless a read failed - as long as no version comes back after other contents |
| UserCache.NeverStaleExactlyWhenSteady | mcp_plugin/lib/auth.py:123-152 | That holds of every run over a file's history if and only if, whenever a version recurs, the contents never differed in between |
| UserCache.UnsteadyGoesStale | mcp_plugin/lib/auth.py:123-137 | For any other history there is a run that answers with stale users |
| UserCache.FreshVersionsAreSteady | mcp_plugin/lib/tenants.py:187-201 | Versions that never recur are enough |
| UserCache.RemovedTwiceIsUnsteady | mcp_plugin/lib/tenants.py:198-201 | A file removed, written and removed again shows the version of no file twice, and is not enough |
| UserCache.ReadsDecideAnswers | mcp_plugin/lib/auth.py:139-152 | Where no read of the file fails no answer is put down to a failed read; where every read fails every answer is that there are no users |
| UserDirectory.UserDirectory.CurrentUsers | mcp_plugin/lib/auth.py:114-152 | While the version is the cached one nothing changes; otherwise the keys go with the users, who are those of the file, or none where loading them fails, and exactly the users whose flag is not set are reported as active |
| UserDirectory.UserDirectory.ApiKeyMatches | mcp_plugin/lib/auth.py:162-197 | With one check at a time: accepted only if the digest is that of a key read in this call, or of one read under the same version of the file less than 60 s ago; refused only if the secret store was asked in this call and did not answer with that key |
| UserDirectory.UserDirectory.VerifyToken | mcp_plugin/lib/auth.py:245-267 | With one check at a time: a token is accepted only for a user whom the file, as last read, lists and does not disable, and as above; a user it lists and does not disable is refused only if the secret store was asked and did not answer with the key |
| KeyChecks.StepKeepsInv | mcp_plugin/lib/auth.py:114-197 | With any number of checks and calls at a time, every step keeps: each cached key was the user's key in the store, and one fetched since the keys were last cleared was so since then |
| KeyChecks.CachedKeyIsCurrentExactlyWhenPutInTime | mcp_plugin/lib/auth.py:174-195 | In every run of overlapping checks, a token accepted by a cached key has been the user's key and was put away less than 60 s before; it was read since the keys were last cleared if and only if no clearing came between its reading and its putting away |
| KeyChecks.KeysAreCurrentExactlyWithoutLatePuts | mcp_plugin/lib/auth.py:183-195 | All through a run the cache holds only keys read since it was last cleared if and only if no key is put away after a clearing that came after its reading |
| KeyChecks.RotatedKeyIsRefused | mcp_plugin/lib/tenants.py:855-863 | Without such a late putting away, and where the file's versions never recur, overlapping checks accept a token only if it has been the user's key since the file was as it was when the check began: a key replaced before is refused, cached or not |
| KeyChecks.DisabledUserIsRefused | mcp_plugin/lib/auth.py:156-160 | Where the file's versions never recur, no check in any run accepts a user whom every content of the file since the check began disables or does not list |
| KeyChecks.ListedUsersGetToTheKeys | mcp_plugin/lib/auth.py:254-256 | A check goes on to the keys if and only if the content it was answered with lists the user and does not disable them |
| KeyChecks.OldKeyIsAskedAgain | mcp_plugin/lib/auth.py:174-183 | However long a check waits between looking and judging, it takes the cached key if and only if that is the one presented and was put away less than 60 s before; else it asks the store |
| KeyChecks.OnlyTheStoreRefuses | mcp_plugin/lib/auth.py:183-197 | Where no key is put away late and no version recurs, a listed user's check is refused only if the store, asked since the file was as it was when the check began, did not have the key - or a read of it failed, which it never does where no read fails |
| KeyChecks.LateKeyIsAccepted | mcp_plugin/lib/auth.py:174-195 | A run with one late putting away in which a check that begins after the key was replaced and the file written accepts the old key |
| RateLimits.PruningKeepsRecent | mcp_plugin/lib/auth.py:731-739 | What was pruned earlier would not have counted later |
| RateLimits.RecentExactly | mcp_plugin/lib/auth.py:731-744 | A failure counts from its time on for less than the window, once for each time it was recorded |
| RateLimits.FailureCounter.Prune | mcp_plugin/lib/auth.py:731-739 | Pruning leaves the table counting as the history does, at every later time |
| RateLimits.FailureCounter.Count | mcp_plugin/lib/auth.py:741-744 | The count is the number of events of the key within the window, out of all ever recorded |
| RateLimits.FailureCounter.Record | mcp_plugin/lib/auth.py:746-754 | One event under each key, whenever the clock was read; from 1024 keys on, every key has a time and each of its times is within the window at the time of recording |
| RateLimits.FailureCounter.Sweep | mcp_plugin/lib/auth.py:752-754 | The sweep changes no count now or later, and leaves just the times within the window, at least one under every key |
| RateLimits.AddressCountIsTheSum | mcp_plugin/lib/auth.py:792-801 | The count of an address is the sum of the counts of its users, at every time |
| RateLimits.AuthFailureThrottle.IsThrottled | mcp_plugin/lib/auth.py:792-797 | Throttled exactly when one of the two counts, as read, has reached its ceiling |
| RateLimits.AuthFailureThrottle.RecordFailure | mcp_plugin/lib/auth.py:799-801 | One failure is recorded for the user and one for the address |
| ThrottleRuns.OvershootIsInFlight | mcp_plugin/lib/auth.py:792-836 | With any number of requests in flight at a time, no window of any run has more recorded failures of a user from an address, or of an address, than one less than the ceiling and the most that were in flight at once |
| ThrottleRuns.RefusalsAreRecordedOnce | mcp_plugin/lib/auth.py:799-836 | In every run each refusal is recorded once under its user and once under its address, or is still on its way, and nothing else is |
| ThrottleRuns.WindowLetsInAgain | mcp_plugin/lib/auth.py:731-797 | After any run, once a window has passed with nothing recorded, the next request is let in, whoever it is from |
| ThrottleRuns.UserBoundIsReached | mcp_plugin/lib/auth.py:792-836 | For every ceiling and every number in flight there is a run in which one user's failures reach that bound |
| ThrottleRuns.AddressBoundIsReached | mcp_plugin/lib/auth.py:792-836 | And one in which an address's failures do, each of another user |
| ThrottleRuns.CeilingHoldsExactlyOneAtATime | mcp_plugin/lib/auth.py:792-836 | No run goes over the ceiling if and only if at most one request is in flight at a time |
| RateLimits.AdmittingKeepsLimit | mcp_plugin/lib/auth.py:539-555 | Admitting below the limit keeps every interval as long as the window within it, though the clock is read again to record |
| RateLimits.AuthorizeRateLimit.Admit | mcp_plugin/lib/auth.py:533-555 | In every run, no interval as long as the window admits more than max_requests from one address; refusing records nothing |
| RateLimits.QuietAfterTheWindow | mcp_plugin/lib/auth.py:515-517 | Once the window has passed nothing counts |
| ClientsFile.ChangesAreSerial | mcp_plugin/lib/oauth_config.py:437-450 | In every interleaving of processes that change, raise, are killed and read, the file is what the committed changes make of it one at a time, in the order the lock was taken |
| ClientsFile.OnlyReplacingWrites | mcp_plugin/lib/config.py:222-239 | In every reachable state, the file changes only when it is replaced, and then by exactly one change applied to the clients that are in it: nothing is lost, and a raising change writes nothing |
| ClientsFile.LoggedExactlyWhenSucceeded | mcp_plugin/lib/oauth_config.py:559-570 | A call that succeeded was committed, one that raised was not |
| ClientsFile.AddingFiles | mcp_plugin/lib/oauth_config.py:487-507 | Adding a client files exactly its record, beside all others, and raises if and only if there is one of its id |
| ClientsFile.SettingChangesOneField | mcp_plugin/lib/oauth_config.py:537-595 | Setting the redirect URIs or the roles changes that field of that client, to the values given, and nothing else; it raises if and only if there is no such client |
| ClientsFile.RemovingTakesOne | mcp_plugin/lib/oauth_config.py:630-642 | Removing a client takes out exactly that one, and raises if and only if there is none |
| ClientsFile.RecordingSetsLastUse | mcp_plugin/lib/oauth_config.py:649-671 | Recording uses sets when each client named was last used, to the time given, and changes and removes nothing else |
| ClientsFile.ClientStays | mcp_plugin/lib/oauth_config.py:437-450 | Over every run a client in the file stays there unless a committed change removes that very client, and its record stays as it is unless one names it |
| ClientsFile.UndisturbedChange | mcp_plugin/lib/oauth_config.py:437-450 | A change that nothing disturbs is committed if and only if the file can be read and the change is one of what it holds; else it raises and file and log stay; the lock is free afterwards |
| ClientsFile.ReadersSeeWholeVersions | mcp_plugin/lib/oauth_config.py:404-426 | A reader is answered with a whole version, one current between its start and its end |
| ClientsFile.OnlyAddingBrings | mcp_plugin/lib/oauth_config.py:649-671 | No change but adding it makes a client be there; recording its use does not |
| ClientsFile.RemovedClientStaysRemoved | mcp_plugin/lib/oauth_config.py:630-671 | Once a removal has succeeded, the client is not in the file until it is added again, whenever the processes recording its use began |
| ClientsFile.StepKeepsInv | mcp_plugin/lib/config.py:259-284 | The lock holder's view of the file is current at every step, and what it writes first is not touched by others |
| UpCloudDelete.SystemDiskIs | dba_plugin/vendor_upcloud/vendor.py:180-199 | The first disk named the boot disk, or else the first that came with the plan, or else the first of the lowest address in string order; there is one whenever there is a disk |
| UpCloudDelete.LessIsLexicographic | dba_plugin/vendor_upcloud/vendor.py:190-199 | The order of addresses is that of strings: the first character that differs decides, and a prefix comes before what goes on |
| UpCloudDelete.ExactlyTheSystemDiskStays | dba_plugin/vendor_upcloud/vendor.py:583-593 | The disks detached are all but the system disk, in order: exactly one is left when there is any |
| UpCloudDelete.StopIsSentAtMostOnce | dba_plugin/vendor_upcloud/vendor.py:564-576 | Whatever states are seen, the stop is sent once if the server is seen started and never otherwise |
| UpCloudDelete.Vendor.AwaitStopped | dba_plugin/vendor_upcloud/vendor.py:562-581 | Looks at most 25 times; ends well only on a look that shows the server stopped |
| UpCloudDelete.Vendor.DeleteVm | dba_plugin/vendor_upcloud/vendor.py:561-601 | Nothing is detached or deleted before a look shows the server stopped; then the disks but the system disk are detached in order and the server is deleted last; if it is never seen stopped nothing is |

## Left out

- ConnectionSafety.NoSessionLeak: a session whose close raises counts as closed, as the code treats it; what the database does with it is not modelled.
- ConnectionRevocation.DeletionRevokes: a call that is in its block when the deletion begins is waited for, not cut off; that it ends is not modelled.
- ConnectionRevocation.EndedSignInRevokes: the sign-in's secrets are taken to be deleted; the code goes on in silence where that fails.
- ConnectionPrivacy.OthersAreInvisibleInRuns: is about lookups and closes; that another client's connections fill the server's total limit can be noticed by db.connect, and deleting a connection or a user ends everyone's connections on it.
- UserDirectory.UserDirectory.ApiKeyMatches: one check at a time; KeyChecks has any number of them.
- UserDirectory.UserDirectory.VerifyToken: compares digests, as the code does, one check at a time; KeyChecks has any number of them.
- RateLimits.AuthFailureThrottle.IsThrottled: the two counts read the clock one after the other, so a failure may fall out of the window in between; ThrottleRuns has other requests come in between too.
- ThrottleRuns.UserBoundIsReached: for a user's ceiling no higher than the address's, as the defaults are.
- ConnectionStore.Store.DropSupersededSpellings: the code sorts the spellings, and takes over the details of the first in that order; here the order is the listing's.
- ConnectionDetails.ShownAsAskedExactlyWhen: for a file that holds details in their one form, as this code writes them; which form that is, and which details are refused, is left to a Normalizer.
- ConnectionPasses.ReaperDropsTheExpired: says which connections the reaper drops; each is asked for its age with a reading of its own, so the list need not hold what has only just expired, and that it misses nothing older is not stated.
- KeyUpgrade.Shell.Upgrade: of connections.json only the folders are modelled, as a map.
- GridReadBack.FixedCellDenotes: Python's text of a float with a fixed number of digits is a parameter; that it is the value rounded to them is not shown.
- Connection ids are random UUIDs: a call names only ids that db.connect handed out, and a new id is one never used.
- Real database sessions, the secret store, the file system, HTTP and the MCP SDK are nondeterministic steps that may fail; waiting for a lock is a step that is not possible yet, and that it becomes possible is not proved.
- The shell's URI parser and renderer, Python's strip, lower and upper, the Unicode tables, SHA-256 and the length of UTF-8 text are functions with only the laws stated in Sane, Lowers, RoundTrips and SteadyNormalizer.
- Times are ticks of a monotonic clock.
- What a log line or an error message says; refusals are one error each.
- expire_unused_dynamic_clients, which reads the clients without the lock before it removes them.
- The other tools of db_functions.py (schemas, objects, scripts, INFORMATION_SCHEMA queries), the other vendors, and the msm, dba and rest plugins.
