# Verified models of the flashcard program's protocols, formats and indexes

This project models the parts of the repository whose correctness cannot be read off one function, and proves what
they are for. Each file holds one module (`Common` what several share); together they verify with
`dafny verify dfyconfig.toml`.

**The AnkiConnect request and refresh protocol** (`RefreshProtocol`, `RefreshPending`, `RefreshSafety`,
`RefreshProgress`, `RefreshEffects`, `RefreshOrder`, `RefreshPlaces`, `RefreshExample`). Request threads take one
lock, run leaf actions and nested `multi` calls, note what they changed, and park in `run_on_main`; the main thread
runs posted closures and timers, which may nest in event loops that actions or hooks open. Every access to shared
state is one step and every interleaving is a run. Over all runs: the screens are told only while no action is under
way, an action runs on the thread its decorator names, no change is lost or told twice, a change without a `preserve`
wrapper is told alone, the wake-ups outstanding are counted exactly, some thread can always step, runs without new
requests or re-armed timers are finite, and once all is quiet the screens have been told the changes of all requests
in the order they took the lock.

**The HTTP side** (`Bytes`, `HttpRequest`, `HttpResponse`, `HttpAdmission`, `Listener`, `ListenerSockets`,
`ListenerRuns`, `ListenerStatus`). The reader that takes a stream in chunks is compared with the one-shot parser on
the whole stream, for every way to cut it; the replies are read back with the request parser, and tied to the list of
origins that lets a page in; and the listener thread is run against `start` and `stop` in every interleaving: its
sockets, its permits, the connections it serves and the status it shows.

**The packed RWKV review format** (`LittleEndian`, `PackedReviews`, `PackedParser`, `PackedLayout`, `MemorisedDay`).
An imperative packer and an imperative parser, each proved against a value specification, undo each other in both
directions; the layout is said byte by byte. A float is an opaque 32-bit word.

**The Fluent serializer** (`FluentSyntax`, `FluentSerializer`, `FluentLayout`, `FluentReading`, `FluentRoundTrip`,
`FluentPatterns`, `FluentPieces`, `FluentLines`, `FluentPatternReading`, `FluentPatternRoundTrip`, `FluentLostLines`,
`FluentEntries`, `FluentEntryReading`, `FluentEntryRoundTrip`). The mutually recursive printer over a text writer, the
layout it keeps, and a decoder for the Resource, Message, Term, Attribute, CommentLine, Pattern, SelectExpression,
InlineExpression and CallArguments productions of the Fluent Syntax 1.0 EBNF, with the removal of common indentation.
The decoder reads back every inline expression without selects; of patterns, with lines and with selects nested to any
depth, exactly those of which no line starts with a space, `[`, `*` or `.`; and of whole resources exactly those whose
patterns it reads back and whose comments have no line that is lost.

**Caches, indexes and list algorithms** (`Picks`, `FieldMap`, `FindDupes`, `FieldMigration`, `ReviewRows`,
`ReviewInputs`, `Deprecation`, `DeprecationFiles`, `BaseN`). The revalidated map of field names, the duplicate finder
whose result shares lists that still grow, the field migration of the Add window, the grouping of review inputs with
memo tables, the deprecation pass over translation files, from parsing to parsing, and base-62 and base-91
identifiers.

Some properties are false of the code as written, and are stated with their exact condition and an input or a run:

- A content-length so negative that the whole request would start before the stream (but that leaves some of it) makes
  the body depend on how the network cuts the stream, because a negative slice end counts from the end of what has
  been received. `HttpRequest.CutsCanBeSeen` is such a stream, and `HttpRequest.ChunkIndependence` is the exact
  condition.
- A restarted listener can overwrite an open socket, which then stays open for good, when the join of the stop before
  it gave up (`ListenerRuns.RestartCanLoseSocket`). From any stopped state, whatever joins gave up before, a restart
  is safe if and only if every listener thread is dead (`ListenerRuns.RestartIsSafe`), which `is_alive` would tell.
- Even without a restart a stop whose join gave up can leave the server listening: its listener stores a socket after
  the stop has returned (`ListenerRuns.ListensAfterStop`). Every socket ends up closed if and only if, when the stop
  returned, nothing was stored, no listener was about to store a socket, and none had been lost
  (`ListenerSockets.HowStopEnds`).
- Such a stop can also leave the status wrong: it says that the server is off while a socket is stored, and goes on
  saying so when a restart takes that socket (`ListenerStatus.OffWithSocket`). From a stopped state without a live
  listener the status is true in every run whose joins succeed if and only if no socket is stored or the status
  already says that the server listens (`ListenerStatus.StatusIsTrueWhen`).
- A burst is refreshed once, but a `refresh_now` that has told the changes leaves their wake-up behind. There is one
  wake-up while names are pending and none otherwise if and only if as many timers have found nothing to tell as
  requests have told something (`RefreshSafety.BurstRefreshesOnce`; `RefreshExample.ToldAlone` is a run).
- `reposition_field` takes out the first field equal to the one to move, and puts in the one it was given. It permutes
  the list if and only if the place is the one that field has, or that field is the one given
  (`FieldMap.ModelManager.RepositionField`). Otherwise the field taken out is lost, and the one given is in the list
  once more than before: once for an equal copy (`FieldMap.CopyTakesTheFirst`), twice for a later equal field of the
  list (`FieldMap.SecondIsThereTwice`).
- The service is said to run requests in the order they arrive (qt/aqt/ankiconnect.py:3126-3128). Its lock promises no
  order: `RefreshExample.SecondIsFirst` is a run in which the second request to arrive is the first to take it. From
  any reachable state no request can overtake another before the next arrives if and only if at most one waits for the
  lock (`RefreshOrder.OrderIsKept`), so clients that send none while another waits get the order they were promised
  (`RefreshOrder.OneByOneIsInOrder`). In any case requests run one at a time, in the order in which they take the
  lock.
- The serializer prints some patterns as text that no longer parses to them. A pattern with a select or a line break
  is moved to a line of its own, where a first text such as `[x]` cannot stand (`FluentLostLines.BracketIsLost`), and
  the spaces by which a line is indented further than the others are dropped (`FluentLostLines.IndentIsLost`). What is
  printed for a pattern is read back as it, up to the joining of adjacent texts, if and only if no line of it, or of a
  pattern inside it, starts with a space, `[`, `*` or `.`; a pattern that stays on the line of its key may start with
  any of these but the space (`FluentPatternRoundTrip.PrintedPatternReadsBack`).
- A comment line of blanks alone is printed as an empty one (`FluentEntryRoundTrip.BlanksAreLost`), and a carriage
  return at the end of a line becomes part of the line end. A resource is read back as it was if and only if no line
  of its comments is of these, and all its patterns are read back (`FluentEntryRoundTrip.PrintedResourceReadsBack`).

## Model

| member | source | states |
|---|---|---|
| `RefreshProtocol.PendingChanges.Note` | qt/aqt/ankiconnect.py:3297-3305 | noting adds the names under the pending lock, and asks for a schedule post exactly when none was scheduled |
| `RefreshProtocol.PendingChanges.Take` | qt/aqt/ankiconnect.py:3335-3342 | a refresh takes all the names and leaves nothing pending and nothing scheduled, whatever timers are still armed |
| `RefreshPending.FollowNote` | qt/aqt/ankiconnect.py:3297-3305 | the object's first critical section leaves what the protocol's step leaves, and asks for a post exactly when the noting thread goes on to post |
| `RefreshPending.FollowCheck` | qt/aqt/ankiconnect.py:3327-3333 | the object's check makes refresh_now park exactly when the protocol's step does, and changes nothing |
| `RefreshPending.FollowSwap` | qt/aqt/ankiconnect.py:3335-3342 | the names the object gives out are those the main thread then delivers |
| `RefreshPending.Replay` | qt/aqt/ankiconnect.py:3297-3342 | over any run of the protocol the one object, through its critical sections alone, ends with what is pending |
| `RefreshSafety.StepKeepsLock` | qt/aqt/ankiconnect.py:3247-3280 | every step of every thread keeps the lock discipline: one holder, one piece of work on the main thread, and that one for the holder or the timer |
| `RefreshSafety.StepKeepsPending` | qt/aqt/ankiconnect.py:459-485 | every step keeps what the pending names stand for: before and during an unwrapped change none are pending, after it only its own |
| `RefreshSafety.StepKeepsHistory` | qt/aqt/ankiconnect.py:3335-3350 | every step keeps the account of noted, pending and delivered changes |
| `RefreshSafety.StepKeepsWakes` | qt/aqt/ankiconnect.py:3297-3325 | every step keeps a wake-up outstanding while names are pending |
| `RefreshSafety.RefreshSeesRest` | qt/aqt/ankiconnect.py:3312-3350 | in every run, from taking the names to the return of the hooks no action is under way, and the lock is the timer's or its holder is parked in refresh_now |
| `RefreshSafety.OneAtATime` | qt/aqt/ankiconnect.py:3125-3128 | in every run at most one request is past the lock, and the main thread never nests one piece of the protocol in another |
| `RefreshSafety.NoLostRefresh` | qt/aqt/ankiconnect.py:3297-3350 | in every run the notes are what was delivered, what is under way and what is pending, in order; pending names are the union of their notes, with a refresh scheduled and a wake-up outstanding |
| `RefreshSafety.NoMixing` | qt/aqt/ankiconnect.py:470-485 | in every run each delivery is of wrapped changes only, or of one change alone |
| `RefreshSafety.BurstRefreshesOnce` | qt/aqt/ankiconnect.py:3130-3132 | in every run the wake-ups outstanding are the one of the pending changes and those left by requests that refreshed, less those used up by timers that found nothing; so one serves a burst exactly when the two are equal, as while only timers refresh |
| `RefreshExample.ToldAlone` | qt/aqt/ankiconnect.py:3297-3350 | a run in which an unwrapped change is told alone by refresh_now, which leaves nothing pending while the wake-up posted for it is still to come |
| `RefreshExample.SecondIsFirst` | qt/aqt/ankiconnect.py:3126-3128 | a run in which the second of two requests takes the lock first |
| `RefreshProgress.StepWorks` | qt/aqt/ankiconnect.py:3247-3350 | every step but an arrival and a timer that finds the lock busy makes the work left smaller |
| `RefreshProgress.NoWaitCycle` | qt/aqt/ankiconnect.py:3247-3333 | in every reachable state that is not quiet some thread can make progress, although the lock's holder may wait for the main thread |
| `RefreshProgress.ProgressRunsAreShort` | qt/aqt/ankiconnect.py:459-485 | a run of progress steps is no longer than the work there was |
| `RefreshProgress.EverythingIsDelivered` | qt/aqt/ankiconnect.py:3297-3350 | where no progress is left, all requests are answered and every noted change has been delivered once and in order |
| `RefreshEffects.StepKeepsEffects` | qt/aqt/ankiconnect.py:425-485 | every step keeps that performed changes and those still to come are the changes of the requests, taken in the order of the lock |
| `RefreshEffects.RequestsRunInTurn` | qt/aqt/ankiconnect.py:1032-1033 | performed changes are a prefix of the requests' changes in lock order, with nested multi calls in place, stopped by a malformed sub-request and continued after a refused one |
| `RefreshEffects.ScreensToldEverything` | qt/aqt/ankiconnect.py:3247-3257 | once quiet, what the screens were told is exactly the changes of all requests in lock order |
| `RefreshOrder.OrderIsKept` | qt/aqt/ankiconnect.py:3126-3128 | from any reachable state no run without a new request lets one overtake another if and only if at most one waits for the lock |
| `RefreshOrder.OneByOneIsInOrder` | qt/aqt/ankiconnect.py:3126-3128 | in every run in which a request arrives only when none waits, requests take the lock in the order they arrived |
| `RefreshPlaces.ActionsRunInPlace` | qt/aqt/ankiconnect.py:478-480 | in every run a thread in an action, or in a call that one makes, has one that is not for the main thread; a thread parked for its action has one that is, posted or running there, and what the main thread runs for a thread is what it waits for |
| `RefreshPlaces.ActionsEndInPlace` | qt/aqt/ankiconnect.py:476-483 | in every run an action ends, and its changes come to be noted, on the main thread if and only if its decorator says so |
| `RefreshPlaces.EveryCallCanBeMade` | qt/aqt/ankiconnect.py:3247-3280 | from any reachable state an action that is not for the main thread can hand it as many closures as it has, one after the other |
| `RefreshPlaces.RefreshIsNotInterrupted` | qt/aqt/ankiconnect.py:3335-3350 | between taking the names and calling the hooks the main thread does nothing else |
| `RefreshPlaces.LoopsNest` | qt/aqt/ankiconnect.py:3247-3325 | while an action, a call or hooks run there, everything posted and due may run on top of them |
| `Bytes.Find` | qt/aqt/ankiconnect_server.py:60 | the first place of a pattern, or a negative number when it is nowhere |
| `Bytes.FindInPrefix` | qt/aqt/ankiconnect_server.py:463 | bytes that follow cannot move the first place of a pattern |
| `Bytes.ParsePrinted` | qt/aqt/ankiconnect_server.py:130 | reading back a printed length gives the length |
| `Bytes.SplitJoins` | qt/aqt/ankiconnect_server.py:60-71 | the parts of a split hold no separator and, joined by it, are the whole |
| `Bytes.LettersChangeCase` | qt/aqt/ankiconnect_server.py:68-73 | changing case moves the 26 letters of ASCII and leaves every other byte |
| `Bytes.NumeralsHaveValues` | qt/aqt/ankiconnect_server.py:76 | digits, with single underscores between them, are the number they write |
| `Bytes.PaddedIsRead` | qt/aqt/ankiconnect_server.py:76 | an integer is read with white space around it and a sign |
| `Bytes.OnlyNumeralsAreRead` | qt/aqt/ankiconnect_server.py:76 | what is read as an integer is a sign and a numeral between white space, and nothing else is |
| `HttpRequest.ReadHeaders` | qt/aqt/ankiconnect_server.py:70-73 | the loop fills the header dictionary, a later line of a key replacing an earlier one |
| `HttpRequest.ContentLength` | qt/aqt/ankiconnect_server.py:480-488 | the reader's own scan of the header block gives the length that the header dictionary gives, and fails when that does |
| `HttpRequest.ParseRequest` | qt/aqt/ankiconnect_server.py:56-81 | the parse is the framing function: header end, headers, length and the slice Python takes |
| `HttpRequest.VerbIs` | qt/aqt/ankiconnect_server.py:64-68 | the verb is the first word of the first line, in upper case |
| `HttpRequest.HeaderIs` | qt/aqt/ankiconnect_server.py:70-73 | a header line gives its lower-case key what is between its first two colons |
| `HttpRequest.NoLengthIsZero` | qt/aqt/ankiconnect_server.py:76 | no content-length, or an empty one, counts as zero |
| `HttpRequest.ReadRequest` | qt/aqt/ankiconnect_server.py:451-469 | the loop that looks for the header block once and parses once returns what re-parsing after every chunk would |
| `HttpRequest.ParseStays` | qt/aqt/ankiconnect_server.py:56-81 | a finished parse is not changed by bytes that follow |
| `HttpRequest.ChunksDoNotMatter` | qt/aqt/ankiconnect_server.py:451-469 | for every cut of a steady stream the reader returns what one parse of the whole stream returns, and nothing if it ends early |
| `HttpRequest.ChunkIndependence` | qt/aqt/ankiconnect_server.py:451-488 | a stream is steady if and only if every way to cut it into non-empty chunks gives what one parse gives |
| `HttpRequest.CutsCanBeSeen` | qt/aqt/ankiconnect_server.py:75-81 | a concrete stream with a negative length whose body depends on the cuts |
| `HttpResponse.BuildResponse` | qt/aqt/ankiconnect_server.py:134-143 | the reply is its header lines, an empty line and the body |
| `HttpResponse.HeadersReadBack` | qt/aqt/ankiconnect_server.py:66-73 | the parser's dictionary of printed headers is the dictionary of those headers |
| `HttpResponse.ReplyReadBack` | qt/aqt/ankiconnect_server.py:134-143 | the request parser finds the headers and the body of a printed reply |
| `HttpResponse.OriginClean` | qt/aqt/ankiconnect_server.py:84-121 | an origin taken from parsed headers holds neither a line end nor a header separator |
| `HttpResponse.OkReplyFrames` | qt/aqt/ankiconnect_server.py:124-131 | a 200 reply with any body and a clean origin is framed by the request parser to that body and its full length |
| `HttpResponse.RepliesFrameThemselves` | qt/aqt/ankiconnect_server.py:170-232 | every reply to a parsed request is re-framed by the request parser to the same body, all of its bytes, and an origin that is *, localhost or the request's own |
| `HttpAdmission.ListIs` | qt/aqt/ankiconnect_server.py:95-97 | the origins are the settings' and the old single one, if it is given and not empty |
| `HttpAdmission.WhoIsAllowed` | qt/aqt/ankiconnect_server.py:84-121 | a request is allowed if and only if it has no origin, or the list holds the star or its origin, or localhost and its origin is one of two addresses or begins with one of four prefixes; and what the reply then names |
| `HttpAdmission.DefaultListRefuses` | qt/aqt/ankiconnect_server.py:107-118 | with the list of a new profile no page of another host is let in |
| `HttpAdmission.WhatIsAnswered` | qt/aqt/ankiconnect_server.py:170-232 | the body, the status, the one origin named and the private-network leave of every reply, by whether the list lets the origin in and what is asked |
| `HttpAdmission.StrangersGetNothing` | qt/aqt/ankiconnect_server.py:84-121 | a page that the list does not let in gets an empty body and an answer that names another origin, unless it asks for permission |
| `HttpAdmission.ContentIsForTheAdmitted` | qt/aqt/ankiconnect_server.py:198-232 | a body that is not empty and was not asked for as a permission goes to a request the list lets in |
| `HttpAdmission.OkRepliesAreJson` | qt/aqt/ankiconnect_server.py:124-131 | a 200 reply begins with its status, and its content type is read back as JSON |
| `Listener.PermitsAreConserved` | qt/aqt/ankiconnect_server.py:376-449 | free permits, permits held by listeners and clients being served always total MAX_CLIENTS, whatever the joins do |
| `Listener.ConnectionsAreAccounted` | qt/aqt/ankiconnect_server.py:413-426 | in every run the connections accepted are those served and those of listeners that wait for a permit or have one |
| `Listener.NoMoreThan32` | qt/aqt/ankiconnect_server.py:34 | in every run at most 32 connections are served at a time |
| `Listener.StepKeepsHands` | qt/aqt/ankiconnect_server.py:344-414 | with any number of listeners alive, what a listener has bound and not stored is open and no other's, and so is what is stored |
| `ListenerSockets.StepKeepsSockets` | qt/aqt/ankiconnect_server.py:307-350 | every step but a join that gives up keeps one listener, every open socket stored, about to be closed, in its hands or lost before, and how far the stop has come |
| `ListenerSockets.NoSocketIsLost` | qt/aqt/ankiconnect_server.py:376-426 | from any reachable stopped state with no live listener, as long as joins succeed, no further open socket is unaccounted for, and a listener that stores one overwrites none |
| `ListenerSockets.StopClosesEverything` | qt/aqt/ankiconnect_server.py:332-350 | from such a state, when a stop returns, every socket bound since is closed, nothing is stored, no listener is alive and the status is off |
| `ListenerSockets.StoppedStaysClosed` | qt/aqt/ankiconnect_server.py:332-350 | and it stays so until the next start |
| `ListenerSockets.HowStopEnds` | qt/aqt/ankiconnect_server.py:332-414 | after any stop, also one whose join gave up, all sockets end up closed if and only if at its return nothing was stored, about to be stored, or lost |
| `ListenerSockets.LostForGood` | qt/aqt/ankiconnect_server.py:344-350 | a lost socket stays open whatever starts and stops follow |
| `ListenerRuns.EveryListenerCanEnd` | qt/aqt/ankiconnect_server.py:376-426 | after any stop a run without another call brings every listener, wherever it stands, to its end |
| `ListenerRuns.LiveListenerOverwrites` | qt/aqt/ankiconnect_server.py:307-342 | from any reachable stopped state with a live listener, wherever it stands, a restart can come to overwrite an open socket though no further join gives up |
| `ListenerRuns.RestartIsSafe` | qt/aqt/ankiconnect_server.py:307-342 | from any reachable stopped state no run whose joins succeed overwrites an open socket if and only if every listener is dead |
| `ListenerRuns.RestartCanLoseSocket` | qt/aqt/ankiconnect_server.py:307-342 | a run in which a join gives up, and a restart loses an open socket |
| `ListenerRuns.ListensAfterStop` | qt/aqt/ankiconnect_server.py:332-414 | a run in which a join gives up, and with no restart a socket is stored, reported as listening and left open after the stop |
| `ListenerRuns.ConnectionIsServed` | qt/aqt/ankiconnect_server.py:419-426 | from any reachable state a run without a call of start or stop serves the connection a listener has accepted |
| `ListenerRuns.FailureEndsStoppedOnly` | qt/aqt/ankiconnect_server.py:415-418 | an accept that fails ends the listener if it was told to stop, and else leaves it in its loop |
| `ListenerStatus.StatusIsTrueWhen` | qt/aqt/ankiconnect_server.py:307-342 | from any reachable stopped state without a live listener the status is true in every run whose joins succeed, if and only if no socket is stored or the status says that it listens |
| `ListenerStatus.ShownIsTrue` | qt/aqt/ankiconnect_server.py:376-414 | from a stopped state with no live listener and nothing stored that is not shown, while joins succeed: between start and stop the status is never off, it says listening only with an open socket stored and always while connections are taken, and failed while the listener waits to try again |
| `ListenerStatus.OffWithSocket` | qt/aqt/ankiconnect_server.py:332-342 | a run in which a join gives up and the status is off with a socket stored and open |
| `LittleEndian.WordRoundTrip` | pylib/rsbridge/lib.rs:1321-1331 | reading the little-endian bytes of a word that fits gives the word |
| `LittleEndian.BytesRoundTrip` | pylib/rsbridge/lib.rs:1321-1331 | writing the word of some bytes gives the bytes |
| `LittleEndian.LowBytesFirst` | pylib/rsbridge/lib.rs:1321-1331 | earlier bytes count less: a later one counts 256 times as much as the one before it |
| `LittleEndian.SignedRoundTrip` | pylib/rsbridge/lib.rs:1325-1327 | two's complement goes both ways |
| `LittleEndian.RowRoundTrip` | pylib/rsbridge/warm_up_pack.rs:75-139 | a row of fitting words is read back from its bytes |
| `LittleEndian.RowBytesRoundTrip` | pylib/rsbridge/lib.rs:1182-1201 | bytes of a row's length are the bytes of the words read from them |
| `LittleEndian.FlagBits` | pylib/rsbridge/lib.rs:1276-1286 | a bit of the presence word is set exactly when the flag of its place is |
| `LittleEndian.FlagSnoc` | pylib/rsbridge/warm_up_pack.rs:141-184 | setting the next bit in place is adding the next flag |
| `LittleEndian.BitsAreWord` | pylib/rsbridge/lib.rs:1276-1286 | a word is the set of its first bits if and only if no later bit is set |
| `PackedReviews.OptionalI64` | pylib/rsbridge/warm_up_pack.rs:141-160 | an absent field gives zero and no bit; a present one its bit, and a failure exactly when it does not fit 64 bits |
| `PackedReviews.OptionalF32` | pylib/rsbridge/warm_up_pack.rs:162-184 | the same for a float, by its 32-bit word |
| `PackedReviews.Pack` | pylib/rsbridge/warm_up_pack.rs:75-139 | packing a review succeeds exactly when it fits the format, and appends its 95-byte row; a failure appends nothing |
| `PackedReviews.PackReviews` | pylib/rsbridge/warm_up_pack.rs:36-56 | the packed request exists exactly when all reviews fit and are at most 2^32 - 1, and is the header, the count and the rows |
| `PackedParser.Cursor.ReadBytes` | pylib/rsbridge/lib.rs:1333-1348 | a read takes the next bytes and advances, or fails and stays |
| `PackedParser.Cursor.ReadBool` | pylib/rsbridge/lib.rs:1307-1315 | one byte, which must be 0 or 1 |
| `PackedParser.ReadRow` | pylib/rsbridge/lib.rs:1182-1223 | a row is read or fails as its bytes say, a bad first boolean before a truncated end |
| `PackedParser.Parse` | pylib/rsbridge/lib.rs:1158-1180 | the parse loop computes the parse of the whole buffer, with its first error |
| `PackedParser.Accepts` | pylib/rsbridge/lib.rs:1158-1180 | the parser accepts if and only if the buffer is the magic, a count and exactly count rows of 95 bytes with 0/1 booleans, and gives what each row's words mean |
| `PackedParser.RoundTrip` | pylib/rsbridge/lib.rs:1158-1223 | parsing the packed bytes of any list of inputs shorter than 2^32 gives that list |
| `PackedParser.Send` | pylib/rsbridge/warm_up_pack.rs:36-56 | reviews that fit reach the model as they were, one by one in order, and others are refused |
| `PackedParser.RowRepacks` | pylib/rsbridge/warm_up_pack.rs:75-139 | parsing and packing a row gives it back if and only if its absent slots are zero and no unknown presence bit is set |
| `PackedParser.Repack` | pylib/rsbridge/warm_up_pack.rs:36-56 | packing what an accepted buffer parses to gives the buffer if and only if every row is canonical |
| `PackedLayout.ReviewHeadIsAt` | pylib/rsbridge/warm_up_pack.rs:75-139 | where in the row of a review its identifiers, flags and ease are, byte by byte |
| `PackedLayout.ReviewTailIsAt` | pylib/rsbridge/warm_up_pack.rs:75-139 | the same for its numbers and retentions |
| `PackedLayout.ReviewBitsAre` | pylib/rsbridge/warm_up_pack.rs:75-139 | which bit says that which field is there |
| `PackedLayout.RequestIs` | pylib/rsbridge/warm_up_pack.rs:36-56 | the eight bytes of the magic, the count, and a row every 95 bytes |
| `PackedLayout.HeadIsAt` | pylib/rsbridge/lib.rs:1182-1223 | where the row that parses to an input holds its identifiers, flags and ease |
| `PackedLayout.TailIsAt` | pylib/rsbridge/lib.rs:1182-1223 | the same for its numbers and retentions |
| `PackedLayout.BitsAre` | pylib/rsbridge/lib.rs:1182-1223 | and for the presence bits |
| `PackedLayout.WhyRefused` | pylib/rsbridge/lib.rs:1158-1223 | exactly which requests are refused with which error: the header first, then the first bad row, then what is left over |
| `MemorisedDay.ParseForDay` | pylib/rsbridge/lib.rs:1119-1139 | the rows rewritten in place are the inputs of the day, or an error when a row has no review day |
| `MemorisedDay.SameAsPackedForTheDay` | pylib/rsbridge/lib.rs:1111-1118 | rows packed once give on any day what rows packed for that day would |
| `MemorisedDay.DaysDifferInThreeFields` | pylib/rsbridge/lib.rs:1113-1115 | from day to day only the day and the two elapsed times change |
| `MemorisedDay.ElapsedIsTrue` | pylib/rsbridge/lib.rs:1130-1136 | the elapsed times are the true ones if and only if neither the difference nor its seconds overflow |
| `MemorisedDay.OnDayIs` | pylib/rsbridge/lib.rs:1119-1139 | an input of the day has the day, and the days and seconds since the review, wrapped around at 64 bits |
| `FluentSerializer.TextWriter.WriteIndent` | ftl/src/serialize.rs:418-422 | the loop adds four spaces a level |
| `FluentSerializer.TextWriter.WriteLiteral` | ftl/src/serialize.rs:428-439 | text at the start of a line is indented and loses its leading spaces |
| `FluentSerializer.TextWriter.WriteCharIntoIndent` | ftl/src/serialize.rs:441-447 | the last character makes room for the new one |
| `FluentSerializer.PutPattern` | ftl/src/serialize.rs:141-163 | printing a pattern restores the level, so the dedent never underflows |
| `FluentSerializer.PutExpression` | ftl/src/serialize.rs:228-238 | so does printing an expression, with selects inside |
| `FluentSerializer.Serializer.SerializeResource` | ftl/src/serialize.rs:45-63 | the loop prints the entries in turn, a free comment after an empty line once something was printed, junk only on request |
| `FluentSerializer.Serializer.SerializePattern` | ftl/src/serialize.rs:141-163 | the imperative printer writes what the specification prints, on a line of its own exactly when the pattern has a line break or a select |
| `FluentSerializer.Serializer.SerializeSelect` | ftl/src/serialize.rs:303-321 | the selector, an arrow and the variants, one level in |
| `FluentSerializer.Serializer.SerializeVariant` | ftl/src/serialize.rs:323-334 | a variant, whose bracket is recorded where it is printed |
| `FluentSerializer.Serializer.SerializeInline` | ftl/src/serialize.rs:240-301 | the printer of inline expressions |
| `FluentSerializer.Serializer.SerializeArguments` | ftl/src/serialize.rs:347-377 | positional arguments, then named ones, with commas between |
| `FluentSerializer.Serialize` | ftl/src/serialize.rs:13-28 | the text of a resource, from an empty writer at level 0 |
| `FluentLayout.BracketAdds` | ftl/src/serialize.rs:323-333 | a bracket at the start of a line lands after exactly 4 * level characters, the star replacing the last space and nothing else |
| `FluentLayout.PatternAdds` | ftl/src/serialize.rs:141-163 | printing a pattern only adds text, and adds each variant inside it in place |
| `FluentLayout.VariantsAdd` | ftl/src/serialize.rs:303-321 | variants are printed at line starts, one level in, and leave a line start |
| `FluentLayout.VariantsLineUp` | ftl/src/serialize.rs:303-334 | every variant of any resource is printed once and in order, at strictly increasing places, its bracket in the column of its nesting depth, and the final level is 0 |
| `FluentReading.ReadsBack` | ftl/src/serialize.rs:240-301 | reading the text of any well-formed inline expression without selects gives it back and stops at its end |
| `FluentReading.ArgumentsRead` | ftl/src/serialize.rs:347-377 | call arguments are read back, positional ones never taken for named ones |
| `FluentRoundTrip.InlinePrints` | ftl/src/serialize.rs:240-301 | printing such an expression appends its text and its indentation, on one line, whatever the writer holds |
| `FluentRoundTrip.PrintedInlineReadsBack` | ftl/src/serialize.rs:240-301 | what the serializer prints for it is read back as it, before anything that could not be more of it |
| `FluentRoundTrip.PrintedPlaceableReadsBack` | ftl/src/serialize.rs:195-226 | a placeable of a pattern, with its special case for double braces, is read back as one that holds the expression |
| `FluentPatternReading.PatternReads` | ftl/src/serialize.rs:141-163 | the text of any pattern a parser could leave, with lines and nested selects, is read as the pattern with its texts joined if no line at any depth starts with a space, `[`, `*` or `.`, and else as another pattern or none |
| `FluentPatternReading.VariantsRead` | ftl/src/serialize.rs:303-334 | variants are read back with their keys and the default mark exactly when all their patterns are, and the first line that is none ends them |
| `FluentPatternReading.BraceReads` | ftl/src/serialize.rs:195-238 | so are placeables of a pattern, single or in double braces, with selects in either |
| `FluentPatternRoundTrip.LinesPrint` | ftl/src/serialize.rs:195-226 | elements add their lines, each indented to the writer's level and without the spaces it starts with |
| `FluentPatternRoundTrip.PatternPrints` | ftl/src/serialize.rs:141-163 | printing a pattern appends its text at the writer's level |
| `FluentPatternRoundTrip.VariantPrints` | ftl/src/serialize.rs:323-334 | so does printing a variant, with the star in place of the last space of its margin |
| `FluentPatternRoundTrip.PrintedPatternReadsBack` | ftl/src/serialize.rs:141-238 | what the serializer prints for a pattern is read back as it, whatever was printed before and at any level, if and only if no line of it starts with a space, `[`, `*` or `.` |
| `FluentLostLines.KeyLineReads` | ftl/src/serialize.rs:141-150 | on the line of its key any pattern without line breaks is read, whatever it starts with, so a parser does leave such patterns |
| `FluentLostLines.BracketIsLost` | ftl/src/serialize.rs:141-150 | a pattern that is read from a line, and of which the printed text is no pattern |
| `FluentLostLines.IndentIsLost` | ftl/src/serialize.rs:428-439 | a pattern that is read from two lines, and of which the printed text is read as another |
| `FluentEntryReading.CommentReads` | ftl/src/serialize.rs:83-101 | the lines of a printed comment are read back, of each kind by its number signs, a line of blanks as an empty one |
| `FluentEntryReading.AttributesRead` | ftl/src/serialize.rs:165-193 | attributes are read back, each with its name, exactly when their patterns are |
| `FluentEntryReading.ResourceReads` | ftl/src/serialize.rs:45-139 | the text of any well-formed entries, comments and blank lines included, is read as them if their patterns fit, and as themselves, comments and all, only if their comments do too |
| `FluentEntryRoundTrip.MessagePrints` | ftl/src/serialize.rs:103-121 | printing a message adds its text: its comment, its name, its value and its attributes |
| `FluentEntryRoundTrip.TermPrints` | ftl/src/serialize.rs:123-139 | so does printing a term, with its hyphen |
| `FluentEntryRoundTrip.BodyPrints` | ftl/src/serialize.rs:45-63 | printing a resource writes the texts of its entries, a free comment with a blank line before it unless nothing came before |
| `FluentEntryRoundTrip.PrintedResourceReadsBack` | ftl/src/serialize.rs:13-193 | what is printed of a resource is read as the same entries, with their kinds, names, values, attributes and comments, if and only if every pattern fits and no comment line is of blanks alone or ends with a carriage return |
| `FluentEntryRoundTrip.BlanksAreLost` | ftl/src/serialize.rs:91-96 | a comment line of one space comes back empty |
| `FluentEntryRoundTrip.JunkIsKept` | ftl/src/serialize.rs:53-56 | junk is dropped, or on request printed as it is, but for the spaces it starts a line with |
| `FluentEntryRoundTrip.BlankLineBefore` | ftl/src/serialize.rs:70-81 | kept junk counts as an entry for the blank line before a comment |
| `FieldMap.LastWins` | pylib/anki/models.py:293 | the map has the names of the fields, each with the last field that has it |
| `FieldMap.IndexOf` | pylib/anki/models.py:330-332 | the first field equal by content |
| `FieldMap.ModelManager.FieldMap` | pylib/anki/models.py:280-299 | the answer is the map of the fields as they are now, in a dictionary of the caller's own, whether cached or not |
| `FieldMap.ModelManager.Unchanged` | pylib/anki/models.py:286-290 | the check succeeds exactly when the fields, their names and ordinals are what was seen |
| `FieldMap.ModelManager.RemoveFromCache` | pylib/anki/models.py:111-114 | eviction forgets one entry |
| `FieldMap.ModelManager.ClearCache` | pylib/anki/models.py:119-121 | or all |
| `FieldMap.ModelManager.AddField` | pylib/anki/models.py:324-326 | the field is appended |
| `FieldMap.ModelManager.RemoveField` | pylib/anki/models.py:328-330 | the first equal field is taken out, and it fails when there is none |
| `FieldMap.ModelManager.RepositionField` | pylib/anki/models.py:332-341 | the first equal field is taken out and this one put in at the place, counted from the end when negative; the list is permuted if and only if the field was at the place or is the one given |
| `FieldMap.ModelManager.RenameField` | pylib/anki/models.py:343-348 | the field is renamed when an equal one is in the list |
| `FieldMap.MovesOnlyItself` | pylib/anki/models.py:338-341 | taking a field out and putting one in permutes the list if and only if they are one |
| `FieldMap.CopyTakesTheFirst` | pylib/anki/models.py:332-341 | moving an equal copy of the first of two fields loses that field |
| `FieldMap.SecondIsThereTwice` | pylib/anki/models.py:332-341 | moving the second of two equal fields loses the first and puts the second in twice |
| `FieldMap.MovedTo` | pylib/anki/models.py:332-341 | a moved field is at its place and the others keep their order |
| `FieldMap.Run` | pylib/anki/models.py:280-348 | over any run of edits, renames, ordinal changes, replacements, evictions and spoiled answers, every answer is that of a fresh look at the fields |
| `FindDupes.OrdForMid` | pylib/anki/collection.py:830-837 | the memo never changes which field of a notetype is looked at, or the error |
| `FindDupes.ValueIs` | pylib/anki/collection.py:830-849 | the value of a row is that of the first field whose lowered name is the lowered name asked for, if the note has that many |
| `FindDupes.NoValueWhen` | pylib/anki/collection.py:830-837 | exactly when a row fails for its notetype, and when for its field |
| `FindDupes.NotesAre` | pylib/anki/collection.py:841-854 | every row gives its note and value, or the first row with an error gives that error |
| `FindDupes.NidsAre` | pylib/anki/collection.py:851-853 | the list of a value names the notes at every place that has it, in the order of the rows |
| `FindDupes.Record` | pylib/anki/collection.py:851-853 | one more note keeps every list complete, through the list that table and result share |
| `FindDupes.FindDupes` | pylib/anki/collection.py:821-854 | the result is the values held by two notes with their complete lists, or the first row's error |
| `FindDupes.DupesAreHeldTwice` | pylib/anki/collection.py:851-853 | a value is listed if and only if it is not empty and at least two notes hold it |
| `FindDupes.DupesInOrder` | pylib/anki/collection.py:852-853 | values are listed once each, in the order of their second notes |
| `FieldMigration.CopyNamed` | qt/aqt/addcards_legacy.py:183-188 | fields with content whose name is in both notetypes keep it, and no other field changes |
| `FieldMigration.FillSlots` | qt/aqt/addcards_legacy.py:189-205 | the others fill the remaining fields in order, and touch none that was kept |
| `FieldMigration.Migrate` | qt/aqt/addcards_legacy.py:177-207 | both passes, on one note |
| `FieldMigration.WhereContentGoes` | qt/aqt/addcards_legacy.py:177-207 | content stays under its name, or goes to the slot of its rank, and is dropped only when there are not so many slots |
| `FieldMigration.WhereContentComesFrom` | qt/aqt/addcards_legacy.py:177-207 | a new field holds kept content, or the content of its rank, or what it held before |
| `FieldMigration.NothingIsDroppedInVain` | qt/aqt/addcards_legacy.py:177-207 | if the content of an old field is in no new field, every new field that keeps no content of its own name holds non-empty content of another, earlier old field |
| `FieldMigration.NothingIsEmptied` | qt/aqt/addcards_legacy.py:177-207 | a new field keeps what it held, or holds non-empty content |
| `FieldMigration.OrderIsKept` | qt/aqt/addcards_legacy.py:177-207 | content that moves keeps its order |
| `ReviewRows.Memos.PresetObject` | pylib/rsbridge/review_input_rows.rs:175-183 | the preset memo gives what a call would, and stores no failure |
| `ReviewRows.Memos.StateKindObject` | pylib/rsbridge/review_input_rows.rs:358-371 | the kind memo gives the kind, or None for an empty one |
| `ReviewRows.Memos.TargetRetentions` | pylib/rsbridge/review_input_rows.rs:199-221 | the retention memo gives four times the row's retention when it is a probability, else the default |
| `ReviewRows.Memos.Convert` | pylib/rsbridge/review_input_rows.rs:174-259 | a row's input is what it would be without the tables |
| `ReviewInputs.ProbabilityIs` | pylib/rsbridge/review_input_rows.rs:202-209 | the bits of a retention count exactly when they are, by IEEE 754, a finite number from zero to one |
| `ReviewInputs.CardTypeIs` | pylib/rsbridge/review_input_rows.rs:187-197 | the review state is that of a filtered deck, else that of the kind's name, else the card's type |
| `ReviewInputs.InputIs` | pylib/rsbridge/review_input_rows.rs:224-259 | every entry of the input of a row |
| `ReviewInputs.ConvertsWhen` | pylib/rsbridge/review_input_rows.rs:175-183 | a row converts unless the call for its preset fails |
| `ReviewInputs.BatchSizeIs` | pylib/rsbridge/review_input_rows.rs:265-270 | the batch size counts when it is between the bounds, both included |
| `ReviewRows.AppendToGroup` | pylib/rsbridge/review_input_rows.rs:261-280 | the input goes to the end of the group of its batch size, made if need be |
| `ReviewRows.ReviewInputs` | pylib/rsbridge/review_input_rows.rs:142-297 | the result is the groups of the rows by batch size, or all of them under the override when there are any, or a failure exactly when some preset fails |
| `ReviewRows.SizesAre` | pylib/rsbridge/review_input_rows.rs:266-278 | the keys are the rows' batch sizes, each once |
| `ReviewRows.SizesComeInOrder` | pylib/rsbridge/review_input_rows.rs:113-117 | keys come in the order of their first rows |
| `ReviewRows.GroupsAreStable` | pylib/rsbridge/review_input_rows.rs:113-117 | a group holds the inputs of just the rows of its size, in row order |
| `ReviewRows.GroupsArePartition` | pylib/rsbridge/review_input_rows.rs:113-117 | the groups together hold every input once |
| `Deprecation.Deprecate` | ftl/src/garbage_collection.rs:165-177 | the rewritten body, or none when nothing is unused |
| `Deprecation.Strip` | ftl/src/garbage_collection.rs:157-163 | the used entries in order, or none when nothing is unused |
| `Deprecation.EntryList.AppendDeprecationWarning` | ftl/src/garbage_collection.rs:179-189 | older warnings go and one is added at the end |
| `Deprecation.OneWarning` | ftl/src/garbage_collection.rs:165-189 | a rewritten body has exactly one warning, only used entries before it and only unused ones after it |
| `Deprecation.NothingIsLost` | ftl/src/garbage_collection.rs:165-189 | the entries other than warnings are the same, as a multiset |
| `Deprecation.SecondTime` | ftl/src/garbage_collection.rs:165-189 | used and unused entries keep their order, the pass changes nothing the second time, and stripping then removes exactly what follows the warning |
| `Deprecation.StripOnce` | ftl/src/garbage_collection.rs:157-163 | stripping leaves nothing to strip |
| `Deprecation.WhoIsBelow` | ftl/src/garbage_collection.rs:157-197 | a file is rewritten if and only if it has a message or term whose name is not in use; exactly those end up below the warning, or are taken out, and above it is everything else but older warnings |
| `DeprecationFiles.DeprecatedFileStays` | ftl/src/garbage_collection.rs:122-177 | what is written to a file is parsed as the entries that were to be written, and another pass over them would write the same |
| `DeprecationFiles.StrippedFileStays` | ftl/src/garbage_collection.rs:122-163 | a stripped file is parsed without the unused entries, and another pass takes nothing out |
| `BaseN.Base62` | pylib/anki/utils.py:106-112 | the loop prints the digits of the number |
| `BaseN.DigitsOf` | pylib/anki/utils.py:106-112 | the digits evaluate to the number, are below the base, and have no leading zero |
| `BaseN.DigitCount` | pylib/anki/utils.py:106-112 | a number has at most k digits if and only if it is below the k-th power of the base |
| `BaseN.InjectiveWhenDistinct` | pylib/anki/utils.py:106-112 | different numbers print differently if and only if the table repeats no character |
| `BaseN.Base91Distinct` | pylib/anki/utils.py:115-120 | the base-91 table has 91 different characters |
| `BaseN.TablesAre` | pylib/anki/utils.py:107-115 | the characters of the two tables, one by one |
| `BaseN.Guid64` | pylib/anki/utils.py:123-125 | a 64-bit identifier has at most ten characters and no leading zero digit |

## Left out

- The closing path of `run_on_main`, a missing task manager, a closed collection and hooks that raise: the protocol's
  runs are those of an open collection that is not closing.
- The protocol's threads are values of a state machine, not objects: only the pending changes are a class. The event
  that `run_on_main` sets and the waking of its waiter are one step.
- Key checks, replies and results of actions, `suspend` and all other single actions: an action is what its decorator
  says of it, and how many closures it hands to the main thread.
- JSON, its schema and the handler behind `respond` are parameters; so is which bytes are valid UTF-8.
- CPython's limit of 4300 digits for `int` on text is not modelled; a content-length is any integer.
- `listen_now`, `update_settings`, address families, the retry delay and failures to start a thread: a bind either
  succeeds or fails, an accept times out, fails or brings a connection.
- `_close_socket` swaps the stored socket for None in one step, as the interpreter's tuple assignment is meant to.
- Conversion of Python objects in the packer, and of floats: a field is absent, given or does not convert; a float is
  its 32-bit word.
- Reserving memory for the row count a buffer claims, and debug builds, in which the overflows of
  `parse_packed_rwkv_memorised_day_inputs` stop the program instead of wrapping around.
- The packed prediction request and its state columns, which share the cursor.
- FluentReading.ReadsBack: does not cover selects; those of patterns, also in further braces, are covered by
  `FluentPatternReading`, but not one inside a call argument.
- FluentPatternReading.PatternReads: is about patterns as a parser leaves them: a text is a line or a part of one
  without braces or carriage returns, texts meet only where a line ends, no blank is at either end, and a select has
  one default.
- The case of function names, and named arguments that repeat a name, which the decoder lets pass as the EBNF does.
- Fields whose dictionary lacks a name or an ordinal, and the backend's writes behind `add` and `update_dict`, which
  reach the map's cache as a replacement of the fields or as an eviction.
- The search and the database behind `find_dupes` are its rows; lower-casing and the stripping of media are
  parameters. The test for a missing ordinal is left out: a notetype without the field has raised before it.
- The rest of `on_notetype_change`; field names are taken to be unique, with ordinals that are their places.
- Which Python object a memo table hands out: only the values are compared. Rows are passed in decoded.
- Walking translation files and gathering the names in use: the passes are on parsed bodies, and what is parsed again
  is what `FluentEntries` reads. That decoder reads no junk: a text with junk in it is not read at all.
- A group comment that starts with the warning counts as a warning whatever else it says, as in the code, so its other
  lines go with it.
- BaseN.Base62: does not take negative numbers, for which the program's loop does not end.
- Widgets, dialogs, the RWKV model, the backend and the generators, which hold no property of this kind or lie
  elsewhere.