# go-panchaea, modelled in Dafny

go-panchaea is a small volunteer-computing system. A server hands out *work units* (WUs) to worker
clients over RPC. Each client runs several threads, and each thread downloads a unit, runs it and
uploads the result, or reports a failure. A failed unit is reloaded or rescheduled until its
attempts run out. A job-generator plugin produces the units. A browser dashboard polls the server's
`api` endpoint and shows the status, the connected nodes and the queued warnings and errors.

This project models the following parts, one Dafny module per source file:

- **Registry** (`registry.dfy`, server/server.go): the current server. It covers the client table,
  the work-unit table, the rescheduling scan of `GetAvailable`, the RPC handlers, the tally of
  `Finish`, the warning and error buffers and the `api` snapshot.
- **Scheduler** (`scheduler.dfy`, client/client.go): the worker client's thread table and one pass
  of its scheduling loop.
- **Dashboard** (`dashboard.dfy`, server/dashboard/js/main.js): the dashboard's view-model, during
  one poll.
- **Generator** (`generator.dfy`, server/client_server/client_server.go) and **GeneratorDraft**
  (`generator_draft.dfy`, server/client_server.go): the job-generator plugin and its first draft.
- **WuManager**, **Decoder**, **Comm** (`wumanager.dfy`, `decoder.dfy`, `comm.dfy`): the refactored
  registry package under pkg/go-panchaea. `proto.dfy` holds its message records.
- **ListenerDraft** (`listener.dfy`, server.go): the first-draft server.
- **Wire** (`wire.dfy`): the library behaviour the Go code relies on. It covers `strconv.Itoa` and
  `strconv.Atoi`, the loggers' `isFormatted` regular expression and the `"[!] "` prefix, and
  `html.EscapeString`.

How state is modelled:

- State the source changes in place is a class whose fields are reassigned: the server, the worker,
  the dashboard, the plugins, the stores.
- Lookups and rules are functions, and the methods are proved against them.
- Go pointers into tables become positions.
- Go's nil and empty slices are told apart where JSON shows the difference (`null` versus `[]`).
- A Go panic is an explicit outcome: `Panicked`, or `None` and `false` where `make` panics on a
  negative length. The one exception is `WuManager.GetWorkUnit`: it requires a non-empty unit
  list instead of modelling the index panic (pkg/go-panchaea/common/wumanager/wumanager.go:84).
  Its only caller, `Decoder.FindWorkUnit`, checks the list first.

The main properties proved:

- Rescheduling (`Registry.Scan`, `Registry.ScanAgain`):
  - The scan marks exhausted units dead up to the first unit that can be rescheduled, and offers a
    copy of that unit.
  - The stored unit is not changed, so a repeated request gets the same copy again.
- Registry handlers (`Registry.FetchShape`, `Registry.AssignmentShape`, `Registry.SendAgain`):
  each handler is proved equal to a function of the old table and error buffer. A report or an
  upload changes at most one unit. Handing out work adds a unit exactly when nothing was
  rescheduled, and repeating a request that got a rescheduled copy gets the same answer.
- Registry tally (`Registry.TallyTotal`): the four counters of `Finish` add up to the number of
  units exactly when every unit has one of the seven statuses.
- Strings:
  - `Atoi(Itoa(n)) == Ok(n)` for every 64-bit value.
  - A message tagged `"[id] "` is queued unchanged.
  - Escaped text holds no markup character.
- Generator (`Generator.Server.Run`, `Generator.RunAligned`): `Run` is exactly a step function on
  the counter and queue. Under an alignment invariant that `Init` establishes and every step keeps,
  the k-th unit handed out is range k, and consecutive ranges tile the line.
- Scheduler:
  - The scheduling pass is exactly a per-thread step function.
  - Each thread's turn issues the RPC its status calls for (download or reload), and the pass
    returns those choices and their errors.
  - A thread never leaves a pass with more than the allowed attempts.
- Comm: after a unit is completed, the same request finds the completed unit with its result.
  No modelled operation appends to a thread's unit list, and neither does the source, so this
  concerns states that a caller would have to build.

## Model

| member | source | states |
|---|---|---|
| Wire.Itoa | server/server.go:384 | decimal text of an int: non-empty, digits only, a leading '-' exactly for negative numbers |
| Wire.Atoi | server/server.go:405-409 | `strconv.Atoi` succeeds exactly on an optional sign and decimal digits whose value is in the int64 range; otherwise it fails with an error message |
| Wire.SignedValue | server/server.go:405-409 | the value of an optional sign followed by digits; a value is read only from non-empty text |
| Wire.QuoteChar | server/server.go:405-407 | `strconv.Quote` of one character: '"', '\\', the control characters and DEL become escapes; every other ASCII character, and every character from 128 on, is copied as itself |
| Wire.QuoteBody | server/server.go:405-407 | quoting never shortens the text, and keeps its length exactly when every character is copied as itself |
| Wire.Quote | server/server.go:405-407 | the quoted text starts and ends with a double quote and is at least two characters longer |
| Wire.QuoteVerbatim | server/server.go:405-407 | printable text is quoted as itself between double quotes |
| Wire.AtoiError | server/server.go:405-409 | the error holds more characters than the input and the reason together, and ends with the reason |
| Wire.AtoiErrorVerbatim | server/server.go:405-409 | for printable input the error reads `strconv.Atoi: parsing "<input>": <reason>` |
| Wire.AtoiItoa | server/server.go:405-413 | for every int64, parsing the text that `Itoa` writes gives the number back |
| Wire.HasCloseIff | server/server.go:212-217 | the recursive search for a ']' succeeds exactly when some position holds one |
| Wire.Search | server/server.go:212-217 | the scan succeeds only when enough characters remain to complete a bracket pair around at least one character |
| Wire.IsFormatted | server/server.go:212-217 | a formatted message has at least three characters |
| Wire.SearchOpened | server/server.go:212-217 | right after a '[', the scan succeeds exactly when a ']' follows at least one character later |
| Wire.SearchIff | server/server.go:212-217 | the one-pass scan succeeds exactly when the text holds a bracket pair with at least one character between |
| Wire.IsFormattedIff | server/server.go:212-217 | the loggers' regular expression matches exactly when some '[' is followed, at least two positions later, by a ']' |
| Wire.Queued | server/server.go:219-231 | what printErr/printWarn buffer is always formatted; a formatted message is kept as it is; any other message gets the prefix "[!] " |
| Wire.Unbracketed | server/server.go:219-231 | a message without any '[' is buffered with the prefix "[!] " |
| Wire.Tag | server/server.go:384 | the "[id] " prefix starts with '[' and has ']' before its final space |
| Wire.TaggedIsFormatted | server/server.go:384-394 | a handler's "[id] "-tagged message is buffered unchanged, without the "[!] " prefix |
| Wire.Escape | server/server.go:803 | `html.EscapeString` never shortens its input |
| Wire.EscapePlain | server/server.go:803 | text without the five special characters comes through unchanged |
| Wire.EscapeIsSafe | server/server.go:803 | the escaped text contains none of < > ' " |
| Wire.EscapeAll | server/server.go:799-807 | escaping a buffer escapes each entry, position by position |
| Registry.FirstClient | server/server.go:79-86 | `GetClient` finds the first client with the ID, or reports that none has it |
| Registry.LastUnit | server/server.go:113-128 | `GetWorkUnit` finds the last unit of the client and thread, or reports that none matches |
| Registry.Kill | server/server.go:137-160 | a unit the scan kills (stuck, failed or unknown with its attempts used up) becomes "dead"; any other unit is returned unchanged |
| Registry.Scanned | server/server.go:131-165 | the scan stops at the first stuck or failed unit with attempts left, or at the end of the table |
| Registry.AfterScan | server/server.go:131-165 | the scanned table has the same length; each unit before the stop is `Kill` of the old one, so exhausted units there are "dead" and the others are untouched; units from the stop on are untouched |
| Registry.Offer | server/server.go:132-165 | a copy is offered exactly when some unit is stuck or failed with attempts left; it is the copy of the unit at the stop, with its data and result, reassigned to the asking client and thread, status "new" and one more attempt |
| Registry.Repeat | server/server.go:142 | one FATAL message per unit killed |
| Registry.CountExhausted | server/server.go:137-160 | the number of exhausted units never exceeds the number of units |
| Registry.Killed | server/server.go:137-160 | a scan kills at most the units before its stop |
| Registry.FatalMessage | server/server.go:142 | the FATAL text holds no '[', so it is buffered with the prefix "[!] " |
| Registry.Scan | server/server.go:131-165 | the loop of `GetAvailable`: the table becomes the scanned table, the offered copy is `Offer`, and the FATAL count is the number of exhausted units before the stop |
| Registry.ScanAgain | server/server.go:131-165 | the copy is not stored, so a second scan stops at the same unit, changes nothing, kills nothing and offers the same copy |
| Registry.ScannedExact | server/server.go:131-165 | the stop position is characterised by its two conditions |
| Registry.NoneExhausted | server/server.go:137-160 | a prefix without exhausted units produces no FATAL message |
| Registry.BucketOf | server/server.go:328-365 | a status goes to no counter, under Unclassified, exactly when it is none of the seven statuses |
| Registry.CountIn | server/server.go:326-366 | a counter never exceeds the number of units |
| Registry.TallyTotal | server/server.go:323-367 | every unit lands in exactly one counter; the four counters add up to the number of units exactly when all statuses are known |
| Registry.TallyMessage | server/server.go:368 | the tally warning holds no '[', so it is buffered with the prefix "[!] " |
| Registry.Results | server/server.go:324-327 | the results handed to `Process` are the units' results, in table order |
| Registry.Tally | server/server.go:323-367 | the counting loop of `Finish`: each counter is the number of units in its bucket, and the results are the units' results in order |
| Registry.IndexOf | server/server.go:389 | position of the first occurrence of a character, or none |
| Registry.SecondField | server/server.go:389 | `strings.Split(s, " ")[1]` exists exactly when `s` has a space, and it holds no space |
| Registry.ScanStep | server/server.go:137-160 | scanning one unit more adds one FATAL message exactly when that unit is exhausted |
| Registry.ScanResult | server/server.go:131-165 | a table that follows the scan's rule at every position is the scanned table |
| Registry.UniqueLast | server/server.go:113-128 | the last matching unit is unique |
| Registry.FetchShape | server/server.go:380-423 | a report or an upload keeps the table's length and changes at most the client's last unit on the thread, and only its status and result; errors are only appended; the reply is "ok" exactly for an upload whose thread parses and has a unit |
| Registry.AssignmentShape | server/server.go:426-461 | `SendWorkUnit` leaves the scanned table, with one new unit exactly when no copy was offered and the generator produced a unit; errors are only appended; the answer has no error exactly when the client reported none and a unit was offered or made |
| Registry.SendAgain | server/server.go:426-461 | the offered copy is not stored, so the same request sent again gets the same answer and the same table, and queues no FATAL error |
| Registry.Server.constructor | server/server.go:554 | initial state: no clients or units, nil buffers, two attempts per unit (`WUAttempts = 2`, at server/server.go:554) and status READY (set by main at server/server.go:902) |
| Registry.Server.PrintErr | server/server.go:219-231 | the error buffer grows by the queued form of the message and is no longer nil; keeps `Valid` |
| Registry.Server.PrintWarn | server/server.go:243-253 | the warning buffer grows by the queued form of the message and is no longer nil; keeps `Valid` |
| Registry.Server.NewClient | server/server.go:72-76 | appends exactly one client; earlier clients are unchanged |
| Registry.Server.GetClient | server/server.go:79-86 | the loop returns the first client with the ID |
| Registry.Server.NewWorkUnit | server/server.go:100-110 | appends one unit with status "new" and no attempts, and returns its position |
| Registry.Server.GetWorkUnit | server/server.go:113-128 | the loop returns the last matching unit |
| Registry.Server.GetAvailable | server/server.go:131-165 | the table becomes the scanned table, the offered copy is returned, and one FATAL error is queued per unit killed; keeps `Valid` |
| Registry.Server.Init | server/server.go:256-264 | no client file: an "error" reply and an error; otherwise the file and its name; keeps `Valid`, and the error buffer stops being nil exactly when a message is queued |
| Registry.Server.WarnTally | server/server.go:368-369 | the warning buffer grows by the queued tally message and then the queued notice about the log file; keeps `Valid` |
| Registry.Server.FinishTally | server/server.go:323-370 | the four counters and the results of the table, status FINISH, and the two summary warnings; keeps `Valid` |
| Registry.Server.FetchWorkUnit | server/server.go:380-423 | unknown client: an error, and the table is unchanged. Otherwise the new table, answer and error buffer are `Reported` of the old ones for a failure report, `Uploaded` for an upload; keeps `Valid`, and the error buffer stops being nil exactly when a message is queued |
| Registry.Server.Report | server/server.go:388-404 | the new table, answer and error buffer are `Reported` of the old ones: panic without a thread field, Atoi's error without a reply, "Cannot compute" without a unit, otherwise the unit is marked failed; keeps `Valid`, and the error buffer stops being nil exactly when a message is queued |
| Registry.Server.Upload | server/server.go:405-422 | the new table, answer and error buffer are `Uploaded` of the old ones: Atoi's error, "Workunit not found", or the unit completed with the bytecode; keeps `Valid`, and the error buffer stops being nil exactly when a message is queued |
| Registry.Server.SendWorkUnit | server/server.go:426-461 | unknown client, or a thread number that does not parse: an error, and the table is unchanged. Otherwise the new table, answer and error buffer are `Assignment` of the old ones: the scan, then the offered copy or a fresh unit from the generator; keeps `Valid`, and the error buffer stops being nil exactly when a message is queued |
| Registry.Server.Assign | server/server.go:440-461 | the new table, answer and error buffer are `Assignment` of the old ones; keeps `Valid`, and the error buffer stops being nil exactly when a message is queued |
| Registry.Server.Deliver | server/server.go:441-461 | after the scan, the new table, answer and error buffer are `Delivery` of the old ones: the copy is sent unstored; otherwise the generator's unit is stored as "running", or as "new" when the client reported "error"; keeps `Valid`, and the error buffer stops being nil exactly when a message is queued |
| Registry.Server.ReloadWorkUnit | server/server.go:464-495 | resends the last unit while it has attempts left and is not dead, counting one attempt and setting "unknown"; otherwise "no such wu" or "dead"; keeps `Valid`, and the error buffer stops being nil exactly when a message is queued |
| Registry.Server.SendStatus | server/server.go:498-532 | hello registers a ready client (ID -1 becomes the next number; unparsable threads become 1); ready and error set the first matching client's status. Never an RPC error; keeps `Valid`, and the error buffer stops being nil exactly when a message is queued |
| Registry.Server.UpdateAPI | server/server.go:799-814 | the snapshot carries the escaped buffers (null when nil) and the current status and tables; both buffers start again empty and non-nil |
| Scheduler.Fetched | client/client.go:289-305 | a thread whose download was accepted runs the downloaded unit; otherwise it is failed; ID, attempts and result are kept |
| Scheduler.FetchError | client/client.go:289-305 | `fetchWU` reports no error exactly when the reply said "ok" |
| Scheduler.ReloadError | client/client.go:339-366 | `reloadWU` reports no error exactly when the reply said "ok"; refusals map to their messages |
| Scheduler.ReloadRefusalsDistinct | client/client.go:347-361 | the three refusals produce three different errors |
| Scheduler.Step | client/client.go:397-429 | one thread's turn keeps its ID and result; a thread that issues no RPC is unchanged; otherwise it ends running exactly when its RPC was accepted |
| Scheduler.RequestOf | client/client.go:397-429 | a ready thread, or a failed one without attempts left, downloads; a failed thread with attempts left reloads; any other thread issues nothing |
| Scheduler.TurnError | client/client.go:399-426 | a turn without an RPC has no error; otherwise the error is absent exactly when the RPC was accepted |
| Scheduler.StepByRequest | client/client.go:397-429 | the turn follows its RPC: none leaves the thread as it is; a download is `Fetched` from zero attempts; a reload counts one attempt when accepted and uses up all of them when refused |
| Scheduler.RequestsOf | client/client.go:392-431 | one RPC choice per thread, in order |
| Scheduler.StepAll | client/client.go:392-431 | one pass steps every thread |
| Scheduler.StepFrame | client/client.go:392-431 | a pass keeps IDs and results, leaves running threads alone and resets a ready thread's attempts |
| Scheduler.StepOutcome | client/client.go:392-431 | a handled thread ends running exactly when its RPC was accepted |
| Scheduler.FailedReloadThenFetch | client/client.go:406-428 | a refused reload uses up the attempts, so the next pass downloads afresh from zero attempts |
| Scheduler.ReloadCounts | client/client.go:419-428 | an accepted reload counts one attempt and runs the reloaded unit |
| Scheduler.AttemptsBounded | client/client.go:392-431 | no thread leaves a pass with more than the allowed attempts |
| Scheduler.Fresh | client/client.go:368-373 | the fresh thread table has the requested length |
| Scheduler.Worker.constructor | client/client.go:151 | no threads, two attempts per unit |
| Scheduler.Worker.InitThreads | client/client.go:368-373 | threads 1 to n, ready, without units or attempts |
| Scheduler.Worker.FetchWU | client/client.go:289-305 | only thread i changes, as `Fetched` says; the error is `FetchError` |
| Scheduler.Worker.ReloadWU | client/client.go:339-366 | only thread i changes, as `Fetched` says; the error is `ReloadError` |
| Scheduler.Worker.Handle | client/client.go:397-429 | handling thread i changes only that thread, exactly as the step function `Step` says, and returns the RPC it issued (`RequestOf`) and that RPC's error (`TurnError`) |
| Scheduler.Worker.Pass | client/client.go:392-431 | the loop over the threads computes `StepAll`, returns the RPC each thread issued (`RequestsOf`) and each thread's error |
| Dashboard.Capped | server/dashboard/js/main.js:56-67 | at most 32 entries of a batch get in (the test follows the push), a prefix of the batch |
| Dashboard.StatusColor | server/dashboard/js/main.js:69-82 | banner colour for FAILED and RUNNING; the READY colour for every other status |
| Dashboard.NodeColor | server/dashboard/js/main.js:85-98 | node colour for running and failed; the ready colour otherwise |
| Dashboard.NodeOf | server/dashboard/js/main.js:99 | a node copies the client's fields, takes its colour from the status, and is running exactly when the status is "running" |
| Dashboard.NodesOf | server/dashboard/js/main.js:83-100 | one node per payload client, in order |
| Dashboard.ToastsOf | server/dashboard/js/main.js:41 | one toast per appended entry, in order |
| Dashboard.MessageOf | server/dashboard/js/main.js:109 | a string log entry has no `message` property |
| Dashboard.Board.constructor | server/dashboard/js/main.js:15-33 | the page's initial data: status, colours, the seed logs and their counts, and the two seed nodes, the second with the load glyph "&#9604;" |
| Dashboard.Board.NewWarning | server/dashboard/js/main.js:38-42 | appends the warning, updates the count, shows one toast; keeps `Valid` |
| Dashboard.Board.NewError | server/dashboard/js/main.js:43-47 | appends the error, updates the count, shows one toast; keeps `Valid` |
| Dashboard.Board.AddWarnings | server/dashboard/js/main.js:56-61 | appends the capped batch, with one toast per entry; keeps `Valid` |
| Dashboard.Board.AddErrors | server/dashboard/js/main.js:62-67 | appends the capped batch, with one toast per entry; keeps `Valid` |
| Dashboard.Board.RebuildNodes | server/dashboard/js/main.js:83-100 | the node list becomes `NodesOf` the payload clients |
| Dashboard.Board.Apply | server/dashboard/js/main.js:51-105 | a null WorkUnits changes nothing; a missing array throws after the steps before it; a complete payload applies all steps; keeps `Valid` |
| Dashboard.Board.Fail | server/dashboard/js/main.js:106-112 | status OFFLINE; the error is appended exactly when the last entry's message differs from it; an empty error list throws; keeps `Valid` |
| Dashboard.Board.GetData | server/dashboard/js/main.js:48-112 | one poll, keeping `Valid`. A complete payload: every step applied, the toasts being the warning toasts then the error toasts. A missing array: the steps before it, then the failure handler with its TypeError, stated field by field (status, warnings, errors, toasts, colour, nodes). A rejected request: OFFLINE, nodes, colour and warnings unchanged, and the error logged unless it repeats |
| Dashboard.Board.RepeatedOutage | server/dashboard/js/main.js:106-112 | two failed polls with the same message log it twice; keeps `Valid` |
| Generator.Ascii | server/client_server/client_server.go:69 | the bytes of a text: one byte per character, its low byte |
| Generator.AsciiExact | server/client_server/client_server.go:69 | on ASCII text each byte is the character's code |
| Generator.AsciiConcat | server/client_server/client_server.go:69 | concatenating ASCII texts stays ASCII |
| Generator.ItoaAscii | server/client_server/client_server.go:69 | decimal text is ASCII |
| Generator.JsonText | server/client_server/client_server.go:68-69 | the JSON text of a unit is an object: more than two characters, opening with '{' and closing with '}' |
| Generator.Json | server/client_server/client_server.go:68-69 | `json.Marshal` of a unit writes one byte per character of its JSON text |
| Generator.JsonAscii | server/client_server/client_server.go:68-69 | the JSON text of a unit is ASCII |
| Generator.JsonExact | server/client_server/client_server.go:68-69 | the bytes `json.Marshal` produces for a unit are exactly the characters of its JSON text |
| Generator.UnitOf | server/client_server/client_server.go:63-68 | unit i of a batch covers [100000(c+i), 100000(c+i)+100000) and has sign +1 for even i, -1 for odd |
| Generator.Units | server/client_server/client_server.go:62-68 | `amount` units, none for a negative amount, unit i being `UnitOf(c, i)` |
| Generator.Batch | server/client_server/client_server.go:59-76 | a batch holds `amount` encoded units, none for a negative amount |
| Generator.BatchGrows | server/client_server/client_server.go:62-73 | one more iteration of the loop appends the JSON of the next unit |
| Generator.Contiguous | server/client_server/client_server.go:63-68 | consecutive ranges meet, and their signs alternate |
| Generator.BatchIsRange | server/client_server/client_server.go:63-68 | a batch started at an even counter holds ranges c to c+amount-1, signs included |
| Generator.PopAligned | server/client_server/client_server.go:41-56 | taking the head of an aligned queue yields range `current` and keeps the alignment |
| Generator.RefillAligned | server/client_server/client_server.go:42-47 | an empty aligned queue below the limit refills with the next ten ranges, using up one of the remaining batches |
| Generator.RunStep | server/client_server/client_server.go:41-56 | a call moves the counter on by one exactly when it hands out a unit; a refusal or a panic leaves queue and counter as they were; it refuses exactly on an empty queue at the limit, and panics exactly on an empty queue below the limit with a batch size that is not positive |
| Generator.RunAligned | server/client_server/client_server.go:41-56 | from an aligned state with batch size 10, `Run` hands out range `current` exactly while below the limit and stays aligned; at the limit it refuses with "No units to generate" and changes nothing |
| Generator.Server.constructor | server/client_server/client_server.go:99-101 | the zero-valued plugin |
| Generator.Server.Init | server/client_server/client_server.go:34-38 | counter 0, batch size 10, timeout 1000; a fresh plugin becomes aligned, with all 100000 batches ahead |
| Generator.Server.Prepare | server/client_server/client_server.go:59-76 | refuses at the limit and changes nothing; otherwise appends `Batch(current, amount)` |
| Generator.Server.Run | server/client_server/client_server.go:41-56 | result, queue and counter are `RunStep` of the old state: pop the head; with an empty queue, refuse at the limit, panic on an empty batch, otherwise refill and pop |
| GeneratorDraft.Plain | server/client_server.go:53 | range k of the draft, unsigned |
| GeneratorDraft.PlainBatch | server/client_server.go:48-57 | a batch holds `amount` ranges, none for a negative amount |
| GeneratorDraft.PlainPop | server/client_server.go:31-46 | taking the head of an aligned queue yields range `current` and keeps the alignment |
| GeneratorDraft.PlainRefill | server/client_server.go:32-37 | an empty aligned queue below the limit refills with the next ten ranges, using up one batch |
| GeneratorDraft.RunPlain | server/client_server.go:31-46 | the draft's `Run`: the counter moves on by one exactly when a unit is handed out; a refusal or a panic leaves queue and counter; refusal exactly on an empty queue at the limit, panic exactly on an empty queue below the limit with a batch size that is not positive |
| GeneratorDraft.RunPlainAligned | server/client_server.go:31-46 | from an aligned state with batch size 10, the draft hands out the JSON of range `current` exactly while below the limit and stays aligned; at the limit it refuses and changes nothing |
| GeneratorDraft.PlainMatchesCanonical | server/client_server.go:53 | the draft's ranges are the plugin's, with sign 0 |
| GeneratorDraft.Server.constructor | server/client_server.go:19-24 | the zero-valued draft |
| GeneratorDraft.Server.Init | server/client_server.go:26-29 | counter 0 and batch size 10; a fresh draft becomes aligned, with all 100000 batches ahead |
| GeneratorDraft.Server.Prepare | server/client_server.go:48-57 | refuses at the limit and changes nothing; otherwise appends `PlainBatch(current, amount)` |
| GeneratorDraft.Server.Run | server/client_server.go:31-46 | result, queue and counter are `RunPlain` of the old state: hand out the JSON of the head range, refilling an empty queue first, with the refusal and panic cases |
| WuManager.NewThreads | pkg/go-panchaea/common/wumanager/wumanager.go:44-50 | `make` panics on a negative amount, the outcome `None`; otherwise n threads with IDs 1..n, ready, without units |
| WuManager.GetClient | pkg/go-panchaea/common/wumanager/wumanager.go:29-36 | the first client with the ID, or none |
| WuManager.FirstThread | pkg/go-panchaea/common/wumanager/wumanager.go:52-59 | the first thread with the ID, or none |
| WuManager.GetThread | pkg/go-panchaea/common/wumanager/wumanager.go:52-59 | the client's thread with the ID, or none exactly when no thread has it |
| WuManager.GetWorkUnit | pkg/go-panchaea/common/wumanager/wumanager.go:83-85 | the thread's latest unit; the list must not be empty |
| WuManager.FreshThreadLookup | pkg/go-panchaea/common/wumanager/wumanager.go:44-59 | in a fresh client, thread k is found at position k-1 |
| WuManager.Store.constructor | pkg/go-panchaea/common/wumanager/wumanager.go:8-10 | empty tables |
| WuManager.Store.NewClient | pkg/go-panchaea/common/wumanager/wumanager.go:22-26 | a negative thread count panics in `make`: the outcome is false and the table is unchanged. Otherwise one client is appended with the ID, status and fresh threads, and earlier clients are unchanged |
| WuManager.Store.NewWorkUnit | pkg/go-panchaea/common/wumanager/wumanager.go:72-81 | appends one unit with the client and data, status "new" and no attempts, ignoring the thread; returns a copy |
| Decoder.FindClient | pkg/go-panchaea/server/decoder/decoder.go:10-24 | unknown client: "Client not found!". Known client without the thread: "Thread not found!". Otherwise the first client and its first matching thread, with the reply untouched |
| Decoder.FindWorkUnit | pkg/go-panchaea/server/decoder/decoder.go:26-34 | the latest unit exactly when the thread has one, with the reply untouched; otherwise "Workunit not found!" |
| Comm.Completed | pkg/go-panchaea/server/comm/comm.go:24-25 | only the thread's latest unit changes, taking the result and status "completed" |
| Comm.FetchWorkUnit | pkg/go-panchaea/server/comm/comm.go:11-28 | a failed lookup returns false and changes nothing; a reported error is handed on, and nothing changes; otherwise the unit is completed and true is returned |
| Comm.SendWorkUnit | pkg/go-panchaea/server/comm/comm.go:30-37 | returns exactly the outcome of `FindClient` and changes nothing |
| Comm.LookupByIds | pkg/go-panchaea/server/decoder/decoder.go:10-24 | the lookups depend only on the client and thread IDs |
| Comm.FetchThenFind | pkg/go-panchaea/server/comm/comm.go:11-28 | after a completion, the same request finds the same client and thread, and a completed unit carrying the result |
| ListenerDraft.Listener.constructor | server.go:15-19 | no clients, the given client file |
| ListenerDraft.Listener.Init | server.go:74-82 | the client file with "ok" exactly when one was loaded; otherwise "error", no bytecode and an error |
| ListenerDraft.Listener.SendStatus | server.go:84-101 | hello appends one connected client (ID -1 becomes the next number) and replies ok. ready sets client Id-1 to ready, and panics when Id is out of range. Any other status changes nothing. Auto-numbering keeps IDs equal to positions + 1 |

## Left out

- Networking and RPC transport (net/rpc, TCP listeners, the HTTP server, JSON encoding in
  `handleAPI`). Each handler is a method from its request to its reply.
- Concurrency: goroutines, wait groups, the mutexes, contexts, signals and channels (the send
  `finished <- true` in `SendWorkUnit`, server/server.go:445, and its `close`, :704).
  `ctx.Done()` is taken never to fire. The lock without an unlock in `printErr`
  (server/server.go:227) is a concurrency defect and is not modelled.
- Time: the ticker-driven `handleClients` (server/server.go:719-743), the units' `Time` field,
  timeouts and `setTimeout` in the dashboard (server/dashboard/js/main.js:113).
- `Finish`'s interactive wait loop and its prompts (server/server.go:268-322). Only the tally after
  it is modelled.
- The plugins' `Process` (float arithmetic over the results). Building and running user code,
  plugin loading, files, logs and configuration in both mains.
- The worker's `processWU` goroutine and its subprocess: its upload and error RPCs, and its writes
  of "failed" and "ready" to the thread (client/client.go:318, 325, 335), are not modelled. Only
  the outcomes of `fetchWU` and `reloadWU` are inputs, and the step functions accept a thread in
  any state.
- Console and log output: `printSuccess`, colours, `log.Println`, and the `ioformatter` package.
  Only the buffer effects of the server's `printErr`/`printWarn` are modelled. The console
  messages of the decoder's failure paths and the root server's printing are not.
- The dashboard's Vue reactivity, axios, the toast library, the SVG icons, `isEven` and the
  commented-out work-unit loop.
- The exact text of a JavaScript TypeError. It is a parameter of `Dashboard.Board.GetData`.
- Registry.Server.GetAvailable: the FATAL errors are appended after the whole scan instead of
  between units. The resulting buffer is the same.
- Pointer identity: clients and units are addressed by position. A unit's `*Client` is the
  client's ID. The offered copy of `GetAvailable` and the copy `NewWorkUnit` returns are values.
- Generator.RunAligned, GeneratorDraft.RunPlainAligned: the statement that the k-th unit is range
  k is proved only for the batch size of 10 that `Init` sets. Other batch sizes are covered only by
  the step functions `RunStep` and `RunPlain`.
- Generator.Json: the injectivity of the JSON encoding is not proved. The 64-bit overflow of
  `Current * 100000` is not modelled, because the limit keeps it far below 2^63.
- Wire.Atoi: for inputs that are both malformed and too long, Go's choice between its two error
  texts is not modelled in detail. Only success and failure are exact.
- Wire.Quote: `strconv.Quote` is modelled for ASCII. Characters from 128 on are copied as they
  are; Go's escaping of invalid UTF-8 and of non-printable non-ASCII characters is not modelled.

In five places the code and its documentation disagree. The model follows the code:

- The dashboard's batch limit admits 32 entries, not 31, because the test follows the push.
- The dashboard's "same error again" check never suppresses an entry that has a message. A log
  entry is a string, and its `message` is undefined.
- A null `Warnings`, `Errors` or `Clients` array in the payload throws inside the success handler.
  The failure handler then runs.
- The copy that `GetAvailable` offers is never stored. The stored unit keeps its status and
  attempts, so the same unit is offered again (`Registry.ScanAgain`).
- The worker's `reloadWU` tells the refusals "no such wu" and "dead" apart
  (client/client.go:347-361; `Scheduler.ReloadError`, `Scheduler.ReloadRefusalsDistinct`). But
  the server returns an error along with each refusal (server/server.go:479-488), and net/rpc then
  drops the reply, so `reloadBytecode` (client/client.go:193-195) passes on only the RPC error.
  Against this server those branches are never reached. Each side is modelled as written, so
  `ReloadRefusalsDistinct` is a property of the client alone, not of the whole system.

In a few places the source as written does not compile, or panics on every call. The model uses
the evident intent:

- The decoder returns two of its three results on success
  (pkg/go-panchaea/server/decoder/decoder.go:23). The model returns `(client, thread, true)`.
- The decoder expects an `ok` result from `GetWorkUnit`, which has none. The model takes "not
  found" to mean an empty list.
- The draft plugin comments out its `WorkUnits` field (server/client_server.go:22). The model
  supplies it as a queue.
- The refactored registry locks a package mutex that is a nil pointer and is never allocated
  (pkg/go-panchaea/common/wumanager/wumanager.go:12). `Lock` on it panics, so `NewClient` and
  `NewWorkUnit` (wumanager.go:23, 77) panic on every call as written. `WuManager.Store.NewClient`
  and `WuManager.Store.NewWorkUnit` model the intended append.
- `comm.FetchWorkUnit` calls `wumanager.ReportError`, which is not defined
  (pkg/go-panchaea/server/comm/comm.go:21). The model hands the error back instead.
- `comm.SendWorkUnit` declares `client` and `thread` and never uses them (comm.go:31), and the
  package imports `iof` and `strconv` without using them (comm.go:4, 8). Both are compile errors
  in Go; the model ignores the unused names.
