# Lot parser: a Dafny model

The program scrapes the IAAI live-auction calendar. It has two runs.

- **`parse`** reads the calendar for auctions and loads each auction's results page in a browser tab. It collects the lots from those pages, then replaces the MySQL table `lots` with them.
- **`actualizeBuyNow`** loads the table's rows back as lots. It fetches each lot's detail page and keeps only the lots whose page says `"BuyNowInd":true,`. It then either prints the Telegram bot key and leaves the table alone (sending is not implemented), or rewrites the table with the kept lots.

This project models the parser object and its stages, which live in `parser.go` and `db.go`:

- **Buy-now rule**, module `BuyNow`. The expression `"BuyNowInd":(\w+),` is modelled as a deterministic scan. It is proved to compute the leftmost match under RE2 rules. The module also covers the per-lot outcome of the enrichment worker and the stage over all its tasks.
- **Lot extraction**, module `Extraction`. One worker sends one batch per auction. Its batch buffer is reused, so after a failed evaluation it sends the previous batch again. Which worker takes which auction is a schedule input `owner`.
- **Rows**, module `Rows`. This covers the multi-row `INSERT` statement and its argument list, with the year and buy-now normalisation. It also covers how table rows, read through `Scan`, become lots again. The three Go `strconv` functions involved are in module `Strconv`.
- **The parser**, module `Parser`. Class `Parser` has the fields `auctions` and `lots` and one method per Go method. A ghost `trace` records the externally visible steps:
  - `Discover`, `Extract` and `Load`;
  - `Enrich`;
  - `Send(key)`, the printed Telegram bot key;
  - `Clear` and `Insert(statement, args)`.

  `Actualized` is the specification of a whole `actualizeBuyNow` run. `ActualizeBuyNow` is proved against it.

Outside effects are inputs to the model:

- `discovered` is what the calendar script returns.
- `visit` gives, for each auction link, whether navigation worked and, when `Evaluate` succeeded, the worker's lot buffer after the script's result was decoded into it.
- `fetch` gives, for each lot URL, the HTTP and HTML-parse outcome and the text of `#ProductDetailsVM`.
- `scans` is the table's rows, each with how many columns `Scan` managed to convert.
- `workers` is the number of extraction workers (`runtime.NumCPU() * 3` in the program). `owner[j]` is the worker that takes auction j from the shared queue. Any assignment is allowed, so interleaved ones such as `[0, 1, 0]` are covered, and each worker receives its auctions in queue order.

Sent batches share the backing array of the worker's reused buffer, so a batch read late could see a later evaluation's lots. The model's values are those of schedules in which the collector reads each batch before the worker that sent it runs its next `Evaluate`. Both channels are buffered to the number of tasks, so Go allows such schedules. The collected batches are taken worker by worker. This is a fixed order, and for some assignments no run produces it. A worker sends each batch before it takes its next auction, and the queue is first in, first out. With `owner = [0, 1, 0, 1, 0]`, for example, the second auction's batch always arrives before the fifth's, while the model puts all of worker 0's batches first. Only the claims about the multiset and the number of collected lots carry over to every run (`FlattenMember`, `FlattenLength`, `BatchCount`, `ExtractedLotsComeFromPages`). The arguments of the `Insert` at the end of `Parse` are to be read up to permutation of the lots.

After a failed `Evaluate` the worker does not send an empty batch. Its `lots` buffer is only overwritten by a successful `Evaluate` (parser.go:131, 170-173), so it sends its previous batch again; see `FailedTaskResends` and `FailureResendsPreviousBatch`.

## Model

| member | source | states |
|---|---|---|
| Strconv.Atoi | db.go:32-35 | A successful parse is within the 64-bit range, and the text starts with a digit or a sign |
| Strconv.Itoa | db.go:82-84 | The decimal form is non-empty, starts with `-` exactly for negative numbers, and is all digits otherwise |
| Strconv.AtoiItoa | db.go:82-84 | `Atoi` reads back every 64-bit value that `Itoa` writes |
| Strconv.ParseBool | db.go:42-45 | The six true spellings read as true, the six false spellings as false, and every other text is an error |
| Strconv.ParseBoolItoa | db.go:42-45 | `ParseBool` of `Itoa(n)` is true for 1, false for 0, and an error for every other n |
| BuyNow.FindBuyNowInd | parser.go:226-227 | A found submatch is a non-empty run of word characters |
| BuyNow.GroupFollowsKey | parser.go:226-227 | A found submatch occurs in the text between `"BuyNowInd":` and a comma |
| BuyNow.KeepsLot | parser.go:226-229 | A lot is kept only if the text contains `"BuyNowInd":true,` |
| BuyNow.MatchStart | parser.go:226-227 | The scan returns the first position from which the expression matches, and there is no match before it |
| BuyNow.MatchesAtIff | parser.go:226 | The scan's test at a position agrees with the expression's meaning there, in both directions |
| BuyNow.LeftmostMatchUnique | parser.go:226-227 | There is at most one leftmost match, with one group length |
| BuyNow.FindBuyNowIndIsLeftmostMatch | parser.go:226-227 | The submatch is `Some(g)` exactly when the leftmost match exists and captures `g` |
| BuyNow.LeftmostMatchDecides | parser.go:226-229 | The lot is kept exactly when the leftmost match captures `true`; later occurrences do not matter |
| BuyNow.NoMatchDrops | parser.go:226-229 | Text that never matches the expression drops the lot |
| BuyNow.Enrich | parser.go:209-233 | A kept lot is its input lot with only `BuyNow` set to `"true"`; a GET or HTML-parse error drops it |
| BuyNow.StatusIgnored | parser.go:215-217 | The status code does not change the outcome for a lot |
| BuyNow.KeptLots | parser.go:208-236 | The worker emits at most one lot per task, and each emitted lot has `BuyNow == "true"` |
| BuyNow.KeptLotsMembers | parser.go:208-236 | A lot is emitted exactly when it is the enriched form of some task lot |
| BuyNow.KeptLotsSubMultiset | parser.go:208-236 | The emitted lots are a sub-multiset of the marked task lots: none is duplicated or invented |
| Extraction.WorkerBatches | parser.go:135-174 | The worker sends exactly one batch per auction it takes |
| Extraction.WorkerBatchAt | parser.go:131-173 | A batch is the evaluation's lots when it succeeded; otherwise it is the worker's previous batch, or empty for the first task |
| Extraction.NoSuccessNoLots | parser.go:131-173 | A batch that follows only failed evaluations is empty |
| Extraction.BatchFromOwnPage | parser.go:131-173 | Each batch is empty or the decoded buffer of one of the worker's own earlier or current evaluations |
| Extraction.OwnedMember | parser.go:116-135 | A worker takes exactly the auctions assigned to it |
| Extraction.OwnedTotalAll | parser.go:116-135 | When every auction goes to an existing worker, the numbers of auctions the workers take add up to the number of auctions |
| Extraction.BatchesLength | parser.go:106-128 | The workers together send one batch per auction they took |
| Extraction.BatchCount | parser.go:106-128 | However the auctions are assigned, the workers together send exactly as many batches as there are auctions |
| Extraction.FlattenLength | parser.go:122-126 | The collected lot count is the sum of the batch lengths |
| Extraction.FlattenMember | parser.go:122-126 | A lot is collected exactly when it is in one of the received batches |
| Extraction.ExtractedLotsComeFromPages | parser.go:106-175 | Every extracted lot, however the auctions are assigned to workers, appears in some successful evaluation's decoded buffer |
| Extraction.FailedTaskResends | parser.go:170-173 | A failed second auction makes the worker send the first auction's batch again |
| Extraction.FailureResendsPreviousBatch | parser.go:106-175 | A concrete run with two workers and the interleaved assignment `[0, 1, 0]`, whose third auction fails, collects the first auction's lots twice |
| Rows.YearArg | db.go:32-35 | The `year` argument is `Atoi(Year)` when that parses, and 0 otherwise; it is always a 64-bit value |
| Rows.BuyNowArg | db.go:37-49 | The `buyNow` argument is 0 or 1; it is 1 exactly when `BuyNow` is one of ParseBool's true spellings |
| Rows.JoinLength | db.go:54 | The joined text is the parts' total length plus one separator between each pair of parts |
| Rows.JoinSnoc | db.go:54 | Joining one more part appends the separator and that part |
| Rows.ArgumentsLength | db.go:26-52 | There are four arguments per lot |
| Rows.ArgumentsAt | db.go:29-52 | Arguments 4i to 4i+3 are lot i's link, year, VIN and buy-now, lot by lot in input order |
| Rows.MarksJoin | db.go:24-30 | The joined placeholder list holds four `?` per lot |
| Rows.StatementMatchesArguments | db.go:22-54 | The statement is the template followed by a placeholder list with as many `?` as there are arguments, four per lot |
| Rows.StatementOfNoLots | db.go:23-54 | With no lots the statement is the bare template, ending in `VALUES `, with no argument tuples |
| Rows.ScannedLots | db.go:76-87 | One lot is appended per row, in row order, whether its Scan failed or not |
| Rows.ScannedLotsStep | db.go:76-87 | Reading one more row appends that row's lot |
| Rows.ScannedRowLot | db.go:77-86 | A row scanned without error becomes its own link, `Itoa(year)`, VIN and `Itoa(buyNow)` |
| Rows.UnscannedRowRepeats | db.go:63-87 | A row whose Scan fails at the first column repeats the previous lot, or the zero lot for the first row |
| Rows.PartlyScannedRow | db.go:63-87 | A row whose Scan fails between the link and buy-now columns keeps its link and carries the previous buy-now |
| Rows.ReloadedRowArgs | db.go:80-85 | A stored row written back keeps its link, year and VIN; its buy-now stays 1 if it was 1 and becomes 0 otherwise |
| Rows.ReloadedArguments | db.go:76-87 | For each row loaded without error, the reinserted arguments are that row's own values |
| Parser.Actualized | parser.go:64-77 | At most the loaded lots remain, all with `BuyNow == "true"`; nothing happens exactly when nothing was loaded; the table is cleared exactly when lots were loaded and the target is not Telegram |
| Parser.EnrichedLots | parser.go:177-206 | After the buy-now stage there are at most as many lots as before, all with `BuyNow == "true"`, and none without workers |
| Parser.NothingLoadedNothingDone | parser.go:64-69 | An empty table ends the run with no enrich, send, clear or insert |
| Parser.TelegramLeavesTable | parser.go:70-77 | With lots loaded, enrich runs first; the table is left alone exactly when the target is Telegram, and the bot key is printed exactly then |
| Parser.RewriteKeepsOnlyBuyNowLots | parser.go:70-77 | Otherwise the table is cleared and then receives only lots that passed the check, with none duplicated |
| Parser.NoWorkersEmptiesTable | parser.go:183-205 | A multiplier of zero or less clears the table and then issues the bare template with no arguments |
| Parser.Parser.constructor | parser.go:40-45 | A new parser has no auctions, no lots and an empty trace |
| Parser.Parser.GetAuctions | parser.go:79-104 | The calendar's auctions replace the auction list; the lots are unchanged |
| Parser.Parser.GetLots | parser.go:130-175 | The loop with its reused buffer sends exactly `WorkerBatches` |
| Parser.Parser.RunLotWorkers | parser.go:107-120 | The workers' output in the lot channel is `Batches` for the given assignment, one batch per auction |
| Parser.Parser.CollectBatches | parser.go:122-127 | The collector appends every batch's lots to the lot list, after the earlier lots |
| Parser.Parser.GetAllLots | parser.go:106-128 | The lot list becomes its old contents followed by all extracted batches; the auctions are unchanged |
| Parser.Parser.GetBuyNow | parser.go:208-236 | The worker loop emits exactly `KeptLots` of its tasks |
| Parser.Parser.CollectLots | parser.go:200-205 | The collector appends each emitted lot to the lot list |
| Parser.Parser.GetBuyNowLots | parser.go:177-206 | The old lots are discarded and replaced by the lots that passed the check, or by none when no worker starts |
| Parser.Parser.InsertLots | db.go:22-60 | The statement and arguments built are `Statement(lots)` and `Arguments(lots)`, recorded as one insert |
| Parser.Parser.GetLotsFromDB | db.go:62-88 | The lot list becomes its old contents followed by `ScannedLots` of the rows |
| Parser.Parser.ClearOldLots | db.go:90-94 | One delete-all is recorded; the lists are unchanged |
| Parser.Parser.SendToTelegram | parser.go:238-240 | The printed bot key is recorded; nothing is sent and the lists are unchanged |
| Parser.Parser.Parse | parser.go:56-62 | The run does discover, extract, clear, then insert of the whole lot list, with those auctions and lots |
| Parser.Parser.ActualizeBuyNow | parser.go:64-77 | The final lots and the steps after `Load` are exactly those of `Actualized` for the loaded lots |

## Left out

- Browser automation (chromedp `Navigate`, `WaitReady`, `Evaluate`) and the two in-page scripts are left out; their results are the inputs `discovered` and `visit`. This includes the `year < 2010` filter, which runs in the browser with JavaScript coercion, and the JSON decoding of the results.
- The JSON decode of a lot script's result into the reused buffer is left out; `visit(link).evaluated` stands for the buffer after that decode. The decode writes into the buffer's existing elements without zeroing them, so a field the result gives as `null` or leaves out keeps the previous batch's value. The script does both: `vin` is `null` when the VIN cell has no link, and `year` and `vin` are absent for a short row. A sent lot can therefore mix two auctions' rows and appear on no page.
- `http.Get`, goquery parsing and `Body.Close` are left out; their outcome is the input `fetch`.
- Goroutines, channels and `sync.WaitGroup` are left out. The model takes the batches worker by worker and the enriched lots in task order. It does not capture the other orders in which the collectors may receive them. Nor does it capture the data race on the reused slice buffer, whose backing array later evaluations overwrite while earlier batches may still be unread.
- Worker sizing by `runtime.NumCPU` is left out: the worker count and the assignment of auctions are the inputs `workers` and `owner`.
- The outside effects are keyed by URL: `visit` by auction link and `fetch` by lot URL. Two tasks with the same link therefore get the same outcome. An example is a lot stored twice after a failed evaluation re-sent a batch. The program fetches each copy separately and could see different outcomes.
- Parser.Parser.GetBuyNowLots: the model starts workers exactly when the multiplier is positive. It does not model the wrap-around of `NumCPU() * multiplier` in 64-bit arithmetic.
- SQL execution is left out: `Prepare`, `Exec`, `Query` and `Next`. Statements are recorded in the trace instead of being run. This includes the ignored `Prepare` error, where the statement is nil, and the resulting failure when the bare template with no tuples is executed after the table was cleared.
- `log.Fatal` exits are left out: every recorded step is assumed to succeed.
- `newDb`, `initMainContext` and the browser context's `cancel` are left out. They only open connections.
- main.go and configuration loading are left out. main.go is a stale variant that does not match parser.go; the configuration is the input `config`.
- Progress and error messages printed to the console are left out.
- Rows.StatementMatchesArguments: counts the `?` of the placeholder list only, not of the fixed template text before it. The template is a constant without `?`, but that is not proved.
