/**
 * The parser object: its auction and lot lists, the steps it has taken, and the two runs
 * built from its stages, `parse` (calendar to table) and `actualizeBuyNow` (table through the
 * buy-now check and back).
 *
 * Concurrent stages are modelled by their values under schedules in which the collector reads
 * each batch before the worker that sent it runs its next `Evaluate` (which decodes into the
 * same reused buffer). Any assignment of auctions to workers is allowed. The collected batches
 * are taken worker by worker, a fixed order that for some assignments no run produces, since
 * a worker sends each batch before it takes its next auction from the queue. Only the multiset
 * and the number of the collected lots carry over to every run, and the arguments of the
 * `Insert` at the end of `Parse` are to be read up to permutation of the lots.
 */
module Parser {

  import opened Wrappers
  import opened Strconv
  import opened Types
  import opened BuyNow
  import opened Extraction
  import opened Rows

  /**
   * One externally visible step of a run: reading the calendar, extracting lots, loading the
   * table, the buy-now check, printing the Telegram bot key, clearing the table, inserting rows.
   */
  datatype Effect =
    | Discover
    | Extract
    | Load
    | Enrich
    | Send(key: string)
    | Clear
    | Insert(statement: string, args: seq<Arg>)

  // ---------------------------------------------------------------------------------------
  // What one actualisation run does after loading the table

  /** The lots after the buy-now stage: none at all when it starts no worker. */
  function EnrichedLots(loaded: seq<Lot>, goroutinesMultiplier: int, fetch: string -> Fetch): (r: seq<Lot>)
    ensures |r| <= |loaded|
    ensures forall j | 0 <= j < |r| :: r[j].buyNow == "true"
    ensures goroutinesMultiplier <= 0 ==> r == []
  {
    if goroutinesMultiplier > 0 then KeptLots(loaded, fetch) else []
  }

  /** The lots an actualisation run ends with, and its steps after `Load`. */
  datatype Outcome = Outcome(lots: seq<Lot>, effects: seq<Effect>)

  /** The outcome of an actualisation run that found `loaded` after reading the table. */
  function Actualized(loaded: seq<Lot>, config: Config, fetch: string -> Fetch): (o: Outcome)
    ensures |o.lots| <= |loaded|
    ensures forall j | 0 <= j < |o.lots| :: o.lots[j].buyNow == "true"
    ensures o.effects == [] <==> loaded == []
    ensures Clear in o.effects <==> loaded != [] && config.sendTo != "telegram"
  {
    if loaded == [] then Outcome([], [])
    else
      var lots := EnrichedLots(loaded, config.goroutinesMultiplier, fetch);
      if config.sendTo == "telegram" then Outcome(lots, [Enrich, Send(config.telegramBotKey)])
      else Outcome(lots, [Enrich, Clear, Insert(Statement(lots), Arguments(lots))])
  }

  /** An effect that changes the table. */
  predicate Writes(e: Effect) {
    e.Clear? || e.Insert?
  }

  /** An empty table ends the run at once: nothing is checked, sent or written. */
  lemma NothingLoadedNothingDone(config: Config, fetch: string -> Fetch)
    ensures Actualized([], config, fetch) == Outcome([], [])
  {
  }

  /**
   * With lots loaded, the buy-now check always runs first; then a Telegram target has the bot
   * key printed and the table left alone, and any other target has the table rewritten.
   */
  lemma TelegramLeavesTable(loaded: seq<Lot>, config: Config, fetch: string -> Fetch)
    requires loaded != []
    ensures var o := Actualized(loaded, config, fetch);
      && o.effects[0] == Enrich
      && ((forall e | e in o.effects :: !Writes(e)) <==> config.sendTo == "telegram")
      && (Send(config.telegramBotKey) in o.effects <==> config.sendTo == "telegram")
  {
    var o := Actualized(loaded, config, fetch);
    if config.sendTo != "telegram" {
      assert Writes(o.effects[1]);
    }
  }

  /**
   * When the table is rewritten it is cleared first and then receives exactly the lots that
   * passed the buy-now check, each marked `"true"`, none twice and none invented.
   */
  lemma RewriteKeepsOnlyBuyNowLots(loaded: seq<Lot>, config: Config, fetch: string -> Fetch)
    requires loaded != [] && config.sendTo != "telegram"
    ensures var o := Actualized(loaded, config, fetch);
      && o.effects == [Enrich, Clear, Insert(Statement(o.lots), Arguments(o.lots))]
      && (forall j | 0 <= j < |o.lots| :: o.lots[j].buyNow == "true")
      && multiset(o.lots) <= multiset(AllMarked(loaded))
  {
    if config.goroutinesMultiplier > 0 {
      KeptLotsSubMultiset(loaded, fetch);
    }
  }

  /**
   * A run with a multiplier of zero or less starts no worker, so it clears the table and then
   * inserts with the bare template and no arguments.
   */
  lemma NoWorkersEmptiesTable(loaded: seq<Lot>, config: Config, fetch: string -> Fetch)
    requires loaded != [] && config.sendTo != "telegram" && config.goroutinesMultiplier <= 0
    ensures Actualized(loaded, config, fetch).effects == [Enrich, Clear, Insert(QueryTemplate, [])]
  {
    StatementOfNoLots();
  }

  /** The parser: the auctions it found and the lots it holds. */
  class Parser {
    var auctions: seq<Auction>
    var lots: seq<Lot>
    /** The steps taken so far, with what was sent and what was written. */
    ghost var trace: seq<Effect>

    /** `NewParser`: no auctions, no lots and nothing done yet. */
    constructor ()
      ensures auctions == [] && lots == [] && trace == []
    {
      auctions := [];
      lots := [];
      trace := [];
    }

    /** `getAuctions`: the calendar script's result replaces the auction list. */
    method GetAuctions(discovered: seq<Auction>)
      modifies this
      ensures auctions == discovered
      ensures lots == old(lots) && trace == old(trace) + [Discover]
    {
      auctions := discovered;
      trace := trace + [Discover];
    }

    /**
     * `getLots`: one extraction worker over the auctions it takes, with its reused buffer.
     * It sends one batch per auction, as `WorkerBatches` describes.
     */
    method GetLots(tasks: seq<Auction>, visit: string -> Visit) returns (sent: seq<seq<Lot>>)
      ensures sent == WorkerBatches(tasks, visit)
    {
      var buffer: seq<Lot> := [];
      sent := [];
      for i := 0 to |tasks|
        invariant sent == WorkerBatches(tasks[..i], visit)
        invariant buffer == if i == 0 then [] else sent[i - 1]
      {
        assert tasks[..i + 1][..i] == tasks[..i];
        var outcome := visit(tasks[i].link);
        // A failed navigation is only logged; the script runs on whatever page is loaded.
        match outcome.evaluated {
          case Some(found) => buffer := found;
          case None =>
        }
        sent := sent + [buffer];
      }
      assert tasks[..|tasks|] == tasks;
    }

    /**
     * The worker side of `getAllLots`: the auctions are queued and `workers` workers take
     * them, auction `j` going to worker `owner[j]`; one batch per auction reaches the channel.
     */
    method RunLotWorkers(tasks: seq<Auction>, workers: nat, owner: seq<nat>, visit: string -> Visit)
      returns (lotsChan: seq<seq<Lot>>)
      requires |owner| == |tasks|
      requires forall j | 0 <= j < |owner| :: owner[j] < workers
      ensures lotsChan == Batches(workers, owner, tasks, visit)
      ensures |lotsChan| == |tasks|
    {
      lotsChan := [];
      for w := 0 to workers
        invariant lotsChan == Batches(w, owner, tasks, visit)
      {
        var batches := GetLots(Owned(tasks, owner, w), visit);
        lotsChan := lotsChan + batches;
      }
      BatchCount(workers, owner, tasks, visit);
    }

    /** The collector side of `getAllLots`: each received batch is appended to the lot list. */
    method CollectBatches(lotsChan: seq<seq<Lot>>)
      modifies this
      ensures lots == old(lots) + Flatten(lotsChan)
      ensures auctions == old(auctions) && trace == old(trace)
    {
      for i := 0 to |lotsChan|
        invariant lots == old(lots) + Flatten(lotsChan[..i])
        invariant auctions == old(auctions) && trace == old(trace)
      {
        FlattenStep(lotsChan, i);
        lots := lots + lotsChan[i];
      }
      assert lotsChan[..|lotsChan|] == lotsChan;
    }

    /**
     * `getAllLots`: the workers run over the auction list and the collector appends the
     * batches, as many as there are auctions, to the lot list.
     */
    method GetAllLots(workers: nat, owner: seq<nat>, visit: string -> Visit)
      requires |owner| == |auctions|
      requires forall j | 0 <= j < |owner| :: owner[j] < workers
      modifies this
      ensures auctions == old(auctions) && trace == old(trace) + [Extract]
      ensures lots == old(lots) + Flatten(Batches(workers, owner, auctions, visit))
    {
      var lotsChan := RunLotWorkers(auctions, workers, owner, visit);
      CollectBatches(lotsChan);
      trace := trace + [Extract];
    }

    /** `getBuyNow`: one enrichment worker; it emits the lots `KeptLots` describes. */
    method GetBuyNow(tasks: seq<Lot>, fetch: string -> Fetch) returns (sent: seq<Lot>)
      ensures sent == KeptLots(tasks, fetch)
    {
      sent := [];
      for i := 0 to |tasks|
        invariant sent == KeptLots(tasks[..i], fetch)
      {
        assert tasks[..i + 1][..i] == tasks[..i];
        var lot := tasks[i];
        match fetch(lot.lot) {
          case GetFailed =>
          case Response(status, body) =>
            // A status other than 200 is only logged.
            match body {
              case None =>
              case Some(text) =>
                var result := FindBuyNowInd(text);
                if result == Some("true") {
                  lot := lot.(buyNow := result.value);
                  sent := sent + [lot];
                }
            }
        }
      }
      assert tasks[..|tasks|] == tasks;
    }

    /** The collector side of `getBuyNowLots`: each emitted lot is appended to the lot list. */
    method CollectLots(buyNowChan: seq<Lot>)
      modifies this
      ensures lots == old(lots) + buyNowChan
      ensures auctions == old(auctions) && trace == old(trace)
    {
      for i := 0 to |buyNowChan|
        invariant lots == old(lots) + buyNowChan[..i]
        invariant auctions == old(auctions) && trace == old(trace)
      {
        assert buyNowChan[..i + 1] == buyNowChan[..i] + [buyNowChan[i]];
        lots := lots + [buyNowChan[i]];
      }
      assert buyNowChan[..|buyNowChan|] == buyNowChan;
    }

    /**
     * `getBuyNowLots`: the lot list is queued for the workers and emptied; the collector
     * then appends what the workers emit. With a multiplier of zero or less no worker starts.
     */
    method GetBuyNowLots(goroutinesMultiplier: int, fetch: string -> Fetch)
      modifies this
      ensures lots == EnrichedLots(old(lots), goroutinesMultiplier, fetch)
      ensures auctions == old(auctions) && trace == old(trace) + [Enrich]
    {
      var tasksChan := lots;
      lots := [];
      var buyNowChan: seq<Lot> := [];
      if goroutinesMultiplier > 0 {
        buyNowChan := GetBuyNow(tasksChan, fetch);
      }
      CollectLots(buyNowChan);
      trace := trace + [Enrich];
    }

    /** `insertLots`: one multi-row INSERT of the whole lot list, its statement and arguments. */
    method InsertLots() returns (sqlStr: string, values: seq<Arg>)
      modifies this
      ensures sqlStr == Statement(lots) && values == Arguments(lots)
      ensures trace == old(trace) + [Insert(sqlStr, values)]
      ensures auctions == old(auctions) && lots == old(lots)
    {
      var valuesStrSlice: seq<string> := [];
      values := [];
      for i := 0 to |lots|
        invariant lots == old(lots) && auctions == old(auctions) && trace == old(trace)
        invariant valuesStrSlice == seq(i, _ => Placeholders)
        invariant values == Arguments(lots[..i])
      {
        var lot := lots[i];
        valuesStrSlice := valuesStrSlice + [Placeholders];
        var year: int;
        match Atoi(lot.year) {
          case Some(y) => year := y;
          case None => year := 0;
        }
        var buyNow := false;
        if lot.buyNow != "" {
          match ParseBool(lot.buyNow) {
            case Some(b) => buyNow := b;
            case None => buyNow := false;
          }
        }
        var intBuyNow := 0;
        if buyNow {
          intBuyNow := 1;
        }
        assert year == YearArg(lot) && intBuyNow == BuyNowArg(lot);
        ArgumentsStep(lots, i);
        values := values + [Text(lot.lot), Number(year), Text(lot.vin), Number(intBuyNow)];
      }
      assert lots[..|lots|] == lots;
      sqlStr := QueryTemplate + Join(valuesStrSlice, Separator);
      trace := trace + [Insert(sqlStr, values)];
    }

    /**
     * `getLotsFromDB`: one lot per row of the table, built from the six scan variables, which
     * keep their values from row to row.
     */
    method GetLotsFromDB(scans: seq<Scan>)
      modifies this
      ensures lots == old(lots) + ScannedLots(scans)
      ensures auctions == old(auctions) && trace == old(trace) + [Load]
    {
      // The six scan destinations `id, lotLink, year, vin, buyNow, createdAt`.
      var vars := ZeroRow;
      for i := 0 to |scans|
        invariant vars == VarsAfter(scans, i)
        invariant lots == old(lots) + ScannedLots(scans)[..i]
        invariant auctions == old(auctions) && trace == old(trace)
      {
        vars := Scanned(vars, scans[i]);
        var lot := Lot(vars.lot, Itoa(vars.year), vars.vin, Itoa(vars.buyNow));
        ScannedLotsStep(scans, i);
        lots := lots + [lot];
      }
      assert ScannedLots(scans)[..|scans|] == ScannedLots(scans);
      trace := trace + [Load];
    }

    /** `clearOldLots`: every row of the table is deleted. */
    method ClearOldLots()
      modifies this
      ensures trace == old(trace) + [Clear]
      ensures auctions == old(auctions) && lots == old(lots)
    {
      trace := trace + [Clear];
    }

    /** `sendToTelegram`: writes out the bot key; nothing is sent anywhere yet. */
    method SendToTelegram(telegramBotKey: string)
      modifies this
      ensures trace == old(trace) + [Send(telegramBotKey)]
      ensures auctions == old(auctions) && lots == old(lots)
    {
      trace := trace + [Send(telegramBotKey)];
    }

    /**
     * `parse`: the calendar's auctions, their lots appended to the list, and the table
     * replaced by the whole list.
     */
    method Parse(discovered: seq<Auction>, workers: nat, owner: seq<nat>, visit: string -> Visit)
      requires |owner| == |discovered|
      requires forall j | 0 <= j < |owner| :: owner[j] < workers
      modifies this
      ensures auctions == discovered
      ensures lots == old(lots) + Flatten(Batches(workers, owner, discovered, visit))
      ensures trace == old(trace) + [Discover, Extract, Clear, Insert(Statement(lots), Arguments(lots))]
    {
      GetAuctions(discovered);
      GetAllLots(workers, owner, visit);
      ClearOldLots();
      var _, _ := InsertLots();
    }

    /**
     * `actualizeBuyNow`: the table's rows are appended to the lot list; if the list is still
     * empty the run stops; otherwise the buy-now stage runs, and then either the Telegram bot
     * key is printed and the table left alone (sending is not implemented), or the stage's lots
     * are written back in place of the table.
     */
    method ActualizeBuyNow(config: Config, scans: seq<Scan>, fetch: string -> Fetch)
      modifies this
      ensures var o := Actualized(old(lots) + ScannedLots(scans), config, fetch);
        lots == o.lots && trace == old(trace) + [Load] + o.effects
      ensures auctions == old(auctions)
    {
      GetLotsFromDB(scans);
      if |lots| == 0 {
        return;
      }
      GetBuyNowLots(config.goroutinesMultiplier, fetch);
      if config.sendTo == "telegram" {
        SendToTelegram(config.telegramBotKey);
        return;
      }
      ClearOldLots();
      var _, _ := InsertLots();
    }
  }
}
