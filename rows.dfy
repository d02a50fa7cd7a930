/**
 * The database side as values: the multi-row INSERT statement and its argument list that
 * `insertLots` builds, and the lots that `getLotsFromDB` makes of the rows of `lots`.
 */
module Rows {

  import opened Wrappers
  import opened Strconv
  import opened Types

  // ---------------------------------------------------------------------------------------
  // Writing lots

  const QueryTemplate: string := "INSERT INTO lots (lot, year, vin, buyNow) VALUES "
  const Placeholders: string := "(?, ?, ?, ?)"
  const Separator: string := ", "

  /** An argument bound to a `?` of the statement. */
  datatype Arg = Text(text: string) | Number(number: int)

  /** The summed lengths of the parts. */
  function PartsLength(parts: seq<string>): nat {
    if parts == [] then 0 else |parts[0]| + PartsLength(parts[1..])
  }

  /** strings.Join: the parts in order, with one separator between each two. */
  function Join(parts: seq<string>, sep: string): string {
    if parts == [] then ""
    else if |parts| == 1 then parts[0]
    else parts[0] + sep + Join(parts[1..], sep)
  }

  /** The joined string holds every part and one separator fewer than there are parts. */
  lemma {:induction false} JoinLength(parts: seq<string>, sep: string)
    requires parts != []
    ensures |Join(parts, sep)| == PartsLength(parts) + (|parts| - 1) * |sep|
  {
    if |parts| > 1 {
      JoinLength(parts[1..], sep);
      assert (|parts| - 1) * |sep| == (|parts| - 2) * |sep| + |sep|;
    }
  }

  /** Joining one more part appends the separator and that part. */
  lemma {:induction false} JoinSnoc(parts: seq<string>, sep: string, p: string)
    requires parts != []
    ensures Join(parts + [p], sep) == Join(parts, sep) + sep + p
  {
    if |parts| > 1 {
      assert (parts + [p])[1..] == parts[1..] + [p];
      JoinSnoc(parts[1..], sep, p);
    } else {
      assert parts + [p] == [parts[0], p];
      assert [parts[0], p][1..] == [p];
    }
  }

  /** The `year` column: `Atoi(lot.Year)`, or 0 when that fails. */
  function YearArg(lot: Lot): (y: int)
    ensures MinInt64 <= y <= MaxInt64
  {
    match Atoi(lot.year)
    case Some(y) => y
    case None => 0
  }

  /**
   * The `buyNow` column: 1 when `lot.BuyNow` is non-empty and ParseBool reads it as true;
   * 0 when it is empty, reads as false or does not parse.
   */
  function BuyNowArg(lot: Lot): (b: int)
    ensures b == 0 || b == 1
    ensures b == 1 <==> lot.buyNow in TrueSpellings
  {
    if lot.buyNow == "" then 0
    else match ParseBool(lot.buyNow)
      case Some(true) => 1
      case _ => 0
  }

  /** The four arguments of one lot, in column order. */
  function RowArgs(lot: Lot): seq<Arg> {
    [Text(lot.lot), Number(YearArg(lot)), Text(lot.vin), Number(BuyNowArg(lot))]
  }

  /** The argument list of the whole statement: lot by lot, in input order. */
  function Arguments(lots: seq<Lot>): seq<Arg> {
    if lots == [] then [] else Arguments(lots[..|lots| - 1]) + RowArgs(lots[|lots| - 1])
  }

  /** The statement: the template, then one placeholder tuple per lot joined by `", "`. */
  function Statement(lots: seq<Lot>): string {
    QueryTemplate + Join(seq(|lots|, _ => Placeholders), Separator)
  }

  /** The number of `?` in a string. */
  function Marks(s: string): nat {
    if s == [] then 0 else (if s[0] == '?' then 1 else 0) + Marks(s[1..])
  }

  lemma {:induction false} MarksAppend(a: string, b: string)
    ensures Marks(a + b) == Marks(a) + Marks(b)
  {
    if a == [] {
      assert a + b == b;
    } else {
      assert (a + b)[0] == a[0] && (a + b)[1..] == a[1..] + b;
      MarksAppend(a[1..], b);
    }
  }

  /** Each placeholder tuple holds four `?`; the separator holds none. */
  lemma PlaceholderMarks()
    ensures Marks(Placeholders) == 4 && Marks(Separator) == 0
  {
  }

  /** Joining parts of `k` marks each with a mark-free separator gives `k` marks per part. */
  lemma {:induction false} MarksOfJoin(parts: seq<string>, sep: string, k: nat)
    requires forall j | 0 <= j < |parts| :: Marks(parts[j]) == k
    requires Marks(sep) == 0
    ensures Marks(Join(parts, sep)) == k * |parts|
  {
    if |parts| > 1 {
      assert Join(parts, sep) == parts[0] + sep + Join(parts[1..], sep);
      MarksOfJoin(parts[1..], sep, k);
      MarksAppend(parts[0], sep);
      MarksAppend(parts[0] + sep, Join(parts[1..], sep));
      assert k * |parts| == k * |parts[1..]| + k;
    }
  }

  lemma MarksJoin(n: nat)
    ensures Marks(Join(seq(n, _ => Placeholders), Separator)) == 4 * n
  {
    PlaceholderMarks();
    MarksOfJoin(seq(n, _ => Placeholders), Separator, 4);
  }

  lemma {:induction false} ArgumentsLength(lots: seq<Lot>)
    ensures |Arguments(lots)| == 4 * |lots|
  {
    if lots != [] {
      ArgumentsLength(lots[..|lots| - 1]);
    }
  }

  /** Writing one more lot appends its four arguments. */
  lemma ArgumentsStep(lots: seq<Lot>, i: int)
    requires 0 <= i < |lots|
    ensures Arguments(lots[..i + 1]) == Arguments(lots[..i]) + RowArgs(lots[i])
  {
    assert lots[..i + 1][..i] == lots[..i];
  }

  /** A slice that lies inside the left operand of a concatenation. */
  lemma SliceOfLeft<T>(a: seq<T>, b: seq<T>, lo: int, hi: int)
    requires 0 <= lo <= hi <= |a|
    ensures (a + b)[lo..hi] == a[lo..hi]
  {
  }

  /** Arguments holds four entries per lot, and entries 4i..4i+3 are lot i's, in order. */
  lemma {:induction false} ArgumentsAt(lots: seq<Lot>, i: int)
    requires 0 <= i < |lots|
    ensures |Arguments(lots)| == 4 * |lots|
    ensures Arguments(lots)[4 * i..4 * i + 4] == RowArgs(lots[i])
  {
    var n := |lots| - 1;
    var init := lots[..n];
    var last := RowArgs(lots[n]);
    ArgumentsLength(init);
    var front := Arguments(init);
    assert Arguments(lots) == front + last;
    if i < n {
      ArgumentsAt(init, i);
      assert init[i] == lots[i];
      SliceOfLeft(front, last, 4 * i, 4 * i + 4);
    } else {
      assert (front + last)[4 * i..] == last;
    }
  }

  /**
   * The statement is the template followed by the placeholder list, and the placeholder
   * list has exactly as many `?` as there are arguments: four per lot.
   */
  lemma StatementMatchesArguments(lots: seq<Lot>)
    ensures Statement(lots)[..|QueryTemplate|] == QueryTemplate
    ensures Marks(Statement(lots)[|QueryTemplate|..]) == |Arguments(lots)| == 4 * |lots|
  {
    ArgumentsLength(lots);
    MarksJoin(|lots|);
    assert Statement(lots)[|QueryTemplate|..] == Join(seq(|lots|, _ => Placeholders), Separator);
  }

  /** With no lots the statement is the bare template, ending in "VALUES ", with no tuples. */
  lemma StatementOfNoLots()
    ensures Statement([]) == QueryTemplate
    ensures QueryTemplate[|QueryTemplate| - 7..] == "VALUES "
  {
  }

  // ---------------------------------------------------------------------------------------
  // Reading lots

  /** A row of table `lots`, columns in table order, integers as Go's 64-bit `int`. */
  datatype Row = Row(id: Int64, lot: string, year: Int64, vin: string, buyNow: Int64, createdAt: string)

  /** The number of columns Scan fills. */
  const ScanColumns: nat := 6

  /** The scan variables before the first row: Go's zero values. */
  const ZeroRow: Row := Row(0, "", 0, "", 0, "")

  /**
   * What `rows.Scan` did with one row: it assigns the destinations in column order and stops
   * at the first one it cannot convert, so only the first `converted` columns of `row` reach
   * the variables; `converted >= ScanColumns` is a scan without error.
   */
  datatype Scan = Scan(row: Row, converted: nat)

  /** The scan variables after one Scan call. */
  function Scanned(vars: Row, s: Scan): Row {
    var n := s.converted;
    Row(
      if n > 0 then s.row.id else vars.id,
      if n > 1 then s.row.lot else vars.lot,
      if n > 2 then s.row.year else vars.year,
      if n > 3 then s.row.vin else vars.vin,
      if n > 4 then s.row.buyNow else vars.buyNow,
      if n > 5 then s.row.createdAt else vars.createdAt)
  }

  /** The scan variables after the first `n` Scan calls. */
  function VarsAfter(scans: seq<Scan>, n: int): Row
    requires 0 <= n <= |scans|
  {
    if n == 0 then ZeroRow else Scanned(VarsAfter(scans, n - 1), scans[n - 1])
  }

  /** The lot built from the scan variables, numbers written back with Itoa. */
  function LotOf(v: Row): Lot {
    Lot(v.lot, Itoa(v.year), v.vin, Itoa(v.buyNow))
  }

  /**
   * The lots `getLotsFromDB` appends: one per row, in row order, Scan error or not; lot `i`
   * is made of the scan variables as they stand after row `i`'s Scan.
   */
  function ScannedLots(scans: seq<Scan>): (r: seq<Lot>)
    ensures |r| == |scans|
  {
    seq(|scans|, i requires 0 <= i < |scans| => LotOf(VarsAfter(scans, i + 1)))
  }

  /** Scanning one more row appends its lot. */
  lemma ScannedLotsStep(scans: seq<Scan>, i: int)
    requires 0 <= i < |scans|
    ensures ScannedLots(scans)[..i + 1] == ScannedLots(scans)[..i] + [LotOf(VarsAfter(scans, i + 1))]
  {
  }

  /** A row scanned without error becomes exactly that row's lot. */
  lemma ScannedRowLot(scans: seq<Scan>, i: int)
    requires 0 <= i < |scans| && scans[i].converted >= ScanColumns
    ensures ScannedLots(scans)[i] == LotOf(scans[i].row)
  {
  }

  /**
   * A row whose Scan failed at its first column repeats the lot before it (the zero lot for
   * the first row): the variables keep the previous row's values.
   */
  lemma UnscannedRowRepeats(scans: seq<Scan>, i: int)
    requires 0 <= i < |scans| && scans[i].converted == 0
    ensures ScannedLots(scans)[i] == if i == 0 then LotOf(ZeroRow) else ScannedLots(scans)[i - 1]
  {
    var prev := VarsAfter(scans, i);
    assert VarsAfter(scans, i + 1) == Scanned(prev, scans[i]) == prev;
  }

  /**
   * A row whose Scan failed after the link column but before the buyNow column keeps its own
   * link and carries the previous row's buyNow (the zero value for the first row).
   */
  lemma PartlyScannedRow(scans: seq<Scan>, i: int)
    requires 0 <= i < |scans| && 2 <= scans[i].converted <= 4
    ensures ScannedLots(scans)[i].lot == scans[i].row.lot
    ensures ScannedLots(scans)[i].buyNow == Itoa(VarsAfter(scans, i).buyNow)
  {
    assert VarsAfter(scans, i + 1) == Scanned(VarsAfter(scans, i), scans[i]);
  }

  // ---------------------------------------------------------------------------------------
  // Reading then writing

  /**
   * A stored row that is loaded and written again keeps its link, year and VIN, and a buyNow
   * of 1; any other stored buyNow, including 0, comes back as 0.
   */
  lemma ReloadedRowArgs(r: Row)
    ensures RowArgs(LotOf(r)) ==
      [Text(r.lot), Number(r.year), Text(r.vin), Number(if r.buyNow == 1 then 1 else 0)]
  {
    AtoiItoa(r.year);
    ParseBoolItoa(r.buyNow);
  }

  /** For rows loaded without error, the reinserted arguments are the rows' own values. */
  lemma ReloadedArguments(scans: seq<Scan>, i: int)
    requires 0 <= i < |scans| && scans[i].converted >= ScanColumns
    ensures |Arguments(ScannedLots(scans))| == 4 * |scans|
    ensures var r := scans[i].row;
      Arguments(ScannedLots(scans))[4 * i..4 * i + 4] ==
        [Text(r.lot), Number(r.year), Text(r.vin), Number(if r.buyNow == 1 then 1 else 0)]
  {
    ArgumentsAt(ScannedLots(scans), i);
    ReloadedRowArgs(scans[i].row);
  }
}
