/**
 * The buy-now decision. A lot's detail page carries a JSON-like block in the element
 * `#ProductDetailsVM`; the lot is kept exactly when the leftmost match of the regular
 * expression `"BuyNowInd":(\w+),` in that text captures `true`.
 *
 * The expression is matched under Go's (RE2) rules: the leftmost starting position wins and
 * `\w` is the ASCII class `[0-9A-Za-z_]`. Because `\w+` is greedy and a comma is not a word
 * character, a match at a position exists only when the longest run of word characters after
 * the key is followed by a comma, so the rule is a deterministic scan.
 */
module BuyNow {

  import opened Wrappers
  import opened Types

  /** The literal text before the captured group. */
  const Key: string := "\"BuyNowInd\":"

  /** The regular expression class `\w`. */
  predicate IsWordChar(c: char) {
    'a' <= c <= 'z' || 'A' <= c <= 'Z' || '0' <= c <= '9' || c == '_'
  }

  // ---------------------------------------------------------------------------------------
  // What the regular expression means

  /** `"BuyNowInd":(\w+),` matches `s` at position `i` with a group of length `k`. */
  ghost predicate MatchAt(s: string, i: int, k: int) {
    && 0 <= i
    && 1 <= k
    && i + |Key| + k < |s|
    && s[i..i + |Key|] == Key
    && (forall j | i + |Key| <= j < i + |Key| + k :: IsWordChar(s[j]))
    && s[i + |Key| + k] == ','
  }

  /** The match at `i` is the leftmost one: no match starts before it. */
  ghost predicate IsLeftmostMatch(s: string, i: int, k: int) {
    MatchAt(s, i, k) && forall i', k' | 0 <= i' < i :: !MatchAt(s, i', k')
  }

  // ---------------------------------------------------------------------------------------
  // The scan

  /** The length of the longest run of word characters starting at `j`. */
  function WordRun(s: string, j: nat): (n: nat)
    requires j <= |s|
    ensures j + n <= |s|
    ensures forall m | j <= m < j + n :: IsWordChar(s[m])
    ensures j + n == |s| || !IsWordChar(s[j + n])
    decreases |s| - j
  {
    if j < |s| && IsWordChar(s[j]) then 1 + WordRun(s, j + 1) else 0
  }

  /** The key at `i`, then a non-empty maximal word run, then a comma. */
  predicate MatchesAt(s: string, i: nat) {
    && i + |Key| <= |s|
    && s[i..i + |Key|] == Key
    && var n := WordRun(s, i + |Key|);
       1 <= n && i + |Key| + n < |s| && s[i + |Key| + n] == ','
  }

  /** The first position at or after `i` where the scan finds a match. */
  function MatchStart(s: string, i: nat): (r: Option<nat>)
    ensures r.Some? ==> i <= r.value && MatchesAt(s, r.value)
    ensures forall p | i <= p && (r.None? || p < r.value) :: !MatchesAt(s, p)
    decreases |s| - i
  {
    if |s| < i + |Key| then None
    else if MatchesAt(s, i) then Some(i)
    else MatchStart(s, i + 1)
  }

  /** `w` stands in `s` at position `p`. */
  predicate OccursAt(s: string, p: int, w: string) {
    0 <= p && p + |w| <= |s| && s[p..p + |w|] == w
  }

  /** The key at `p`, then the `n` characters after it, then a comma. */
  lemma KeyRunComma(s: string, p: nat, n: nat)
    requires p + |Key| + n < |s| && s[p..p + |Key|] == Key && s[p + |Key| + n] == ','
    ensures OccursAt(s, p, Key + s[p + |Key|..p + |Key| + n] + ",")
  {
    var g := s[p + |Key|..p + |Key| + n];
    assert s[p..p + |Key| + n + 1] == s[p..p + |Key|] + g + [s[p + |Key| + n]];
  }

  /**
   * The captured group of the leftmost match, as `FindStringSubmatch(s)[1]`, if any: a
   * non-empty run of word characters.
   */
  function FindBuyNowInd(s: string): (r: Option<string>)
    ensures r.Some? ==> r.value != [] && forall m | 0 <= m < |r.value| :: IsWordChar(r.value[m])
  {
    match MatchStart(s, 0)
    case None => None
    case Some(p) => Some(s[p + |Key|..p + |Key| + WordRun(s, p + |Key|)])
  }

  /** The captured group stands in the text between the key and a comma. */
  lemma GroupFollowsKey(s: string)
    ensures FindBuyNowInd(s).Some? ==> exists p :: OccursAt(s, p, Key + FindBuyNowInd(s).value + ",")
  {
    if MatchStart(s, 0).Some? {
      var p := MatchStart(s, 0).value;
      KeyRunComma(s, p, WordRun(s, p + |Key|));
    }
  }

  /**
   * The test at parser.go: the match exists and its group is exactly `true`; the text then
   * holds `"BuyNowInd":true,`.
   */
  function KeepsLot(text: string): (keep: bool)
    ensures keep ==> exists p :: OccursAt(text, p, Key + "true" + ",")
  {
    GroupFollowsKey(text);
    FindBuyNowInd(text) == Some("true")
  }

  // ---------------------------------------------------------------------------------------
  // The scan computes the regular expression's leftmost match

  /** A match's group is always the maximal word run after the key. */
  lemma MatchIsMaximalRun(s: string, i: int, k: int)
    requires MatchAt(s, i, k)
    ensures k == WordRun(s, i + |Key|)
  {
    var n := WordRun(s, i + |Key|);
    assert !IsWordChar(s[i + |Key| + k]);
  }

  /** The scan's test at a position agrees with the regular expression there. */
  lemma MatchesAtIff(s: string, i: nat)
    ensures MatchesAt(s, i) ==> MatchAt(s, i, WordRun(s, i + |Key|))
    ensures forall k :: MatchAt(s, i, k) ==> MatchesAt(s, i)
  {
    forall k | MatchAt(s, i, k) ensures MatchesAt(s, i) {
      MatchIsMaximalRun(s, i, k);
    }
  }

  /** There is at most one leftmost match. */
  lemma LeftmostMatchUnique(s: string, i: int, k: int, i': int, k': int)
    requires IsLeftmostMatch(s, i, k) && IsLeftmostMatch(s, i', k')
    ensures i == i' && k == k'
  {
    MatchIsMaximalRun(s, i, k);
    MatchIsMaximalRun(s, i', k');
  }

  /** The scan returns `Some(g)` exactly when the leftmost match exists and captures `g`. */
  lemma FindBuyNowIndIsLeftmostMatch(s: string, g: string)
    ensures FindBuyNowInd(s) == Some(g) <==>
      exists i, k :: IsLeftmostMatch(s, i, k) && s[i + |Key|..i + |Key| + k] == g
  {
    match MatchStart(s, 0)
    case None =>
      forall i, k | MatchAt(s, i, k) ensures false {
        MatchesAtIff(s, i);
      }
    case Some(p) =>
      var k := WordRun(s, p + |Key|);
      MatchesAtIff(s, p);
      forall i', k' | 0 <= i' < p ensures !MatchAt(s, i', k') {
        MatchesAtIff(s, i');
      }
      assert IsLeftmostMatch(s, p, k);
      forall i, k1 | IsLeftmostMatch(s, i, k1) ensures i == p && k1 == k {
        LeftmostMatchUnique(s, i, k1, p, k);
      }
  }

  /**
   * Only the leftmost match decides: when it captures anything but `true` the lot is dropped,
   * whatever later occurrences of the key say.
   */
  lemma LeftmostMatchDecides(s: string, i: int, k: int)
    requires IsLeftmostMatch(s, i, k)
    ensures KeepsLot(s) <==> s[i + |Key|..i + |Key| + k] == "true"
  {
    FindBuyNowIndIsLeftmostMatch(s, "true");
    if KeepsLot(s) {
      var i1, k1 :| IsLeftmostMatch(s, i1, k1) && s[i1 + |Key|..i1 + |Key| + k1] == "true";
      LeftmostMatchUnique(s, i, k, i1, k1);
    }
  }

  /** Text with no match of the key at all never keeps the lot. */
  lemma NoMatchDrops(s: string)
    requires forall i, k :: !MatchAt(s, i, k)
    ensures !KeepsLot(s)
  {
    FindBuyNowIndIsLeftmostMatch(s, "true");
  }

  // ---------------------------------------------------------------------------------------
  // One lot through the enrichment worker

  /**
   * What `http.Get(lot.Lot)` followed by `goquery.NewDocumentFromReader` gives: a transport
   * error, or a response with its status code and, when the body parsed as HTML, the text of
   * `#ProductDetailsVM`.
   */
  datatype Fetch = GetFailed | Response(status: int, detailsText: Option<string>)

  /**
   * The outcome of one task of the enrichment worker: the lot with `BuyNow` set to `"true"`,
   * or nothing. A transport or parse error drops it; the status code plays no part.
   */
  function Enrich(lot: Lot, f: Fetch): (r: Option<Lot>)
    ensures r.Some? ==> r.value == lot.(buyNow := "true")
    ensures f.GetFailed? || (f.Response? && f.detailsText.None?) ==> r.None?
  {
    match f
    case GetFailed => None
    case Response(_, None) => None
    case Response(_, Some(text)) => if KeepsLot(text) then Some(lot.(buyNow := "true")) else None
  }

  /** A status other than 200 is only logged: the lot's outcome does not depend on it. */
  lemma StatusIgnored(lot: Lot, s1: int, s2: int, text: Option<string>)
    ensures Enrich(lot, Response(s1, text)) == Enrich(lot, Response(s2, text))
  {
  }

  /** The outcome of each task under `fetch`. */
  function Outcome(fetch: string -> Fetch): Lot -> Option<Lot> {
    (lot: Lot) => Enrich(lot, fetch(lot.lot))
  }

  /** Every outcome the worker can emit is its task lot with `BuyNow` set to `"true"`. */
  ghost predicate MarksOnly(outcome: Lot -> Option<Lot>) {
    forall lot :: outcome(lot).Some? ==> outcome(lot).value == lot.(buyNow := "true")
  }

  lemma OutcomeMarksOnly(fetch: string -> Fetch)
    ensures MarksOnly(Outcome(fetch))
  {
  }

  // ---------------------------------------------------------------------------------------
  // The enrichment stage over all tasks

  /** The outcomes `outcome` gives each lot, the dropped ones left out, in input order. */
  function Kept(lots: seq<Lot>, outcome: Lot -> Option<Lot>): (r: seq<Lot>)
    ensures |r| <= |lots|
  {
    if lots == [] then []
    else
      var emitted := match outcome(lots[|lots| - 1]) case Some(x) => [x] case None => [];
      Kept(lots[..|lots| - 1], outcome) + emitted
  }

  lemma {:induction false} KeptSound(lots: seq<Lot>, outcome: Lot -> Option<Lot>, x: Lot)
    requires x in Kept(lots, outcome)
    ensures exists j :: 0 <= j < |lots| && outcome(lots[j]) == Some(x)
  {
    var n := |lots| - 1;
    var init := lots[..n];
    if x in Kept(init, outcome) {
      KeptSound(init, outcome, x);
      var j :| 0 <= j < |init| && outcome(init[j]) == Some(x);
      assert lots[j] == init[j];
    } else {
      assert outcome(lots[n]) == Some(x);
    }
  }

  lemma {:induction false} KeptComplete(lots: seq<Lot>, outcome: Lot -> Option<Lot>, j: int)
    requires 0 <= j < |lots| && outcome(lots[j]).Some?
    ensures outcome(lots[j]).value in Kept(lots, outcome)
  {
    var n := |lots| - 1;
    var init := lots[..n];
    if j < n {
      assert lots[j] == init[j];
      KeptComplete(init, outcome, j);
    }
  }

  lemma {:induction false} KeptMarked(lots: seq<Lot>, outcome: Lot -> Option<Lot>)
    requires MarksOnly(outcome)
    ensures forall j | 0 <= j < |Kept(lots, outcome)| :: Kept(lots, outcome)[j].buyNow == "true"
  {
    if lots != [] {
      KeptMarked(lots[..|lots| - 1], outcome);
    }
  }

  /** Every task lot with `BuyNow` set to `"true"`: what the stage would emit if all passed. */
  function AllMarked(lots: seq<Lot>): (r: seq<Lot>)
    ensures |r| == |lots|
  {
    if lots == [] then [] else AllMarked(lots[..|lots| - 1]) + [lots[|lots| - 1].(buyNow := "true")]
  }

  lemma {:induction false} KeptSubMultiset(lots: seq<Lot>, outcome: Lot -> Option<Lot>)
    requires MarksOnly(outcome)
    ensures multiset(Kept(lots, outcome)) <= multiset(AllMarked(lots))
  {
    if lots != [] {
      var n := |lots| - 1;
      var init, last := lots[..n], lots[n];
      KeptSubMultiset(init, outcome);
      var emitted := match outcome(last) case Some(x) => [x] case None => [];
      assert Kept(lots, outcome) == Kept(init, outcome) + emitted;
      assert multiset(emitted) <= multiset([last.(buyNow := "true")]);
    }
  }

  /** The lots the enrichment stage emits for `lots`, in task order. */
  function KeptLots(lots: seq<Lot>, fetch: string -> Fetch): (r: seq<Lot>)
    ensures |r| <= |lots|
    ensures forall j | 0 <= j < |r| :: r[j].buyNow == "true"
  {
    OutcomeMarksOnly(fetch);
    KeptMarked(lots, Outcome(fetch));
    Kept(lots, Outcome(fetch))
  }

  /**
   * A lot is emitted exactly when it is the enriched form of some task lot: every emitted lot
   * is an input lot with only `BuyNow` changed, and every lot that passes the check is emitted.
   */
  lemma KeptLotsMembers(lots: seq<Lot>, fetch: string -> Fetch, x: Lot)
    ensures x in KeptLots(lots, fetch) <==>
      exists j :: 0 <= j < |lots| && Enrich(lots[j], fetch(lots[j].lot)) == Some(x)
  {
    var outcome := Outcome(fetch);
    if x in KeptLots(lots, fetch) {
      KeptSound(lots, outcome, x);
      var j :| 0 <= j < |lots| && outcome(lots[j]) == Some(x);
    }
    if exists j :: 0 <= j < |lots| && Enrich(lots[j], fetch(lots[j].lot)) == Some(x) {
      var j :| 0 <= j < |lots| && Enrich(lots[j], fetch(lots[j].lot)) == Some(x);
      KeptComplete(lots, outcome, j);
    }
  }

  /**
   * The emitted lots form a sub-multiset of the marked task lots: no lot is duplicated and
   * nothing is invented.
   */
  lemma KeptLotsSubMultiset(lots: seq<Lot>, fetch: string -> Fetch)
    ensures multiset(KeptLots(lots, fetch)) <= multiset(AllMarked(lots))
  {
    OutcomeMarksOnly(fetch);
    KeptSubMultiset(lots, Outcome(fetch));
  }
}
