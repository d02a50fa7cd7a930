/**
 * The lot-extraction stage as values. Each worker takes auctions from the queue, loads
 * the auction's results page in its own browser tab and sends one batch of lots per auction.
 * Its batch buffer is reused: a failed evaluation leaves the buffer as it was, so the worker
 * sends its previous batch again (the empty batch before its first success).
 */
module Extraction {

  import opened Wrappers
  import opened Types

  /**
   * What the browser did for one auction: whether `Navigate` succeeded (only logged) and, if
   * `Evaluate` succeeded, the worker's lot buffer after the script's result (already
   * year-filtered) was decoded into it. That decode fills the buffer's existing elements, so a
   * field the result leaves null or absent keeps the value of the worker's previous batch.
   */
  datatype Visit = Visit(navigated: bool, evaluated: Option<seq<Lot>>)

  /**
   * The batches one worker sends for the auctions it takes, in order. The batch for a task is
   * the buffer its evaluation decoded; after a failed evaluation it is the batch sent before.
   */
  function WorkerBatches(tasks: seq<Auction>, visit: string -> Visit): (r: seq<seq<Lot>>)
    ensures |r| == |tasks|
  {
    if tasks == [] then []
    else
      var prev := WorkerBatches(tasks[..|tasks| - 1], visit);
      var batch := match visit(tasks[|tasks| - 1].link).evaluated
        case Some(b) => b
        case None => if prev == [] then [] else prev[|prev| - 1];
      prev + [batch]
  }

  /**
   * A worker's batch for an auction whose evaluation succeeded is that evaluation's lots; for
   * one whose evaluation failed it is the batch before, or the empty batch for the first.
   */
  lemma {:induction false} WorkerBatchAt(tasks: seq<Auction>, visit: string -> Visit, i: int)
    requires 0 <= i < |tasks|
    ensures var r := WorkerBatches(tasks, visit);
      match visit(tasks[i].link).evaluated
      case Some(b) => r[i] == b
      case None => r[i] == if i == 0 then [] else r[i - 1]
  {
    var n := |tasks| - 1;
    if i < n {
      WorkerBatchAt(tasks[..n], visit, i);
      assert tasks[..n][i] == tasks[i];
    }
  }

  /** A batch that follows only failures is empty: nothing is invented before a success. */
  lemma {:induction false} NoSuccessNoLots(tasks: seq<Auction>, visit: string -> Visit, i: nat)
    requires i < |tasks|
    requires forall j | 0 <= j <= i :: visit(tasks[j].link).evaluated.None?
    ensures WorkerBatches(tasks, visit)[i] == []
  {
    WorkerBatchAt(tasks, visit, i);
    if i > 0 {
      NoSuccessNoLots(tasks, visit, i - 1);
    }
  }

  /**
   * The auctions worker `w` takes from the queue, in queue order: those whose entry in
   * `owner` is `w`. Every assignment of auctions to workers is one the queue allows.
   */
  function Owned(tasks: seq<Auction>, owner: seq<nat>, w: nat): seq<Auction>
    requires |owner| == |tasks|
  {
    if tasks == [] then []
    else
      var n := |tasks| - 1;
      Owned(tasks[..n], owner[..n], w) + (if owner[n] == w then [tasks[n]] else [])
  }

  /** A worker takes exactly the auctions assigned to it. */
  lemma {:induction false} OwnedMember(tasks: seq<Auction>, owner: seq<nat>, w: nat, x: Auction)
    requires |owner| == |tasks|
    ensures x in Owned(tasks, owner, w) <==> exists j :: 0 <= j < |tasks| && tasks[j] == x && owner[j] == w
  {
    if tasks != [] {
      var n := |tasks| - 1;
      OwnedMember(tasks[..n], owner[..n], w, x);
      assert forall j | 0 <= j < n :: tasks[..n][j] == tasks[j] && owner[..n][j] == owner[j];
    }
  }

  /** The number of auctions the first `workers` workers take together. */
  function OwnedTotal(tasks: seq<Auction>, owner: seq<nat>, workers: nat): nat
    requires |owner| == |tasks|
  {
    if workers == 0 then 0
    else OwnedTotal(tasks, owner, workers - 1) + |Owned(tasks, owner, workers - 1)|
  }

  /** Dropping the last auction takes one auction from the total when its worker is counted. */
  lemma {:induction false} OwnedTotalStep(tasks: seq<Auction>, owner: seq<nat>, workers: nat)
    requires |owner| == |tasks| && tasks != []
    ensures var n := |tasks| - 1;
      OwnedTotal(tasks, owner, workers) ==
        OwnedTotal(tasks[..n], owner[..n], workers) + (if owner[n] < workers then 1 else 0)
  {
    if workers > 0 {
      OwnedTotalStep(tasks, owner, workers - 1);
    }
  }

  /** When every auction goes to one of the workers, the workers take all of them. */
  lemma {:induction false} OwnedTotalAll(tasks: seq<Auction>, owner: seq<nat>, workers: nat)
    requires |owner| == |tasks|
    requires forall j | 0 <= j < |owner| :: owner[j] < workers
    ensures OwnedTotal(tasks, owner, workers) == |tasks|
  {
    if tasks == [] {
      OwnedTotalEmpty(workers);
    } else {
      var n := |tasks| - 1;
      assert forall j | 0 <= j < n :: owner[..n][j] == owner[j];
      OwnedTotalAll(tasks[..n], owner[..n], workers);
      OwnedTotalStep(tasks, owner, workers);
    }
  }

  lemma {:induction false} OwnedTotalEmpty(workers: nat)
    ensures OwnedTotal([], [], workers) == 0
  {
    if workers > 0 {
      OwnedTotalEmpty(workers - 1);
    }
  }

  /**
   * The batches the first `workers` workers send, worker after worker, each over the
   * auctions it takes. The collector may receive them interleaved in any other way.
   */
  function Batches(workers: nat, owner: seq<nat>, tasks: seq<Auction>, visit: string -> Visit): seq<seq<Lot>>
    requires |owner| == |tasks|
  {
    if workers == 0 then []
    else
      Batches(workers - 1, owner, tasks, visit) + WorkerBatches(Owned(tasks, owner, workers - 1), visit)
  }

  /** All workers together send exactly one batch per auction. */
  lemma BatchCount(workers: nat, owner: seq<nat>, tasks: seq<Auction>, visit: string -> Visit)
    requires |owner| == |tasks|
    requires forall j | 0 <= j < |owner| :: owner[j] < workers
    ensures |Batches(workers, owner, tasks, visit)| == |tasks|
  {
    BatchesLength(workers, owner, tasks, visit);
    OwnedTotalAll(tasks, owner, workers);
  }

  /** The first `workers` workers send one batch per auction they take. */
  lemma {:induction false} BatchesLength(workers: nat, owner: seq<nat>, tasks: seq<Auction>, visit: string -> Visit)
    requires |owner| == |tasks|
    ensures |Batches(workers, owner, tasks, visit)| == OwnedTotal(tasks, owner, workers)
  {
    if workers > 0 {
      BatchesLength(workers - 1, owner, tasks, visit);
    }
  }

  /** The batches' lots, one batch after another. */
  function Flatten(batches: seq<seq<Lot>>): seq<Lot> {
    if batches == [] then [] else Flatten(batches[..|batches| - 1]) + batches[|batches| - 1]
  }

  /** The sum of the batches' lengths. */
  function TotalLength(batches: seq<seq<Lot>>): nat {
    if batches == [] then 0 else TotalLength(batches[..|batches| - 1]) + |batches[|batches| - 1]|
  }

  lemma {:induction false} FlattenLength(batches: seq<seq<Lot>>)
    ensures |Flatten(batches)| == TotalLength(batches)
  {
    if batches != [] {
      FlattenLength(batches[..|batches| - 1]);
    }
  }

  /** Each batch a worker sends is empty or is the decoded buffer of one of its own auctions. */
  lemma {:induction false} BatchFromOwnPage(tasks: seq<Auction>, visit: string -> Visit, i: int)
    requires 0 <= i < |tasks|
    ensures var b := WorkerBatches(tasks, visit)[i];
      b == [] || exists j :: 0 <= j <= i && visit(tasks[j].link).evaluated == Some(b)
  {
    WorkerBatchAt(tasks, visit, i);
    if visit(tasks[i].link).evaluated.None? && i > 0 {
      BatchFromOwnPage(tasks, visit, i - 1);
    }
  }

  /** Flattening one more batch appends its lots. */
  lemma FlattenStep(batches: seq<seq<Lot>>, i: int)
    requires 0 <= i < |batches|
    ensures Flatten(batches[..i + 1]) == Flatten(batches[..i]) + batches[i]
  {
    assert batches[..i + 1][..i] == batches[..i];
  }

  /** A lot is in the flattened batches exactly when it is in one of the batches. */
  lemma {:induction false} FlattenMember(batches: seq<seq<Lot>>, x: Lot)
    ensures x in Flatten(batches) <==> exists k :: 0 <= k < |batches| && x in batches[k]
  {
    if batches != [] {
      var n := |batches| - 1;
      FlattenMember(batches[..n], x);
      assert forall k | 0 <= k < n :: batches[..n][k] == batches[k];
    }
  }

  /** The batch is empty or the decoded buffer of one of the auctions' evaluations. */
  ghost predicate FromSomePage(b: seq<Lot>, tasks: seq<Auction>, visit: string -> Visit) {
    b == [] || exists j :: 0 <= j < |tasks| && visit(tasks[j].link).evaluated == Some(b)
  }

  /** Each batch of one worker is empty or the decoded buffer of an auction it took. */
  lemma OwnedBatchFromPage(tasks: seq<Auction>, owner: seq<nat>, w: nat, visit: string -> Visit, i: int)
    requires |owner| == |tasks| && 0 <= i < |Owned(tasks, owner, w)|
    ensures var b := WorkerBatches(Owned(tasks, owner, w), visit)[i];
      b == [] || exists j :: 0 <= j < |tasks| && owner[j] == w && visit(tasks[j].link).evaluated == Some(b)
    ensures FromSomePage(WorkerBatches(Owned(tasks, owner, w), visit)[i], tasks, visit)
  {
    var mine := Owned(tasks, owner, w);
    var b := WorkerBatches(mine, visit)[i];
    BatchFromOwnPage(mine, visit, i);
    if b != [] {
      var m :| 0 <= m <= i && visit(mine[m].link).evaluated == Some(b);
      OwnedMember(tasks, owner, w, mine[m]);
      var j :| 0 <= j < |tasks| && tasks[j] == mine[m] && owner[j] == w;
      assert visit(tasks[j].link).evaluated == Some(b);
    }
  }

  /** Every batch of `bs` is empty or the decoded buffer of one of the auctions' evaluations. */
  ghost predicate AllFromPages(bs: seq<seq<Lot>>, tasks: seq<Auction>, visit: string -> Visit) {
    forall k | 0 <= k < |bs| :: FromSomePage(bs[k], tasks, visit)
  }

  lemma OwnedBatchesFromPages(tasks: seq<Auction>, owner: seq<nat>, w: nat, visit: string -> Visit)
    requires |owner| == |tasks|
    ensures AllFromPages(WorkerBatches(Owned(tasks, owner, w), visit), tasks, visit)
  {
    forall i | 0 <= i < |Owned(tasks, owner, w)| {
      OwnedBatchFromPage(tasks, owner, w, visit, i);
    }
  }

  lemma AllFromPagesConcat(front: seq<seq<Lot>>, back: seq<seq<Lot>>, tasks: seq<Auction>,
                           visit: string -> Visit)
    requires AllFromPages(front, tasks, visit) && AllFromPages(back, tasks, visit)
    ensures AllFromPages(front + back, tasks, visit)
  {
    forall k | 0 <= k < |front + back| ensures FromSomePage((front + back)[k], tasks, visit) {
      if k < |front| {
        assert (front + back)[k] == front[k];
      } else {
        assert (front + back)[k] == back[k - |front|];
      }
    }
  }

  /** Each batch of the whole stage is empty or the decoded buffer of some auction's evaluation. */
  lemma {:induction false} BatchesFromPages(workers: nat, owner: seq<nat>, tasks: seq<Auction>,
                                            visit: string -> Visit)
    requires |owner| == |tasks|
    ensures AllFromPages(Batches(workers, owner, tasks, visit), tasks, visit)
  {
    if workers > 0 {
      BatchesFromPages(workers - 1, owner, tasks, visit);
      OwnedBatchesFromPages(tasks, owner, workers - 1, visit);
      BatchesFromPagesStep(workers, owner, tasks, visit);
    }
  }

  lemma BatchesFromPagesStep(workers: nat, owner: seq<nat>, tasks: seq<Auction>, visit: string -> Visit)
    requires |owner| == |tasks| && workers > 0
    requires AllFromPages(Batches(workers - 1, owner, tasks, visit), tasks, visit)
    requires AllFromPages(WorkerBatches(Owned(tasks, owner, workers - 1), visit), tasks, visit)
    ensures AllFromPages(Batches(workers, owner, tasks, visit), tasks, visit)
  {
    var front := Batches(workers - 1, owner, tasks, visit);
    var back := WorkerBatches(Owned(tasks, owner, workers - 1), visit);
    AllFromPagesConcat(front, back, tasks, visit);
  }

  /**
   * Every extracted lot appears in some successful evaluation's decoded buffer, however the
   * auctions were assigned to the workers.
   */
  lemma ExtractedLotsComeFromPages(workers: nat, owner: seq<nat>, tasks: seq<Auction>,
                                   visit: string -> Visit, x: Lot)
    requires |owner| == |tasks|
    requires x in Flatten(Batches(workers, owner, tasks, visit))
    ensures exists j ::
              0 <= j < |tasks| && visit(tasks[j].link).evaluated.Some? &&
              x in visit(tasks[j].link).evaluated.value
  {
    var all := Batches(workers, owner, tasks, visit);
    FlattenMember(all, x);
    var k :| 0 <= k < |all| && x in all[k];
    BatchesFromPages(workers, owner, tasks, visit);
    assert FromSomePage(all[k], tasks, visit);
  }

  /** One worker, two auctions, the second failing: the first auction's lots are sent twice. */
  lemma FailedTaskResends(t0: Auction, t1: Auction, visit: string -> Visit, batch: seq<Lot>)
    requires visit(t0.link).evaluated == Some(batch)
    requires visit(t1.link).evaluated == None
    ensures WorkerBatches([t0, t1], visit) == [batch, batch]
  {
    WorkerBatchAt([t0, t1], visit, 0);
    WorkerBatchAt([t0, t1], visit, 1);
  }

  /**
   * The reused buffer duplicates lots: the first and third auctions go to one worker and the
   * second to another; the third failing, six lots are collected where each evaluation decoded two
   * or none.
   */
  lemma FailureResendsPreviousBatch(t0: Auction, t1: Auction, t2: Auction, visit: string -> Visit,
                                    a: Lot, b: Lot, c: Lot, d: Lot)
    requires visit(t0.link).evaluated == Some([a, b])
    requires visit(t1.link).evaluated == Some([c, d])
    requires visit(t2.link).evaluated == None
    ensures Flatten(Batches(2, [0, 1, 0], [t0, t1, t2], visit)) == [a, b, a, b, c, d]
  {
    ExampleBatches(t0, t1, t2, visit, a, b, c, d);
    FlattenThree([a, b], [a, b], [c, d]);
  }

  lemma ExampleBatches(t0: Auction, t1: Auction, t2: Auction, visit: string -> Visit,
                       a: Lot, b: Lot, c: Lot, d: Lot)
    requires visit(t0.link).evaluated == Some([a, b])
    requires visit(t1.link).evaluated == Some([c, d])
    requires visit(t2.link).evaluated == None
    ensures Batches(2, [0, 1, 0], [t0, t1, t2], visit) == [[a, b], [a, b], [c, d]]
  {
    var tasks, owner := [t0, t1, t2], [0, 1, 0];
    ExampleOwnership(t0, t1, t2);
    FailedTaskResends(t0, t2, visit, [a, b]);
    WorkerBatchAt([t1], visit, 0);
    var w1 := WorkerBatches([t1], visit);
    assert w1 == [w1[0]] == [[c, d]];
    assert Batches(1, owner, tasks, visit) == [] + [[a, b], [a, b]];
    assert Batches(2, owner, tasks, visit) == [[a, b], [a, b]] + [[c, d]];
    assert [[a, b], [a, b]] + [[c, d]] == [[a, b], [a, b], [c, d]];
  }

  /** With owners `[0, 1, 0]`, worker 0 takes the first and third auctions, worker 1 the second. */
  lemma ExampleOwnership(t0: Auction, t1: Auction, t2: Auction)
    ensures Owned([t0, t1, t2], [0, 1, 0], 0) == [t0, t2]
    ensures Owned([t0, t1, t2], [0, 1, 0], 1) == [t1]
  {
    var tasks, owner := [t0, t1, t2], [0, 1, 0];
    assert tasks[..2] == [t0, t1] && owner[..2] == [0, 1];
    assert [t0, t1][..1] == [t0] && [0, 1][..1] == [0];
    assert [t0][..0] == [] && [0][..0] == [];
    assert Owned([t0], [0], 0) == [t0] && Owned([t0], [0], 1) == [];
    assert Owned([t0, t1], [0, 1], 0) == [t0] && Owned([t0, t1], [0, 1], 1) == [t1];
  }

  lemma FlattenThree(x: seq<Lot>, y: seq<Lot>, z: seq<Lot>)
    ensures Flatten([x, y, z]) == x + y + z
  {
    assert [x, y, z][..2] == [x, y] && [x, y][..1] == [x] && [x][..0] == [];
    assert Flatten([x]) == x;
    assert Flatten([x, y]) == x + y;
  }
}
