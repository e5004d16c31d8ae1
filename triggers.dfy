/** Price-trigger evaluation: how one operation's target price compares with its security's
    current price, and the two ledger-wide queries built on that comparison. */
module Triggers {
  import opened Wrappers
  import opened Securities
  import opened Models

  /** No target set; target reached (buy now); still waiting for the price to fall. */
  datatype TriggerState = NoTrigger | Activated | Pending

  /** What the trigger queries report for one operation (the message text is left out). */
  datatype TriggerReport = TriggerReport(
    operationId: int,
    securityTicker: string,
    securityName: string,
    currentPrice: real,
    targetPrice: real)

  /** The comparison the controller makes: a price at or below the target activates it. */
  function Classify(target: Option<real>, currentPrice: real): TriggerState
  {
    if target.None? then NoTrigger
    else if currentPrice <= target.value then Activated
    else Pending
  }

  /** Reaching the target exactly counts as activated. */
  lemma ClassifyTieActivates(price: real)
    ensures Classify(Some(price), price) == Activated
  {
  }

  /** A falling price never turns an activated trigger back into a pending one, and a rising
      price never turns a pending one into an activated one. */
  lemma ClassifyMonotone(target: Option<real>, lower: real, higher: real)
    requires lower <= higher
    ensures Classify(target, higher) == Activated ==> Classify(target, lower) == Activated
    ensures Classify(target, lower) == Pending ==> Classify(target, higher) == Pending
  {
  }

  /** The operation has a target and its security is in the catalog, so the trigger queries
      look at it. */
  predicate Evaluable(cat: seq<Security>, op: InvestmentOperation)
  {
    op.targetBuyPrice.Some? && SecurityExists(cat, op.securityId)
  }

  /** The trigger of `op`, judged against the current catalog price, is in state `want`. */
  predicate Fires(cat: seq<Security>, op: InvestmentOperation, want: TriggerState)
  {
    Evaluable(cat, op)
    && Classify(op.targetBuyPrice, FindSecurity(cat, op.securityId).value.currentPrice) == want
  }

  function ReportOf(cat: seq<Security>, op: InvestmentOperation): TriggerReport
    requires Evaluable(cat, op)
  {
    var s := FindSecurity(cat, op.securityId).value;
    TriggerReport(op.id, s.ticker, s.name, s.currentPrice, op.targetBuyPrice.value)
  }

  /** Reports of the operations whose trigger is in state `want`, in ledger order. */
  function ReportsWhere(cat: seq<Security>, ops: seq<InvestmentOperation>, want: TriggerState): seq<TriggerReport>
    decreases |ops|
  {
    if ops == [] then []
    else
      var last := ops[|ops| - 1];
      ReportsWhere(cat, ops[..|ops| - 1], want)
        + (if Fires(cat, last, want) then [ReportOf(cat, last)] else [])
  }

  /** The activated-trigger query (`CheckAllTriggers`). */
  function ActivatedTriggers(cat: seq<Security>, ops: seq<InvestmentOperation>): seq<TriggerReport>
  {
    ReportsWhere(cat, ops, Activated)
  }

  /** The pending-trigger query (`GetActiveTriggers`: "active" there means still waiting). */
  function PendingTriggers(cat: seq<Security>, ops: seq<InvestmentOperation>): seq<TriggerReport>
  {
    ReportsWhere(cat, ops, Pending)
  }

  /** Number of operations the trigger queries look at. */
  function EvaluableCount(cat: seq<Security>, ops: seq<InvestmentOperation>): nat
    decreases |ops|
  {
    if ops == [] then 0
    else EvaluableCount(cat, ops[..|ops| - 1]) + (if Evaluable(cat, ops[|ops| - 1]) then 1 else 0)
  }

  /** A report belongs to the query's answer exactly when it is the report of some operation
      of the ledger whose trigger is in the wanted state. */
  lemma {:induction false} ReportsWhereMembership(
    cat: seq<Security>, ops: seq<InvestmentOperation>, want: TriggerState, rep: TriggerReport)
    ensures rep in ReportsWhere(cat, ops, want) <==>
      exists i :: 0 <= i < |ops| && Fires(cat, ops[i], want) && rep == ReportOf(cat, ops[i])
    decreases |ops|
  {
    if ops != [] {
      var n := |ops| - 1;
      var init := ops[..n];
      ReportsWhereMembership(cat, init, want, rep);
      if rep in ReportsWhere(cat, ops, want) {
        if rep in ReportsWhere(cat, init, want) {
          var i :| 0 <= i < |init| && Fires(cat, init[i], want) && rep == ReportOf(cat, init[i]);
          assert ops[i] == init[i];
        } else {
          assert Fires(cat, ops[n], want) && rep == ReportOf(cat, ops[n]);
        }
      } else {
        forall i | 0 <= i < |ops| && Fires(cat, ops[i], want)
          ensures rep != ReportOf(cat, ops[i])
        {
          if i < n {
            assert ops[i] == init[i];
          }
        }
      }
    }
  }

  /** `CheckAllTriggers` answers with exactly the reports of targeted operations whose security
      is found and whose current price is at or below the target. */
  lemma ActivatedTriggersMembership(cat: seq<Security>, ops: seq<InvestmentOperation>, rep: TriggerReport)
    ensures rep in ActivatedTriggers(cat, ops) <==>
      exists i :: 0 <= i < |ops| && Evaluable(cat, ops[i]) && rep == ReportOf(cat, ops[i])
        && FindSecurity(cat, ops[i].securityId).value.currentPrice <= ops[i].targetBuyPrice.value
  {
    ReportsWhereMembership(cat, ops, Activated, rep);
  }

  /** `GetActiveTriggers` answers with exactly the reports of targeted operations whose security
      is found and whose current price is still above the target. */
  lemma PendingTriggersMembership(cat: seq<Security>, ops: seq<InvestmentOperation>, rep: TriggerReport)
    ensures rep in PendingTriggers(cat, ops) <==>
      exists i :: 0 <= i < |ops| && Evaluable(cat, ops[i]) && rep == ReportOf(cat, ops[i])
        && FindSecurity(cat, ops[i].securityId).value.currentPrice > ops[i].targetBuyPrice.value
  {
    ReportsWhereMembership(cat, ops, Pending, rep);
  }

  /** Every report carries the id of an operation of the ledger; so if all ids lie below a
      bound, so do all reported ids. */
  lemma {:induction false} ReportIdsBelow(
    cat: seq<Security>, ops: seq<InvestmentOperation>, want: TriggerState, bound: int)
    requires forall i :: 0 <= i < |ops| ==> ops[i].id < bound
    ensures forall k :: 0 <= k < |ReportsWhere(cat, ops, want)| ==>
      ReportsWhere(cat, ops, want)[k].operationId < bound
    decreases |ops|
  {
    if ops != [] {
      ReportIdsBelow(cat, ops[..|ops| - 1], want, bound);
    }
  }

  predicate ReportIdsIncreasing(reps: seq<TriggerReport>)
  {
    forall i, j :: 0 <= i < j < |reps| ==> reps[i].operationId < reps[j].operationId
  }

  /** The queries keep ledger order: over a ledger with increasing ids the reported operation
      ids increase too, so no operation is reported twice. */
  lemma {:induction false} ReportsWhereInLedgerOrder(
    cat: seq<Security>, ops: seq<InvestmentOperation>, want: TriggerState)
    requires IdsIncreasing(ops)
    ensures ReportIdsIncreasing(ReportsWhere(cat, ops, want))
    decreases |ops|
  {
    if ops != [] {
      var n := |ops| - 1;
      var init := ops[..n];
      assert IdsIncreasing(init);
      ReportsWhereInLedgerOrder(cat, init, want);
      ReportIdsBelow(cat, init, want, ops[n].id);
    }
  }

  /** The two queries split the operations they look at: no report is in both, every evaluable
      operation's report is in one of them, and together they have as many reports as there are
      evaluable operations. */
  lemma {:induction false} TriggerQueriesPartition(cat: seq<Security>, ops: seq<InvestmentOperation>)
    ensures forall rep :: !(rep in ActivatedTriggers(cat, ops) && rep in PendingTriggers(cat, ops))
    ensures forall i :: 0 <= i < |ops| && Evaluable(cat, ops[i]) ==>
      ReportOf(cat, ops[i]) in ActivatedTriggers(cat, ops) || ReportOf(cat, ops[i]) in PendingTriggers(cat, ops)
    ensures |ActivatedTriggers(cat, ops)| + |PendingTriggers(cat, ops)| == EvaluableCount(cat, ops)
    decreases |ops|
  {
    forall rep | rep in ActivatedTriggers(cat, ops)
      ensures rep !in PendingTriggers(cat, ops)
    {
      ActivatedTriggersMembership(cat, ops, rep);
      PendingTriggersMembership(cat, ops, rep);
    }
    forall i | 0 <= i < |ops| && Evaluable(cat, ops[i])
      ensures ReportOf(cat, ops[i]) in ActivatedTriggers(cat, ops) || ReportOf(cat, ops[i]) in PendingTriggers(cat, ops)
    {
      ActivatedTriggersMembership(cat, ops, ReportOf(cat, ops[i]));
      PendingTriggersMembership(cat, ops, ReportOf(cat, ops[i]));
    }
    if ops != [] {
      TriggerQueriesPartition(cat, ops[..|ops| - 1]);
    }
  }

  /** Appending one operation extends each query's answer by at most that operation's report,
      and by it exactly when its trigger is in the query's state. */
  lemma QueriesAfterAppend(cat: seq<Security>, ops: seq<InvestmentOperation>, op: InvestmentOperation)
    ensures ActivatedTriggers(cat, ops + [op]) ==
      ActivatedTriggers(cat, ops) + (if Fires(cat, op, Activated) then [ReportOf(cat, op)] else [])
    ensures PendingTriggers(cat, ops + [op]) ==
      PendingTriggers(cat, ops) + (if Fires(cat, op, Pending) then [ReportOf(cat, op)] else [])
  {
  }
}
