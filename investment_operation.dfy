/** One recorded purchase of a security, with the cost derived from it. */
module Models {
  import opened Wrappers

  /** C# `decimal` is exact base-10 arithmetic, modelled here by `real`. */
  datatype InvestmentOperation = InvestmentOperation(
    id: int,
    securityId: int,
    quantity: int,
    purchasePricePerShare: real,
    commission: real,
    targetBuyPrice: Option<real>)
  {
    /** Shares bought at the price paid, plus the commission. */
    function TotalCost(): real
    {
      quantity as real * purchasePricePerShare + commission
    }
  }

  /** Ids strictly increase along the sequence (so they are also unique). */
  predicate IdsIncreasing(ops: seq<InvestmentOperation>)
  {
    forall i, j :: 0 <= i < j < |ops| ==> ops[i].id < ops[j].id
  }

  /** The cost is a function of quantity, price and commission alone: the id, the security
      and the target price play no part in it. */
  lemma TotalCostDependsOnlyOnAmounts(a: InvestmentOperation, b: InvestmentOperation)
    requires a.quantity == b.quantity
    requires a.purchasePricePerShare == b.purchasePricePerShare
    requires a.commission == b.commission
    ensures a.TotalCost() == b.TotalCost()
  {
  }

  /** For amounts the calculator accepts, the cost exceeds the commission, which is not negative. */
  lemma TotalCostExceedsCommission(op: InvestmentOperation)
    requires op.quantity > 0 && op.purchasePricePerShare > 0.0 && op.commission >= 0.0
    ensures op.TotalCost() > op.commission >= 0.0
  {
  }

  /** One more share costs exactly one more share price. */
  lemma TotalCostQuantityStep(op: InvestmentOperation)
    ensures op.(quantity := op.quantity + 1).TotalCost() == op.TotalCost() + op.purchasePricePerShare
  {
  }

  /** Ten shares at 165.0 with a commission of 5.0 cost 1655.0. */
  lemma TotalCostExample()
    ensures InvestmentOperation(0, 1, 10, 165.0, 5.0, Some(175.0)).TotalCost() == 1655.0
  {
  }
}
