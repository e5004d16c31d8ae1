/** Identity assignment for the operation ledger: a new operation's id is one more than the
    largest id stored, or 1 for an empty ledger. */
module Ledger {
  import opened Models

  /** `Max(op => op.Id)` over a non-empty ledger. */
  function MaxId(ops: seq<InvestmentOperation>): (m: int)
    requires ops != []
    ensures forall i :: 0 <= i < |ops| ==> ops[i].id <= m
    ensures exists i :: 0 <= i < |ops| && ops[i].id == m
  {
    if |ops| == 1 then ops[0].id
    else
      var rest := MaxId(ops[1..]);
      assert forall i :: 1 <= i < |ops| ==> ops[i] == ops[1..][i - 1];
      if ops[0].id > rest then ops[0].id else rest
  }

  /** The id the next added operation receives. */
  function NextId(ops: seq<InvestmentOperation>): (id: int)
    ensures forall i :: 0 <= i < |ops| ==> ops[i].id < id
    ensures ops == [] ==> id == 1
    ensures ops != [] ==> exists i :: 0 <= i < |ops| && ops[i].id == id - 1
  {
    if ops == [] then 1 else MaxId(ops) + 1
  }

  /** The ledger invariant: operations carry the ids 1, 2, ..., n in list order. */
  ghost predicate DenseIds(ops: seq<InvestmentOperation>)
  {
    forall i :: 0 <= i < |ops| ==> ops[i].id == i + 1
  }

  /** On a ledger with ids 1..n the next id is n + 1, and the ids are positive, unique and
      strictly increasing. */
  lemma DenseNextId(ops: seq<InvestmentOperation>)
    requires DenseIds(ops)
    ensures NextId(ops) == |ops| + 1
    ensures IdsIncreasing(ops)
    ensures forall i :: 0 <= i < |ops| ==> ops[i].id >= 1
  {
    if ops != [] {
      var i :| 0 <= i < |ops| && ops[i].id == NextId(ops) - 1;
      assert ops[|ops| - 1].id == |ops|;
    }
  }

  /** Appending an operation with the next id keeps the ids 1..n + 1. */
  lemma AppendKeepsDenseIds(ops: seq<InvestmentOperation>, op: InvestmentOperation)
    requires DenseIds(ops)
    ensures DenseIds(ops + [op.(id := NextId(ops))])
  {
    DenseNextId(ops);
  }

  /** Whatever ids the ledger already holds, appending with the next id keeps them strictly
      increasing: the new id exceeds every stored one. */
  lemma AppendKeepsIdsIncreasing(ops: seq<InvestmentOperation>, op: InvestmentOperation)
    requires IdsIncreasing(ops)
    ensures IdsIncreasing(ops + [op.(id := NextId(ops))])
  {
  }
}
