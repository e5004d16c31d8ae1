/** The investment controller: the catalog and the operation ledger it holds, and its
    endpoints, with the HTTP responses reduced to success-or-error values. */
module Investment {
  import opened Wrappers
  import opened Securities
  import opened Models
  import opened Triggers
  import opened Ledger

  /** Why a request was turned down (a bad request in the controller). */
  datatype ApiError = InvalidCalculationInput | SecurityNotFound

  /** The dry-run answer: the cost and whether a target is set (the message text is left out). */
  datatype Calculation = Calculation(totalCost: real, hasTrigger: bool)

  /** The answer to a successful add: the stored operation and whether its trigger fired at once. */
  datatype AddResponse = AddResponse(operation: InvestmentOperation, triggerActivated: bool)

  /** One row of the operation listing: the operation joined with its security's ticker and name. */
  datatype OperationDetails = OperationDetails(
    id: int,
    securityId: int,
    securityTicker: Option<string>,
    securityName: Option<string>,
    quantity: int,
    purchasePricePerShare: real,
    commission: real,
    totalCost: real,
    targetBuyPrice: Option<real>,
    hasTrigger: bool)

  /** The row for one operation; ticker and name are absent when its security is not found. */
  function Details(cat: seq<Security>, op: InvestmentOperation): OperationDetails
  {
    var security := FindSecurity(cat, op.securityId);
    OperationDetails(
      op.id, op.securityId,
      if security.Some? then Some(security.value.ticker) else None,
      if security.Some? then Some(security.value.name) else None,
      op.quantity, op.purchasePricePerShare, op.commission, op.TotalCost(),
      op.targetBuyPrice, op.targetBuyPrice.Some?)
  }

  /** The operation a listing row was made from. */
  function AsOperation(d: OperationDetails): InvestmentOperation
  {
    InvestmentOperation(d.id, d.securityId, d.quantity, d.purchasePricePerShare, d.commission, d.targetBuyPrice)
  }

  /** The listing of a whole ledger, one row per operation, in ledger order. */
  function DetailsAll(cat: seq<Security>, ops: seq<InvestmentOperation>): (r: seq<OperationDetails>)
    ensures |r| == |ops|
    ensures forall i :: 0 <= i < |ops| ==> r[i] == Details(cat, ops[i])
  {
    if ops == [] then [] else [Details(cat, ops[0])] + DetailsAll(cat, ops[1..])
  }

  /** The dry run: rejects a non-positive quantity or price and a negative commission, and
      otherwise reports the cost and whether a target is set. Neither the target nor the
      security id is checked. */
  function CalculateOperation(op: InvestmentOperation): (r: Result<Calculation, ApiError>)
    ensures r.Failure? <==> op.quantity <= 0 || op.purchasePricePerShare <= 0.0 || op.commission < 0.0
    ensures r.Failure? ==> r.error == InvalidCalculationInput
    ensures r.Success? ==> r.value.totalCost == op.TotalCost() && r.value.totalCost > op.commission >= 0.0
    ensures r.Success? ==> (r.value.hasTrigger <==> op.targetBuyPrice.Some?)
  {
    if op.quantity <= 0 || op.purchasePricePerShare <= 0.0 || op.commission < 0.0 then
      Failure(InvalidCalculationInput)
    else
      Success(Calculation(op.TotalCost(), op.targetBuyPrice.Some?))
  }

  /** The dry run's cost is the cost of the operation that adding it would store: assigning
      the id changes nothing in the cost. */
  lemma CalculatePreviewsStoredCost(op: InvestmentOperation, id: int)
    requires CalculateOperation(op).Success?
    ensures CalculateOperation(op).value.totalCost == op.(id := id).TotalCost()
  {
  }

  /** One object of this class stands for the process-wide static catalog and ledger, which
      every per-request controller shares; its constructor stands for their static
      initialisers, not for the per-request construction of a controller. */
  class InvestmentController {
    var securities: seq<Security>
    var operations: seq<InvestmentOperation>

    /** Only AddOperation writes the ledger, so its ids are 1..n in insertion order. */
    ghost predicate Valid()
      reads this
    {
      DenseIds(operations)
    }

    constructor()
      ensures Valid()
      ensures securities == Seed() && operations == []
    {
      securities := Seed();
      operations := [];
    }

    /** The catalog, as held. */
    method GetSecurities() returns (r: seq<Security>)
      ensures |r| == |securities| && forall i :: 0 <= i < |r| ==> r[i] == securities[i]
    {
      r := securities;
    }

    /** One row per stored operation, in ledger order, each carrying the whole operation, its
        cost and whether it has a target, joined with the first catalog entry of its security. */
    function GetOperations(): (r: seq<OperationDetails>)
      reads this
      ensures |r| == |operations|
      ensures forall i :: 0 <= i < |r| ==> AsOperation(r[i]) == operations[i]
      ensures forall i :: 0 <= i < |r| ==>
        r[i].totalCost == operations[i].TotalCost() && (r[i].hasTrigger <==> operations[i].targetBuyPrice.Some?)
      ensures forall i :: 0 <= i < |r| ==>
        (r[i].securityTicker.None? <==> !SecurityExists(securities, operations[i].securityId))
        && (r[i].securityName.None? <==> !SecurityExists(securities, operations[i].securityId))
      ensures forall i :: 0 <= i < |r| && r[i].securityTicker.Some? && r[i].securityName.Some? ==>
        exists k :: IsFirstMatch(securities, operations[i].securityId, k)
          && r[i].securityTicker.value == securities[k].ticker && r[i].securityName.value == securities[k].name
    {
      DetailsAll(securities, operations)
    }

    /** Records an operation whose security is in the catalog, giving it the next id, and says
        whether its target was already reached. Quantity, price, commission and target are not
        checked. */
    method AddOperation(op: InvestmentOperation) returns (r: Result<AddResponse, ApiError>)
      requires Valid()
      modifies this`operations
      ensures Valid()
      ensures securities == old(securities)
      ensures !SecurityExists(securities, op.securityId) ==>
        r == Failure(SecurityNotFound) && operations == old(operations)
      ensures SecurityExists(securities, op.securityId) ==>
        && r.Success?
        && r.value.operation == op.(id := NextId(old(operations)))
        && r.value.operation.id == |old(operations)| + 1
        && operations == old(operations) + [r.value.operation]
        && (r.value.triggerActivated <==> Fires(securities, r.value.operation, Activated))
    {
      if !SecurityExists(securities, op.securityId) {
        return Failure(SecurityNotFound);
      }
      var stored := op.(id := NextId(operations));
      DenseNextId(operations);
      AppendKeepsDenseIds(operations, op);
      operations := operations + [stored];

      var activated := false;
      if stored.targetBuyPrice.Some? {
        var security := FindSecurity(securities, stored.securityId).value;
        if security.currentPrice <= stored.targetBuyPrice.value {
          activated := true;
        }
      }
      r := Success(AddResponse(stored, activated));
    }

    /** The operations whose target price has been reached at current prices. */
    method CheckAllTriggers() returns (r: seq<TriggerReport>)
      ensures r == ActivatedTriggers(securities, operations)
    {
      r := [];
      for i := 0 to |operations|
        invariant r == ActivatedTriggers(securities, operations[..i])
      {
        var op := operations[i];
        assert operations[..i + 1][..i] == operations[..i];
        if op.targetBuyPrice.Some? {
          var security := FindSecurity(securities, op.securityId);
          if security.Some? && security.value.currentPrice <= op.targetBuyPrice.value {
            r := r + [TriggerReport(op.id, security.value.ticker, security.value.name,
                                    security.value.currentPrice, op.targetBuyPrice.value)];
          }
        }
      }
      assert operations[..|operations|] == operations;
    }

    /** The operations still waiting for the price to fall to their target. */
    method GetActiveTriggers() returns (r: seq<TriggerReport>)
      ensures r == PendingTriggers(securities, operations)
    {
      r := [];
      for i := 0 to |operations|
        invariant r == PendingTriggers(securities, operations[..i])
      {
        var op := operations[i];
        assert operations[..i + 1][..i] == operations[..i];
        if op.targetBuyPrice.Some? {
          var security := FindSecurity(securities, op.securityId);
          if security.Some? {
            var isTriggerActive := security.value.currentPrice > op.targetBuyPrice.value;
            if isTriggerActive {
              r := r + [TriggerReport(op.id, security.value.ticker, security.value.name,
                                      security.value.currentPrice, op.targetBuyPrice.value)];
            }
          }
        }
      }
      assert operations[..|operations|] == operations;
    }
  }
}
