/** Worked examples against the seeded catalog (Apple at 170.0). */
module Scenarios {
  import opened Wrappers
  import opened Securities
  import opened Models
  import opened Triggers
  import opened Investment

  /** A target above the current price fires at once; a target below it stays pending; and
      an operation with a zero quantity is refused by the dry run but recorded by the add. */
  method TriggerScenario()
  {
    var c := new InvestmentController();
    var first := c.AddOperation(InvestmentOperation(0, 1, 10, 165.0, 5.0, Some(175.0)));
    assert first.Success? && first.value.operation.id == 1 && first.value.triggerActivated;
    assert first.value.operation.TotalCost() == 1655.0;

    var second := c.AddOperation(InvestmentOperation(0, 1, 10, 165.0, 5.0, Some(150.0)));
    assert second.Success? && second.value.operation.id == 2 && !second.value.triggerActivated;

    var unknown := c.AddOperation(InvestmentOperation(0, 7, 1, 1.0, 0.0, None));
    assert unknown == Failure(SecurityNotFound) && |c.operations| == 2;

    var activated := c.CheckAllTriggers();
    var pending := c.GetActiveTriggers();
    SeedLookup();
    QueriesAfterAppend(Seed(), [], first.value.operation);
    QueriesAfterAppend(Seed(), [first.value.operation], second.value.operation);
    assert c.operations == [] + [first.value.operation] + [second.value.operation];
    assert activated == [TriggerReport(1, "AAPL", "Apple Inc.", 170.0, 175.0)];
    assert pending == [TriggerReport(2, "AAPL", "Apple Inc.", 170.0, 150.0)];

    var zero := InvestmentOperation(0, 1, 0, 165.0, 5.0, None);
    assert CalculateOperation(zero).Failure?;
    var third := c.AddOperation(zero);
    assert third.Success? && third.value.operation.id == 3;
  }

  /** Once the price feed moves Apple down to 145.0, the operation waiting for 150.0 is
      reported as activated by the next query, without being resubmitted. */
  lemma PriceDropIsSeenByNextQuery()
    ensures var op := InvestmentOperation(1, 1, 10, 165.0, 5.0, Some(150.0));
      && PendingTriggers(Seed(), [op]) == [TriggerReport(1, "AAPL", "Apple Inc.", 170.0, 150.0)]
      && ActivatedTriggers(Seed(), [op]) == []
      && ActivatedTriggers(Seed()[0 := Seed()[0].(currentPrice := 145.0)], [op])
           == [TriggerReport(1, "AAPL", "Apple Inc.", 145.0, 150.0)]
  {
    var op := InvestmentOperation(1, 1, 10, 165.0, 5.0, Some(150.0));
    var moved := Seed()[0 := Seed()[0].(currentPrice := 145.0)];
    assert [op][..0] == [];
    assert FindSecurity(moved, 1) == Some(moved[0]);
  }
}
