# Investment operation ledger with price triggers

A Dafny model of the domain logic of an investment web API. The API holds a fixed catalog
of securities, each with a current price, and an in-memory ledger of purchase operations.
Each operation has a quantity, a price paid per share, a commission and an optional target
buy price. The model covers:

- the cost of an operation: quantity × price per share + commission, in exact decimal
  arithmetic (modelled by `real`);
- adding an operation: the only check is that its security exists. The new id is the
  largest stored id + 1, or 1 when the ledger is empty. The operation is appended, and the
  answer says whether its target was already reached;
- the dry-run calculation: it rejects a non-positive quantity or price and a negative
  commission. Otherwise it returns the cost and whether a target is set;
- the listing that joins each operation with its security's ticker and name;
- the two trigger queries. `CheckAllTriggers` returns the operations whose security's
  current price is at or below the target. `GetActiveTriggers` returns those still above it.
  "Active" in that name means "still waiting", not "activated".

Files:

- `wrappers.dfy`: `Option` and `Result`.
- `security.dfy` (module `Securities`): the `Security` record, the seeded catalog, and the
  `Any` / `FirstOrDefault` lookups by id.
- `investment_operation.dfy` (module `Models`): the operation record, `TotalCost`, and its
  properties.
- `triggers.dfy` (module `Triggers`): the price comparison, and the two queries as functions
  over a catalog and a ledger, with their properties.
- `ledger.dfy` (module `Ledger`): id assignment and the ledger's id invariant.
- `investment_controller.dfy` (module `Investment`): the controller class. It holds the two
  lists as `seq` fields; its endpoints are methods and functions. In the C# code the two
  lists are private static fields shared by every per-request controller, so one object of
  the class stands for that shared state, and its constructor stands for the lists' static
  initialisers.
- `scenarios.dfy` (module `Scenarios`): worked examples against the seeded catalog.

The ledger invariant `Valid()` says that the operations carry the ids 1, 2, …, n in list
order. Only `AddOperation` writes the ledger, and it starts empty, so this holds. Hence the
next id is always n + 1, and ids are unique and strictly increasing.

Two behaviours of the code are easy to miss; the model follows the code:

- adding an operation does not check quantity, price, commission or target. It only checks
  that the security exists (`Controllers/InvestmentController.cs:79-83`);
- the dry run checks quantity, price and commission, but not the target or the security id
  (`Controllers/InvestmentController.cs:56`). So the dry run and the add do not perform the
  same validation. `Scenarios.TriggerScenario` shows an operation with quantity 0 that the
  dry run refuses and the add records.

## Model

| member | source | states |
|---|---|---|
| `Securities.Seed` | Controllers/InvestmentController.cs:11-15 | the catalog starts with two securities, ids 1 and 2; the body lists AAPL at 170.0 and GAZP at 160.0 |
| `Securities.SeedLookup` | Controllers/InvestmentController.cs:11-15 | in the seeded catalog, id 1 finds Apple, id 2 finds Gazprom, and every other id finds nothing |
| `Securities.FindSecurity` | Controllers/InvestmentController.cs:119 | the lookup finds nothing exactly when no entry has the id; otherwise it returns the first entry with that id |
| `Models.TotalCostDependsOnlyOnAmounts` | WebApplication1/Models/InvestmentOperation.cs:5-13 | two operations with the same quantity, price and commission cost the same, whatever their id, security or target |
| `Models.TotalCostExceedsCommission` | WebApplication1/Models/InvestmentOperation.cs:13 | with quantity > 0, price > 0 and commission >= 0, the cost is strictly greater than the commission, which is >= 0 |
| `Models.TotalCostQuantityStep` | WebApplication1/Models/InvestmentOperation.cs:13 | one more share raises the cost by exactly the price per share |
| `Models.TotalCostExample` | WebApplication1/Models/InvestmentOperation.cs:13 | 10 shares at 165.0 plus 5.0 commission cost exactly 1655.0 |
| `Triggers.ClassifyTieActivates` | Controllers/InvestmentController.cs:94 | a current price equal to the target counts as activated, not pending |
| `Triggers.ClassifyMonotone` | Controllers/InvestmentController.cs:148 | a lower price keeps an activated trigger activated; a higher price keeps a pending one pending |
| `Triggers.ReportsWhereMembership` | Controllers/InvestmentController.cs:115-134 | a report is in a query's answer iff it is the report of some ledger operation that has a target, has a security in the catalog, and is in the wanted state |
| `Triggers.ActivatedTriggersMembership` | Controllers/InvestmentController.cs:117-131 | the activated answer holds exactly the reports of operations with a target, a found security, and current price <= target |
| `Triggers.PendingTriggersMembership` | Controllers/InvestmentController.cs:142-163 | the pending answer holds exactly the reports of operations with a target, a found security, and current price > target |
| `Triggers.ReportsWhereInLedgerOrder` | Controllers/InvestmentController.cs:117 | over a ledger with increasing ids, the reported operation ids increase, so answers are in ledger order without repeats |
| `Triggers.TriggerQueriesPartition` | Controllers/InvestmentController.cs:112-166 | the two answers share no report, every evaluable operation is in one of them, and their sizes add up to the number of evaluable operations |
| `Triggers.QueriesAfterAppend` | Controllers/InvestmentController.cs:86-87 | after one more operation is appended, each answer gains that operation's report at the end iff its trigger is in that query's state, and is otherwise unchanged |
| `Ledger.MaxId` | Controllers/InvestmentController.cs:86 | the maximum id is at least every stored id and is the id of some stored operation |
| `Ledger.NextId` | Controllers/InvestmentController.cs:86 | the next id exceeds every stored id; it is 1 on an empty ledger, and otherwise one more than some stored id |
| `Ledger.DenseNextId` | Controllers/InvestmentController.cs:86-87 | on a ledger with ids 1..n, the next id is n + 1, and the ids are positive, unique and strictly increasing |
| `Ledger.AppendKeepsDenseIds` | Controllers/InvestmentController.cs:86-87 | appending with the next id turns ids 1..n into ids 1..n + 1 |
| `Ledger.AppendKeepsIdsIncreasing` | Controllers/InvestmentController.cs:86-87 | for any ledger with strictly increasing ids, appending with the next id keeps them strictly increasing |
| `Investment.DetailsAll` | Controllers/InvestmentController.cs:31-47 | the listing has one row per operation, and row i is the row for operation i |
| `Investment.CalculateOperation` | Controllers/InvestmentController.cs:52-72 | the dry run fails iff quantity <= 0, price <= 0 or commission < 0; otherwise it returns the operation's cost (which exceeds the commission) and has-trigger iff a target is set |
| `Investment.CalculatePreviewsStoredCost` | Controllers/InvestmentController.cs:62-64 | the dry run's cost equals the cost of the operation once the add has assigned it any id |
| `Investment.InvestmentController.constructor` | Controllers/InvestmentController.cs:11-17 | the controller starts with the seeded catalog and an empty ledger, which satisfies the ledger invariant |
| `Investment.InvestmentController.GetSecurities` | Controllers/InvestmentController.cs:20-24 | returns the catalog entry for entry, in catalog order |
| `Investment.InvestmentController.GetOperations` | Controllers/InvestmentController.cs:27-49 | one row per operation in ledger order; each row carries the whole operation, its cost, and has-trigger iff a target is set; ticker and name are absent iff no catalog entry has the security id, and otherwise come from the first such entry |
| `Investment.InvestmentController.AddOperation` | Controllers/InvestmentController.cs:75-109 | an unknown security gives an error and leaves the ledger unchanged; otherwise the operation gets the next id (n + 1) and is appended to the old ledger, the catalog is unchanged, the ledger invariant holds, and the answer's trigger-activated flag is true iff a target is set and the current price is <= target |
| `Investment.InvestmentController.CheckAllTriggers` | Controllers/InvestmentController.cs:112-135 | returns exactly the activated-trigger answer for the current catalog and ledger; it changes nothing |
| `Investment.InvestmentController.GetActiveTriggers` | Controllers/InvestmentController.cs:137-166 | returns exactly the pending-trigger answer for the current catalog and ledger; it changes nothing |
| `Scenarios.PriceDropIsSeenByNextQuery` | Controllers/InvestmentController.cs:117-131 | an operation targeting 150.0 is pending at Apple's 170.0, and is reported as activated once the catalog price is 145.0 |

## Left out

- HTTP routing, attributes, and the `Ok` / `BadRequest` / `CreatedAtAction` wrappers. Results are `Result` values instead; the add's created-at location is not modelled.
- The message texts (the Russian strings and the formatted decimals in them). Only the outcomes they report are kept: the trigger-activated flag, has-trigger, and the report fields.
- Concurrency: the two lists are static and shared between request threads without a lock. The model is a single sequential ledger, so atomic id assignment is not captured.
- Numeric limits: the overflow and precision limits of `decimal`, and `int` overflow of ids and quantities. The model uses unbounded `int` and exact `real`.
- Price updates: no code here changes the catalog. `Scenarios.PriceDropIsSeenByNextQuery` changes a price in a catalog passed to the query functions.
- The `Security` class's own source file is not part of this model. The record here has the four properties the controller reads.
- Aliasing: the C# add writes the new id into the caller's request object as well as storing it. The model returns the stored copy instead; the aliasing is not modelled.
