/** The catalog of tradable securities. The Security type's own source file is not part of
    this model; the record below carries the four properties the controller reads. */
module Securities {
  import opened Wrappers

  datatype Security = Security(id: int, ticker: string, name: string, currentPrice: real)

  /** The fixed catalog the controller starts with. */
  function Seed(): (cat: seq<Security>)
    ensures |cat| == 2 && cat[0].id == 1 && cat[1].id == 2
  {
    [ Security(1, "AAPL", "Apple Inc.", 170.0),
      Security(2, "GAZP", "Газпром", 160.0) ]
  }

  /** `Any(s => s.Id == id)`: some entry of the catalog carries this id. */
  predicate SecurityExists(cat: seq<Security>, id: int)
  {
    exists j :: 0 <= j < |cat| && cat[j].id == id
  }

  /** Entry `k` is the first one of the catalog that carries `id`. */
  ghost predicate IsFirstMatch(cat: seq<Security>, id: int, k: int)
  {
    0 <= k < |cat| && cat[k].id == id && forall j :: 0 <= j < k ==> cat[j].id != id
  }

  /** `FirstOrDefault(s => s.Id == id)`: the first entry with this id, or nothing. */
  function FindSecurity(cat: seq<Security>, id: int): (r: Option<Security>)
    ensures r.None? <==> !SecurityExists(cat, id)
    ensures r.Some? ==> exists k :: IsFirstMatch(cat, id, k) && cat[k] == r.value
  {
    if cat == [] then None
    else if cat[0].id == id then
      assert IsFirstMatch(cat, id, 0);
      Some(cat[0])
    else
      var rest := FindSecurity(cat[1..], id);
      assert SecurityExists(cat, id) ==> SecurityExists(cat[1..], id) by {
        if SecurityExists(cat, id) {
          var j :| 0 <= j < |cat| && cat[j].id == id;
          assert cat[1..][j - 1].id == id;
        }
      }
      assert rest.Some? ==> exists k :: IsFirstMatch(cat, id, k) && cat[k] == rest.value by {
        if rest.Some? {
          var k :| IsFirstMatch(cat[1..], id, k) && cat[1..][k] == rest.value;
          assert IsFirstMatch(cat, id, k + 1);
        }
      }
      rest
  }

  /** Looking up an id in the seed catalog finds the entry carrying it. */
  lemma SeedLookup()
    ensures FindSecurity(Seed(), 1) == Some(Seed()[0])
    ensures FindSecurity(Seed(), 2) == Some(Seed()[1])
    ensures forall id :: id != 1 && id != 2 ==> FindSecurity(Seed(), id) == None
  {
  }
}
