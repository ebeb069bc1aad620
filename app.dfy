/**
 * The dashboard's hand-off from a market snapshot to the ledger: on load and on every poll the
 * coordinator builds a plain `id -> current_price` object from the snapshot, one entry per coin
 * in order, and hands it to `setMarketPrices`, which replaces the ledger's map wholesale.
 */
module Dashboard {
  import opened PortfolioContext

  /** The `prices` object after the `forEach` over `data`: a later coin with the same id
      overwrites an earlier one. */
  function PriceTable(data: seq<Crypto>): map<string, real> {
    if data == [] then map[]
    else PriceTable(data[..|data| - 1])[data[|data| - 1].id := data[|data| - 1].currentPrice]
  }

  /** The table has an entry for exactly the ids of the snapshot. */
  lemma {:induction false} PriceTableKeys(data: seq<Crypto>)
    ensures forall id :: id in PriceTable(data) <==> exists i :: 0 <= i < |data| && data[i].id == id
    decreases |data|
  {
    if data != [] {
      var init := data[..|data| - 1];
      PriceTableKeys(init);
      forall id | id in PriceTable(data) && id != data[|data| - 1].id
        ensures exists i :: 0 <= i < |data| && data[i].id == id
      {
        assert id in PriceTable(init);
        var i :| 0 <= i < |init| && init[i].id == id;
        assert data[i] == init[i];
      }
      forall i | 0 <= i < |data| - 1
        ensures data[i].id in PriceTable(data)
      {
        assert init[i] == data[i];
      }
    }
  }

  /** Each id carries the price of the last coin in the snapshot with that id. */
  lemma {:induction false} PriceTableLastWins(data: seq<Crypto>, i: nat)
    requires i < |data|
    requires forall j :: i < j < |data| ==> data[j].id != data[i].id
    ensures data[i].id in PriceTable(data)
    ensures PriceTable(data)[data[i].id] == data[i].currentPrice
    decreases |data|
  {
    if i < |data| - 1 {
      var init := data[..|data| - 1];
      assert init[i] == data[i];
      PriceTableLastWins(init, i);
    }
  }

  /** A held coin missing from the snapshot is valued at 0 by the ledger's `|| 0` lookup. */
  lemma UnlistedIsWorthless(data: seq<Crypto>, id: string)
    requires forall i :: 0 <= i < |data| ==> data[i].id != id
    ensures PriceOf(PriceTable(data), id) == 0.0
  {
    PriceTableKeys(data);
  }

  /** The `forEach` loop that fills `prices`. */
  method SnapshotPrices(data: seq<Crypto>) returns (prices: map<string, real>)
    ensures prices == PriceTable(data)
  {
    prices := map[];
    var i := 0;
    while i < |data|
      invariant 0 <= i <= |data|
      invariant prices == PriceTable(data[..i])
    {
      assert data[..i + 1][..i] == data[..i];
      prices := prices[data[i].id := data[i].currentPrice];
      i := i + 1;
    }
    assert data[..|data|] == data;
  }

  /** One load or poll: the snapshot's table replaces the ledger's prices and nothing else. */
  method ApplySnapshot(p: Portfolio, data: seq<Crypto>)
    requires p.Valid()
    modifies p
    ensures p.Valid()
    ensures p.State() == old(p.State()).(marketPrices := PriceTable(data))
  {
    var prices := SnapshotPrices(data);
    p.SetMarketPrices(prices);
  }
}
