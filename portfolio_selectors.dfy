/** The selectors: the two state parts, and the enriched portfolio that
    joins each holding with the asset under its id. */
module PortfolioSelectors {
  import opened Types

  /** The part of the application state the selectors read. */
  datatype RootState = RootState(portfolio: seq<Holding>, crypto: CryptoState)

  /** A display-ready holding: the holding's id and quantity with its
      asset's details and the holding's value. */
  datatype EnrichedHolding = EnrichedHolding(
    id: string, quantity: real, name: string, symbol: string,
    current_price: real, image: string, total_value: real)

  /** selectPortfolio: the holdings part of the state. */
  function SelectPortfolio(state: RootState): (r: seq<Holding>)
    ensures r == state.portfolio
  {
    state.portfolio
  }

  /** selectCryptoAssets: the asset dictionary of the cache part. */
  function SelectCryptoAssets(state: RootState): (r: AssetsDictionary)
    ensures r == state.crypto.assets
  {
    state.crypto.assets
  }

  /** The record for a holding whose asset was found. */
  function Join(h: Holding, asset: Asset): (e: EnrichedHolding)
    ensures e.id == h.id && e.quantity == h.quantity
    ensures e.name == asset.name && e.symbol == asset.symbol
    ensures e.current_price == asset.current_price && e.image == asset.image
    ensures e.total_value == asset.current_price * h.quantity
  {
    EnrichedHolding(h.id, h.quantity, asset.name, asset.symbol,
                    asset.current_price, asset.image, asset.current_price * h.quantity)
  }

  /** The callback of the map step: the record, or nothing when the
      holding's id has no asset. */
  function Enrich(h: Holding, assets: AssetsDictionary): (r: Option<EnrichedHolding>)
    ensures r.Some? <==> h.id in assets
    ensures r.Some? ==> r.value == Join(h, assets[h.id])
  {
    if h.id in assets then Some(Join(h, assets[h.id])) else None
  }

  /** The filter(Boolean) step: drops the empty results, keeping order. */
  function Compact(xs: seq<Option<EnrichedHolding>>): (r: seq<EnrichedHolding>)
    ensures |r| <= |xs|
    ensures forall y :: y in r <==> Some(y) in xs
  {
    if |xs| == 0 then []
    else if xs[0].Some? then [xs[0].value] + Compact(xs[1..])
    else Compact(xs[1..])
  }

  /** The result function of selectEnrichedPortfolio: map, then filter. */
  function EnrichedPortfolio(holdings: seq<Holding>, assets: AssetsDictionary): (r: seq<EnrichedHolding>)
    ensures |r| <= |holdings|
  {
    Compact(seq(|holdings|, i requires 0 <= i < |holdings| => Enrich(holdings[i], assets)))
  }

  /** selectEnrichedPortfolio: the result function applied to the two
      input selectors. */
  function SelectEnrichedPortfolio(state: RootState): (r: seq<EnrichedHolding>)
    ensures r == EnrichedPortfolio(state.portfolio, state.crypto.assets)
  {
    EnrichedPortfolio(SelectPortfolio(state), SelectCryptoAssets(state))
  }

  /** Reference for the join: the holdings that have an asset, in order. */
  function Matched(holdings: seq<Holding>, assets: AssetsDictionary): (r: seq<Holding>)
    ensures |r| <= |holdings|
    ensures forall i :: 0 <= i < |r| ==> r[i] in holdings && r[i].id in assets
    ensures forall i :: 0 <= i < |holdings| && holdings[i].id in assets ==> holdings[i] in r
  {
    if |holdings| == 0 then []
    else if holdings[0].id in assets then [holdings[0]] + Matched(holdings[1..], assets)
    else Matched(holdings[1..], assets)
  }

  /** Dropping the empty results distributes over concatenation, so the
      kept records stay in order. */
  lemma {:induction false} CompactAppend(a: seq<Option<EnrichedHolding>>, b: seq<Option<EnrichedHolding>>)
    ensures Compact(a + b) == Compact(a) + Compact(b)
  {
    if |a| == 0 {
      assert a + b == b;
    } else {
      assert (a + b)[1..] == a[1..] + b;
      CompactAppend(a[1..], b);
    }
  }

  /** The enriched view of a non-empty list: the first holding's record, if
      it has an asset, followed by the enriched view of the rest. */
  lemma EnrichedPortfolioCons(holdings: seq<Holding>, assets: AssetsDictionary)
    requires |holdings| > 0
    ensures EnrichedPortfolio(holdings, assets)
         == (if holdings[0].id in assets then [Join(holdings[0], assets[holdings[0].id])] else [])
            + EnrichedPortfolio(holdings[1..], assets)
  {
    var xs := seq(|holdings|, i requires 0 <= i < |holdings| => Enrich(holdings[i], assets));
    var rest := holdings[1..];
    var ys := seq(|rest|, i requires 0 <= i < |rest| => Enrich(rest[i], assets));
    assert xs == [xs[0]] + ys;
    CompactAppend([xs[0]], ys);
    assert [xs[0]][1..] == [];
  }

  /** The join: one record per holding that has an asset, in the holdings'
      order, with id and quantity from the holding, name, symbol, price and
      image from the asset, and total_value = current_price * quantity. */
  lemma {:induction false} EnrichedPortfolioJoin(holdings: seq<Holding>, assets: AssetsDictionary)
    ensures var r := EnrichedPortfolio(holdings, assets);
      var m := Matched(holdings, assets);
      && |r| == |m|
      && forall k :: 0 <= k < |r| ==> r[k] == Join(m[k], assets[m[k].id])
  {
    if |holdings| > 0 {
      var h := holdings[0];
      var rest := holdings[1..];
      var r := EnrichedPortfolio(holdings, assets);
      var m := Matched(holdings, assets);
      var r' := EnrichedPortfolio(rest, assets);
      var m' := Matched(rest, assets);
      EnrichedPortfolioCons(holdings, assets);
      EnrichedPortfolioJoin(rest, assets);
      if h.id in assets {
        assert r == [Join(h, assets[h.id])] + r';
        assert m == [h] + m';
        forall k | 0 <= k < |r| ensures r[k] == Join(m[k], assets[m[k].id]) {
          if k > 0 {
            assert r[k] == r'[k - 1] && m[k] == m'[k - 1];
          }
        }
      } else {
        assert r == r' && m == m';
      }
    }
  }

  /** Every record carries the holding's id and quantity, the asset's
      details, and total_value = current_price * quantity. */
  lemma EnrichedFields(holdings: seq<Holding>, assets: AssetsDictionary, k: nat)
    requires k < |EnrichedPortfolio(holdings, assets)|
    ensures var e := EnrichedPortfolio(holdings, assets)[k];
      && e.id in assets
      && (exists i :: 0 <= i < |holdings| && holdings[i].id == e.id && holdings[i].quantity == e.quantity)
      && e.name == assets[e.id].name && e.symbol == assets[e.id].symbol
      && e.current_price == assets[e.id].current_price && e.image == assets[e.id].image
      && e.total_value == e.current_price * e.quantity
  {
    EnrichedPortfolioJoin(holdings, assets);
    var m := Matched(holdings, assets);
    assert m[k] in holdings;
  }

  /** Enrichment distributes over concatenation of holding lists, so the
      records keep the holdings' relative order. */
  lemma {:induction false} EnrichedPortfolioAppend(a: seq<Holding>, b: seq<Holding>, assets: AssetsDictionary)
    ensures EnrichedPortfolio(a + b, assets) == EnrichedPortfolio(a, assets) + EnrichedPortfolio(b, assets)
  {
    if |a| == 0 {
      assert a + b == b;
    } else {
      EnrichedPortfolioCons(a + b, assets);
      EnrichedPortfolioCons(a, assets);
      assert (a + b)[1..] == a[1..] + b;
      EnrichedPortfolioAppend(a[1..], b, assets);
    }
  }

  /** A holding with no asset is dropped: appending it changes nothing. */
  lemma UnknownHoldingDropped(holdings: seq<Holding>, h: Holding, assets: AssetsDictionary)
    requires h.id !in assets
    ensures EnrichedPortfolio(holdings + [h], assets) == EnrichedPortfolio(holdings, assets)
  {
    EnrichedPortfolioAppend(holdings, [h], assets);
    EnrichedPortfolioCons([h], assets);
    assert [h][1..] == [];
  }

  /** A list of holdings none of which has an asset enriches to the empty
      list. */
  lemma {:induction false} UnknownHoldingsEnrichToEmpty(holdings: seq<Holding>, assets: AssetsDictionary)
    requires forall i :: 0 <= i < |holdings| ==> holdings[i].id !in assets
    ensures EnrichedPortfolio(holdings, assets) == []
  {
    if |holdings| > 0 {
      EnrichedPortfolioCons(holdings, assets);
      UnknownHoldingsEnrichToEmpty(holdings[1..], assets);
    }
  }

  /** A holding with an asset contributes its record to the view. */
  lemma KnownHoldingKept(holdings: seq<Holding>, i: nat, assets: AssetsDictionary)
    requires i < |holdings| && holdings[i].id in assets
    ensures Join(holdings[i], assets[holdings[i].id]) in EnrichedPortfolio(holdings, assets)
  {
    assert holdings == holdings[..i] + [holdings[i]] + holdings[i + 1..];
    EnrichedPortfolioAppend(holdings[..i] + [holdings[i]], holdings[i + 1..], assets);
    EnrichedPortfolioAppend(holdings[..i], [holdings[i]], assets);
    EnrichedPortfolioCons([holdings[i]], assets);
    assert [holdings[i]][1..] == [];
  }

  /** The selectors return the holdings and the assets of the state, and the
      enriched view is computed from those two parts alone: a state that
      differs only in the cache status selects the same enriched view. */
  lemma SelectorsReadOnlyTheirParts(s: RootState, t: RootState)
    requires s.portfolio == t.portfolio && s.crypto.assets == t.crypto.assets
    ensures SelectPortfolio(s) == s.portfolio && SelectCryptoAssets(s) == s.crypto.assets
    ensures SelectEnrichedPortfolio(s) == EnrichedPortfolio(s.portfolio, s.crypto.assets)
    ensures SelectEnrichedPortfolio(s) == SelectEnrichedPortfolio(t)
  {
  }

  /** The selector tests' scenario: two Bitcoin at 45000 are worth 90000. */
  lemma BitcoinScenario()
    ensures var btc := Asset("bitcoin", "Bitcoin", "btc", "https://example.com/bitcoin.png", 45000.0, 0.0);
      EnrichedPortfolio([Holding("bitcoin", 2.0), Holding("ripple", 10.0)], map["bitcoin" := btc])
        == [EnrichedHolding("bitcoin", 2.0, "Bitcoin", "btc", 45000.0, "https://example.com/bitcoin.png", 90000.0)]
  {
    var btc := Asset("bitcoin", "Bitcoin", "btc", "https://example.com/bitcoin.png", 45000.0, 0.0);
    var hs := [Holding("bitcoin", 2.0), Holding("ripple", 10.0)];
    EnrichedPortfolioCons(hs, map["bitcoin" := btc]);
    EnrichedPortfolioCons(hs[1..], map["bitcoin" := btc]);
    assert hs[1..][1..] == [];
  }
}
