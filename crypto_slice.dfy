/** The asset cache: a dictionary of assets keyed by id with a status tag,
    refreshed wholesale by the fetchCryptoAssets thunk. */
module CryptoSlice {
  import opened Types

  /** The dictionary the thunk's reduce builds from the fetched list: each
      asset is stored under its id, a later asset overwriting an earlier one
      with the same id. */
  function Dictionary(assets: seq<Asset>): (d: AssetsDictionary)
    ensures forall id :: id in d ==> d[id].id == id
    ensures |d| <= |assets|
  {
    if |assets| == 0 then map[]
    else
      var last := assets[|assets| - 1];
      Dictionary(assets[..|assets| - 1])[last.id := last]
  }

  /** One step of the reduce: appending an asset stores it under its id. */
  lemma DictionarySnoc(s: seq<Asset>, a: Asset)
    ensures Dictionary(s + [a]) == Dictionary(s)[a.id := a]
  {
    var t := s + [a];
    assert t[..|t| - 1] == s;
  }

  /** The dictionary's keys are exactly the ids in the fetched list. */
  lemma {:induction false} DictionaryKeys(assets: seq<Asset>)
    ensures Dictionary(assets).Keys == set i | 0 <= i < |assets| :: assets[i].id
  {
    if |assets| > 0 {
      var last := assets[|assets| - 1];
      var prefix := assets[..|assets| - 1];
      var d := Dictionary(assets);
      var ids := set i | 0 <= i < |assets| :: assets[i].id;
      DictionaryKeys(prefix);
      forall x | x in ids ensures x in d {
        var i :| 0 <= i < |assets| && assets[i].id == x;
        if i < |assets| - 1 {
          assert prefix[i].id == x;
        }
      }
      forall x | x in d ensures x in ids {
        if x != last.id {
          var i :| 0 <= i < |prefix| && prefix[i].id == x;
          assert assets[i].id == x;
        } else {
          assert assets[|assets| - 1].id == x;
        }
      }
    }
  }

  /** With duplicate ids the last occurrence wins: an asset that no later
      asset shares its id with is the value under its id. */
  lemma {:induction false} DictionaryLastWins(assets: seq<Asset>, i: nat)
    requires i < |assets|
    requires forall j :: i < j < |assets| ==> assets[j].id != assets[i].id
    ensures assets[i].id in Dictionary(assets) && Dictionary(assets)[assets[i].id] == assets[i]
  {
    if i < |assets| - 1 {
      var prefix := assets[..|assets| - 1];
      DictionaryLastWins(prefix, i);
    }
  }

  /** Every value in the dictionary is one of the fetched assets. */
  lemma {:induction false} DictionaryValuesFetched(assets: seq<Asset>, id: string)
    requires id in Dictionary(assets)
    ensures Dictionary(assets)[id] in assets
  {
    var last := assets[|assets| - 1];
    var prefix := assets[..|assets| - 1];
    if id != last.id {
      DictionaryValuesFetched(prefix, id);
    }
  }

  /** The reduce inside fetchCryptoAssets: an accumulator dictionary that is
      updated in place once per fetched asset. */
  method AssetsToDictionary(assetArray: seq<Asset>) returns (acc: AssetsDictionary)
    ensures acc == Dictionary(assetArray)
  {
    acc := map[];
    var i := 0;
    while i < |assetArray|
      invariant 0 <= i <= |assetArray|
      invariant acc == Dictionary(assetArray[..i])
    {
      assert assetArray[..i + 1] == assetArray[..i] + [assetArray[i]];
      DictionarySnoc(assetArray[..i], assetArray[i]);
      acc := acc[assetArray[i].id := assetArray[i]];
      i := i + 1;
    }
    assert assetArray[..|assetArray|] == assetArray;
  }

  class Crypto {
    var assets: AssetsDictionary
    var status: Status

    /** The initial state: no assets, status idle. */
    constructor ()
      ensures assets == map[] && status == Idle
    {
      assets := map[];
      status := Idle;
    }

    /** fetchCryptoAssets.pending: loading, from any status; the old assets
        stay visible while the refresh runs. */
    method Pending()
      modifies this
      ensures status == Loading && assets == old(assets)
    {
      status := Loading;
    }

    /** fetchCryptoAssets.fulfilled: idle, with the payload replacing the
        assets wholesale. */
    method Fulfilled(payload: AssetsDictionary)
      modifies this
      ensures status == Idle && assets == payload
    {
      status := Idle;
      assets := payload;
    }

    /** fetchCryptoAssets.rejected: failed, with the assets as they were. */
    method Rejected()
      modifies this
      ensures status == Failed && assets == old(assets)
    {
      status := Failed;
    }

    /** One run of the fetchCryptoAssets thunk. The remote list is a
        parameter: Some(list) when the request succeeded, None when it
        failed. */
    method FetchCryptoAssets(response: Option<seq<Asset>>)
      modifies this
      ensures response.Some? ==> status == Idle && assets == Dictionary(response.value)
      ensures response.None? ==> status == Failed && assets == old(assets)
    {
      Pending();
      match response {
        case Some(assetArray) =>
          var assetsDictionary := AssetsToDictionary(assetArray);
          Fulfilled(assetsDictionary);
        case None =>
          Rejected();
      }
    }
  }
}
