/** The records shared by the store slices and the selectors. */
module Types {

  datatype Option<+T> = None | Some(value: T)

  /** A user-owned quantity of one asset, identified by the asset's id. */
  datatype Holding = Holding(id: string, quantity: real)

  /** The holding record of the older store file, as its tests build it:
      it is identified by its ticker symbol. */
  datatype LegacyHolding = LegacyHolding(
    name: string, symbol: string, quantity: real, currentPrice: real, totalValue: real)

  /** Market data for one asset, as fetched from the remote list. */
  datatype Asset = Asset(
    id: string, name: string, symbol: string, image: string,
    current_price: real, price_change_percentage_24h: real)

  /** Assets keyed by id. */
  type AssetsDictionary = map<string, Asset>

  /** The status tag of the asset cache: "idle", "loading" or "failed". */
  datatype Status = Idle | Loading | Failed

  /** The state of the asset cache slice. */
  datatype CryptoState = CryptoState(assets: AssetsDictionary, status: Status)
}
