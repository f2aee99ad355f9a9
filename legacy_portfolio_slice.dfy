/** The older holdings store: the same reducers and the same persistence as
    the current one, but holdings are matched by ticker symbol. */
module LegacyPortfolioSlice {
  import opened Types
  import opened LocalStorage
  import opened KeyedSeq

  /** The key the reducers match on. */
  function HoldingSymbol(h: LegacyHolding): string { h.symbol }

  class LegacyPortfolio {
    /** The slice state: the holdings in insertion order. */
    var state: seq<LegacyHolding>
    /** The "portfolio" storage entry. */
    var slot: Slot<LegacyHolding>
    /** How many times the storage entry has been written. */
    var writes: nat

    /** The storage entry holds exactly the in-memory list. */
    ghost predicate WriteThrough()
      reads this
    {
      Load(slot) == state
    }

    /** The store at start-up: the slice is seeded from the storage entry. */
    constructor (stored: Slot<LegacyHolding>)
      ensures state == Load(stored) && slot == stored && writes == 0
      ensures WriteThrough()
    {
      state := Load(stored);
      slot := stored;
      writes := 0;
    }

    /** saveToLocalStorage: one write of the whole list to the entry. */
    method SaveToLocalStorage(items: seq<LegacyHolding>)
      modifies this`slot, this`writes
      ensures slot == Save(items) && writes == old(writes) + 1
    {
      slot := Save(items);
      writes := writes + 1;
    }

    /** addCrypto: appends the payload, then persists. */
    method AddCrypto(payload: LegacyHolding)
      modifies this
      ensures state == old(state) + [payload]
      ensures slot == Stored(state) && writes == old(writes) + 1
      ensures WriteThrough()
    {
      state := state + [payload];
      SaveToLocalStorage(state);
    }

    /** editCrypto: replaces the first holding with the payload's symbol, in
        place, then persists; with no such holding nothing changes and
        nothing is written. */
    method EditCrypto(payload: LegacyHolding)
      modifies this
      ensures var index := Position(old(state), HoldingSymbol, payload.symbol);
        if index == -1 then
          state == old(state) && slot == old(slot) && writes == old(writes)
        else
          state == old(state)[index := payload] && slot == Stored(state) && writes == old(writes) + 1
      ensures old(WriteThrough()) ==> WriteThrough()
    {
      var index := Position(state, HoldingSymbol, payload.symbol);
      if index != -1 {
        state := state[index := payload];
        SaveToLocalStorage(state);
      }
    }

    /** deleteCrypto: keeps the holdings whose symbol differs, persisting the
        result whether or not anything was removed. */
    method DeleteCrypto(symbol: string)
      modifies this
      ensures state == Without(old(state), HoldingSymbol, symbol)
      ensures slot == Stored(state) && writes == old(writes) + 1
      ensures WriteThrough()
    {
      var newState := Without(state, HoldingSymbol, symbol);
      SaveToLocalStorage(newState);
      state := newState;
    }
  }

  /** Deleting by a symbol that no holding has keeps the list's content. */
  lemma DeleteAbsentKeepsContent(s: seq<LegacyHolding>, symbol: string)
    requires Position(s, HoldingSymbol, symbol) == -1
    ensures Without(s, HoldingSymbol, symbol) == s
  {
    WithoutAbsent(s, HoldingSymbol, symbol);
  }

  /** The legacy tests' scenario: deleting "BTC" from the Bitcoin and
      Ethereum holdings leaves only the Ethereum one. */
  lemma DeleteScenario()
    ensures var btc := LegacyHolding("Bitcoin", "BTC", 2.0, 60000.0, 120000.0);
      var eth := LegacyHolding("Ethereum", "ETH", 5.0, 4000.0, 20000.0);
      Without([btc, eth], HoldingSymbol, "BTC") == [eth]
  {
    var btc := LegacyHolding("Bitcoin", "BTC", 2.0, 60000.0, 120000.0);
    var eth := LegacyHolding("Ethereum", "ETH", 5.0, 4000.0, 20000.0);
    assert [btc, eth][1..] == [eth];
    assert [eth][1..] == [];
  }
}
