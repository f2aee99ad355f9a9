/** The holdings store: an ordered list of holdings, matched by asset id,
    whose every successful change is written through to the "portfolio"
    storage entry. */
module PortfolioSlice {
  import opened Types
  import opened LocalStorage
  import opened KeyedSeq

  /** The key the reducers match on. */
  function HoldingId(h: Holding): string { h.id }

  class Portfolio {
    /** The slice state: the holdings in insertion order. */
    var state: seq<Holding>
    /** The "portfolio" storage entry. */
    var slot: Slot<Holding>
    /** How many times the storage entry has been written. */
    var writes: nat

    /** The storage entry holds exactly the in-memory list. */
    ghost predicate WriteThrough()
      reads this
    {
      Load(slot) == state
    }

    /** The store at start-up: the slice is seeded from the storage entry. */
    constructor (stored: Slot<Holding>)
      ensures state == Load(stored) && slot == stored && writes == 0
      ensures WriteThrough()
    {
      state := Load(stored);
      slot := stored;
      writes := 0;
    }

    /** saveToLocalStorage: one write of the whole list to the entry. */
    method SaveToLocalStorage(items: seq<Holding>)
      modifies this`slot, this`writes
      ensures slot == Save(items) && writes == old(writes) + 1
    {
      slot := Save(items);
      writes := writes + 1;
    }

    /** addCrypto: appends the payload, even when its id is already present,
        then persists. */
    method AddCrypto(payload: Holding)
      modifies this
      ensures state == old(state) + [payload]
      ensures slot == Stored(state) && writes == old(writes) + 1
      ensures WriteThrough()
    {
      state := state + [payload];
      SaveToLocalStorage(state);
    }

    /** editCrypto: replaces the first holding with the payload's id, in
        place, then persists; with no such holding nothing changes and
        nothing is written. */
    method EditCrypto(payload: Holding)
      modifies this
      ensures var index := Position(old(state), HoldingId, payload.id);
        if index == -1 then
          state == old(state) && slot == old(slot) && writes == old(writes)
        else
          state == old(state)[index := payload] && slot == Stored(state) && writes == old(writes) + 1
      ensures old(WriteThrough()) ==> WriteThrough()
    {
      var index := Position(state, HoldingId, payload.id);
      if index != -1 {
        state := state[index := payload];
        SaveToLocalStorage(state);
      }
    }

    /** deleteCrypto: keeps the holdings whose id differs, persisting the
        result whether or not anything was removed. */
    method DeleteCrypto(id: string)
      modifies this
      ensures state == Without(old(state), HoldingId, id)
      ensures slot == Stored(state) && writes == old(writes) + 1
      ensures WriteThrough()
    {
      var newState := Without(state, HoldingId, id);
      SaveToLocalStorage(newState);
      state := newState;
    }
  }

  /** An edit changes only the first holding with the payload's id: the
      length and every other position stay as they were, and a later
      holding with the same id keeps its old value. */
  lemma EditReplacesFirstMatchOnly(s: seq<Holding>, payload: Holding)
    requires Position(s, HoldingId, payload.id) != -1
    ensures var index := Position(s, HoldingId, payload.id);
      var t := s[index := payload];
      && |t| == |s|
      && t[index] == payload
      && (forall i :: 0 <= i < index ==> t[i] == s[i] && s[i].id != payload.id)
      && (forall i :: index < i < |s| ==> t[i] == s[i])
  {
  }

  /** Deleting by an id that no holding has keeps the list's content. */
  lemma DeleteAbsentKeepsContent(s: seq<Holding>, id: string)
    requires Position(s, HoldingId, id) == -1
    ensures Without(s, HoldingId, id) == s
  {
    WithoutAbsent(s, HoldingId, id);
  }

  /** Since adding does not check for duplicates, one delete removes every
      holding with that id, including the one just added; the others keep
      their order. */
  lemma DeleteAfterAdd(s: seq<Holding>, payload: Holding)
    ensures Without(s + [payload], HoldingId, payload.id) == Without(s, HoldingId, payload.id)
    ensures forall i :: 0 <= i < |Without(s + [payload], HoldingId, payload.id)| ==>
      Without(s + [payload], HoldingId, payload.id)[i].id != payload.id
  {
    WithoutAppend(s, [payload], HoldingId, payload.id);
  }
}
