/**
 * `CartProvider` (src/context/CartContext.tsx): holds the reducer state,
 * loads it once from storage and writes the whole state back after every
 * change.
 */
module CartProvider {
  import opened Wrappers
  import opened Persistence
  import opened Cart

  const StorageKey: string := "lovable_cart_v1"

  /** The lazy initial state: the stored cart, or an empty one when the slot is absent or unparsable. */
  function InitialCart(saved: map<string, Snapshot<CartState>>): (r: CartState)
    ensures StorageKey in saved && saved[StorageKey].Stored? ==> r == saved[StorageKey].value
    ensures StorageKey !in saved || saved[StorageKey].Corrupt? ==> r.items == []
  {
    Load(saved, StorageKey).GetOr(EmptyCart)
  }

  /** Saving a cart and loading from scratch gives the same cart back. */
  lemma ReloadRoundTrip(storage: map<string, Snapshot<CartState>>, state: CartState)
    ensures InitialCart(Save(storage, StorageKey, state)) == state
  {
  }

  class CartStore {
    var state: CartState
    var storage: map<string, Snapshot<CartState>>

    /** The storage slot holds the full current state. */
    ghost predicate Valid()
      reads this
    {
      StorageKey in storage && storage[StorageKey] == Stored(state)
    }

    /** Mounting: load the initial state, then the persist effect runs once. */
    constructor (saved: map<string, Snapshot<CartState>>)
      ensures Valid()
      ensures state == InitialCart(saved)
      ensures storage == Save(saved, StorageKey, state)
    {
      state := InitialCart(saved);
      storage := Save(saved, StorageKey, InitialCart(saved));
    }

    /** `subtotal`, recomputed from the current items. */
    function SubtotalNow(): int
      reads this
    {
      Subtotal(state.items)
    }

    /** `count`, recomputed from the current items. */
    function CountNow(): int
      reads this
    {
      Count(state.items)
    }

    /** Apply one action and persist the resulting state. */
    method Dispatch(action: Action, newId: string)
      requires Valid()
      modifies this
      ensures Valid()
      ensures state == Reduce(old(state), action, newId)
      ensures storage == Save(old(storage), StorageKey, state)
    {
      state := Reduce(state, action, newId);
      storage := Save(storage, StorageKey, state);
    }

    /** `addItem`: the new line comes first, under the fresh id. */
    method AddItem(item: ItemDraft, newId: string)
      requires Valid()
      requires Fresh(newId, state.items)
      modifies this
      ensures Valid()
      ensures state.items == [WithId(newId, item)] + old(state.items)
      ensures storage == Save(old(storage), StorageKey, state)
      ensures old(ItemsOk(state.items)) && DraftOk(item) ==> ItemsOk(state.items)
      ensures old(UniqueIds(state.items)) ==> UniqueIds(state.items)
      ensures SubtotalNow() == old(SubtotalNow()) + item.unitPrice * item.quantity
      ensures CountNow() == old(CountNow()) + item.quantity
    {
      ghost var before := state;
      AddTotals(before, item, newId);
      if ItemsOk(before.items) && DraftOk(item) {
        ReduceKeepsItemsOk(before, Add(item), newId);
      }
      if UniqueIds(before.items) {
        AddKeepsIdsUnique(before, item, newId);
      }
      Dispatch(Add(item), newId);
    }

    /** `removeItem`: drops every line with that id; an absent id changes no item. */
    method RemoveItem(id: string)
      requires Valid()
      modifies this
      ensures Valid()
      ensures state.items == RemoveId(old(state.items), id)
      ensures Fresh(id, old(state.items)) ==> state == old(state)
      ensures storage == Save(old(storage), StorageKey, state)
      ensures old(ItemsOk(state.items)) ==> ItemsOk(state.items)
      ensures old(UniqueIds(state.items)) ==> UniqueIds(state.items)
    {
      ghost var before := state;
      if Fresh(id, before.items) {
        RemoveAbsent(before.items, id);
      }
      if ItemsOk(before.items) {
        ReduceKeepsItemsOk(before, Remove(id), "");
      }
      if UniqueIds(before.items) {
        RemoveKeepsIdsUnique(before.items, id);
      }
      Dispatch(Remove(id), "");
    }

    /** `updateQuantity`: sets the matching lines' quantity to `max(1, qty)` in place. */
    method UpdateQuantity(id: string, qty: int)
      requires Valid()
      modifies this
      ensures Valid()
      ensures state.items == SetQuantity(old(state.items), id, qty)
      ensures storage == Save(old(storage), StorageKey, state)
      ensures old(ItemsOk(state.items)) ==> ItemsOk(state.items)
      ensures old(UniqueIds(state.items)) ==> UniqueIds(state.items)
    {
      ghost var before := state;
      if ItemsOk(before.items) {
        ReduceKeepsItemsOk(before, Qty(id, qty), "");
      }
      Dispatch(Qty(id, qty), "");
    }

    /** `clear`: also what a completed checkout triggers. */
    method Clear()
      requires Valid()
      modifies this
      ensures Valid()
      ensures state.items == []
      ensures storage == Save(old(storage), StorageKey, state)
      ensures SubtotalNow() == 0 && CountNow() == 0
    {
      Dispatch(Cart.Clear, "");
    }
  }

  /** A short session: two adds, a removal of the first, a quantity change and a
      reload all behave as the store's contracts say. */
  method Scenario(saved: map<string, Snapshot<CartState>>, a: ItemDraft, b: ItemDraft)
    requires DraftOk(a) && DraftOk(b)
    requires StorageKey !in saved
  {
    var store := new CartStore(saved);
    assert store.state.items == [];
    store.AddItem(a, "id-a");
    store.AddItem(b, "id-b");
    assert store.state.items[0].id == "id-b" && store.state.items[1].id == "id-a";
    store.RemoveItem("id-a");
    assert store.state.items == [WithId("id-b", b)];
    store.UpdateQuantity("id-b", 0);
    assert store.state.items[0].quantity == 1;
    ReloadRoundTrip(saved, store.state);
    assert InitialCart(store.storage) == store.state;
  }
}
