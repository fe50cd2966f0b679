/**
 * The cart's data and its reducer (src/context/CartContext.tsx): a closed set
 * of transitions over a newest-first list of line items, and the two totals
 * derived from that list.
 */
module Cart {
  import opened Wrappers

  /** One priced, quantified line of the cart; prices are in cents. */
  datatype CartItem = CartItem(
    id: string,
    productId: string,
    name: string,
    options: map<string, string>,
    quantity: int,
    unitPrice: int,
    artworkPreviewUrl: Option<string>)

  /** A line item before the store gives it an id (`Omit<CartItem, "id">`). */
  datatype ItemDraft = ItemDraft(
    productId: string,
    name: string,
    options: map<string, string>,
    quantity: int,
    unitPrice: int,
    artworkPreviewUrl: Option<string>)

  datatype CartState = CartState(items: seq<CartItem>)

  /** The actions the reducer recognises; `Unrecognized` stands for any other `type`. */
  datatype Action =
    | Add(payload: ItemDraft)
    | Remove(id: string)
    | Qty(id: string, qty: int)
    | Clear
    | Unrecognized

  const EmptyCart := CartState([])

  /** `{ id, ...payload }` */
  function WithId(id: string, d: ItemDraft): (it: CartItem)
    ensures it.id == id && DraftOf(it) == d
  {
    CartItem(id, d.productId, d.name, d.options, d.quantity, d.unitPrice, d.artworkPreviewUrl)
  }

  /** The item with its id left out. */
  function DraftOf(it: CartItem): ItemDraft {
    ItemDraft(it.productId, it.name, it.options, it.quantity, it.unitPrice, it.artworkPreviewUrl)
  }

  /** `Math.max(1, qty)` */
  function ClampQuantity(qty: int): (r: int)
    ensures r >= 1
    ensures qty >= 1 ==> r == qty
    ensures qty < 1 ==> r == 1
  {
    if qty < 1 then 1 else qty
  }

  /** No item of `items` carries `id`. */
  ghost predicate Fresh(id: string, items: seq<CartItem>) {
    forall i :: 0 <= i < |items| ==> items[i].id != id
  }

  /** No two items share an id. */
  ghost predicate UniqueIds(items: seq<CartItem>) {
    forall i, j :: 0 <= i < j < |items| ==> items[i].id != items[j].id
  }

  /** `items.filter((i) => i.id !== id)` */
  function RemoveId(items: seq<CartItem>, id: string): (r: seq<CartItem>)
    ensures |r| <= |items|
    ensures forall it :: it in r <==> it in items && it.id != id
  {
    if items == [] then []
    else if items[0].id != id then [items[0]] + RemoveId(items[1..], id)
    else RemoveId(items[1..], id)
  }

  /** `items.map((i) => i.id === id ? { ...i, quantity: Math.max(1, qty) } : i)` */
  function SetQuantity(items: seq<CartItem>, id: string, qty: int): (r: seq<CartItem>)
    ensures |r| == |items|
    ensures forall i :: 0 <= i < |items| ==>
      r[i] == if items[i].id == id then items[i].(quantity := ClampQuantity(qty)) else items[i]
  {
    if items == [] then []
    else
      var head := if items[0].id == id then items[0].(quantity := ClampQuantity(qty)) else items[0];
      [head] + SetQuantity(items[1..], id, qty)
  }

  /**
   * `cartReducer`. The id that `crypto.randomUUID()` would produce for an
   * `Add` is the parameter `newId`; the other actions ignore it.
   */
  function Reduce(state: CartState, action: Action, newId: string): CartState {
    match action
    case Add(payload) => state.(items := [WithId(newId, payload)] + state.items)
    case Remove(id) => state.(items := RemoveId(state.items, id))
    case Qty(id, qty) => state.(items := SetQuantity(state.items, id, qty))
    case Clear => CartState([])
    case Unrecognized => state
  }

  /** `items.reduce((acc, i) => acc + i.unitPrice * i.quantity, 0)` */
  function Subtotal(items: seq<CartItem>): int {
    if items == [] then 0 else items[0].unitPrice * items[0].quantity + Subtotal(items[1..])
  }

  /** `items.reduce((acc, i) => acc + i.quantity, 0)` */
  function Count(items: seq<CartItem>): int {
    if items == [] then 0 else items[0].quantity + Count(items[1..])
  }

  // ---------------------------------------------------------------------------
  // ADD

  /** ADD puts the new item first and keeps every old item, in order, after it. */
  lemma AddPrepends(state: CartState, d: ItemDraft, newId: string)
    ensures var r := Reduce(state, Add(d), newId).items;
      && |r| == |state.items| + 1
      && r[0].id == newId && DraftOf(r[0]) == d
      && r[1..] == state.items
  {
  }

  /** With a fresh id, ADD keeps ids unique. */
  lemma AddKeepsIdsUnique(state: CartState, d: ItemDraft, newId: string)
    requires UniqueIds(state.items) && Fresh(newId, state.items)
    ensures UniqueIds(Reduce(state, Add(d), newId).items)
  {
  }

  /** ADD raises the subtotal by the new line's total and the count by its quantity. */
  lemma AddTotals(state: CartState, d: ItemDraft, newId: string)
    ensures Subtotal(Reduce(state, Add(d), newId).items) == Subtotal(state.items) + d.unitPrice * d.quantity
    ensures Count(Reduce(state, Add(d), newId).items) == Count(state.items) + d.quantity
  {
  }

  // ---------------------------------------------------------------------------
  // REMOVE

  /** Removing an id no item carries leaves the items exactly as they were. */
  lemma {:induction false} RemoveAbsent(items: seq<CartItem>, id: string)
    requires Fresh(id, items)
    ensures RemoveId(items, id) == items
  {
    if items != [] {
      RemoveAbsent(items[1..], id);
      assert [items[0]] + items[1..] == items;
    }
  }

  /** REMOVE filters each part of the list on its own: the kept items stay in their original order. */
  lemma {:induction false} RemoveKeepsOrder(a: seq<CartItem>, b: seq<CartItem>, id: string)
    ensures RemoveId(a + b, id) == RemoveId(a, id) + RemoveId(b, id)
  {
    if a == [] {
      assert a + b == b;
    } else {
      assert (a + b)[0] == a[0];
      assert (a + b)[1..] == a[1..] + b;
      RemoveKeepsOrder(a[1..], b, id);
    }
  }

  /** An id no item carries is still carried by none after a removal. */
  lemma RemoveKeepsFresh(items: seq<CartItem>, id: string, x: string)
    requires Fresh(x, items)
    ensures Fresh(x, RemoveId(items, id))
  {
  }

  /** Putting an item whose id is new in front of a list with unique ids keeps them unique. */
  lemma ConsKeepsIdsUnique(x: CartItem, rest: seq<CartItem>)
    requires UniqueIds(rest) && Fresh(x.id, rest)
    ensures UniqueIds([x] + rest)
  {
  }

  /** Removing an id drops every item carrying it and leaves the rest's ids unique. */
  lemma {:induction false} RemoveKeepsIdsUnique(items: seq<CartItem>, id: string)
    requires UniqueIds(items)
    ensures UniqueIds(RemoveId(items, id))
    ensures Fresh(id, RemoveId(items, id))
  {
    if items != [] {
      var tail := items[1..];
      assert UniqueIds(tail) by {
        forall i, j | 0 <= i < j < |tail| ensures tail[i].id != tail[j].id {
          assert tail[i] == items[i + 1] && tail[j] == items[j + 1];
        }
      }
      RemoveKeepsIdsUnique(tail, id);
      if items[0].id != id {
        assert Fresh(items[0].id, tail) by {
          forall i | 0 <= i < |tail| ensures tail[i].id != items[0].id {
            assert tail[i] == items[i + 1];
          }
        }
        RemoveKeepsFresh(tail, id, items[0].id);
        ConsKeepsIdsUnique(items[0], RemoveId(tail, id));
      }
    }
  }

  /** ADD of a fresh id followed by REMOVE of that id restores the state exactly. */
  lemma AddThenRemove(state: CartState, d: ItemDraft, newId: string, anyId: string)
    requires Fresh(newId, state.items)
    ensures Reduce(Reduce(state, Add(d), newId), Remove(newId), anyId) == state
  {
    var added := Reduce(state, Add(d), newId).items;
    assert added == [WithId(newId, d)] + state.items;
    RemoveKeepsOrder([WithId(newId, d)], state.items, newId);
    RemoveAbsent(state.items, newId);
    assert RemoveId([WithId(newId, d)], newId) == [];
  }

  // ---------------------------------------------------------------------------
  // QTY

  /** QTY of an id no item carries changes nothing. */
  lemma QtyAbsent(items: seq<CartItem>, id: string, qty: int)
    requires Fresh(id, items)
    ensures SetQuantity(items, id, qty) == items
  {
  }

  /** With unique ids, QTY replaces exactly one quantity in the count. */
  lemma {:induction false} QtyCount(items: seq<CartItem>, k: nat, qty: int)
    requires UniqueIds(items)
    requires k < |items|
    ensures Count(SetQuantity(items, items[k].id, qty)) == Count(items) - items[k].quantity + ClampQuantity(qty)
  {
    var id := items[k].id;
    var r := SetQuantity(items, id, qty);
    assert r[1..] == SetQuantity(items[1..], id, qty);
    if k == 0 {
      assert Fresh(id, items[1..]) by {
        forall i | 0 <= i < |items[1..]| ensures items[1..][i].id != id {
          assert items[1..][i] == items[i + 1];
        }
      }
      QtyAbsent(items[1..], id, qty);
    } else {
      assert items[1..][k - 1] == items[k];
      assert UniqueIds(items[1..]) by {
        forall i, j | 0 <= i < j < |items[1..]| ensures items[1..][i].id != items[1..][j].id {
          assert items[1..][i] == items[i + 1] && items[1..][j] == items[j + 1];
        }
      }
      QtyCount(items[1..], k - 1, qty);
    }
  }

  // ---------------------------------------------------------------------------
  // CLEAR, the default case, and the totals

  /** CLEAR empties the cart; an unrecognised action returns the state as it was. */
  lemma ClearAndUnrecognized(state: CartState, newId: string)
    ensures Reduce(state, Clear, newId).items == []
    ensures Reduce(state, Unrecognized, newId) == state
  {
  }

  /** Both totals of an empty cart are 0. */
  lemma EmptyTotals()
    ensures Subtotal([]) == 0 && Count([]) == 0
  {
  }

  /** Totals over a concatenation add up. */
  lemma {:induction false} TotalsAppend(a: seq<CartItem>, b: seq<CartItem>)
    ensures Subtotal(a + b) == Subtotal(a) + Subtotal(b)
    ensures Count(a + b) == Count(a) + Count(b)
  {
    if a == [] {
      assert a + b == b;
    } else {
      assert (a + b)[0] == a[0];
      assert (a + b)[1..] == a[1..] + b;
      TotalsAppend(a[1..], b);
    }
  }

  // ---------------------------------------------------------------------------
  // The cart invariant

  ghost predicate ItemOk(it: CartItem) {
    it.quantity >= 1 && it.unitPrice >= 0
  }

  predicate DraftOk(d: ItemDraft) {
    d.quantity >= 1 && d.unitPrice >= 0
  }

  /** Every quantity is at least 1 and every unit price non-negative. */
  ghost predicate ItemsOk(items: seq<CartItem>) {
    forall i :: 0 <= i < |items| ==> ItemOk(items[i])
  }

  /** `ItemsOk`, and ids are unique. */
  ghost predicate Invariant(items: seq<CartItem>) {
    ItemsOk(items) && UniqueIds(items)
  }

  /** Where every quantity is at least 1, the count is at least the number of lines. */
  lemma {:induction false} CountAtLeastLines(items: seq<CartItem>)
    requires ItemsOk(items)
    ensures Count(items) >= |items|
    ensures Subtotal(items) >= 0
  {
    if items != [] {
      assert ItemOk(items[0]);
      assert forall i :: 0 <= i < |items[1..]| ==> items[1..][i] == items[i + 1];
      CountAtLeastLines(items[1..]);
    }
  }

  /** Every action keeps `ItemsOk`, given a valid draft for ADD; ids play no part. */
  lemma ReduceKeepsItemsOk(state: CartState, action: Action, newId: string)
    requires ItemsOk(state.items)
    requires action.Add? ==> DraftOk(action.payload)
    ensures ItemsOk(Reduce(state, action, newId).items)
  {
  }

  /** One dispatch, with what the store's caller supplies: a fresh id and a valid draft for ADD. */
  datatype Step = Step(action: Action, newId: string)

  ghost predicate StepOk(state: CartState, step: Step) {
    step.action.Add? ==> DraftOk(step.action.payload) && Fresh(step.newId, state.items)
  }

  /** Every dispatch keeps the invariant, ids included, when ADD uses a fresh id. */
  lemma ReduceKeepsInvariant(state: CartState, step: Step)
    requires Invariant(state.items) && StepOk(state, step)
    ensures Invariant(Reduce(state, step.action, step.newId).items)
  {
    ReduceKeepsItemsOk(state, step.action, step.newId);
    match step.action
    case Add(d) => AddKeepsIdsUnique(state, d, step.newId);
    case Remove(id) => RemoveKeepsIdsUnique(state.items, id);
    case Qty(id, qty) =>
    case Clear =>
    case Unrecognized =>
  }

  /** The state after dispatching `steps` in order. */
  function Run(state: CartState, steps: seq<Step>): CartState
    decreases |steps|
  {
    if steps == [] then state else Run(Reduce(state, steps[0].action, steps[0].newId), steps[1..])
  }

  /** Every ADD among `steps` carries a valid draft. */
  ghost predicate DraftsOk(steps: seq<Step>) {
    forall i :: 0 <= i < |steps| && steps[i].action.Add? ==> DraftOk(steps[i].action.payload)
  }

  /** Every step of `steps` is admissible in the state it is applied to. */
  ghost predicate Admissible(state: CartState, steps: seq<Step>)
    decreases |steps|
  {
    steps == [] ||
    (StepOk(state, steps[0]) && Admissible(Reduce(state, steps[0].action, steps[0].newId), steps[1..]))
  }

  /** Any sequence of dispatches whose ADDs carry valid drafts keeps `ItemsOk`,
      whatever the ids; so the count is at least the number of lines and the
      subtotal is non-negative at the end. */
  lemma {:induction false} RunKeepsItemsOk(state: CartState, steps: seq<Step>)
    requires ItemsOk(state.items) && DraftsOk(steps)
    ensures ItemsOk(Run(state, steps).items)
    ensures Count(Run(state, steps).items) >= |Run(state, steps).items|
    ensures Subtotal(Run(state, steps).items) >= 0
    decreases |steps|
  {
    if steps == [] {
      CountAtLeastLines(state.items);
    } else {
      ReduceKeepsItemsOk(state, steps[0].action, steps[0].newId);
      assert DraftsOk(steps[1..]) by {
        forall i | 0 <= i < |steps[1..]| && steps[1..][i].action.Add?
          ensures DraftOk(steps[1..][i].action.payload)
        {
          assert steps[1..][i] == steps[i + 1];
        }
      }
      RunKeepsItemsOk(Reduce(state, steps[0].action, steps[0].newId), steps[1..]);
    }
  }

  /** Any admissible sequence of dispatches keeps the whole invariant, unique ids included. */
  lemma {:induction false} RunKeepsInvariant(state: CartState, steps: seq<Step>)
    requires Invariant(state.items) && Admissible(state, steps)
    ensures Invariant(Run(state, steps).items)
    decreases |steps|
  {
    if steps != [] {
      ReduceKeepsInvariant(state, steps[0]);
      RunKeepsInvariant(Reduce(state, steps[0].action, steps[0].newId), steps[1..]);
    }
  }

  /** A prefix of an admissible sequence is admissible. */
  lemma {:induction false} AdmissiblePrefix(state: CartState, steps: seq<Step>, k: nat)
    requires Admissible(state, steps) && k <= |steps|
    ensures Admissible(state, steps[..k])
    decreases k
  {
    if k > 0 {
      assert steps[..k][0] == steps[0];
      assert steps[..k][1..] == steps[1..][..k - 1];
      AdmissiblePrefix(Reduce(state, steps[0].action, steps[0].newId), steps[1..], k - 1);
    }
  }

  /** The guarantees hold after every prefix of the sequence, not only at its end. */
  lemma RunThroughout(state: CartState, steps: seq<Step>)
    requires ItemsOk(state.items) && DraftsOk(steps)
    ensures forall k :: 0 <= k <= |steps| ==>
      && ItemsOk(Run(state, steps[..k]).items)
      && Count(Run(state, steps[..k]).items) >= |Run(state, steps[..k]).items|
      && Subtotal(Run(state, steps[..k]).items) >= 0
    ensures UniqueIds(state.items) && Admissible(state, steps) ==>
      forall k :: 0 <= k <= |steps| ==> UniqueIds(Run(state, steps[..k]).items)
  {
    forall k | 0 <= k <= |steps|
      ensures && ItemsOk(Run(state, steps[..k]).items)
              && Count(Run(state, steps[..k]).items) >= |Run(state, steps[..k]).items|
              && Subtotal(Run(state, steps[..k]).items) >= 0
              && (UniqueIds(state.items) && Admissible(state, steps) ==> UniqueIds(Run(state, steps[..k]).items))
    {
      assert DraftsOk(steps[..k]) by {
        forall i | 0 <= i < k && steps[..k][i].action.Add? ensures DraftOk(steps[..k][i].action.payload) {
          assert steps[..k][i] == steps[i];
        }
      }
      RunKeepsItemsOk(state, steps[..k]);
      if UniqueIds(state.items) && Admissible(state, steps) {
        AdmissiblePrefix(state, steps, k);
        RunKeepsInvariant(state, steps[..k]);
      }
    }
  }
}
