/** The shopping-cart reducer: a pure transition function over an ordered
    list of line items, each transition recomputing the cart total, and the
    store that holds the current cart and applies dispatched actions. */
module CartContext {
  import opened Common

  /** One line of the cart. `id`, `price` and `quantity` are JavaScript
      numbers, modelled here as unbounded integers. */
  datatype CartItem = CartItem(
    id: int,
    productId: int,
    name: string,
    price: int,
    quantity: int,
    imageUrl: Option<string>,
    color: Option<string>,
    storage: Option<string>)

  datatype CartState = CartState(items: seq<CartItem>, total: int)

  datatype Action =
    | AddItem(payload: CartItem)
    | RemoveItem(id: int)
    | UpdateQuantity(id: int, quantity: int)
    | ClearCart
      /** any other action object, which falls to the reducer's `default` branch */
    | Unrecognised

  /** Two lines are the same line of the cart iff their variant keys agree. */
  datatype VariantKey = VariantKey(productId: int, color: Option<string>, storage: Option<string>)

  function Key(item: CartItem): VariantKey
  {
    VariantKey(item.productId, item.color, item.storage)
  }

  function LineTotal(item: CartItem): int
  {
    item.price * item.quantity
  }

  /** The sum of price times quantity over the lines, accumulated from the
      first line to the last as `reduce` does. */
  function Total(items: seq<CartItem>): int
  {
    if items == [] then 0 else Total(items[..|items| - 1]) + LineTotal(items[|items| - 1])
  }

  /** The derived `total` agrees with the lines. */
  predicate TotalConsistent(s: CartState)
  {
    s.total == Total(s.items)
  }

  predicate UniqueIds(items: seq<CartItem>)
  {
    forall i, j :: 0 <= i < j < |items| ==> items[i].id != items[j].id
  }

  predicate UniqueKeys(items: seq<CartItem>)
  {
    forall i, j :: 0 <= i < j < |items| ==> Key(items[i]) != Key(items[j])
  }

  predicate NonNegativeQuantities(items: seq<CartItem>)
  {
    forall i :: 0 <= i < |items| ==> items[i].quantity >= 0
  }

  predicate PositiveQuantities(items: seq<CartItem>)
  {
    forall i :: 0 <= i < |items| ==> items[i].quantity >= 1
  }

  const InitialState: CartState := CartState([], 0)

  /** The number of units in the lines: the sum of their quantities,
      accumulated from the first line to the last as `reduce` does. With
      quantities of at least 1 there are at least as many units as lines. */
  function CartItemsCount(items: seq<CartItem>): (r: int)
    ensures NonNegativeQuantities(items) ==> r >= 0
    ensures PositiveQuantities(items) ==> r >= |items|
  {
    if items == [] then 0
    else
      var prefix := items[..|items| - 1];
      assert forall i :: 0 <= i < |prefix| ==> prefix[i] == items[i];
      CartItemsCount(prefix) + items[|items| - 1].quantity
  }

  /** `items.find(...)` on the variant key, as the index of the first line
      whose key matches, if any. */
  function FindVariant(items: seq<CartItem>, key: VariantKey): (r: Option<nat>)
    ensures r.Some? ==> r.value < |items| && Key(items[r.value]) == key
    ensures r.Some? ==> forall j :: 0 <= j < r.value ==> Key(items[j]) != key
    ensures r.None? <==> forall i :: 0 <= i < |items| ==> Key(items[i]) != key
  {
    if items == [] then None
    else if Key(items[0]) == key then Some(0)
    else match FindVariant(items[1..], key)
      case None => None
      case Some(j) => Some(j + 1)
  }

  /** The `map` of the merge branch: every line carrying `id` gets `extra` more. */
  function AddQuantityWhereId(items: seq<CartItem>, id: int, extra: int): seq<CartItem>
  {
    seq(|items|, i requires 0 <= i < |items| =>
      if items[i].id == id then items[i].(quantity := items[i].quantity + extra) else items[i])
  }

  /** The `map` of UPDATE_QUANTITY: every line carrying `id` gets quantity `q`. */
  function SetQuantityWhereId(items: seq<CartItem>, id: int, q: int): seq<CartItem>
  {
    seq(|items|, i requires 0 <= i < |items| =>
      if items[i].id == id then items[i].(quantity := q) else items[i])
  }

  function Max(a: int, b: int): int
  {
    if a < b then b else a
  }

  /** `cartReducer`. The merge branch finds the matching line by variant key
      and then raises the quantity of every line whose `id` equals that
      line's id. */
  function Reduce(state: CartState, action: Action): (r: CartState)
    ensures action.Unrecognised? ==> r == state
    ensures !action.Unrecognised? ==> TotalConsistent(r)
    ensures action.ClearCart? ==> r.items == [] && r.total == 0
  {
    match action
    case AddItem(p) =>
      (match FindVariant(state.items, Key(p))
       case Some(k) =>
         var updated := AddQuantityWhereId(state.items, state.items[k].id, p.quantity);
         CartState(updated, Total(updated))
       case None =>
         var appended := state.items + [p];
         CartState(appended, Total(appended)))
    case RemoveItem(id) =>
      var kept := Filter(state.items, (item: CartItem) => item.id != id);
      CartState(kept, Total(kept))
    case UpdateQuantity(id, q) =>
      var updated := SetQuantityWhereId(state.items, id, Max(1, q));
      CartState(updated, Total(updated))
    case ClearCart => CartState([], 0)
    case Unrecognised => state
  }

  /** Actions applied one after another, as successive dispatches do. */
  function Run(state: CartState, actions: seq<Action>): CartState
    decreases |actions|
  {
    if actions == [] then state else Run(Reduce(state, actions[0]), actions[1..])
  }

  // ---------------------------------------------------------------- totals

  lemma {:induction false} TotalAppend(items: seq<CartItem>, x: CartItem)
    ensures Total(items + [x]) == Total(items) + LineTotal(x)
  {
    assert (items + [x])[..|items|] == items;
  }

  lemma {:induction false} TotalSetAt(items: seq<CartItem>, k: nat, x: CartItem)
    requires k < |items|
    ensures Total(items[k := x]) == Total(items) - LineTotal(items[k]) + LineTotal(x)
    decreases |items|
  {
    var n := |items|;
    if k == n - 1 {
      assert items[k := x][..n - 1] == items[..n - 1];
    } else {
      assert items[k := x][..n - 1] == items[..n - 1][k := x];
      TotalSetAt(items[..n - 1], k, x);
    }
  }

  lemma {:induction false} CountAppend(items: seq<CartItem>, x: CartItem)
    ensures CartItemsCount(items + [x]) == CartItemsCount(items) + x.quantity
  {
    assert (items + [x])[..|items|] == items;
  }

  lemma {:induction false} CountSetAt(items: seq<CartItem>, k: nat, x: CartItem)
    requires k < |items|
    ensures CartItemsCount(items[k := x]) == CartItemsCount(items) - items[k].quantity + x.quantity
    decreases |items|
  {
    var n := |items|;
    var prefix, last := items[..n - 1], items[n - 1];
    assert items == prefix + [last];
    CountAppend(prefix, last);
    if k == n - 1 {
      assert items[k := x] == prefix + [x];
      CountAppend(prefix, x);
    } else {
      assert items[k := x] == prefix[k := x] + [last];
      CountAppend(prefix[k := x], last);
      CountSetAt(prefix, k, x);
    }
  }

  /** The count may equally be accumulated from the front. */
  lemma {:induction false} CountCons(items: seq<CartItem>)
    requires items != []
    ensures CartItemsCount(items) == items[0].quantity + CartItemsCount(items[1..])
    decreases |items|
  {
    var n := |items|;
    if n > 1 {
      assert items[..n - 1][1..] == items[1..][..n - 2];
      CountCons(items[..n - 1]);
    } else {
      assert items[1..] == [];
    }
  }

  /** From a cart whose total agrees with its lines, any sequence of
      dispatches yields a cart whose total agrees with its lines. */
  lemma {:induction false} RunKeepsTotalConsistent(state: CartState, actions: seq<Action>)
    requires TotalConsistent(state)
    ensures TotalConsistent(Run(state, actions))
    decreases |actions|
  {
    if actions != [] {
      RunKeepsTotalConsistent(Reduce(state, actions[0]), actions[1..]);
    }
  }

  // ---------------------------------------------------------------- ADD_ITEM

  /** For any cart, unique ids or not, the merge raises every line whose id
      equals the matched line's id, whatever its variant, and leaves every
      other line and the number of lines as they were. */
  lemma MergeRaisesEveryLineSharingId(state: CartState, p: CartItem, k: nat)
    requires FindVariant(state.items, Key(p)) == Some(k)
    ensures var r := Reduce(state, AddItem(p)).items;
      && |r| == |state.items|
      && forall i :: 0 <= i < |r| ==>
           r[i] == if state.items[i].id == state.items[k].id
                   then state.items[i].(quantity := state.items[i].quantity + p.quantity)
                   else state.items[i]
  {
  }

  /** Adding a variant that is already in the cart merges into its line:
      same number of lines, that line (keeping its own id, name and price)
      gains the payload's quantity, every other line is unchanged, and the
      total grows by the line's price times the added quantity. Stated for
      carts whose ids are unique; otherwise every line sharing the found
      line's id is raised as well. */
  lemma AddExistingVariant(state: CartState, p: CartItem, k: nat)
    requires UniqueIds(state.items)
    requires FindVariant(state.items, Key(p)) == Some(k)
    ensures var r := Reduce(state, AddItem(p));
      && |r.items| == |state.items|
      && r.items[k] == state.items[k].(quantity := state.items[k].quantity + p.quantity)
      && (forall i :: 0 <= i < |state.items| && i != k ==> r.items[i] == state.items[i])
      && r.total == Total(state.items) + state.items[k].price * p.quantity
  {
    var items := state.items;
    var merged := items[k].(quantity := items[k].quantity + p.quantity);
    var updated := items[k := merged];
    MergeIntoUniqueLine(items, k, p.quantity);
    assert Reduce(state, AddItem(p)) == CartState(updated, Total(updated));
    TotalSetAt(items, k, merged);
    MergedLineTotal(items[k], p.quantity);
  }

  /** Raising a line's quantity by `extra` raises its line total by its
      price times `extra`. */
  lemma MergedLineTotal(item: CartItem, extra: int)
    ensures LineTotal(item.(quantity := item.quantity + extra)) == LineTotal(item) + item.price * extra
  {
    assert item.price * (item.quantity + extra) == item.price * item.quantity + item.price * extra;
  }

  /** With unique ids, raising every line that carries line `k`'s id raises
      line `k` alone. */
  lemma MergeIntoUniqueLine(items: seq<CartItem>, k: nat, extra: int)
    requires UniqueIds(items) && k < |items|
    ensures AddQuantityWhereId(items, items[k].id, extra)
         == items[k := items[k].(quantity := items[k].quantity + extra)]
  {
    var updated := AddQuantityWhereId(items, items[k].id, extra);
    forall i | 0 <= i < |items| && i != k
      ensures updated[i] == items[i]
    {
      if i < k { assert items[i].id != items[k].id; } else { assert items[k].id != items[i].id; }
    }
  }

  /** For example, a second line with the same id but a different variant is
      raised too. */
  lemma MergeRaisesLinesSharingId()
    ensures var a := CartItem(7, 1, "iPhone 15", 100, 1, None, Some("black"), None);
      var b := CartItem(7, 1, "iPhone 15", 100, 2, None, Some("white"), None);
      var p := CartItem(9, 1, "iPhone 15", 100, 3, None, Some("black"), None);
      Reduce(CartState([a, b], 300), AddItem(p)).items
        == [a.(quantity := 4), b.(quantity := 5)]
  {
  }

  /** Adding a variant that is not in the cart appends the payload, as given,
      after the existing lines, which keep their order and contents. */
  lemma AddNewVariant(state: CartState, p: CartItem)
    requires FindVariant(state.items, Key(p)) == None
    ensures Reduce(state, AddItem(p)).items == state.items + [p]
    ensures Reduce(state, AddItem(p)).total == Total(state.items) + p.price * p.quantity
  {
    TotalAppend(state.items, p);
  }

  // ---------------------------------------------------------------- REMOVE_ITEM

  /** REMOVE_ITEM drops the lines with the id and only those, keeping the
      relative order of the rest and how often each remaining line occurs;
      an id that is not in the cart changes nothing. */
  lemma RemoveDropsExactlyId(state: CartState, id: int)
    ensures var r := Reduce(state, RemoveItem(id)).items;
      && IsSubsequence(r, state.items)
      && (forall i :: 0 <= i < |r| ==> r[i].id != id)
      && multiset(r) <= multiset(state.items)
      && (forall i :: 0 <= i < |state.items| && state.items[i].id != id ==>
            multiset(r)[state.items[i]] == multiset(state.items)[state.items[i]])
      && ((forall i :: 0 <= i < |state.items| ==> state.items[i].id != id) ==> r == state.items)
  {
    FilterCounts(state.items, (item: CartItem) => item.id != id);
  }

  // ---------------------------------------------------------------- UPDATE_QUANTITY

  /** UPDATE_QUANTITY sets the lines carrying the id to quantity max(1, q)
      and leaves the number of lines, their order, all other fields and all
      other lines as they were. */
  lemma UpdateSetsClampedQuantity(state: CartState, id: int, q: int)
    ensures var r := Reduce(state, UpdateQuantity(id, q)).items;
      && |r| == |state.items|
      && (forall i :: 0 <= i < |r| && state.items[i].id == id ==>
            r[i] == state.items[i].(quantity := Max(1, q)) && r[i].quantity >= 1)
      && (forall i :: 0 <= i < |r| && state.items[i].id != id ==> r[i] == state.items[i])
  {
  }

  // ---------------------------------------------------------------- invariants

  lemma {:induction false} UniqueKeysSubsequence(a: seq<CartItem>, b: seq<CartItem>)
    requires IsSubsequence(a, b) && UniqueKeys(b)
    ensures UniqueKeys(a)
    decreases |b|
  {
    if b != [] {
      if a != [] && a[0] == b[0] && IsSubsequence(a[1..], b[1..]) {
        UniqueKeysSubsequence(a[1..], b[1..]);
        SubsequenceMembers(a[1..], b[1..]);
        forall i, j | 0 <= i < j < |a| ensures Key(a[i]) != Key(a[j]) {
          if i == 0 {
            assert a[j] == a[1..][j - 1];
            var m :| 0 <= m < |b[1..]| && b[1..][m] == a[j];
            assert b[m + 1] == a[j];
          } else {
            assert a[i] == a[1..][i - 1] && a[j] == a[1..][j - 1];
          }
        }
      } else {
        UniqueKeysSubsequence(a, b[1..]);
      }
    }
  }

  /** If no two lines share a variant key, no action makes two lines share
      one: a merge keeps every key, an append happens only for an absent
      key, and removal and quantity updates never change a key. */
  lemma ReduceKeepsUniqueKeys(state: CartState, action: Action)
    requires UniqueKeys(state.items)
    ensures UniqueKeys(Reduce(state, action).items)
  {
    match action
    case AddItem(p) =>
    case RemoveItem(id) =>
      UniqueKeysSubsequence(Reduce(state, action).items, state.items);
    case UpdateQuantity(id, q) =>
    case ClearCart =>
    case Unrecognised =>
  }

  /** If every line has quantity at least 1, and an added payload does too,
      every line still has quantity at least 1 afterwards. */
  lemma ReduceKeepsPositiveQuantities(state: CartState, action: Action)
    requires PositiveQuantities(state.items)
    requires action.AddItem? ==> action.payload.quantity >= 1
    ensures PositiveQuantities(Reduce(state, action).items)
  {
    var r := Reduce(state, action).items;
    match action
    case AddItem(p) =>
      forall i | 0 <= i < |r| ensures r[i].quantity >= 1 {
        if i < |state.items| { assert state.items[i].quantity >= 1; }
      }
    case RemoveItem(id) =>
      forall i | 0 <= i < |r| ensures r[i].quantity >= 1 {
        assert r[i] in state.items;
      }
    case UpdateQuantity(id, q) =>
      forall i | 0 <= i < |r| ensures r[i].quantity >= 1 {
        assert state.items[i].quantity >= 1;
      }
    case ClearCart =>
    case Unrecognised =>
  }

  // ---------------------------------------------------------------- CLEAR_CART

  /** CLEAR_CART empties any cart, and the empty cart is the initial one. */
  lemma ClearCartResets(state: CartState)
    ensures Reduce(state, ClearCart) == InitialState
    ensures InitialState.items == [] && InitialState.total == 0
  {
  }

  // ---------------------------------------------------------------- sequences of actions

  function AddAll(ps: seq<CartItem>): seq<Action>
  {
    seq(|ps|, i requires 0 <= i < |ps| => AddItem(ps[i]))
  }

  lemma {:induction false} AddAllIntoSingleLine(x: CartItem, total: int, ps: seq<CartItem>)
    requires forall i :: 0 <= i < |ps| ==> Key(ps[i]) == Key(x)
    ensures Run(CartState([x], total), AddAll(ps)).items
      == [x.(quantity := x.quantity + CartItemsCount(ps))]
    decreases |ps|
  {
    if ps != [] {
      var s1 := Reduce(CartState([x], total), AddItem(ps[0]));
      var x1 := x.(quantity := x.quantity + ps[0].quantity);
      assert s1.items == [x1];
      assert AddAll(ps)[1..] == AddAll(ps[1..]);
      AddAllIntoSingleLine(x1, s1.total, ps[1..]);
      CountCons(ps);
    }
  }

  /** Adding any number of payloads that share one variant key to an empty
      cart yields a single line: the first payload, with the sum of all the
      added quantities. */
  lemma {:induction false} RepeatedAddOfOneVariant(ps: seq<CartItem>)
    requires |ps| >= 1
    requires forall i :: 0 <= i < |ps| ==> Key(ps[i]) == Key(ps[0])
    ensures Run(InitialState, AddAll(ps)).items == [ps[0].(quantity := CartItemsCount(ps))]
  {
    var s1 := Reduce(InitialState, AddItem(ps[0]));
    assert s1.items == [ps[0]];
    assert AddAll(ps)[1..] == AddAll(ps[1..]);
    AddAllIntoSingleLine(ps[0], s1.total, ps[1..]);
    CountCons(ps);
  }

  /** Removing the line of a variant and then adding that variant again
      appends a new line instead of merging into a stale one. */
  lemma RemoveThenAddAppends(state: CartState, k: nat, p: CartItem)
    requires UniqueKeys(state.items)
    requires k < |state.items| && Key(state.items[k]) == Key(p)
    ensures var removed := Reduce(state, RemoveItem(state.items[k].id));
      Reduce(removed, AddItem(p)).items == removed.items + [p]
  {
    var id := state.items[k].id;
    var removed := Reduce(state, RemoveItem(id));
    SubsequenceMembers(removed.items, state.items);
    forall i | 0 <= i < |removed.items| ensures Key(removed.items[i]) != Key(p) {
      var m :| 0 <= m < |state.items| && state.items[m] == removed.items[i];
      assert m != k;
    }
  }

  /** The cart held by the provider: `useReducer(cartReducer, initialState)`. */
  class CartStore {
    var state: CartState

    constructor ()
      ensures state == InitialState
    {
      state := InitialState;
    }

    /** `dispatch(action)`: the new state is the reducer applied to the old one. */
    method Dispatch(action: Action)
      modifies this
      ensures state == Reduce(old(state), action)
    {
      state := Reduce(state, action);
    }
  }
}
