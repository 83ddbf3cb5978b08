/** The cart page: which action, if any, each control dispatches to the cart
    store, and the rules for the header label and the checkout button. */
module CartPage {
  import opened Common
  import opened CartContext

  /** The three buttons on each cart line. */
  datatype LineButton = Minus | Plus | Trash

  /** The guard of `handleUpdateQuantity`: the action it dispatches, if any. */
  function QuantityDispatch(id: int, quantity: int): (r: Option<Action>)
    ensures r == None <==> quantity < 1
    ensures r.Some? ==> r.value == UpdateQuantity(id, quantity)
  {
    if quantity < 1 then None else Some(UpdateQuantity(id, quantity))
  }

  /** What pressing a button on `item`'s row dispatches: minus asks for one
      less, plus for one more, the trash button removes the line's id. */
  function LineButtonDispatch(item: CartItem, b: LineButton): (r: Option<Action>)
    ensures b == Trash ==> r == Some(RemoveItem(item.id))
    ensures b == Minus ==> (r == None <==> item.quantity <= 1)
    ensures b == Minus && item.quantity > 1 ==> r == Some(UpdateQuantity(item.id, item.quantity - 1))
    ensures b == Plus && item.quantity >= 0 ==> r == Some(UpdateQuantity(item.id, item.quantity + 1))
  {
    match b
    case Minus => QuantityDispatch(item.id, item.quantity - 1)
    case Plus => QuantityDispatch(item.id, item.quantity + 1)
    case Trash => Some(RemoveItem(item.id))
  }

  /** `handleRemoveItem`. */
  method HandleRemoveItem(store: CartStore, id: int)
    modifies store
    ensures store.state == Reduce(old(store.state), RemoveItem(id))
  {
    store.Dispatch(RemoveItem(id));
  }

  /** `handleUpdateQuantity`: a quantity below 1 dispatches nothing. */
  method HandleUpdateQuantity(store: CartStore, id: int, quantity: int)
    modifies store
    ensures quantity < 1 ==> store.state == old(store.state)
    ensures quantity >= 1 ==> store.state == Reduce(old(store.state), UpdateQuantity(id, quantity))
  {
    if quantity < 1 {
      return;
    }
    store.Dispatch(UpdateQuantity(id, quantity));
  }

  /** The `onClick` of a button on `item`'s row. */
  method PressLineButton(store: CartStore, item: CartItem, b: LineButton)
    modifies store
    ensures store.state == match LineButtonDispatch(item, b)
                           case None => old(store.state)
                           case Some(a) => Reduce(old(store.state), a)
  {
    match b
    case Minus => HandleUpdateQuantity(store, item.id, item.quantity - 1);
    case Plus => HandleUpdateQuantity(store, item.id, item.quantity + 1);
    case Trash => HandleRemoveItem(store, item.id);
  }

  /** "Proceed to Checkout" is disabled exactly when the cart has no lines. */
  function CheckoutDisabled(state: CartState): (r: bool)
    ensures r <==> state.items == []
  {
    |state.items| == 0
  }

  /** The order summary's tax line: a tenth of the cart total. */
  function SummaryTax(total: int): real
  {
    total as real * 0.1
  }

  /** The order summary's total line, with shipping shown as free: the
      subtotal and tax lines add up to it, and it is never below a
      non-negative subtotal. */
  function SummaryTotal(total: int): (r: real)
    ensures r == total as real + SummaryTax(total)
    ensures total >= 0 ==> r >= total as real
  {
    total as real * 1.1
  }

  /** The noun after the line count in the header. */
  function ItemNoun(count: nat): (r: string)
    ensures r == "item" <==> count == 1
    ensures r == "items" <==> count != 1
  {
    if count == 1 then "item" else "items"
  }

  /** The header "Cart (n item/items)": the count it shows is the number of
      lines, not the number of units, printed without leading zeros and
      followed by a space and the noun that agrees with it. */
  function HeaderTitle(state: CartState): (r: string)
    ensures var digits := DecimalString(|state.items|);
      && |r| > 7 + |digits|
      && r[..6] == "Cart ("
      && AllDigits(r[6..6 + |digits|])
      && DigitsValue(r[6..6 + |digits|]) == |state.items|
      && (r[6] == '0' ==> |state.items| == 0)
      && r[6 + |digits|] == ' '
      && r[7 + |digits|..] == ItemNoun(|state.items|) + ")"
  {
    var digits := DecimalString(|state.items|);
    DecimalRoundTrip(|state.items|);
    var r := "Cart (" + digits + " " + ItemNoun(|state.items|) + ")";
    assert r[6..6 + |digits|] == digits;
    assert r[7 + |digits|..] == ItemNoun(|state.items|) + ")";
    r
  }

  /** On a cart with unique ids, plus raises exactly that line by one unit
      and the total by the line's price. */
  lemma PlusRaisesLineByOne(state: CartState, k: nat)
    requires UniqueIds(state.items) && TotalConsistent(state)
    requires k < |state.items| && state.items[k].quantity >= 0
    ensures var line := state.items[k];
      var r := Reduce(state, LineButtonDispatch(line, Plus).value);
      && r.items == state.items[k := line.(quantity := line.quantity + 1)]
      && r.total == state.total + line.price
  {
    var line := state.items[k];
    var raised := line.(quantity := line.quantity + 1);
    assert SetQuantityWhereId(state.items, line.id, Max(1, line.quantity + 1)) == state.items[k := raised];
    TotalSetAt(state.items, k, raised);
  }

  /** On a cart with unique ids, minus on a line above quantity 1 lowers
      exactly that line by one unit and the total by the line's price. */
  lemma MinusLowersLineByOne(state: CartState, k: nat)
    requires UniqueIds(state.items) && TotalConsistent(state)
    requires k < |state.items| && state.items[k].quantity > 1
    ensures var line := state.items[k];
      var r := Reduce(state, LineButtonDispatch(line, Minus).value);
      && r.items == state.items[k := line.(quantity := line.quantity - 1)]
      && r.total == state.total - line.price
  {
    var line := state.items[k];
    var lowered := line.(quantity := line.quantity - 1);
    assert SetQuantityWhereId(state.items, line.id, Max(1, line.quantity - 1)) == state.items[k := lowered];
    TotalSetAt(state.items, k, lowered);
  }

  /** No button of this page can take a line below quantity 1 or change the
      number of lines other than by removing them. */
  lemma LineButtonsKeepPositiveQuantities(state: CartState, item: CartItem, b: LineButton)
    requires PositiveQuantities(state.items)
    ensures match LineButtonDispatch(item, b)
      case None => true
      case Some(a) =>
        && PositiveQuantities(Reduce(state, a).items)
        && |Reduce(state, a).items| <= |state.items|
  {
    var d := LineButtonDispatch(item, b);
    if d.Some? {
      ReduceKeepsPositiveQuantities(state, d.value);
      if b == Trash {
        SubsequenceLength(Reduce(state, d.value).items, state.items);
      }
    }
  }
}
