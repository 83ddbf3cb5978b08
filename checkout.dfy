/** The checkout page: a four-step wizard (shipping, payment, review,
    confirmation) over the shared cart, the shipping address form and the
    order totals. */
module Checkout {
  import opened Common
  import opened CartContext
  import CartPage

  /** The fields of the shipping address form. */
  datatype Field = FirstName | LastName | Email | Phone | Address | City | State | ZipCode | Country

  datatype ShippingAddress = ShippingAddress(
    firstName: string, lastName: string, email: string, phone: string,
    address: string, city: string, state: string, zipCode: string, country: string)

  /** The field of `a` that `f` names. */
  function Get(a: ShippingAddress, f: Field): string
  {
    match f
    case FirstName => a.firstName
    case LastName => a.lastName
    case Email => a.email
    case Phone => a.phone
    case Address => a.address
    case City => a.city
    case State => a.state
    case ZipCode => a.zipCode
    case Country => a.country
  }

  /** `{ ...prev, [name]: value }`: the named field takes the value and every
      other field keeps its own. */
  function SetField(a: ShippingAddress, f: Field, value: string): (r: ShippingAddress)
    ensures Get(r, f) == value
    ensures forall g :: g != f ==> Get(r, g) == Get(a, g)
  {
    match f
    case FirstName => a.(firstName := value)
    case LastName => a.(lastName := value)
    case Email => a.(email := value)
    case Phone => a.(phone := value)
    case Address => a.(address := value)
    case City => a.(city := value)
    case State => a.(state := value)
    case ZipCode => a.(zipCode := value)
    case Country => a.(country := value)
  }

  /** The signed-in user's profile as the page reads it. */
  datatype User = User(firstName: Option<string>, lastName: Option<string>, email: Option<string>)

  /** `x || ''`. */
  function OrEmpty(s: Option<string>): (r: string)
    ensures Truthy(s) ==> r == s.value
    ensures !Truthy(s) ==> r == ""
  {
    if Truthy(s) then s.value else ""
  }

  /** The address the form starts from: names and e-mail from the user when
      there is one, every other field empty, the country Indonesia. */
  function InitialAddress(user: Option<User>): (r: ShippingAddress)
    ensures r.country == "Indonesia"
    ensures r.phone == "" && r.address == "" && r.city == "" && r.state == "" && r.zipCode == ""
    ensures user.None? ==> r.firstName == "" && r.lastName == "" && r.email == ""
    ensures user.Some? ==> r.firstName == OrEmpty(user.value.firstName)
    ensures user.Some? ==> r.lastName == OrEmpty(user.value.lastName)
    ensures user.Some? ==> r.email == OrEmpty(user.value.email)
  {
    var firstName := if user.Some? then OrEmpty(user.value.firstName) else "";
    var lastName := if user.Some? then OrEmpty(user.value.lastName) else "";
    var email := if user.Some? then OrEmpty(user.value.email) else "";
    ShippingAddress(firstName, lastName, email, "", "", "", "", "", "Indonesia")
  }

  /** The shipping cost table, in rupiah. */
  function ShippingCost(shippingMethod: string): (r: int)
    ensures shippingMethod == "standard" ==> r == 15000
    ensures shippingMethod == "express" ==> r == 35000
    ensures shippingMethod != "standard" && shippingMethod != "express" ==> r == 0
    ensures r in {0, 15000, 35000}
  {
    if shippingMethod == "standard" then 15000
    else if shippingMethod == "express" then 35000
    else 0
  }

  /** The order total: subtotal plus ten percent tax plus shipping, in exact
      arithmetic. */
  function OrderTotal(subtotal: int, shippingMethod: string): (r: real)
    ensures r == subtotal as real * 11.0 / 10.0 + ShippingCost(shippingMethod) as real
    ensures subtotal >= 0 ==> r >= subtotal as real
  {
    var tax := subtotal as real * 0.1;
    subtotal as real + tax + ShippingCost(shippingMethod) as real
  }

  /** With the page's standard shipping, the checkout total is the total the
      cart page's summary shows plus 15000: the cart page shows shipping as
      free. */
  lemma CheckoutAddsShippingToCartTotal(subtotal: int)
    ensures OrderTotal(subtotal, "standard") == CartPage.SummaryTotal(subtotal) + 15000.0
    ensures OrderTotal(subtotal, "standard") > CartPage.SummaryTotal(subtotal)
  {
  }

  /** What the page renders. */
  datatype Screen = EmptyCart | ShippingStep | PaymentStep | ReviewStep | Confirmation | NoStep

  /** The buttons that move the wizard. */
  datatype StepButton = ContinueToPayment | BackToShipping | ContinueToReview | BackToPayment | PlaceOrder

  /** As written: an empty cart returns the empty-cart view before the step
      is looked at. */
  function Render(step: int, lines: nat): (r: Screen)
    ensures lines == 0 <==> r == EmptyCart
    ensures r == Confirmation <==> lines > 0 && step == 4
  {
    if lines == 0 then EmptyCart
    else if step == 1 then ShippingStep
    else if step == 2 then PaymentStep
    else if step == 3 then ReviewStep
    else if step == 4 then Confirmation
    else NoStep
  }

  /** The step buttons on each screen. */
  function Buttons(s: Screen): (r: set<StepButton>)
    ensures PlaceOrder in r <==> s == ReviewStep
  {
    match s
    case ShippingStep => {ContinueToPayment}
    case PaymentStep => {BackToShipping, ContinueToReview}
    case ReviewStep => {BackToPayment, PlaceOrder}
    case _ => {}
  }

  /** The step each button sets. */
  function Target(b: StepButton): int
  {
    match b
    case ContinueToPayment => 2
    case BackToShipping => 1
    case ContinueToReview => 3
    case BackToPayment => 2
    case PlaceOrder => 4
  }

  /** The only moves are 1 to 2, 2 to 1, 2 to 3, 3 to 2 and 3 to 4, so the
      step stays within 1..4. */
  lemma StepTransitions(step: int, lines: nat, b: StepButton)
    requires b in Buttons(Render(step, lines))
    ensures (step, Target(b)) in {(1, 2), (2, 1), (2, 3), (3, 2), (3, 4)}
    ensures 1 <= Target(b) <= 4
  {
  }

  /** As written, placing an order from the review step empties the cart,
      so the next render is the empty-cart view, not the confirmation. */
  lemma PlacedOrderShowsEmptyCart(cart: CartState)
    requires cart.items != []
    ensures PlaceOrder in Buttons(Render(3, |cart.items|))
    ensures Render(Target(PlaceOrder), |Reduce(cart, ClearCart).items|) == EmptyCart
  {
  }

  /** The evidently intended order: the confirmation step is shown before
      the empty-cart check. */
  function RenderIntended(step: int, lines: nat): (r: Screen)
    ensures step == 4 <==> r == Confirmation
    ensures step != 4 ==> r == Render(step, lines)
  {
    if step == 4 then Confirmation else Render(step, lines)
  }

  /** With the intended order, placing an order shows the confirmation. */
  lemma PlacedOrderShowsConfirmation(cart: CartState)
    requires cart.items != []
    ensures PlaceOrder in Buttons(RenderIntended(3, |cart.items|))
    ensures RenderIntended(Target(PlaceOrder), |Reduce(cart, ClearCart).items|) == Confirmation
  {
  }

  /** The page's state over the shared cart store. */
  class CheckoutPage {
    const cart: CartStore
    var step: int
    var shippingAddress: ShippingAddress
    var paymentMethod: string
    /** Never changed by any handler of the page. */
    var shippingMethod: string

    /** The step is one of the four, and step 4 is only reached with the
        cart cleared. */
    ghost predicate Valid()
      reads this, cart
    {
      1 <= step <= 4 && (step == 4 ==> cart.state.items == [])
    }

    /** What the page renders, in the order as written: in every valid
        state the confirmation card is out of reach. */
    function Screen(): (r: Screen)
      reads this, cart
      ensures cart.state.items == [] ==> r == EmptyCart
      ensures Valid() ==> r != Confirmation
    {
      Render(step, |cart.state.items|)
    }

    /** What the page would render with the intended order: the
        confirmation exactly at step 4, otherwise the same as `Screen`. */
    function IntendedScreen(): (r: Screen)
      reads this, cart
      ensures r == Confirmation <==> step == 4
      ensures step != 4 ==> r == Screen()
    {
      RenderIntended(step, |cart.state.items|)
    }

    constructor (cart: CartStore, user: Option<User>)
      ensures this.cart == cart && Valid()
      ensures step == 1
      ensures shippingAddress == InitialAddress(user)
      ensures paymentMethod == "credit-card" && shippingMethod == "standard"
    {
      this.cart := cart;
      step := 1;
      shippingAddress := InitialAddress(user);
      paymentMethod := "credit-card";
      shippingMethod := "standard";
    }

    /** `subtotal`: the cart's own total, which is the sum over its lines
        whenever the cart is consistent, and 0 once the order is placed. */
    function Subtotal(): (r: int)
      reads this, cart
      ensures TotalConsistent(cart.state) ==> r == Total(cart.state.items)
      ensures cart.state == InitialState ==> r == 0
    {
      cart.state.total
    }

    /** `handleInputChange` and the country select. */
    method HandleInputChange(f: Field, value: string)
      modifies this
      ensures shippingAddress == SetField(old(shippingAddress), f, value)
      ensures step == old(step) && paymentMethod == old(paymentMethod) && shippingMethod == old(shippingMethod)
    {
      shippingAddress := SetField(shippingAddress, f, value);
    }

    /** The payment radio group. */
    method SetPaymentMethod(m: string)
      modifies this
      ensures paymentMethod == m
      ensures step == old(step) && shippingAddress == old(shippingAddress) && shippingMethod == old(shippingMethod)
    {
      paymentMethod := m;
    }

    /** `handlePlaceOrder`: clear the cart, then move to step 4. */
    method HandlePlaceOrder()
      modifies this, cart
      ensures cart.state == InitialState && step == 4
      ensures shippingAddress == old(shippingAddress) && paymentMethod == old(paymentMethod)
      ensures shippingMethod == old(shippingMethod)
    {
      cart.Dispatch(ClearCart);
      step := 4;
    }

    /** Pressing a step button that the current screen shows: the step
        moves along one of the wizard's edges. As written, placing the order
        leads to the empty-cart view and the confirmation is never shown;
        with the intended order it is shown exactly after placing the order. */
    method Press(b: StepButton)
      requires Valid() && b in Buttons(Screen())
      modifies this, cart
      ensures Valid()
      ensures step == Target(b)
      ensures cart.state == if b == PlaceOrder then InitialState else old(cart.state)
      ensures shippingAddress == old(shippingAddress) && paymentMethod == old(paymentMethod)
      ensures shippingMethod == old(shippingMethod)
      ensures Screen() != Confirmation
      ensures b == PlaceOrder ==> Screen() == EmptyCart
      ensures IntendedScreen() == Confirmation <==> b == PlaceOrder
    {
      if b == PlaceOrder {
        HandlePlaceOrder();
      } else {
        step := Target(b);
      }
    }
  }

  /** With the render order as written, the confirmation card is shown in
      no state the page can reach: step 4 always comes with an empty cart. */
  lemma ConfirmationUnreachable(step: int, cart: CartState)
    requires 1 <= step <= 4 && (step == 4 ==> cart.items == [])
    ensures Render(step, |cart.items|) != Confirmation
  {
  }
}
