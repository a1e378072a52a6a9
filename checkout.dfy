/** The two-step checkout: a shipping form (step 1) and a payment step
    (step 2) whose "pay" button creates the order on the backend and then
    either confirms it after a short simulated delay (cash on delivery,
    trial mode, or no gateway order) or opens the payment gateway and
    verifies the payment the gateway reports. The backend's replies, the
    gateway's callbacks and the delay's expiry are the events of the
    machine; each is a method below. */
module Checkout {
  import opened Common
  import opened Toasts
  import opened Accounts
  import opened Location
  import opened CartStore
  import opened CartPage

  // ------------------------------------------------------------- address

  /** The shipping form. */
  datatype Address = Address(
    fullName: string, street: string, city: string, state: string,
    zipCode: string, country: string, phone: string)

  /** The inputs of the form (the country has none). */
  datatype Field = FullName | Street | City | State | ZipCode | Phone

  const DefaultCountry := "India"
  const IncompleteAddressMessage := "Please fill in all shipping details"

  /** The form before the prefill effect has run. */
  function InitialAddress(user: Option<User>): (a: Address)
    ensures a.street == "" && a.city == "" && a.state == "" && a.zipCode == ""
    ensures a.country == DefaultCountry
    ensures a.phone == if user.Some? then user.value.phone else ""
    ensures a.fullName == if user.Some? then user.value.name else ""
  {
    Address(if user.Some? then user.value.name else "", "", "", "", "", DefaultCountry,
      if user.Some? then user.value.phone else "")
  }

  /** `{ ...address, [name]: value }`. */
  function WithField(a: Address, f: Field, value: string): Address
  {
    match f
    case FullName => a.(fullName := value)
    case Street => a.(street := value)
    case City => a.(city := value)
    case State => a.(state := value)
    case ZipCode => a.(zipCode := value)
    case Phone => a.(phone := value)
  }

  /** What the "proceed" button checks before moving to step 2: street,
      city, postal code and phone. The name and the state are not checked. */
  predicate AddressComplete(a: Address)
  {
    a.street != "" && a.city != "" && a.zipCode != "" && a.phone != ""
  }

  /** The check looks at four fields only: a form with no name and no state
      passes it as long as those four are filled. */
  lemma NameAndStateUnchecked(a: Address)
    ensures AddressComplete(a) <==> AddressComplete(a.(fullName := "", state := ""))
    ensures AddressComplete(a) ==> AddressComplete(WithField(WithField(a, FullName, ""), State, ""))
  {
  }

  /** The saved address the form is filled from: the default one, else the
      first. */
  function ChosenAddress(addresses: seq<SavedAddress>): (d: SavedAddress)
    requires |addresses| > 0
    ensures d in addresses
    ensures (exists i :: 0 <= i < |addresses| && addresses[i].isDefault) ==>
      exists i :: 0 <= i < |addresses| && addresses[i] == d && d.isDefault
        && forall j :: 0 <= j < i ==> !addresses[j].isDefault
    ensures (forall i :: 0 <= i < |addresses| ==> !addresses[i].isDefault) ==> d == addresses[0]
  {
    var f := Find(addresses, (a: SavedAddress) => a.isDefault);
    if f.Some? then f.value else addresses[0]
  }

  /** The form a saved address fills in, each field falling back as the
      effect says: name to the user's name, phone to the user's phone,
      country to India, everything else to "". */
  function FromSaved(user: User, d: SavedAddress): Address
  {
    Address(OrElse(d.fullName, user.name), d.street, d.city, d.state, d.zipCode,
      OrElse(d.country, DefaultCountry), OrElse(d.phone, user.phone))
  }

  /** The form the detected location patches: only its non-empty fields
      overwrite. */
  function FromLocation(prev: Address, loc: LocationInfo): Address
  {
    prev.(city := OrElse(loc.city, prev.city), state := OrElse(loc.state, prev.state),
          zipCode := OrElse(loc.pincode, prev.zipCode), street := OrElse(loc.street, prev.street))
  }

  /** The prefill effect, run whenever the user or the location changes. */
  function Prefilled(user: Option<User>, loc: LocationInfo, prev: Address): Address
  {
    if user.Some? && |user.value.addresses| > 0 then
      FromSaved(user.value, ChosenAddress(user.value.addresses))
    else if loc.city != "" || loc.pincode != "" then FromLocation(prev, loc)
    else prev
  }

  /** With saved addresses, the form comes entirely from the chosen one (the
      default, else the first), with its fallbacks. */
  lemma PrefillFromSaved(user: User, loc: LocationInfo, prev: Address)
    requires |user.addresses| > 0
    ensures var d := ChosenAddress(user.addresses);
      var a := Prefilled(Some(user), loc, prev);
      && a.street == d.street && a.city == d.city && a.state == d.state && a.zipCode == d.zipCode
      && a.fullName == (if d.fullName != "" then d.fullName else user.name)
      && a.phone == (if d.phone != "" then d.phone else user.phone)
      && a.country == (if d.country != "" then d.country else "India")
  {
  }

  /** Without saved addresses the location is used only when it has a city
      or a postal code, and then each of its fields overwrites the form only
      when it is non-empty; the name, country and phone are never touched. */
  lemma PrefillFromLocation(user: Option<User>, loc: LocationInfo, prev: Address)
    requires user.None? || |user.value.addresses| == 0
    ensures var a := Prefilled(user, loc, prev);
      && (loc.city == "" && loc.pincode == "" ==> a == prev)
      && a.fullName == prev.fullName && a.country == prev.country && a.phone == prev.phone
      && (loc.city != "" || loc.pincode != "" ==>
      && a.city == (if loc.city != "" then loc.city else prev.city)
      && a.zipCode == (if loc.pincode != "" then loc.pincode else prev.zipCode)
      && a.street == (if loc.street != "" then loc.street else prev.street)
      && a.state == (if loc.state != "" then loc.state else prev.state))
  {
  }

  /** Patching from the location never blanks a field, so a form that passed
      the step-1 check still passes it. */
  lemma LocationPrefillKeepsComplete(user: Option<User>, loc: LocationInfo, prev: Address)
    requires user.None? || |user.value.addresses| == 0
    requires AddressComplete(prev)
    ensures AddressComplete(Prefilled(user, loc, prev))
  {
  }

  // ------------------------------------------------------------ ordering

  datatype PaymentMethod = Online | CashOnDelivery

  /** The method as the backend names it. */
  function MethodName(m: PaymentMethod): string
  {
    match m
    case Online => "razorpay"
    case CashOnDelivery => "cod"
  }

  /** The shipping address sent with the order. */
  datatype ShippingAddress = ShippingAddress(
    fullName: string, addressLine1: string, city: string, state: string,
    pincode: string, country: string, phone: string)

  function ShippingOf(a: Address): (s: ShippingAddress)
    ensures s.addressLine1 == a.street && s.pincode == a.zipCode
  {
    ShippingAddress(a.fullName, a.street, a.city, a.state, a.zipCode, a.country, a.phone)
  }

  /** The order the backend created. */
  datatype Order = Order(id: string, orderNumber: string, totalAmount: int)

  /** The backend's answer to order creation; `razorpayOrderId` is "" when the
      backend created no gateway order. */
  datatype Created = Created(order: Order, razorpayOrderId: string, key: string, trialMode: bool)

  /** A request to the order endpoints. */
  datatype OrderCall =
    | CreateOrder(shipping: ShippingAddress, paymentMethod: string)
    | VerifyPayment(razorpayOrderId: string, paymentId: string, signature: string, orderId: string)

  /** What the gateway is opened with; amounts are in paise. */
  datatype GatewayOptions = GatewayOptions(
    key: string, amount: int, currency: string, name: string,
    description: string, orderId: string, contact: string)

  /** What the gateway hands its success handler. */
  datatype GatewayResponse = GatewayResponse(orderId: string, paymentId: string, signature: string)

  datatype Route = OrderSuccessPage(order: Order) | OrdersPage

  const Currency := "INR"
  const StoreName := "BuildOwn"
  const TrialSignature := "trial_signature"
  const PlaceOrderFailedMessage := "Failed to place order"
  const VerifyFailedMessage := "Payment verification failed. Please contact support."
  const CancelledMessage := "Payment cancelled"

  /** The confirmation goes through the simulated delay instead of the
      gateway: trial mode, no gateway order, or cash on delivery. */
  predicate Deferred(c: Created, m: PaymentMethod)
  {
    c.trialMode || c.razorpayOrderId == "" || m == CashOnDelivery
  }

  /** The gateway is opened with the order's total in paise, in rupees, and
      with the backend's gateway order. */
  function OptionsFor(c: Created, contact: string): (o: GatewayOptions)
    ensures o.amount == c.order.totalAmount * 100 && o.currency == "INR"
    ensures o.orderId == c.razorpayOrderId && o.key == c.key
    ensures o.description == "Order #" + c.order.orderNumber
  {
    GatewayOptions(c.key, c.order.totalAmount * 100, Currency, StoreName,
      "Order #" + c.order.orderNumber, c.razorpayOrderId, contact)
  }

  /** The payment id the simulated confirmation sends: `trial_` and the
      clock reading. */
  function TrialPaymentId(now: int): string
  {
    "trial_" + IntText(now)
  }

  /** The asynchronous work a checkout is waiting for. */
  datatype Phase =
    | Idle
    | AwaitingCreate(chosen: PaymentMethod, contact: string, signedIn: bool)
    | DelayRunning(order: Order, razorpayOrderId: string)
    | AwaitingTrialVerify(order: Order)
    | GatewayOpen(order: Order)
    | AwaitingVerify(order: Order)
    | Left

  // ------------------------------------------------------------- summary

  /** The tax row: the cart's tax (or 18% of the subtotal), plus 9 with cash
      on delivery. */
  function SummaryTax(c: Cart, m: PaymentMethod): real
  {
    DisplayedTax(c) + if m == CashOnDelivery then 9.0 else 0.0
  }

  /** The handling-fee row, shown only with cash on delivery. */
  function HandlingFeeRow(m: PaymentMethod): Option<int>
  {
    if m == CashOnDelivery then Some(50) else None
  }

  /** The total row: the cart's total, plus 59 with cash on delivery. */
  function SummaryTotal(c: Cart, m: PaymentMethod): int
  {
    c.total + if m == CashOnDelivery then 59 else 0
  }

  /** Paying online shows the cart's own figures; cash on delivery adds the
      ₹50 fee and 18% tax on it (₹9) to the total, and the ₹9 to the tax
      row. */
  lemma CashOnDeliverySurcharge(c: Cart)
    ensures SummaryTotal(c, Online) == c.total && SummaryTax(c, Online) == DisplayedTax(c)
    ensures HandlingFeeRow(Online) == None
    ensures HandlingFeeRow(CashOnDelivery) == Some(50)
    ensures var fee := HandlingFeeRow(CashOnDelivery).value;
      && SummaryTotal(c, CashOnDelivery) - SummaryTotal(c, Online) == fee + fee * 18 / 100
      && SummaryTax(c, CashOnDelivery) - SummaryTax(c, Online) == fee as real * 0.18
  {
  }

  // ------------------------------------------------------------- session

  class CheckoutSession {
    const store: CartStore
    var user: Option<User>
    var step: int
    var loading: bool
    var processingPayment: bool
    var paymentMethod: PaymentMethod
    var address: Address
    var phase: Phase
    /** Requests sent to the order endpoints, oldest first. */
    var calls: seq<OrderCall>
    /** Gateway sessions opened, oldest first. */
    var gateways: seq<GatewayOptions>
    var notices: seq<Notice>
    var navigation: Option<Route>
    /** Cart-clearing requests this page sent. */
    var clearsSent: nat

    ghost predicate Valid()
      reads this
    {
      && (step == 1 || step == 2)
      // while anything is pending the pay button stays disabled
      && (!phase.Idle? ==> loading)
      // the overlay shows exactly while a confirmation is under way or done
      && (processingPayment <==>
            phase.DelayRunning? || phase.AwaitingTrialVerify? || phase.AwaitingVerify? || phase.Left?)
      && (phase.Left? <==> navigation.Some?)
      // the cart is cleared, twice, only on the way to the success page
      && (clearsSent == 0 || (clearsSent == 2 && navigation.Some? && navigation.value.OrderSuccessPage?))
    }

    constructor (store: CartStore, user: Option<User>)
      ensures Valid() && this.store == store && this.user == user
      ensures step == 1 && !loading && !processingPayment && paymentMethod == Online
      ensures address == InitialAddress(user) && phase == Idle
      ensures calls == [] && gateways == [] && notices == [] && navigation == None && clearsSent == 0
    {
      this.store := store;
      this.user := user;
      step := 1;
      loading := false;
      processingPayment := false;
      paymentMethod := Online;
      address := InitialAddress(user);
      phase := Idle;
      calls := [];
      gateways := [];
      notices := [];
      navigation := None;
      clearsSent := 0;
    }

    /** The checkout form is on screen (not the loader, the empty-cart view
        or the payment overlay). */
    predicate FormShown()
      reads this, store
    {
      !store.loading && store.cart.Some? && |store.cart.value.items| > 0 && !processingPayment
    }

    /** The prefill effect. */
    method Prefill(newUser: Option<User>, loc: LocationInfo)
      requires Valid()
      modifies this
      ensures Valid() && user == newUser && address == Prefilled(newUser, loc, old(address))
      ensures step == old(step) && loading == old(loading) && processingPayment == old(processingPayment)
      ensures paymentMethod == old(paymentMethod) && phase == old(phase) && calls == old(calls)
      ensures gateways == old(gateways) && notices == old(notices) && navigation == old(navigation)
      ensures clearsSent == old(clearsSent)
    {
      user := newUser;
      address := Prefilled(newUser, loc, address);
    }

    /** `handleChange`: one input changes one field. */
    method ChangeField(f: Field, value: string)
      requires Valid()
      modifies this
      ensures Valid() && address == WithField(old(address), f, value)
      ensures user == old(user) && step == old(step) && loading == old(loading)
      ensures processingPayment == old(processingPayment) && paymentMethod == old(paymentMethod)
      ensures phase == old(phase) && calls == old(calls) && gateways == old(gateways)
      ensures notices == old(notices) && navigation == old(navigation) && clearsSent == old(clearsSent)
    {
      address := WithField(address, f, value);
    }

    /** The "proceed" button of step 1: moves to step 2 exactly when the
        address passes the check, and otherwise only shows an error. */
    method Proceed()
      requires Valid() && step == 1 && FormShown()
      modifies this
      ensures Valid()
      ensures AddressComplete(address) ==> step == 2 && notices == old(notices)
      ensures !AddressComplete(address) ==>
        step == 1 && notices == old(notices) + [Notice(Error, IncompleteAddressMessage)]
      ensures user == old(user) && address == old(address) && loading == old(loading)
      ensures processingPayment == old(processingPayment) && paymentMethod == old(paymentMethod)
      ensures phase == old(phase) && calls == old(calls) && gateways == old(gateways)
      ensures navigation == old(navigation) && clearsSent == old(clearsSent)
    {
      if !AddressComplete(address) {
        notices := notices + [Notice(Error, IncompleteAddressMessage)];
        return;
      }
      step := 2;
    }

    /** The "edit" button shown on step 2. */
    method EditAddress()
      requires Valid() && step == 2 && FormShown()
      modifies this
      ensures Valid() && step == 1
      ensures user == old(user) && address == old(address) && loading == old(loading)
      ensures processingPayment == old(processingPayment) && paymentMethod == old(paymentMethod)
      ensures phase == old(phase) && calls == old(calls) && gateways == old(gateways)
      ensures notices == old(notices) && navigation == old(navigation) && clearsSent == old(clearsSent)
    {
      step := 1;
    }

    /** Picking a payment option on step 2; nothing stops it while an order
        is being placed. */
    method SelectPaymentMethod(m: PaymentMethod)
      requires Valid() && step == 2 && FormShown()
      modifies this
      ensures Valid() && paymentMethod == m
      ensures user == old(user) && step == old(step) && address == old(address) && loading == old(loading)
      ensures processingPayment == old(processingPayment) && phase == old(phase) && calls == old(calls)
      ensures gateways == old(gateways) && notices == old(notices) && navigation == old(navigation)
      ensures clearsSent == old(clearsSent)
    {
      paymentMethod := m;
    }

    /** The pay button (`handlePlaceOrder`). It is disabled while `loading`,
        so a second order cannot be created while one is pending; otherwise
        it turns `loading` on and sends the order with the form's address
        and the selected method. */
    method PressPay() returns (started: bool)
      requires Valid() && step == 2 && FormShown()
      modifies this
      ensures Valid()
      ensures started <==> !old(loading)
      ensures started ==>
        old(phase) == Idle && loading && phase == AwaitingCreate(paymentMethod, address.phone, user.Some?)
        && calls == old(calls) + [CreateOrder(ShippingOf(address), MethodName(paymentMethod))]
      ensures !started ==> loading == old(loading) && phase == old(phase) && calls == old(calls)
      ensures user == old(user) && step == old(step) && address == old(address)
      ensures processingPayment == old(processingPayment) && paymentMethod == old(paymentMethod)
      ensures gateways == old(gateways) && notices == old(notices) && navigation == old(navigation)
      ensures clearsSent == old(clearsSent)
    {
      started := !loading;
      if started {
        loading := true;
        calls := calls + [CreateOrder(ShippingOf(address), MethodName(paymentMethod))];
        phase := AwaitingCreate(paymentMethod, address.phone, user.Some?);
      }
    }

    /** The backend answers order creation. A failure (or a gateway that
        cannot be opened: its script is missing, or nobody was signed in
        when pay was pressed) shows the backend's message or the default,
        turns `loading` off and leaves the cart alone. Otherwise the deferred
        branch starts the delay behind the overlay, and the live branch opens
        the gateway, prefilled with the phone the form held when pay was
        pressed (the handler's closure captured that address, so edits made
        while the request was out do not reach the gateway); neither makes
        another request yet. */
    method CreateOrderSettled(reply: Reply<Created>, gatewayLoaded: bool)
      requires Valid() && phase.AwaitingCreate?
      modifies this
      ensures Valid()
      ensures var m := old(phase).chosen; var contact := old(phase).contact; var signedIn := old(phase).signedIn;
        && (reply.Err? ==>
              phase == Idle && !loading && !processingPayment && gateways == old(gateways)
              && notices == old(notices) + [Notice(Error, OrElse(reply.message, PlaceOrderFailedMessage))])
        && (reply.Ok? && Deferred(reply.payload, m) ==>
              phase == DelayRunning(reply.payload.order, reply.payload.razorpayOrderId)
              && processingPayment && loading && gateways == old(gateways) && notices == old(notices))
        && (reply.Ok? && !Deferred(reply.payload, m) && gatewayLoaded && signedIn ==>
              phase == GatewayOpen(reply.payload.order) && !processingPayment && loading
              && gateways == old(gateways) + [OptionsFor(reply.payload, contact)]
              && notices == old(notices))
        && (reply.Ok? && !Deferred(reply.payload, m) && !(gatewayLoaded && signedIn) ==>
              phase == Idle && !loading && !processingPayment && gateways == old(gateways)
              && notices == old(notices) + [Notice(Error, PlaceOrderFailedMessage)])
      ensures calls == old(calls)
      ensures user == old(user) && step == old(step) && address == old(address)
      ensures paymentMethod == old(paymentMethod) && navigation == old(navigation)
      ensures clearsSent == old(clearsSent)
    {
      var m, contact, signedIn := phase.chosen, phase.contact, phase.signedIn;
      match reply {
        case Err(message) =>
          notices := notices + [Notice(Error, OrElse(message, PlaceOrderFailedMessage))];
          loading := false;
          phase := Idle;
        case Ok(c) =>
          if Deferred(c, m) {
            processingPayment := true;
            phase := DelayRunning(c.order, c.razorpayOrderId);
          } else if gatewayLoaded && signedIn {
            gateways := gateways + [OptionsFor(c, contact)];
            phase := GatewayOpen(c.order);
          } else {
            notices := notices + [Notice(Error, PlaceOrderFailedMessage)];
            loading := false;
            phase := Idle;
          }
      }
    }

    /** Clears the cart twice and leaves for the success page. */
    method SucceedWith(order: Order, clear1: Reply<Cart>, clear2: Reply<Cart>)
      requires Valid() && clearsSent == 0 && !phase.Idle? && !phase.Left? && processingPayment
      modifies this, store
      ensures Valid() && phase == Left && navigation == Some(OrderSuccessPage(order)) && clearsSent == 2
      ensures store.requests == old(store.requests) + [ClearAll, ClearAll]
      ensures store.cart == Settled(Settled(old(store.cart), clear1), clear2)
      ensures store.loading == old(store.loading) && store.notices == old(store.notices)
        && store.addsInFlight == old(store.addsInFlight)
      ensures user == old(user) && step == old(step) && address == old(address) && loading == old(loading)
      ensures processingPayment == old(processingPayment) && paymentMethod == old(paymentMethod)
      ensures calls == old(calls) && gateways == old(gateways) && notices == old(notices)
    {
      store.ClearCart(clear1);
      store.ClearCart(clear2);
      clearsSent := 2;
      navigation := Some(OrderSuccessPage(order));
      phase := Left;
    }

    /** The simulated delay expires. With a gateway order the payment is
        verified with a trial payment id (`now` is the clock reading);
        without one the order is taken as confirmed at once. */
    method DelayExpired(now: int, clear1: Reply<Cart>, clear2: Reply<Cart>)
      requires Valid() && phase.DelayRunning? && clearsSent == 0
      modifies this, store
      ensures Valid()
      ensures var o := old(phase).order;
        var id := old(phase).razorpayOrderId;
        && (id != "" ==>
              phase == AwaitingTrialVerify(o) && navigation == None
              && calls == old(calls) + [VerifyPayment(id, TrialPaymentId(now), TrialSignature, o.id)]
              && store.requests == old(store.requests) && store.cart == old(store.cart) && clearsSent == 0)
        && (id == "" ==>
              phase == Left && navigation == Some(OrderSuccessPage(o)) && calls == old(calls)
              && store.requests == old(store.requests) + [ClearAll, ClearAll]
              && store.cart == Settled(Settled(old(store.cart), clear1), clear2) && clearsSent == 2)
      ensures store.loading == old(store.loading) && store.notices == old(store.notices)
        && store.addsInFlight == old(store.addsInFlight)
      ensures user == old(user) && step == old(step) && address == old(address) && loading == old(loading)
      ensures processingPayment == old(processingPayment) && paymentMethod == old(paymentMethod)
      ensures gateways == old(gateways) && notices == old(notices)
    {
      var o := phase.order;
      var id := phase.razorpayOrderId;
      if id != "" {
        calls := calls + [VerifyPayment(id, TrialPaymentId(now), TrialSignature, o.id)];
        phase := AwaitingTrialVerify(o);
      } else {
        SucceedWith(o, clear1, clear2);
      }
    }

    /** The backend answers the simulated confirmation: success clears the
        cart and shows the order; failure goes to the order list with the
        cart untouched. */
    method TrialVerifySettled(reply: Reply<()>, clear1: Reply<Cart>, clear2: Reply<Cart>)
      requires Valid() && phase.AwaitingTrialVerify? && clearsSent == 0
      modifies this, store
      ensures Valid() && phase == Left
      ensures reply.Ok? ==>
        navigation == Some(OrderSuccessPage(old(phase).order)) && clearsSent == 2
        && store.requests == old(store.requests) + [ClearAll, ClearAll]
        && store.cart == Settled(Settled(old(store.cart), clear1), clear2)
      ensures reply.Err? ==>
        navigation == Some(OrdersPage) && clearsSent == 0
        && store.requests == old(store.requests) && store.cart == old(store.cart)
      ensures store.loading == old(store.loading) && store.notices == old(store.notices)
        && store.addsInFlight == old(store.addsInFlight)
      ensures user == old(user) && step == old(step) && address == old(address) && loading == old(loading)
      ensures processingPayment == old(processingPayment) && paymentMethod == old(paymentMethod)
      ensures calls == old(calls) && gateways == old(gateways) && notices == old(notices)
    {
      if reply.Ok? {
        SucceedWith(phase.order, clear1, clear2);
      } else {
        navigation := Some(OrdersPage);
        phase := Left;
      }
    }

    /** The gateway's success handler: shows the overlay and verifies the
        gateway's order, payment and signature for the created order. */
    method GatewayHandler(response: GatewayResponse)
      requires Valid() && phase.GatewayOpen?
      modifies this
      ensures Valid() && processingPayment && phase == AwaitingVerify(old(phase).order)
      ensures calls == old(calls) + [VerifyPayment(response.orderId, response.paymentId,
        response.signature, old(phase).order.id)]
      ensures user == old(user) && step == old(step) && address == old(address) && loading == old(loading)
      ensures paymentMethod == old(paymentMethod) && gateways == old(gateways) && notices == old(notices)
      ensures navigation == old(navigation) && clearsSent == old(clearsSent)
    {
      processingPayment := true;
      calls := calls + [VerifyPayment(response.orderId, response.paymentId, response.signature, phase.order.id)];
      phase := AwaitingVerify(phase.order);
    }

    /** The backend answers the live verification. Success clears the cart
        and shows the order. Failure shows an error and drops the overlay,
        but `loading` stays on, so the pay button stays disabled. */
    method VerifySettled(reply: Reply<()>, clear1: Reply<Cart>, clear2: Reply<Cart>)
      requires Valid() && phase.AwaitingVerify? && clearsSent == 0
      modifies this, store
      ensures Valid() && loading
      ensures reply.Ok? ==>
        phase == Left && navigation == Some(OrderSuccessPage(old(phase).order)) && clearsSent == 2
        && processingPayment && notices == old(notices)
        && store.requests == old(store.requests) + [ClearAll, ClearAll]
        && store.cart == Settled(Settled(old(store.cart), clear1), clear2)
      ensures reply.Err? ==>
        phase == Idle && navigation == None && clearsSent == 0 && !processingPayment
        && notices == old(notices) + [Notice(Error, VerifyFailedMessage)]
        && store.requests == old(store.requests) && store.cart == old(store.cart)
      ensures store.loading == old(store.loading) && store.notices == old(store.notices)
        && store.addsInFlight == old(store.addsInFlight)
      ensures user == old(user) && step == old(step) && address == old(address)
      ensures paymentMethod == old(paymentMethod) && calls == old(calls) && gateways == old(gateways)
    {
      if reply.Ok? {
        SucceedWith(phase.order, clear1, clear2);
      } else {
        notices := notices + [Notice(Error, VerifyFailedMessage)];
        processingPayment := false;
        phase := Idle;
      }
    }

    /** The gateway is closed without paying: `loading` goes off and a
        notice is shown; no request is sent and neither the cart nor the
        step changes. */
    method GatewayDismissed()
      requires Valid() && phase.GatewayOpen?
      modifies this
      ensures Valid() && !loading && phase == Idle
      ensures notices == old(notices) + [Notice(Error, CancelledMessage)]
      ensures user == old(user) && step == old(step) && address == old(address)
      ensures processingPayment == old(processingPayment) && paymentMethod == old(paymentMethod)
      ensures calls == old(calls) && gateways == old(gateways) && navigation == old(navigation)
      ensures clearsSent == old(clearsSent)
    {
      loading := false;
      notices := notices + [Notice(Error, CancelledMessage)];
      phase := Idle;
    }
  }
}
