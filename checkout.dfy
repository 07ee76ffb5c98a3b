/**
  * The checkout page's state and handlers: the shipping form and its validator,
  * coupon handling, the payment start (card through the gateway widget, or bank
  * transfer), and the order call. Everything the page asks of the outside world
  * (the signed-in user, the coupon table, the products query, the order procedure
  * on the server) is given to the handlers as a value or a function.
  */
module Checkout {
  import opened Wrappers
  import opened Text
  import opened Pricing
  import opened Coupons
  import opened Stock

  /** The eight fields of the shipping form, all required. */
  datatype Field = FirstName | LastName | Email | Phone | Address | City | State | ZipCode

  /** The fields in the order the validator visits them. */
  const RequiredFields: seq<Field> := [FirstName, LastName, Email, Phone, Address, City, State, ZipCode]

  datatype CustomerInfo = CustomerInfo(
    firstName: string, lastName: string, email: string, phone: string,
    address: string, city: string, state: string, zipCode: string)
  {
    /** `customerInfo[field]`. */
    function Get(f: Field): string {
      match f
      case FirstName => firstName
      case LastName => lastName
      case Email => email
      case Phone => phone
      case Address => address
      case City => city
      case State => state
      case ZipCode => zipCode
    }

    /** `{ ...customerInfo, [field]: value }`. */
    function With(f: Field, value: string): (r: CustomerInfo)
      ensures r.Get(f) == value
      ensures forall g :: g != f ==> r.Get(g) == Get(g)
    {
      match f
      case FirstName => this.(firstName := value)
      case LastName => this.(lastName := value)
      case Email => this.(email := value)
      case Phone => this.(phone := value)
      case Address => this.(address := value)
      case City => this.(city := value)
      case State => this.(state := value)
      case ZipCode => this.(zipCode := value)
    }
  }

  const EmptyCustomerInfo := CustomerInfo("", "", "", "", "", "", "", "")

  /** The shopper's saved shipping row; a column may be null. It has no e-mail column. */
  datatype SavedShipping = SavedShipping(
    firstName: Option<string>, lastName: Option<string>, phone: Option<string>,
    address: Option<string>, city: Option<string>, state: Option<string>, zipCode: Option<string>)

  /** Prefills the form from the saved row: every column present replaces the field,
      a null column empties it, and the e-mail is kept. */
  function Prefill(info: CustomerInfo, saved: SavedShipping): (r: CustomerInfo)
    ensures r.email == info.email
    ensures r.firstName == saved.firstName.GetOr("") && r.lastName == saved.lastName.GetOr("")
    ensures r.phone == saved.phone.GetOr("") && r.address == saved.address.GetOr("")
    ensures r.city == saved.city.GetOr("") && r.state == saved.state.GetOr("")
    ensures r.zipCode == saved.zipCode.GetOr("")
  {
    CustomerInfo(
      saved.firstName.GetOr(""), saved.lastName.GetOr(""), info.email, saved.phone.GetOr(""),
      saved.address.GetOr(""), saved.city.GetOr(""), saved.state.GetOr(""), saved.zipCode.GetOr(""))
  }

  /** `!value.trim()`. */
  predicate IsBlank(s: string) {
    Trim(s) == []
  }

  /** The required fields left blank. */
  function BlankFields(info: CustomerInfo): set<Field> {
    set f | f in RequiredFields && IsBlank(info.Get(f))
  }

  /** A field is flagged as blank exactly when it holds only whitespace. */
  lemma BlankFieldsExact(info: CustomerInfo, f: Field)
    ensures f in BlankFields(info) <==> AllWhitespace(info.Get(f))
  {
    TrimEmptyIff(info.Get(f));
    assert RequiredFields[FieldIndex(f)] == f;
  }

  /** The error record that flags every blank field. */
  function BlankErrors(info: CustomerInfo): map<Field, bool> {
    map f | f in BlankFields(info) :: true
  }

  /** The position of a field in the validator's visiting order. */
  function FieldIndex(f: Field): (i: nat)
    ensures i < |RequiredFields| && RequiredFields[i] == f
  {
    match f
    case FirstName => 0
    case LastName => 1
    case Email => 2
    case Phone => 3
    case Address => 4
    case City => 5
    case State => 6
    case ZipCode => 7
  }

  /** The required-field pass of `validateForm`: visit the fields in order, flag each
      blank one in a fresh error record and remember that one was found. */
  method CollectBlankFields(info: CustomerInfo) returns (errors: map<Field, bool>, hasEmptyFields: bool)
    ensures errors == BlankErrors(info)
    ensures hasEmptyFields <==> BlankFields(info) != {}
  {
    errors := map[];
    hasEmptyFields := false;
    for i := 0 to |RequiredFields|
      invariant forall f :: f in errors <==> FieldIndex(f) < i && IsBlank(info.Get(f))
      invariant forall f :: f in errors ==> errors[f]
      invariant hasEmptyFields <==> errors != map[]
    {
      var field := RequiredFields[i];
      assert FieldIndex(field) == i;
      if IsBlank(info.Get(field)) {
        errors := errors[field := true];
        hasEmptyFields := true;
      }
    }
    assert forall f :: f in errors <==> f in BlankFields(info);
  }

  /** The first check of the form that fails, in the order the validator runs them. */
  datatype FormVerdict = MissingFields(blank: set<Field>) | InvalidEmail | InvalidPhone | TermsNotAccepted | FormOk

  function CheckForm(info: CustomerInfo, termsAccepted: bool): FormVerdict {
    var blank := BlankFields(info);
    if blank != {} then MissingFields(blank)
    else if !EmailOk(info.email) then InvalidEmail
    else if !PhoneOk(info.phone) then InvalidPhone
    else if !termsAccepted then TermsNotAccepted
    else FormOk
  }

  /** The field-error record after validation: blank fields flagged, or only the
      e-mail, or only the phone; an unaccepted-terms failure leaves the previous
      record in place; success clears it. */
  function ErrorsAfter(verdict: FormVerdict, previous: map<Field, bool>): map<Field, bool> {
    match verdict
    case MissingFields(blank) => map f | f in blank :: true
    case InvalidEmail => map[Email := true]
    case InvalidPhone => map[Phone := true]
    case TermsNotAccepted => previous
    case FormOk => map[]
  }

  /** What the form must satisfy, stated with the regular expressions themselves. */
  ghost predicate FormValid(info: CustomerInfo, termsAccepted: bool) {
    && (forall f :: !AllWhitespace(info.Get(f)))
    && MatchesEmailPattern(info.email)
    && MatchesPhonePattern(info.phone)
    && termsAccepted
  }

  /** The validator accepts exactly the forms whose required fields are all non-blank,
      whose e-mail and phone match their patterns, and whose terms are accepted. */
  lemma CheckFormOkIff(info: CustomerInfo, termsAccepted: bool)
    ensures CheckForm(info, termsAccepted) == FormOk <==> FormValid(info, termsAccepted)
  {
    forall f ensures f in BlankFields(info) <==> AllWhitespace(info.Get(f)) {
      BlankFieldsExact(info, f);
    }
    EmailOkIff(info.email);
    PhoneOkIff(info.phone);
    if CheckForm(info, termsAccepted) != FormOk && (forall f :: !AllWhitespace(info.Get(f))) {
      assert BlankFields(info) == {};
    }
  }

  /** When fields are blank, exactly those are flagged, and a blank e-mail or phone is
      reported as missing rather than as malformed. */
  lemma MissingFieldsFlaggedExactly(info: CustomerInfo, termsAccepted: bool, previous: map<Field, bool>, f: Field)
    requires exists g :: AllWhitespace(info.Get(g))
    ensures CheckForm(info, termsAccepted).MissingFields?
    ensures var errors := ErrorsAfter(CheckForm(info, termsAccepted), previous);
            (f in errors <==> AllWhitespace(info.Get(f))) && (f in errors ==> errors[f])
  {
    var g :| AllWhitespace(info.Get(g));
    BlankFieldsExact(info, g);
    BlankFieldsExact(info, f);
  }

  /** Payment goes ahead exactly when every check passes, and the method picks the way. */
  lemma StageForProceedsIff(formOk: bool, hasItems: bool, hasUser: bool, sessionValid: bool, inStock: bool,
                            payment: PaymentMethod)
    ensures var stage := StageFor(formOk, hasItems, hasUser, sessionValid, inStock, payment);
            && (stage == AwaitingGateway || stage == PlacingOrder
                <==> formOk && hasItems && hasUser && sessionValid && inStock)
            && (stage == AwaitingGateway ==> payment == Card)
            && (stage == PlacingOrder ==> payment == Transfer)
  {
  }

  /** `paymentMethod`, chosen with the two radio buttons. */
  datatype PaymentMethod = Card | Transfer

  /** What the card gateway widget is opened with; the amount is in kobo. */
  datatype GatewayConfig = GatewayConfig(reference: string, email: string, amount: int)

  /** The arguments of the server's order procedure. */
  datatype PlaceOrderRequest = PlaceOrderRequest(
    userId: string,
    items: seq<CartLine>,
    shippingInfo: CustomerInfo,
    paymentMethod: PaymentMethod,
    paymentReference: Option<string>,
    shippingCost: real,
    orderNote: string,
    couponCode: Option<string>)

  /** What the order procedure call gives back: data (an order id, empty when none
      came back), an error with its message, or an exception. */
  datatype OrderAnswer = OrderData(orderId: string) | OrderError(message: string) | CallThrew

  const GenericOrderFailure := "Failed to place order. Please try again."

  /** How `processOrder` ended. */
  datatype OrderOutcome =
    | NotAuthenticated
    | Placed(orderId: string)
    | NoOrderId
    | Rejected(message: string)
    | Failed

  /** The outcome for an answer of the order procedure; an error without a message
      is shown with the generic text. */
  function OutcomeOf(answer: OrderAnswer): (outcome: OrderOutcome)
    ensures outcome.Placed? <==> answer.OrderData? && answer.orderId != ""
    ensures outcome.Rejected? <==> answer.OrderError?
    ensures outcome.Rejected? ==> outcome.message != ""
    ensures outcome.Placed? ==> outcome.orderId == answer.orderId
    ensures answer.OrderError? && answer.message != "" ==> outcome == Rejected(answer.message)
  {
    match answer
    case OrderData(id) => if id != "" then Placed(id) else NoOrderId
    case OrderError(message) => Rejected(if message != "" then message else GenericOrderFailure)
    case CallThrew => Failed
  }

  /** The page state the order call changes: whether the stored cart was cleared, the
      shipping details last saved for the shopper, and the recorded order. */
  datatype OrderFields = OrderFields(
    cartCleared: bool, savedShipping: Option<CustomerInfo>, orderId: string, orderPlaced: bool)

  /** What a signed-in `processOrder` makes of those fields: the shipping details are
      saved first when asked, the stored cart is cleared unless the call returned an
      error or threw, and the order is recorded only when an id came back. */
  function AfterOrder(before: OrderFields, saveInfo: bool, info: CustomerInfo, answer: OrderAnswer): OrderFields {
    var outcome := OutcomeOf(answer);
    OrderFields(
      before.cartCleared || answer.OrderData?,
      if saveInfo then Some(info) else before.savedShipping,
      if outcome.Placed? then outcome.orderId else before.orderId,
      before.orderPlaced || outcome.Placed?)
  }

  /** An error answer or a thrown call leaves the stored cart and the recorded order
      as they were. */
  lemma FailedOrderKeepsCartAndOrder(before: OrderFields, saveInfo: bool, info: CustomerInfo, answer: OrderAnswer)
    requires !answer.OrderData?
    ensures var after := AfterOrder(before, saveInfo, info, answer);
            && after.cartCleared == before.cartCleared
            && after.orderId == before.orderId
            && after.orderPlaced == before.orderPlaced
  {
  }

  /** A data answer clears the stored cart; the order is marked placed exactly when it
      already was or the answer carried an id, and then that id is recorded. */
  lemma AnsweredOrderClearsCart(before: OrderFields, saveInfo: bool, info: CustomerInfo, answer: OrderAnswer)
    requires answer.OrderData?
    ensures var after := AfterOrder(before, saveInfo, info, answer);
            && after.cartCleared
            && (after.orderPlaced <==> before.orderPlaced || answer.orderId != "")
            && (answer.orderId != "" ==> after.orderId == answer.orderId)
  {
  }

  /** An order is shown as placed exactly when an id is recorded, before and after the
      call. */
  lemma AfterOrderKeepsPlacedIffId(before: OrderFields, saveInfo: bool, info: CustomerInfo, answer: OrderAnswer)
    requires before.orderPlaced <==> before.orderId != ""
    ensures var after := AfterOrder(before, saveInfo, info, answer);
            after.orderPlaced <==> after.orderId != ""
  {
  }

  /** `x || null` for a string. */
  function NonEmpty(s: Option<string>): (r: Option<string>)
    ensures r.Some? <==> s.Some? && s.value != ""
    ensures r.Some? ==> r == s
  {
    if s.Some? && s.value != "" then s else None
  }

  /** How `handlePaymentInitiation` ended. */
  datatype Step =
    | FormRejected
    | CartEmpty
    | NotSignedIn
    | SessionExpired
    | StockRejected(verdict: StockVerdict)
    | GatewayOpened(config: GatewayConfig)
    | OrderAttempted(outcome: OrderOutcome)
  {
    function Stage(): Stage {
      match this
      case FormRejected => StoppedByForm
      case CartEmpty => StoppedByEmptyCart
      case NotSignedIn => StoppedByMissingUser
      case SessionExpired => StoppedBySession
      case StockRejected(_) => StoppedByStock
      case GatewayOpened(_) => AwaitingGateway
      case OrderAttempted(_) => PlacingOrder
    }
  }

  /** Where the payment start stops, or which way it goes on. */
  datatype Stage =
    | StoppedByForm
    | StoppedByEmptyCart
    | StoppedByMissingUser
    | StoppedBySession
    | StoppedByStock
    | AwaitingGateway
    | PlacingOrder

  /** The order of the checks made when the shopper presses the pay button: the form,
      a non-empty cart, a loaded user, the session re-check, the stock pre-check, and
      then the payment method. */
  function StageFor(formOk: bool, hasItems: bool, hasUser: bool, sessionValid: bool, inStock: bool,
                    payment: PaymentMethod): Stage
  {
    if !formOk then StoppedByForm
    else if !hasItems then StoppedByEmptyCart
    else if !hasUser then StoppedByMissingUser
    else if !sessionValid then StoppedBySession
    else if !inStock then StoppedByStock
    else if payment.Card? then AwaitingGateway
    else PlacingOrder
  }

  /** The state of one checkout page. */
  class CheckoutSession {
    var cartItems: seq<CartLine>
    var isProcessing: bool
    var orderPlaced: bool
    var orderId: string
    var discount: real
    var couponInput: string
    var userId: Option<string>
    var saveInfo: bool
    var orderNote: string
    var termsAccepted: bool
    var formErrors: map<Field, bool>
    var paystackReference: string
    var customerInfo: CustomerInfo
    var paymentMethod: PaymentMethod
    /** Set once the shopper's stored cart has been cleared by this page. */
    var cartCleared: bool
    /** The shipping details this page last saved for the shopper, if any. */
    var savedShipping: Option<CustomerInfo>

    /** An order is shown as placed exactly when an order id has been recorded. */
    ghost predicate Valid()
      reads this`orderPlaced, this`orderId
    {
      orderPlaced <==> orderId != ""
    }

    /** The fields the order call changes, read together. */
    function Fields(): OrderFields
      reads this`cartCleared, this`savedShipping, this`orderId, this`orderPlaced
    {
      OrderFields(cartCleared, savedShipping, orderId, orderPlaced)
    }

    /** The page after its mount effect: `reference` is the time-based gateway
        reference, `user` the signed-in user (None: the page sends the shopper to
        log in and loads nothing), `cart` the stored cart (None: it could not be
        read and the page leaves), `saved` the saved shipping row. */
    constructor (reference: string, user: Option<string>, cart: Option<seq<CartLine>>, saved: Option<SavedShipping>)
      ensures Valid()
      ensures paystackReference == reference && userId == user
      ensures cartItems == (if user.Some? && cart.Some? then cart.value else [])
      ensures customerInfo == (if user.Some? && cart.Some? && saved.Some?
                               then Prefill(EmptyCustomerInfo, saved.value) else EmptyCustomerInfo)
      ensures saveInfo == (user.Some? && cart.Some? && saved.Some?)
      ensures !isProcessing && !orderPlaced && orderId == "" && discount == 0.0 && couponInput == ""
      ensures orderNote == "" && !termsAccepted && formErrors == map[] && paymentMethod == Card
      ensures !cartCleared && savedShipping.None?
    {
      paystackReference := reference;
      userId := user;
      cartItems := [];
      isProcessing, orderPlaced, orderId := false, false, "";
      discount, couponInput := 0.0, "";
      saveInfo, orderNote, termsAccepted := false, "", false;
      formErrors := map[];
      customerInfo := EmptyCustomerInfo;
      paymentMethod := Card;
      cartCleared, savedShipping := false, None;
      if user.Some? && cart.Some? {
        cartItems := cart.value;
        if saved.Some? {
          customerInfo := Prefill(EmptyCustomerInfo, saved.value);
          saveInfo := true;
        }
      }
    }

    /** `getTotal()` for the current cart, discount and delivery state. */
    function Total(): real
      reads this`cartItems, this`discount, this`customerInfo
    {
      Pricing.Total(cartItems, discount, customerInfo.state)
    }

    /** The gateway configuration: reference, e-mail and the total in kobo. */
    function Config(): (config: GatewayConfig)
      reads this`paystackReference, this`cartItems, this`discount, this`customerInfo
      ensures Total() * 100.0 <= config.amount as real < Total() * 100.0 + 1.0
      ensures config.reference == paystackReference && config.email == customerInfo.email
    {
      GatewayConfig(paystackReference, customerInfo.email, KoboAmount(Total()))
    }

    /** The order request `processOrder` sends for a payment reference. */
    function OrderRequest(paymentReference: Option<string>): (request: PlaceOrderRequest)
      reads this`userId, this`cartItems, this`customerInfo, this`paymentMethod, this`orderNote, this`couponInput
      requires userId.Some?
      ensures request.items == cartItems && request.shippingCost == ShippingFee(customerInfo.state)
      ensures request.couponCode == NonEmpty(Some(couponInput))
      ensures request.userId == userId.value && request.paymentReference == NonEmpty(paymentReference)
      ensures request.shippingInfo == customerInfo && request.paymentMethod == paymentMethod
      ensures request.orderNote == orderNote
    {
      PlaceOrderRequest(userId.value, cartItems, customerInfo, paymentMethod, NonEmpty(paymentReference),
                        ShippingFee(customerInfo.state), orderNote, NonEmpty(Some(couponInput)))
    }

    /** The coupon effect: a non-empty `code` in the page address is looked up and a
        percentage coupon sets the discount; anything else changes nothing. */
    method ApplyUrlCoupon(code: string, lookup: string -> Option<Coupon>)
      modifies this`discount
      ensures code == "" ==> discount == old(discount)
      ensures code != "" ==> discount == RateAfterLookup(lookup(code), old(discount))
    {
      if code != "" {
        var data := lookup(code);
        if IsPercentage(data) {
          discount := data.value.discountValue / 100.0;
        }
      }
    }

    /** `handleManualCoupon`: a blank input does nothing; otherwise the input, as typed,
        is looked up and only a percentage coupon changes the discount. The result
        tells which message the shopper sees (None: no lookup was made). */
    method HandleManualCoupon(lookup: string -> Option<Coupon>) returns (applied: Option<bool>)
      modifies this`discount
      ensures IsBlank(couponInput) ==> applied.None? && discount == old(discount)
      ensures !IsBlank(couponInput) ==> applied == Some(IsPercentage(lookup(couponInput)))
      ensures !IsBlank(couponInput) ==> discount == RateAfterLookup(lookup(couponInput), old(discount))
    {
      if IsBlank(couponInput) {
        return None;
      }
      var data := lookup(couponInput);
      if IsPercentage(data) {
        discount := data.value.discountValue / 100.0;
        applied := Some(true);
      } else {
        applied := Some(false);
      }
    }

    /** `removeCoupon`. */
    method RemoveCoupon()
      modifies this`discount, this`couponInput
      ensures discount == 0.0 && couponInput == ""
    {
      discount := 0.0;
      couponInput := "";
    }

    /** `handleInputChange`: store the edited value; if that field was flagged, clear
        its flag and no other. */
    method HandleInputChange(name: Field, value: string)
      modifies this`customerInfo, this`formErrors
      ensures customerInfo == old(customerInfo).With(name, value)
      ensures formErrors == if name in old(formErrors) && old(formErrors)[name]
                            then old(formErrors)[name := false] else old(formErrors)
    {
      customerInfo := customerInfo.With(name, value);
      if name in formErrors && formErrors[name] {
        formErrors := formErrors[name := false];
      }
    }

    /** `validateForm`: required fields, then e-mail, then phone, then the terms;
        the error record is set as `ErrorsAfter` describes. */
    method ValidateForm() returns (ok: bool)
      modifies this`formErrors
      ensures ok <==> CheckForm(customerInfo, termsAccepted) == FormOk
      ensures formErrors == ErrorsAfter(CheckForm(customerInfo, termsAccepted), old(formErrors))
    {
      var errors, hasEmptyFields := CollectBlankFields(customerInfo);
      if hasEmptyFields {
        formErrors := errors;
        return false;
      }
      if !EmailOk(customerInfo.email) {
        formErrors := errors[Email := true];
        return false;
      }
      if !PhoneOk(customerInfo.phone) {
        formErrors := errors[Phone := true];
        return false;
      }
      if !termsAccepted {
        return false;
      }
      formErrors := map[];
      return true;
    }

    /** `onClose`: the shopper closed the gateway widget; nothing else changes. */
    method OnClose()
      modifies this`isProcessing
      ensures !isProcessing
    {
      isProcessing := false;
    }

    /** `processOrder`: save the shipping details if asked, call the order procedure
        (`server` stands for it), clear the stored cart unless the call returned an
        error or threw, and record the order when an id came back. The processing
        flag is always cleared at the end. */
    method ProcessOrder(paymentReference: Option<string>, server: PlaceOrderRequest -> OrderAnswer)
      returns (outcome: OrderOutcome)
      requires Valid()
      modifies this`isProcessing, this`cartCleared, this`savedShipping, this`orderId, this`orderPlaced
      ensures Valid()
      ensures old(userId).None? ==> outcome == NotAuthenticated && unchanged(this)
      ensures old(userId).Some? ==>
        var answer := server(old(OrderRequest(paymentReference)));
        && outcome == OutcomeOf(answer)
        && !isProcessing
        && Fields() == AfterOrder(old(Fields()), saveInfo, customerInfo, answer)
    {
      if userId.None? {
        return NotAuthenticated;
      }
      isProcessing := true;
      if saveInfo {
        savedShipping := Some(customerInfo);
      }
      var answer := server(OrderRequest(paymentReference));
      match answer {
        case OrderError(message) =>
          outcome := Rejected(if message != "" then message else GenericOrderFailure);
        case CallThrew =>
          outcome := Failed;
        case OrderData(id) =>
          cartCleared := true;
          if id != "" {
            orderId := id;
            orderPlaced := true;
            outcome := Placed(id);
          } else {
            outcome := NoOrderId;
          }
      }
      isProcessing := false;
    }

    /** `onSuccess`: the gateway accepted the card payment; place the order with the
        reference it returned. */
    method OnSuccess(reference: string, server: PlaceOrderRequest -> OrderAnswer) returns (outcome: OrderOutcome)
      requires Valid()
      modifies this`isProcessing, this`cartCleared, this`savedShipping, this`orderId, this`orderPlaced
      ensures Valid()
      ensures old(userId).None? ==> outcome == NotAuthenticated && unchanged(this)
      ensures old(userId).Some? ==>
        var answer := server(old(OrderRequest(Some(reference))));
        && outcome == OutcomeOf(answer)
        && !isProcessing
        && Fields() == AfterOrder(old(Fields()), saveInfo, customerInfo, answer)
    {
      outcome := ProcessOrder(Some(reference), server);
    }

    /** The second half of `handlePaymentInitiation`, once the form, the cart and the
        user have passed: raise the processing flag, re-check the session, run the
        stock pre-check, then open the gateway for a card payment or place the order
        at once for a transfer. Each failure lowers the flag again. */
    method StartPayment(currentUser: Option<string>, fetch: seq<string> -> FetchResult,
                        server: PlaceOrderRequest -> OrderAnswer)
      returns (step: Step)
      requires Valid() && userId.Some?
      modifies this`isProcessing, this`cartCleared, this`savedShipping, this`orderId, this`orderPlaced
      ensures Valid()
      ensures step.Stage() == StageFor(true, true, true, currentUser.Some?,
                                       StockCheck(cartItems, fetch(ItemIds(cartItems))) == InStock, paymentMethod)
      ensures step.StockRejected? ==> step.verdict == StockCheck(cartItems, fetch(ItemIds(cartItems)))
      ensures step.GatewayOpened? ==> step.config == Config() && isProcessing
      ensures step.OrderAttempted? ==>
        var answer := server(OrderRequest(None));
        && step.outcome == OutcomeOf(answer)
        && Fields() == AfterOrder(old(Fields()), saveInfo, customerInfo, answer)
      ensures !step.GatewayOpened? ==> !isProcessing
      ensures !step.OrderAttempted? ==> Fields() == old(Fields())
    {
      isProcessing := true;
      if currentUser.None? {
        isProcessing := false;
        return SessionExpired;
      }
      var verdict := ValidateStock(cartItems, fetch);
      if verdict != InStock {
        isProcessing := false;
        return StockRejected(verdict);
      }
      step := Proceed(server);
    }

    /** The last step of `handlePaymentInitiation`, with the processing flag raised:
        open the gateway for a card payment, or place the order at once, with no
        payment reference, for a transfer. */
    method Proceed(server: PlaceOrderRequest -> OrderAnswer) returns (step: Step)
      requires Valid() && userId.Some? && isProcessing
      modifies this`isProcessing, this`cartCleared, this`savedShipping, this`orderId, this`orderPlaced
      ensures Valid()
      ensures paymentMethod == Card ==> step == GatewayOpened(Config()) && isProcessing
      ensures paymentMethod == Transfer ==> step.OrderAttempted? && !isProcessing
      ensures step.OrderAttempted? ==>
        var answer := server(OrderRequest(None));
        && step.outcome == OutcomeOf(answer)
        && Fields() == AfterOrder(old(Fields()), saveInfo, customerInfo, answer)
      ensures !step.OrderAttempted? ==> Fields() == old(Fields())
    {
      if paymentMethod == Card {
        return GatewayOpened(Config());
      }
      ghost var request := OrderRequest(None);
      var outcome := ProcessOrder(None, server);
      assert OrderRequest(None) == request;
      return OrderAttempted(outcome);
    }

    /** `handlePaymentInitiation`, started from the pay button, which is disabled while
        a payment is in progress. `currentUser` is the session re-check's answer,
        `fetch` the products query and `server` the order procedure. The checks run
        in the order `StageFor` gives; the form, cart and user checks stop before the
        processing flag is raised, the later failures lower it again, and only an
        opened gateway leaves it raised. */
    method HandlePaymentInitiation(currentUser: Option<string>, fetch: seq<string> -> FetchResult,
                                   server: PlaceOrderRequest -> OrderAnswer)
      returns (step: Step)
      requires Valid() && !isProcessing
      modifies this`formErrors, this`isProcessing, this`cartCleared, this`savedShipping, this`orderId, this`orderPlaced
      ensures Valid()
      ensures formErrors == ErrorsAfter(CheckForm(customerInfo, termsAccepted), old(formErrors))
      ensures CheckForm(customerInfo, termsAccepted) != FormOk ==> step == FormRejected
      ensures CheckForm(customerInfo, termsAccepted) == FormOk && cartItems == [] ==> step == CartEmpty
      ensures CheckForm(customerInfo, termsAccepted) == FormOk && cartItems != [] && userId.None? ==> step == NotSignedIn
      ensures CheckForm(customerInfo, termsAccepted) == FormOk && cartItems != [] && userId.Some? ==>
        step.Stage() == StageFor(true, true, true, currentUser.Some?,
                                 StockCheck(cartItems, fetch(ItemIds(cartItems))) == InStock, paymentMethod)
      ensures step.StockRejected? ==> step.verdict == StockCheck(cartItems, fetch(ItemIds(cartItems)))
      ensures step.GatewayOpened? ==> step.config == Config() && isProcessing
      ensures step.OrderAttempted? ==>
        && userId.Some?
        && var answer := server(OrderRequest(None));
        && step.outcome == OutcomeOf(answer)
        && Fields() == AfterOrder(old(Fields()), saveInfo, customerInfo, answer)
      ensures !step.GatewayOpened? ==> !isProcessing
      ensures !step.OrderAttempted? ==> Fields() == old(Fields())
    {
      var valid := ValidateForm();
      if !valid {
        step := FormRejected;
      } else if |cartItems| == 0 {
        step := CartEmpty;
      } else if userId.None? {
        step := NotSignedIn;
      } else {
        step := StartPayment(currentUser, fetch, server);
      }
    }
  }
}
