/**
 * The booking form: the price breakdown (discounted total, 25% deposit,
 * balance), the coupon panel, and the payment preference the form sends
 * before handing the user over to the payment provider.
 */
module BookingForm {
  import opened Wrappers
  import opened JsValues
  import opened Text
  import opened ApiClient
  import opened ServiceSelector
  import opened UserContext
  import opened DeepLink
  import opened PaymentResultScreen

  // ---------------------------------------------------------------- price breakdown

  /** The coupon the backend returned; only its discount enters the totals. */
  datatype CouponData = CouponData(discountAmount: Option<real>, code: Option<string>)

  /** The share of the total paid up front. */
  const DepositRate: real := 0.25

  /** `appliedCoupon && appliedCoupon.discountAmount`: a coupon with a present, non-zero discount. */
  predicate HasDiscount(applied: Option<CouponData>) {
    applied.Some? && applied.value.discountAmount.Some? && applied.value.discountAmount.value != 0.0
  }

  /** `totalPriceWithDiscount`: the price less the discount, never below zero; the plain price without a discount. */
  function TotalPriceWithDiscount(price: real, applied: Option<CouponData>): (t: real)
    ensures price >= 0.0 ==> t >= 0.0
    ensures !HasDiscount(applied) ==> t == price
    ensures HasDiscount(applied) ==> t >= 0.0 && t >= price - applied.value.discountAmount.value
    ensures HasDiscount(applied) && applied.value.discountAmount.value <= price ==> t == price - applied.value.discountAmount.value
  {
    if HasDiscount(applied) then
      var d := applied.value.discountAmount.value;
      if price - d > 0.0 then price - d else 0.0
    else price
  }

  /** `depositAmount`. */
  function Deposit(total: real): (d: real)
    ensures 4.0 * d == total
    ensures total >= 0.0 ==> 0.0 <= d <= total
  {
    total * DepositRate
  }

  /** `remainingAmount`. */
  function Remaining(total: real): (r: real)
    ensures Deposit(total) + r == total
    ensures r == 3.0 * Deposit(total)
  {
    total - Deposit(total)
  }

  /**
   * The deposit and the balance add up to the discounted total, a quarter
   * and three quarters of it; neither is negative for a non-negative price,
   * and a non-negative discount never raises the total.
   */
  lemma PriceBreakdown(price: real, applied: Option<CouponData>)
    ensures var t := TotalPriceWithDiscount(price, applied);
      Deposit(t) + Remaining(t) == t && 4.0 * Deposit(t) == t && Remaining(t) == 3.0 * Deposit(t)
    ensures price >= 0.0 ==> Deposit(TotalPriceWithDiscount(price, applied)) >= 0.0 && Remaining(TotalPriceWithDiscount(price, applied)) >= 0.0
    ensures HasDiscount(applied) && applied.value.discountAmount.value >= 0.0 && price >= 0.0 ==>
      TotalPriceWithDiscount(price, applied) <= price
  {
  }

  /** A discount of the whole price or more makes everything free. */
  lemma FullDiscountIsFree(price: real, discount: real, code: Option<string>)
    requires discount != 0.0 && discount >= price
    ensures var t := TotalPriceWithDiscount(price, Some(CouponData(Some(discount), code)));
      t == 0.0 && Deposit(t) == 0.0 && Remaining(t) == 0.0
  {
  }

  /** A 10000 service with a 2000 coupon: 8000 in total, 2000 up front, 6000 later. */
  lemma ExampleBreakdown()
    ensures var t := TotalPriceWithDiscount(10000.0, Some(CouponData(Some(2000.0), None)));
      t == 8000.0 && Deposit(t) == 2000.0 && Remaining(t) == 6000.0
  {
  }

  // ---------------------------------------------------------------- coupon code

  /** The code as it is sent: trimmed, then upper-cased. */
  function NormalizeCode(code: string): (r: string)
    ensures |r| == |Trim(code)|
    ensures forall i :: 0 <= i < |r| ==> !('a' <= r[i] <= 'z')
  {
    ToUpper(Trim(code))
  }

  /**
   * A blank code is the only one that normalises to nothing, and a
   * normalised code neither starts nor ends with a space.
   */
  lemma NormalizeCodeShape(code: string)
    ensures NormalizeCode(code) == "" <==> IsBlank(code)
    ensures NormalizeCode(code) != "" ==> !IsSpace(NormalizeCode(code)[0]) && !IsSpace(NormalizeCode(code)[|NormalizeCode(code)| - 1])
  {
    TrimEmptyIffBlank(code);
    var t, n := Trim(code), NormalizeCode(code);
    if n != "" {
      TrimSpec(code);
      assert n[0] == UpperChar(t[0]) && n[|n| - 1] == UpperChar(t[|t| - 1]);
      UpperCharKeepsSpace(t[0]);
      UpperCharKeepsSpace(t[|t| - 1]);
    }
  }

  const CodeRequiredMessage := "Por favor ingresa un código de cupón"
  const CouponAppliedMessage := "¡Cupón aplicado exitosamente!"
  const InvalidCouponMessage := "Datos del cupón inválidos"
  const CouponErrorDefault := "Error aplicando cupón"

  /** The body of the coupon request. */
  datatype CouponRequest = CouponRequest(couponCode: string, companyId: int, originalAmount: real, userEmail: Option<string>)

  /** The coupon endpoint's answer, or the error it threw. */
  datatype CouponReply =
    | CouponAnswered(success: bool, message: Option<string>, data: Option<CouponData>)
    | CouponThrown(error: HttpError)

  /** The answer is a success carrying coupon data with a defined discount. */
  predicate CouponAccepted(reply: CouponReply) {
    reply.CouponAnswered? && reply.success && reply.data.Some? && reply.data.value.discountAmount.Some?
  }

  /**
   * The alert of a coupon that was not applied: the invalid-data message for
   * a success without a discount, the backend's message for a refusal, the
   * error's message for a throw, and the generic text when those are empty.
   */
  function CouponErrorMessage(reply: CouponReply): (m: string)
    requires !CouponAccepted(reply)
    ensures m != ""
    ensures reply.CouponAnswered? && reply.success ==> m == InvalidCouponMessage
    ensures reply.CouponAnswered? && !reply.success ==> m == Or(reply.message, CouponErrorDefault)
    ensures reply.CouponThrown? ==> m == Or(OrElse(reply.error.dataMessage, reply.error.message), CouponErrorDefault)
  {
    match reply
    case CouponAnswered(success, message, _) =>
      if success then InvalidCouponMessage else Or(message, CouponErrorDefault)
    case CouponThrown(e) => Or(OrElse(e.dataMessage, e.message), CouponErrorDefault)
  }

  // ---------------------------------------------------------------- payment preference

  /** What the preference endpoint answered, or the error it threw. */
  datatype PreferencePost = PostOk(initPoint: string) | PostFailed(error: HttpError)

  datatype PreferenceResult = PreferenceResult(success: bool, initPoint: string, message: string)

  const PreferenceErrorDefault := "Error al crear la preferencia de pago"
  const BookingErrorDefault := "Error al crear el pago"

  /** `paymentsService.createPaymentPreference`: never throws; a failure carries the backend's message or a default. */
  function CreatePaymentPreference(post: PreferencePost): (r: PreferenceResult)
    ensures r.success <==> post.PostOk?
    ensures r.success ==> r.initPoint == post.initPoint
    ensures !r.success ==> r.message == Or(post.error.dataMessage, PreferenceErrorDefault) && r.message != ""
  {
    match post
    case PostOk(p) => PreferenceResult(true, p, "")
    case PostFailed(e) => PreferenceResult(false, "", Or(e.dataMessage, PreferenceErrorDefault))
  }

  /**
   * The form's own fallback for a failed preference is never needed: the
   * client always hands it a non-empty message, which is what it shows.
   */
  lemma PreferenceAlertIsClientMessage(e: HttpError)
    ensures var m := CreatePaymentPreference(PostFailed(e)).message;
      Or(Some(m), BookingErrorDefault) == m && (m == PreferenceErrorDefault || Truthy(e.dataMessage))
  {
  }

  /** The payment preference the form sends. */
  datatype PaymentData = PaymentData(
    title: string, amount: real, quantity: int, currency: string,
    serviceId: int, companyId: int, userEmail: Option<string>, startTime: string, notes: string,
    userId: Option<string>, appliedCoupon: Option<CouponData>, originalAmount: real, totalAmountWithDiscount: real,
    successUrl: string, failureUrl: string, pendingUrl: string, autoReturn: string,
    payerEmail: Option<string>, payerName: string, payerSurname: string)

  /** `${date.toISOString().split('T')[0]}T${timeSlot}:00`. */
  function StartTime(isoDate: string, timeSlot: string): string {
    BeforeFirst(isoDate, 'T') + ['T'] + (timeSlot + ":00")
  }

  /** The start time's day part is the day of the chosen date. */
  lemma StartTimeDay(isoDate: string, timeSlot: string)
    ensures BeforeFirst(StartTime(isoDate, timeSlot), 'T') == BeforeFirst(isoDate, 'T')
  {
    BeforeFirstOfJoin(BeforeFirst(isoDate, 'T'), 'T', timeSlot + ":00");
  }

  /**
   * The preference for a service: the amount charged is the deposit on the
   * discounted total, alongside the undiscounted price and that total; the
   * return links carry the three statuses of the payment screen.
   */
  function PaymentDataFor(details: UserDetails, service: Service, companyId: int, isoDate: string,
                          timeSlot: string, notes: string, applied: Option<CouponData>): (p: PaymentData)
    ensures p.amount == Deposit(TotalPriceWithDiscount(service.price, applied))
    ensures p.originalAmount == service.price && p.totalAmountWithDiscount == TotalPriceWithDiscount(service.price, applied)
    ensures p.amount + Remaining(p.totalAmountWithDiscount) == p.totalAmountWithDiscount
    ensures p.successUrl == PaymentLink("success") && p.failureUrl == PaymentLink("failure") && p.pendingUrl == PaymentLink("pending")
    ensures p.userId == OrNull(details.userId) && p.payerEmail == details.email && p.userEmail == details.email
    ensures p.payerName != "" && p.payerSurname != ""
  {
    var total := TotalPriceWithDiscount(service.price, applied);
    PaymentData(
      "Seña - " + service.name, Deposit(total), 1, "ARS",
      service.id, companyId, details.email, StartTime(isoDate, timeSlot), notes,
      OrNull(details.userId), applied, service.price, total,
      PaymentLink("success"), PaymentLink("failure"), PaymentLink("pending"), "approved",
      details.email, Or(details.name, "Usuario"), Or(details.surname, "MasDeporte"))
  }

  /**
   * Each return link opens the payment screen, which shows for it the
   * outcome it names: reserved and home for success, rejected and back for
   * failure, pending and home for pending.
   */
  lemma ReturnLinksShowTheirOutcome()
    ensures ScreenFor(PaymentLink("success")) == PaymentResult && ScreenFor(PaymentLink("failure")) == PaymentResult
      && ScreenFor(PaymentLink("pending")) == PaymentResult
    ensures GetStatusConfig(ParsePaymentParams(RawPaymentParams(PaymentLink("success"))).status) == ConfigFor(Reserved)
    ensures GetStatusConfig(ParsePaymentParams(RawPaymentParams(PaymentLink("failure"))).status) == ConfigFor(PaymentRejected)
    ensures GetStatusConfig(ParsePaymentParams(RawPaymentParams(PaymentLink("pending"))).status) == ConfigFor(PaymentPending)
  {
    StatusWordsFacts();
    ReturnLinkShows("success");
    ReturnLinkShows("failure");
    ReturnLinkShows("pending");
  }

  /** The three statuses the return links carry: plain words, and the outcomes they name. */
  lemma StatusWordsFacts()
    ensures '&' !in "success" && '&' !in "failure" && '&' !in "pending"
    ensures OutcomeOf(Some("success")) == Reserved && OutcomeOf(Some("failure")) == PaymentRejected
    ensures OutcomeOf(Some("pending")) == PaymentPending
  {
    assert "failure"[0] == 'f' && "pending"[0] == 'p';
  }

  /** A return link carrying `status` opens the payment screen on the configuration of that status. */
  lemma ReturnLinkShows(status: string)
    requires '&' !in status && status != ""
    ensures ScreenFor(PaymentLink(status)) == PaymentResult
    ensures GetStatusConfig(ParsePaymentParams(RawPaymentParams(PaymentLink(status))).status) == ConfigFor(OutcomeOf(Some(status)))
  {
    PaymentLinkRoundTrip(status);
    ParsedStatusOfLink(status);
  }

  /** How a booking attempt ends. */
  datatype BookingOutcome =
    | LoginRequired
    | RedirectToPayment(url: string)
    | CannotOpenLink
    | PreferenceError(message: string)
    | ProcessingError

  /**
   * How an attempt by a signed-in user ends: the client's message when the
   * preference fails, the payment link when the device can open it, an error
   * when it cannot, and the generic processing error when the check throws.
   */
  function ExpectedOutcome(post: PreferencePost, canOpen: Option<bool>): (o: BookingOutcome)
    ensures o.RedirectToPayment? <==> post.PostOk? && canOpen == Some(true)
    ensures o.RedirectToPayment? ==> o.url == post.initPoint
    ensures o.PreferenceError? <==> post.PostFailed?
    ensures o.PreferenceError? ==> o.message == Or(post.error.dataMessage, PreferenceErrorDefault)
    ensures o == CannotOpenLink <==> post.PostOk? && canOpen == Some(false)
    ensures o == ProcessingError <==> post.PostOk? && canOpen.None?
    ensures o != LoginRequired
  {
    match post
    case PostFailed(e) => PreferenceError(Or(e.dataMessage, PreferenceErrorDefault))
    case PostOk(url) =>
      match canOpen
      case Some(true) => RedirectToPayment(url)
      case Some(false) => CannotOpenLink
      case None => ProcessingError
  }

  // ---------------------------------------------------------------- the form

  class BookingFormState {
    const service: Service
    const companyId: int
    var loading: bool
    var notes: string
    var appliedCoupon: Option<CouponData>
    var couponCode: string
    var isApplyingCoupon: bool
    var showCouponInput: bool

    constructor (service: Service, companyId: int)
      ensures this.service == service && this.companyId == companyId
      ensures !loading && notes == "" && appliedCoupon == None && couponCode == "" && !isApplyingCoupon && !showCouponInput
    {
      this.service := service;
      this.companyId := companyId;
      loading := false;
      notes := "";
      appliedCoupon := None;
      couponCode := "";
      isApplyingCoupon := false;
      showCouponInput := false;
    }

    /** The discounted total the form shows. */
    function Total(): real
      reads this
    {
      TotalPriceWithDiscount(service.price, appliedCoupon)
    }

    /** The applied-coupon panel replaces the code input while a coupon with a defined discount is held. */
    predicate ShowsAppliedCoupon()
      reads this
    {
      appliedCoupon.Some? && appliedCoupon.value.discountAmount.Some?
    }

    /** The Apply button is disabled while applying or while the code is blank. */
    predicate ApplyDisabled()
      reads this
    {
      isApplyingCoupon || Trim(couponCode) == ""
    }

    /**
     * `handleApplyCoupon`: a blank code is refused before any request and
     * changes nothing. Otherwise the normalised code is sent with the
     * undiscounted price; an accepted coupon is kept, the code cleared and
     * the input hidden; any other answer drops the coupon, so the totals
     * fall back to the plain price.
     */
    method ApplyCoupon(userEmail: Option<string>, reply: CouponReply) returns (request: Option<CouponRequest>, alert: string)
      modifies this
      ensures loading == old(loading) && notes == old(notes)
      ensures Trim(old(couponCode)) == "" ==>
        request == None && alert == CodeRequiredMessage && appliedCoupon == old(appliedCoupon)
        && couponCode == old(couponCode) && showCouponInput == old(showCouponInput) && isApplyingCoupon == old(isApplyingCoupon)
      ensures Trim(old(couponCode)) != "" ==>
        request == Some(CouponRequest(NormalizeCode(old(couponCode)), companyId, service.price, userEmail)) && !isApplyingCoupon
      ensures Trim(old(couponCode)) != "" && CouponAccepted(reply) ==>
        appliedCoupon == reply.data && couponCode == "" && !showCouponInput && alert == Or(reply.message, CouponAppliedMessage)
        && ShowsAppliedCoupon()
      ensures Trim(old(couponCode)) != "" && !CouponAccepted(reply) ==>
        appliedCoupon == None && couponCode == old(couponCode) && showCouponInput == old(showCouponInput)
        && alert == CouponErrorMessage(reply) && Total() == service.price
    {
      if Trim(couponCode) == "" {
        return None, CodeRequiredMessage;
      }
      var sent;
      sent, alert := SendCoupon(NormalizeCode(couponCode), userEmail, reply);
      request := Some(sent);
    }

    /**
     * The request part of `handleApplyCoupon`, once the code is known not to
     * be blank: send `code`, then keep or drop the coupon by the answer.
     */
    method SendCoupon(code: string, userEmail: Option<string>, reply: CouponReply) returns (request: CouponRequest, alert: string)
      modifies this
      ensures loading == old(loading) && notes == old(notes) && !isApplyingCoupon
      ensures request == CouponRequest(code, companyId, service.price, userEmail)
      ensures CouponAccepted(reply) ==>
        appliedCoupon == reply.data && couponCode == "" && !showCouponInput && alert == Or(reply.message, CouponAppliedMessage)
        && ShowsAppliedCoupon()
      ensures !CouponAccepted(reply) ==>
        appliedCoupon == None && couponCode == old(couponCode) && showCouponInput == old(showCouponInput)
        && alert == CouponErrorMessage(reply) && Total() == service.price
    {
      isApplyingCoupon := true;
      request := CouponRequest(code, companyId, service.price, userEmail);
      if CouponAccepted(reply) {
        appliedCoupon := reply.data;
        alert := Or(reply.message, CouponAppliedMessage);
        couponCode := "";
        showCouponInput := false;
      } else {
        alert := CouponErrorMessage(reply);
        appliedCoupon := None;
      }
      isApplyingCoupon := false;
    }

    /** The remove button drops the coupon; the totals are the plain price again. */
    method RemoveCoupon()
      modifies this
      ensures appliedCoupon == None && Total() == service.price
      ensures loading == old(loading) && notes == old(notes) && couponCode == old(couponCode)
        && isApplyingCoupon == old(isApplyingCoupon) && showCouponInput == old(showCouponInput)
    {
      appliedCoupon := None;
    }

    /** "¿Tienes un cupón?" opens the code input. */
    method OpenCouponInput()
      modifies this
      ensures showCouponInput
      ensures loading == old(loading) && notes == old(notes) && appliedCoupon == old(appliedCoupon)
        && couponCode == old(couponCode) && isApplyingCoupon == old(isApplyingCoupon)
    {
      showCouponInput := true;
    }

    /** Cancel hides the input and clears the code. */
    method CancelCouponInput()
      modifies this
      ensures !showCouponInput && couponCode == ""
      ensures ApplyDisabled()
      ensures loading == old(loading) && notes == old(notes) && appliedCoupon == old(appliedCoupon)
        && isApplyingCoupon == old(isApplyingCoupon)
    {
      showCouponInput := false;
      couponCode := "";
    }

    /** Typing stores the text upper-cased. */
    method ChangeCouponCode(text: string)
      modifies this
      ensures couponCode == ToUpper(text)
      ensures forall i :: 0 <= i < |couponCode| ==> !('a' <= couponCode[i] <= 'z')
      ensures ApplyDisabled() <==> isApplyingCoupon || Trim(text) == ""
      ensures loading == old(loading) && notes == old(notes) && appliedCoupon == old(appliedCoupon)
        && isApplyingCoupon == old(isApplyingCoupon) && showCouponInput == old(showCouponInput)
    {
      ToUpperKeepsBlank(text);
      couponCode := ToUpper(text);
    }

    /**
     * `handleBooking`: a signed-out user is stopped before any payment data
     * exists. Otherwise the preference for the deposit is sent; a created
     * preference leads to the payment link when the device can open it.
     * `canOpen` is `Linking.canOpenURL`, `None` when it throws.
     */
    method HandleBooking(details: UserDetails, isoDate: string, timeSlot: string, post: PreferencePost, canOpen: Option<bool>)
      returns (payment: Option<PaymentData>, outcome: BookingOutcome)
      modifies this
      ensures !details.isAuthenticated ==> payment == None && outcome == LoginRequired && loading == old(loading)
      ensures details.isAuthenticated ==>
        payment == Some(PaymentDataFor(details, service, companyId, isoDate, timeSlot, old(notes), old(appliedCoupon))) && !loading
      ensures details.isAuthenticated ==> outcome == ExpectedOutcome(post, canOpen)
      ensures notes == old(notes) && appliedCoupon == old(appliedCoupon) && couponCode == old(couponCode)
        && isApplyingCoupon == old(isApplyingCoupon) && showCouponInput == old(showCouponInput)
    {
      if !details.isAuthenticated {
        return None, LoginRequired;
      }
      loading := true;
      var data := PaymentDataFor(details, service, companyId, isoDate, timeSlot, notes, appliedCoupon);
      payment := Some(data);
      var preference := CreatePaymentPreference(post);
      if preference.success {
        if canOpen == Some(true) {
          outcome := RedirectToPayment(preference.initPoint);
        } else if canOpen == Some(false) {
          outcome := CannotOpenLink;
        } else {
          outcome := ProcessingError;
        }
      } else {
        outcome := PreferenceError(Or(Some(preference.message), BookingErrorDefault));
      }
      loading := false;
    }
  }
}
