/**
 * The screen a payment link opens: what it shows for each status the
 * payment provider returns, when it moves on to the home screen by itself,
 * which identifiers it lists, and the optional status lookup it makes.
 */
module PaymentResultScreen {
  import opened Wrappers
  import opened JsValues
  import opened DeepLink

  /** The four outcomes the screen distinguishes. */
  datatype PaymentOutcome = Reserved | PaymentPending | PaymentRejected | UnknownStatus

  /** What the screen's button does. */
  datatype Action = GoHome | GoBack

  datatype StatusConfig = StatusConfig(icon: string, color: string, title: string, message: string, buttonText: string, action: Action)

  /** The outcome a status names; anything else, a missing status included, is unknown. */
  function OutcomeOf(status: Option<string>): (o: PaymentOutcome)
    ensures o == Reserved <==> status == Some("success") || status == Some("approved")
    ensures o == PaymentPending <==> status == Some("pending")
    ensures o == PaymentRejected <==> status == Some("failure") || status == Some("rejected")
  {
    if status == Some("success") || status == Some("approved") then Reserved
    else if status == Some("pending") then PaymentPending
    else if status == Some("failure") || status == Some("rejected") then PaymentRejected
    else UnknownStatus
  }

  /** The four configurations of `getStatusConfig`. */
  function ConfigFor(o: PaymentOutcome): (c: StatusConfig)
    ensures c.action == GoBack <==> o == PaymentRejected
    ensures c.title == "¡Turno Reservado!" <==> o == Reserved
    ensures c.message != "" && c.buttonText != ""
  {
    match o
    case Reserved =>
      StatusConfig("checkmark-circle", "#4CAF50", "¡Turno Reservado!", "Tu turno ha sido reservado exitosamente.", "Ir al Inicio", GoHome)
    case PaymentPending =>
      StatusConfig("time-outline", "#FF9800", "Pago Pendiente",
                   "Tu pago está siendo procesado. Te notificaremos cuando se confirme.", "Ir a Inicio", GoHome)
    case PaymentRejected =>
      StatusConfig("close-circle", "#F44336", "Pago Rechazado",
                   "No se pudo procesar tu pago. Por favor, intenta de nuevo.", "Volver", GoBack)
    case UnknownStatus =>
      StatusConfig("help-circle-outline", "#666", "Estado Desconocido", "No se pudo determinar el estado del pago.", "Ir a Inicio", GoHome)
  }

  /**
   * `getStatusConfig`: only a failed or rejected payment sends the user back
   * to try again; every other status leads home.
   */
  function GetStatusConfig(status: Option<string>): (c: StatusConfig)
    ensures c.action == GoBack <==> status == Some("failure") || status == Some("rejected")
    ensures c.title == "¡Turno Reservado!" <==> status == Some("success") || status == Some("approved")
  {
    ConfigFor(OutcomeOf(status))
  }

  /** The four screens have four different titles, so the title tells which outcome is shown. */
  lemma TitleDeterminesOutcome(a: PaymentOutcome, b: PaymentOutcome)
    requires ConfigFor(a).title == ConfigFor(b).title
    ensures a == b
  {
    TitleShapes();
    assert |ConfigFor(a).title| == |ConfigFor(b).title|;
    assert |ConfigFor(a).title| == 14 ==> ConfigFor(a).title[5] == ConfigFor(b).title[5];
  }

  /** What tells the titles apart: their lengths, and the sixth letter of the two that are equally long. */
  lemma TitleShapes()
    ensures |ConfigFor(Reserved).title| == 17 && |ConfigFor(UnknownStatus).title| == 18
    ensures |ConfigFor(PaymentPending).title| == 14 && ConfigFor(PaymentPending).title[5] == 'P'
    ensures |ConfigFor(PaymentRejected).title| == 14 && ConfigFor(PaymentRejected).title[5] == 'R'
  {
  }

  /** The screen goes home by itself once it has stopped loading on a successful or approved status. */
  function ShouldAutoNavigate(loading: bool, status: Option<string>): (b: bool)
    ensures b ==> !loading && ConfigFor(OutcomeOf(status)).action == GoHome
    ensures loading ==> !b
  {
    !loading && (status == Some("success") || status == Some("approved"))
  }

  /** Going home by itself happens exactly on the reserved screen, once loading is over. */
  lemma AutoNavigateIffReserved(loading: bool, status: Option<string>)
    ensures ShouldAutoNavigate(loading, status) <==> !loading && OutcomeOf(status) == Reserved
  {
  }

  /** The identifier block shows when a payment id, a preference id or an external reference is present. */
  function ShowInfoBlock(p: PaymentParams): (b: bool)
    ensures Truthy(p.paymentId) ==> b
    ensures p.paymentId.None? && p.preferenceId.None? && p.externalReference.None? ==> !b
    ensures Truthy(p.preferenceId) || Truthy(p.externalReference) ==> b
    ensures !Truthy(p.paymentId) && !Truthy(p.preferenceId) && !Truthy(p.externalReference) ==> !b
  {
    Truthy(p.paymentId) || Truthy(p.preferenceId) || Truthy(p.externalReference)
  }

  /** A payment type alone is not enough to show the block it is listed in. */
  lemma PaymentTypeAloneShowsNothing(raw: PaymentParams)
    requires Truthy(raw.paymentType)
    requires !Truthy(raw.paymentId) && !Truthy(raw.preferenceId) && !Truthy(raw.externalReference)
    ensures !ShowInfoBlock(ParsePaymentParams(raw))
    ensures Truthy(ParsePaymentParams(raw).paymentType)
  {
  }

  /** The provider's answer to a status lookup; the client turns a thrown error into a failure. */
  datatype PaymentDetails = PaymentDetails(status: Option<string>)
  datatype StatusReply = StatusFound(data: PaymentDetails) | StatusFailed(message: Option<string>)

  /** The state of one payment screen. */
  class PaymentResultState {
    const params: PaymentParams
    var loading: bool
    var paymentDetails: Option<PaymentDetails>

    constructor (params: PaymentParams)
      ensures this.params == params && loading && paymentDetails == None
    {
      this.params := params;
      loading := true;
      paymentDetails := None;
    }

    /** The configuration on screen; it depends only on the link's status. */
    function Config(): StatusConfig
      reads this
    {
      GetStatusConfig(params.status)
    }

    /** The verified status line shows when the lookup returned details with a status. */
    predicate ShowsVerifiedStatus()
      reads this
    {
      paymentDetails.Some? && Truthy(paymentDetails.value.status)
    }

    /**
     * `checkPaymentStatus`, with its 1.5 s timer taken as elapsed: the lookup
     * happens only when the link has a payment id; details are kept only from
     * a successful lookup, a failed one is ignored; loading ends either way.
     * The outcome on screen stays the link's own.
     */
    method CheckPaymentStatus(reply: StatusReply) returns (lookedUp: bool)
      modifies this
      ensures lookedUp <==> Truthy(params.paymentId)
      ensures paymentDetails == if lookedUp && reply.StatusFound? then Some(reply.data) else old(paymentDetails)
      ensures !loading
      ensures Config() == old(Config())
      ensures lookedUp && reply.StatusFound? ==> (ShowsVerifiedStatus() <==> Truthy(reply.data.status))
      ensures !lookedUp ==> (ShowsVerifiedStatus() <==> old(ShowsVerifiedStatus()))
      ensures AutoNavigates() <==> OutcomeOf(params.status) == Reserved
    {
      loading := true;
      lookedUp := false;
      if Truthy(params.paymentId) {
        lookedUp := true;
        if reply.StatusFound? {
          paymentDetails := Some(reply.data);
        }
      }
      loading := false;
      AutoNavigateIffReserved(loading, params.status);
    }

    /** Whether the screen now goes home by itself. */
    predicate AutoNavigates()
      reads this
    {
      ShouldAutoNavigate(loading, params.status)
    }
  }
}
