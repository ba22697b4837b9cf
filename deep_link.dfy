/**
 * The app's deep links: which screen a `masdeporte://` link opens, the query
 * parameters a payment link carries, and the defaults the payment screen's
 * parser gives them. Percent-decoding of query values is not modelled.
 */
module DeepLink {
  import opened Wrappers
  import opened JsValues
  import opened Text

  const Prefix := "masdeporte://"

  datatype Screen = Home | Services | CompanyDetail(urlSlug: string) | MyAppointments | Login | Register | PaymentResult | NoScreen

  predicate StartsWith(s: string, prefix: string) {
    |prefix| <= |s| && s[..|prefix|] == prefix
  }

  /** The part of `s` after its first `c`, or `""` when it has none. */
  function AfterFirst(s: string, c: char): (r: string)
    ensures |BeforeFirst(s, c)| < |s| ==> s == BeforeFirst(s, c) + [c] + r
  {
    var h := BeforeFirst(s, c);
    if |h| < |s| then s[|h| + 1..] else ""
  }

  /** The path of a link: between the prefix and the query. */
  function PathOf(url: string): string
    requires StartsWith(url, Prefix)
  {
    BeforeFirst(url[|Prefix|..], '?')
  }

  /** The screen a path names in the linking table; a company path needs a non-empty slug without further `/`. */
  function ScreenOfPath(path: string): (s: Screen)
    ensures s == PaymentResult <==> path == "payment"
    ensures s.CompanyDetail? ==> path == "company/" + s.urlSlug && s.urlSlug != "" && '/' !in s.urlSlug
    ensures path == "" ==> s == NoScreen
  {
    if path == "home" then Home
    else if path == "services" then Services
    else if path == "appointments" then MyAppointments
    else if path == "login" then Login
    else if path == "register" then Register
    else if path == "payment" then PaymentResult
    else if StartsWith(path, "company/") && |path| > 8 && '/' !in path[8..] then CompanyDetail(path[8..])
    else NoScreen
  }

  /** The screen a link opens: only links under the `masdeporte://` prefix open any. */
  function ScreenFor(url: string): (s: Screen)
    ensures !StartsWith(url, Prefix) ==> s == NoScreen
    ensures s == PaymentResult <==> StartsWith(url, Prefix) && PathOf(url) == "payment"
  {
    if StartsWith(url, Prefix) then ScreenOfPath(PathOf(url)) else NoScreen
  }

  /** The `&`-separated pieces of a query. */
  function SplitOn(s: string, c: char): (r: seq<string>)
    ensures |r| > 0
    decreases |s|
  {
    var h := BeforeFirst(s, c);
    if |h| < |s| then [h] + SplitOn(s[|h| + 1..], c) else [s]
  }

  /** The value of the first `name=value` piece of a query, `None` when the name does not occur. */
  function FindParam(pieces: seq<string>, name: string): Option<string> {
    if pieces == [] then None
    else if BeforeFirst(pieces[0], '=') == name && |name| < |pieces[0]| then Some(pieces[0][|name| + 1..])
    else FindParam(pieces[1..], name)
  }

  /** The value of `name` in a query string. */
  function QueryParamOf(query: string, name: string): Option<string> {
    FindParam(SplitOn(query, '&'), name)
  }

  /** A link without `?` has an empty query, which splits into one empty piece. */
  lemma EmptyQuery(url: string, name: string)
    ensures '?' !in url ==> AfterFirst(url, '?') == "" && QueryParamOf("", name).None?
  {
    if '?' !in url {
      assert |BeforeFirst(url, '?')| == |url|;
    }
    assert SplitOn("", '&') == [""];
    assert FindParam([""][1..], name).None?;
  }

  /** The value of `name` in the query of a link. */
  function QueryParam(url: string, name: string): (r: Option<string>)
    ensures '?' !in url ==> r.None?
  {
    EmptyQuery(url, name);
    QueryParamOf(AfterFirst(url, '?'), name)
  }

  /** The parameters of the payment screen, missing ones as `None`. */
  datatype PaymentParams = PaymentParams(
    status: Option<string>, collectionStatus: Option<string>, paymentStatus: Option<string>,
    paymentId: Option<string>, collectionId: Option<string>, preferenceId: Option<string>,
    paymentType: Option<string>, merchantOrderId: Option<string>, externalReference: Option<string>)

  /** The raw parameters of a link's query. */
  function RawPaymentParams(url: string): PaymentParams {
    PaymentParams(
      QueryParam(url, "status"), QueryParam(url, "collection_status"), QueryParam(url, "payment_status"),
      QueryParam(url, "payment_id"), QueryParam(url, "collection_id"), QueryParam(url, "preference_id"),
      QueryParam(url, "payment_type"), QueryParam(url, "merchant_order_id"), QueryParam(url, "external_reference"))
  }

  /**
   * The payment screen's `parse` table: `status` defaults to `"unknown"`, the
   * other eight to `null`, so an empty value counts as missing.
   */
  function ParsePaymentParams(raw: PaymentParams): (r: PaymentParams)
    ensures Truthy(r.status)
    ensures Truthy(raw.status) ==> r.status == raw.status
    ensures !Truthy(raw.status) ==> r.status == Some("unknown")
    ensures forall f :: 0 <= f < 8 ==> OtherParams(r)[f] == OrNull(OtherParams(raw)[f])
  {
    PaymentParams(
      Some(Or(raw.status, "unknown")), OrNull(raw.collectionStatus), OrNull(raw.paymentStatus),
      OrNull(raw.paymentId), OrNull(raw.collectionId), OrNull(raw.preferenceId),
      OrNull(raw.paymentType), OrNull(raw.merchantOrderId), OrNull(raw.externalReference))
  }

  /** The eight parameters other than `status`, in the order of the table. */
  function OtherParams(p: PaymentParams): seq<Option<string>> {
    [p.collectionStatus, p.paymentStatus, p.paymentId, p.collectionId, p.preferenceId,
     p.paymentType, p.merchantOrderId, p.externalReference]
  }

  /** Parsed parameters are never empty strings: each is a non-empty value or missing. */
  lemma ParsedParamsAreTruthyOrMissing(raw: PaymentParams, f: int)
    requires 0 <= f < 8
    ensures var v := OtherParams(ParsePaymentParams(raw))[f]; v.None? || Truthy(v)
    ensures Truthy(OtherParams(raw)[f]) ==> OtherParams(ParsePaymentParams(raw))[f] == OtherParams(raw)[f]
  {
  }

  /** Since `"unknown"` is non-empty, parsing parsed parameters again changes nothing. */
  lemma ParseIdempotent(raw: PaymentParams)
    ensures ParsePaymentParams(ParsePaymentParams(raw)) == ParsePaymentParams(raw)
  {
  }

  /** The payment link the client hands the payment provider as a return address. */
  function PaymentLink(status: string): string {
    Prefix + "payment" + ['?'] + ("status=" + status)
  }

  /** A link `masdeporte://<path>?<query>` opens the screen its path names. */
  lemma {:induction false} LinkOpensPath(path: string, query: string)
    requires '?' !in path
    ensures ScreenFor(Prefix + path + ['?'] + query) == ScreenOfPath(path)
    ensures AfterFirst(Prefix + path + ['?'] + query, '?') == query
  {
    var url := Prefix + path + ['?'] + query;
    assert url[..|Prefix|] == Prefix;
    assert url[|Prefix|..] == path + ['?'] + query;
    BeforeFirstOfJoin(path, '?', query);
    assert url == (Prefix + path) + ['?'] + query;
    BeforeFirstOfJoin(Prefix + path, '?', query);
  }

  /** A query of one `name=value` piece yields `value` for `name`. */
  lemma {:induction false} SingleParam(name: string, value: string)
    requires '=' !in name && '&' !in name && '&' !in value
    ensures QueryParamOf(name + ['='] + value, name) == Some(value)
  {
    var q := name + ['='] + value;
    assert '&' !in q by {
      assert forall k :: 0 <= k < |q| ==> q[k] == (if k < |name| then name[k] else if k == |name| then '=' else value[k - |name| - 1]);
    }
    BeforeFirstAbsent(q, '&');
    assert SplitOn(q, '&') == [q];
    BeforeFirstOfJoin(name, '=', value);
    assert q[|name| + 1..] == value;
  }

  /**
   * The return links open the payment screen, and the screen reads back the
   * status the link was built with.
   */
  lemma PaymentLinkRoundTrip(status: string)
    requires '&' !in status
    ensures ScreenFor(PaymentLink(status)) == PaymentResult
    ensures QueryParam(PaymentLink(status), "status") == Some(status)
  {
    LinkOpensPath("payment", "status=" + status);
    assert "status=" + status == "status" + ['='] + status;
    SingleParam("status", status);
  }

  /** The payment screen reads the status of a return link as the link's own. */
  lemma ParsedStatusOfLink(status: string)
    requires '&' !in status && status != ""
    ensures ParsePaymentParams(RawPaymentParams(PaymentLink(status))).status == Some(status)
  {
    PaymentLinkRoundTrip(status);
    var raw := RawPaymentParams(PaymentLink(status));
    assert raw.status == Some(status);
  }
}
