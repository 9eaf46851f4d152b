/**
 * The two payment handlers (`create-preference`, `create-pix`) up to the
 * gateway call: the configuration check, the plan lookup, and the request
 * that would be forwarded, including the external reference that the webhook
 * later parses back into a user and a plan.
 */
module Payments {
  import opened Wrappers
  import opened Text
  import opened Plans
  import opened Registration

  /** `${userId}_${type}_${Date.now()}`, the checkout-preference reference. */
  function ExternalReference(userId: string, planKey: string, now: nat): string
  {
    userId + "_" + planKey + "_" + Decimal(now)
  }

  /** `${userId}_${type}_pix_${Date.now()}`, the PIX reference. */
  function PixExternalReference(userId: string, planKey: string, now: nat): string
  {
    userId + "_" + planKey + "_pix_" + Decimal(now)
  }

  /**
   * The webhook's `const [userId, planType] = ref.split('_')`: the first two
   * pieces, or None when there is no second piece.
   */
  function ParseReference(ref: string): (r: Option<(string, string)>)
    ensures r.Some? ==> '_' !in r.value.0 && '_' !in r.value.1
    ensures r.None? <==> '_' !in ref
  {
    var parts := Split(ref, '_');
    if |parts| < 2 then
      JoinSplit(ref, '_');
      None
    else
      SplitWithoutSeparatorIsSingle(ref);
      Some((parts[0], parts[1]))
  }

  lemma SplitWithoutSeparatorIsSingle(ref: string)
    ensures '_' !in ref ==> |Split(ref, '_')| == 1
  {
    if '_' !in ref {
      SplitWithoutSeparator(ref, '_');
    }
  }

  /**
   * Round trip: for an identifier without `_` and a catalog plan, both
   * reference formats parse back to exactly the user and the plan key.
   */
  lemma ReferenceRoundTrip(userId: string, p: PlanType, now: nat)
    requires '_' !in userId
    ensures ParseReference(ExternalReference(userId, Key(p), now)) == Some((userId, Key(p)))
    ensures ParseReference(PixExternalReference(userId, Key(p), now)) == Some((userId, Key(p)))
  {
    var k := Key(p);
    var d := Decimal(now);
    assert ExternalReference(userId, k, now) == userId + ['_'] + (k + ['_'] + d);
    SplitAfterPiece(userId, '_', k + ['_'] + d);
    SplitAfterPiece(k, '_', d);
    assert PixExternalReference(userId, k, now) == userId + ['_'] + (k + ['_'] + ("pix_" + d));
    SplitAfterPiece(userId, '_', k + ['_'] + ("pix_" + d));
    SplitAfterPiece(k, '_', "pix_" + d);
  }

  /** The round trip needs the identifier to be free of `_`: otherwise the plan is lost. */
  lemma ReferenceWithUnderscoreId()
    ensures ParseReference(ExternalReference("a_b", "monthly", 7)) == Some(("a", "b"))
  {
    var ref := ExternalReference("a_b", "monthly", 7);
    assert Decimal(7) == "7";
    assert ref == "a" + ['_'] + ("b" + ['_'] + ("monthly_7"));
    SplitAfterPiece("a", '_', "b" + ['_'] + ("monthly_7"));
    SplitAfterPiece("b", '_', "monthly_7");
  }

  /** What a handler does before the gateway: fail, or forward a request. */
  datatype Checkout<R> =
    | NotConfigured        // 500: no gateway access token
    | InvalidPlan          // 400: `type` is not a plan
    | UserMissing          // 500: the authenticated user vanished before the request was built
    | Forward(request: R)  // the gateway is called with this request

  function Status<R>(o: Checkout<R>): int
  {
    match o
    case NotConfigured => 500
    case InvalidPlan => 400
    case UserMissing => 500
    case Forward(_) => 200
  }

  datatype PreferenceRequest = PreferenceRequest(
    itemId: string, title: string, description: string,
    unitPriceCents: nat, quantity: nat, currency: string,
    payerName: string, payerEmail: string,
    externalReference: string, notificationUrl: string)

  /**
   * `create-preference`. `configured` is whether the gateway client exists,
   * `user` the result of the user lookup, `backendUrl` the BACKEND_URL
   * setting and `now` the clock.
   */
  function CreatePreference(configured: bool, planKey: string, user: Option<User>,
                            backendUrl: string, now: nat): (o: Checkout<PreferenceRequest>)
    ensures !configured ==> o == NotConfigured
    ensures configured && ParsePlan(planKey).None? ==> o == InvalidPlan
    ensures Status(o) == 400 <==> configured && ParsePlan(planKey).None?
    ensures o.Forward? <==> configured && ParsePlan(planKey).Some? && user.Some?
    ensures o.Forward? ==> o.request.unitPriceCents == PreferencePriceCents(ParsePlan(planKey).value)
    ensures o.Forward? ==> o.request.externalReference == ExternalReference(user.value.id, planKey, now)
  {
    if !configured then NotConfigured
    else match ParsePlan(planKey)
      case None => InvalidPlan
      case Some(p) =>
        if user.None? then UserMissing
        else
          var u := user.value;
          Forward(PreferenceRequest(
            "galerium-" + planKey,
            "Galerium Assets - " + Title(p),
            "Acesso completo aos assets IA - " + Title(p),
            PreferencePriceCents(p), 1, "BRL",
            u.name, u.email,
            ExternalReference(u.id, planKey, now),
            backendUrl + "/api/payments/webhook"))
  }

  datatype PixRequest = PixRequest(
    amountCents: nat, description: string, paymentMethodId: string,
    payerEmail: string, firstName: string, lastName: string,
    identificationType: string, identificationNumber: string,
    externalReference: string)

  /** `name.split(' ')[0]`. */
  function FirstName(name: string): string
  {
    Split(name, ' ')[0]
  }

  /** `name.split(' ').slice(1).join(' ') || 'User'`. */
  function LastName(name: string): string
  {
    var rest := Join(Split(name, ' ')[1..], ' ');
    if rest == "" then "User" else rest
  }

  /**
   * A name with a space is cut at its first space: first name, a space, then
   * the rest; a name without a space is all first name, with "User" as last name.
   */
  lemma PayerNameSplit(name: string)
    ensures ' ' !in name ==> FirstName(name) == name && LastName(name) == "User"
    ensures ' ' in name ==>
              FirstName(name) + " " + Join(Split(name, ' ')[1..], ' ') == name && ' ' !in FirstName(name)
  {
    var parts := Split(name, ' ');
    JoinSplit(name, ' ');
    if ' ' !in name {
      SplitWithoutSeparator(name, ' ');
      assert parts[1..] == [];
    }
  }

  /** `create-pix`: same checks as `create-preference`, then the PIX charge request. */
  function CreatePix(configured: bool, planKey: string, user: Option<User>, now: nat): (o: Checkout<PixRequest>)
    ensures !configured ==> o == NotConfigured
    ensures configured && ParsePlan(planKey).None? ==> o == InvalidPlan
    ensures Status(o) == 400 <==> configured && ParsePlan(planKey).None?
    ensures o.Forward? <==> configured && ParsePlan(planKey).Some? && user.Some?
    ensures o.Forward? ==> o.request.amountCents == PixPriceCents(ParsePlan(planKey).value) > 0
    ensures o.Forward? ==> o.request.externalReference == PixExternalReference(user.value.id, planKey, now)
  {
    if !configured then NotConfigured
    else match ParsePlan(planKey)
      case None => InvalidPlan
      case Some(p) =>
        if user.None? then UserMissing
        else
          var u := user.value;
          Forward(PixRequest(
            PixPriceCents(p),
            "Galerium Assets - Plano " + planKey,
            "pix",
            u.email, FirstName(u.name), LastName(u.name),
            "CPF", "12345678909",
            PixExternalReference(u.id, planKey, now)))
  }

  /**
   * The reference either handler forwards is read back by the webhook as the
   * requesting user and the plan asked for, when the user's identifier has no `_`.
   */
  lemma ForwardedReferenceParses(configured: bool, planKey: string, u: User, backendUrl: string, now: nat)
    requires '_' !in u.id
    ensures CreatePreference(configured, planKey, Some(u), backendUrl, now).Forward? ==>
              ParseReference(CreatePreference(configured, planKey, Some(u), backendUrl, now).request.externalReference)
                == Some((u.id, planKey))
    ensures CreatePix(configured, planKey, Some(u), now).Forward? ==>
              ParseReference(CreatePix(configured, planKey, Some(u), now).request.externalReference)
                == Some((u.id, planKey))
  {
    if configured && ParsePlan(planKey).Some? {
      ReferenceRoundTrip(u.id, ParsePlan(planKey).value, now);
    }
  }

  /**
   * As written, whether a handler goes on to call the gateway: its guard
   * `if (!plan)` passes for inherited Object.prototype members too.
   */
  predicate ReachesGatewayAsWritten(configured: bool, planKey: string, user: Option<User>)
  {
    configured && GuardPassesAsWritten(planKey) && user.Some?
  }

  /**
   * With `type` "constructor" the code as written calls the gateway, with no
   * price, where the corrected handler answers 400 without any gateway call.
   */
  lemma ConstructorReachesGateway(u: User, backendUrl: string, now: nat)
    ensures ReachesGatewayAsWritten(true, "constructor", Some(u))
    ensures CreatePreference(true, "constructor", Some(u), backendUrl, now) == InvalidPlan
    ensures CreatePix(true, "constructor", Some(u), now) == InvalidPlan
  {
  }
}
