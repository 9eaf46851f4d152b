/**
 * The plan catalogs of the two payment handlers. The checkout-preference
 * handler keeps a title and a price per plan, the PIX handler a price per
 * plan; both are keyed by the request's `type`.
 */
module Plans {
  import opened Wrappers

  datatype PlanType = Monthly | Annual | Premium

  /** The catalog key of a plan, as sent in the request's `type`. */
  function Key(p: PlanType): (k: string)
    ensures k != "" && '_' !in k
  {
    match p
    case Monthly => "monthly"
    case Annual => "annual"
    case Premium => "premium"
  }

  /** Own-key lookup in the catalog: only the three plan keys are plans. */
  function ParsePlan(s: string): (p: Option<PlanType>)
    ensures p.Some? <==> s == "monthly" || s == "annual" || s == "premium"
    ensures p.Some? ==> Key(p.value) == s
  {
    if s == "monthly" then Some(Monthly)
    else if s == "annual" then Some(Annual)
    else if s == "premium" then Some(Premium)
    else None
  }

  /** Every plan is found again under its own key. */
  lemma ParseKey(p: PlanType)
    ensures ParsePlan(Key(p)) == Some(p)
  {
  }

  /** Title in the checkout-preference catalog. */
  function Title(p: PlanType): string
  {
    match p
    case Monthly => "Plano Mensal"
    case Annual => "Plano Anual"
    case Premium => "Plano Premium"
  }

  /** Price in the checkout-preference catalog, in centavos (BRL). */
  function PreferencePriceCents(p: PlanType): nat
  {
    match p
    case Monthly => 2990
    case Annual => 29990
    case Premium => 4990
  }

  /** Price in the PIX catalog, in centavos (BRL). */
  function PixPriceCents(p: PlanType): nat
  {
    match p
    case Monthly => 2990
    case Annual => 29990
    case Premium => 4990
  }

  /** The two catalogs charge the same for every plan, and never nothing (`!amount` never fires for a plan). */
  lemma CatalogsAgree(p: PlanType)
    ensures PixPriceCents(p) == PreferencePriceCents(p) > 0
  {
  }

  /**
   * The members every plain JavaScript object inherits from Object.prototype;
   * `plans[type]` yields a truthy value for each of them.
   */
  const OBJECT_PROTOTYPE_MEMBERS: set<string> := {
    "constructor", "__proto__", "toString", "toLocaleString", "valueOf",
    "hasOwnProperty", "isPrototypeOf", "propertyIsEnumerable",
    "__defineGetter__", "__defineSetter__", "__lookupGetter__", "__lookupSetter__"
  }

  /** As written: the handlers' `if (!plan)` guard lets `type` through when the property lookup is truthy. */
  predicate GuardPassesAsWritten(s: string)
  {
    ParsePlan(s).Some? || s in OBJECT_PROTOTYPE_MEMBERS
  }

  /** As written, the plan guard admits a `type` that names no plan. */
  lemma GuardAdmitsNonPlan()
    ensures GuardPassesAsWritten("constructor") && ParsePlan("constructor").None?
  {
  }
}
