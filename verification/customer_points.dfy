/**
 * The customer points page: how the `/customer/me` response is turned into
 * the balance, tier label, expiry period and benefits text on display.
 *
 * JavaScript's `a || b` keeps `a` when it is truthy. For the numbers read
 * here that means present and non-zero; for the strings, present and
 * non-empty. NaN is not modelled.
 */
module CustomerPoints {
  import opened Wrappers

  /** The fields of the profile response that the page reads. */
  datatype PointsResponse = PointsResponse(
    points: Option<int>,
    pointsBalance: Option<int>,
    tier: Option<string>,
    pointsExpiryDays: Option<int>)

  /** What the page shows. */
  datatype PointsView = PointsView(balance: int, tierLabel: string, expiryDays: int, benefits: string)

  /** `v || fallback` for a number that may be missing. */
  function NumberOr(v: Option<int>, fallback: int): int {
    if v.Some? && v.value != 0 then v.value else fallback
  }

  /** `v || fallback` for a string that may be missing. */
  function TextOr(v: Option<string>, fallback: string): string {
    if v.Some? && v.value != "" then v.value else fallback
  }

  /**
   * `data.points || data.pointsBalance || 0`: the first of the two balances
   * that is present and non-zero, else 0. A `points` of 0 falls through to
   * `pointsBalance`.
   */
  function DisplayedPoints(data: PointsResponse): (r: int)
    ensures r == 0 <==>
      (data.points.None? || data.points.value == 0) && (data.pointsBalance.None? || data.pointsBalance.value == 0)
    ensures r != 0 ==> Some(r) == data.points || Some(r) == data.pointsBalance
    ensures data.points.Some? && data.points.value != 0 ==> r == data.points.value
  {
    NumberOr(data.points, NumberOr(data.pointsBalance, 0))
  }

  const NoTierAssigned := "No tier assigned"

  /** `data.tier || "No tier assigned"`. */
  function TierLabel(data: PointsResponse): (r: string)
    ensures r != ""
    ensures data.tier.Some? && data.tier.value != "" ==> r == data.tier.value
    ensures data.tier.None? || data.tier.value == "" ==> r == NoTierAssigned
  {
    TextOr(data.tier, NoTierAssigned)
  }

  const DefaultExpiryDays := 365

  /** `data.pointsExpiryDays || 365`: a missing or zero period shows as 365 days. */
  function ExpiryDays(data: PointsResponse): (r: int)
    ensures r != 0
    ensures data.pointsExpiryDays.Some? && data.pointsExpiryDays.value != 0 ==> r == data.pointsExpiryDays.value
    ensures data.pointsExpiryDays.None? || data.pointsExpiryDays.value == 0 ==> r == DefaultExpiryDays
  {
    NumberOr(data.pointsExpiryDays, DefaultExpiryDays)
  }

  const SilverBenefits := "Basic benefits like discounts and exclusive offers."
  const GoldBenefits := "All Silver benefits plus priority support and special rewards."
  const PlatinumBenefits := "All Gold benefits plus highest priority, VIP access, and premium offers."
  const NoBenefits := "No benefits available for this tier."

  /** The page's fixed table of benefits, by tier name. */
  const BenefitsMap: map<string, string> :=
    map["Silver" := SilverBenefits, "Gold" := GoldBenefits, "Platinum" := PlatinumBenefits]

  /**
   * The benefits text for a tier: the table's entry for Silver, Gold and
   * Platinum, and the fallback text for every other tier or no tier at all.
   * This is the lookup the page intends; see `BenefitsAsWritten` for the
   * expression as it stands.
   */
  function Benefits(tier: Option<string>): (r: string)
    ensures r != ""
    ensures tier == Some("Silver") ==> r == SilverBenefits
    ensures tier == Some("Gold") ==> r == GoldBenefits
    ensures tier == Some("Platinum") ==> r == PlatinumBenefits
    ensures r == NoBenefits <==> tier !in {Some("Silver"), Some("Gold"), Some("Platinum")}
  {
    if tier.Some? && tier.value in BenefitsMap then BenefitsMap[tier.value] else NoBenefits
  }

  /**
   * The whole view built from one response. No field of the view is ever
   * empty or zero except a balance that the response leaves missing or zero,
   * and the benefits shown always belong to the tier label shown: looking the
   * label up gives the same text as looking up the raw tier, including when
   * the tier is missing or empty and the label is the default.
   */
  function Normalise(data: PointsResponse): (v: PointsView)
    ensures v.balance == 0 <==>
      (data.points.None? || data.points.value == 0) && (data.pointsBalance.None? || data.pointsBalance.value == 0)
    ensures v.tierLabel != ""
    ensures data.tier.Some? && data.tier.value != "" ==> v.tierLabel == data.tier.value
    ensures v.expiryDays != 0
    ensures v.benefits != ""
    ensures v.benefits == Benefits(Some(v.tierLabel))
  {
    PointsView(DisplayedPoints(data), TierLabel(data), ExpiryDays(data), Benefits(data.tier))
  }

  /** A zero `points` field is treated exactly as a missing one. */
  lemma ZeroPointsFallThrough(data: PointsResponse)
    requires data.points == Some(0)
    ensures DisplayedPoints(data) == DisplayedPoints(data.(points := None))
    ensures DisplayedPoints(data) == NumberOr(data.pointsBalance, 0)
  {
  }

  /**
   * The value of a property read on a plain JavaScript object: missing,
   * a string, or a member every object inherits from `Object.prototype`
   * (a function, or for `__proto__` the prototype object), which is truthy.
   */
  datatype PropertyValue = Undefined | Text(s: string) | Inherited(name: string)

  /** The names every object literal inherits from `Object.prototype`. */
  const ObjectPrototypeMembers: set<string> := {
    "constructor", "hasOwnProperty", "isPrototypeOf", "propertyIsEnumerable",
    "toLocaleString", "toString", "valueOf", "__proto__",
    "__defineGetter__", "__defineSetter__", "__lookupGetter__", "__lookupSetter__"
  }

  /** `benefitsMap[data.tier]` on the object literal: own entries first, then the inherited members. */
  function LookupAsWritten(tier: Option<string>): (r: PropertyValue)
    ensures tier.Some? && tier.value in BenefitsMap ==> r == Text(BenefitsMap[tier.value])
    ensures r.Inherited? <==> tier.Some? && tier.value !in BenefitsMap && tier.value in ObjectPrototypeMembers
    ensures r.Undefined? <==> tier.None? || (tier.value !in BenefitsMap && tier.value !in ObjectPrototypeMembers)
  {
    match tier
    case None => Undefined
    case Some(t) =>
      if t in BenefitsMap then Text(BenefitsMap[t])
      else if t in ObjectPrototypeMembers then Inherited(t)
      else Undefined
  }

  predicate Truthy(v: PropertyValue) {
    match v
    case Undefined => false
    case Text(s) => s != ""
    case Inherited(_) => true
  }

  /** `benefitsMap[data.tier] || "No benefits available for this tier."` as written. */
  function BenefitsAsWritten(tier: Option<string>): (r: PropertyValue)
    ensures r.Text? || r.Inherited?
  {
    var v := LookupAsWritten(tier);
    if Truthy(v) then v else Text(NoBenefits)
  }

  /** For every tier that is not an inherited member name, the expression as written gives the intended text. */
  lemma AsWrittenAgreesOffPrototype(tier: Option<string>)
    requires tier.None? || tier.value !in ObjectPrototypeMembers
    ensures BenefitsAsWritten(tier) == Text(Benefits(tier))
  {
  }

  /**
   * A customer whose tier is "constructor" is shown `Object` itself as the
   * benefits, not the fallback text that any other unknown tier gets.
   */
  lemma ConstructorTierMissesFallback()
    ensures BenefitsAsWritten(Some("constructor")) == Inherited("constructor")
    ensures Benefits(Some("constructor")) == NoBenefits
  {
  }
}
