/**
 * The tier-management page: the admin's local edit of a customer's tier in
 * the customer list, and the guard that refuses to save a tier rule whose
 * minimum points are left empty.
 */
module TierManagement {
  import opened Wrappers

  /** A customer row as listed by the page; `tier` is missing for a customer with no tier. */
  datatype Customer = Customer(id: string, name: string, email: string, tier: Option<string>)

  /**
   * `handleCustomerTierChange`: every customer whose id equals `customerId`
   * gets `newTier`; every other customer, and every other field, stays as it was.
   */
  function ChangeCustomerTier(customers: seq<Customer>, customerId: string, newTier: string): (r: seq<Customer>)
    ensures |r| == |customers|
    ensures forall i :: 0 <= i < |r| && customers[i].id == customerId ==> r[i].tier == Some(newTier)
    ensures forall i :: 0 <= i < |r| ==>
      r[i].id == customers[i].id && r[i].name == customers[i].name && r[i].email == customers[i].email
    ensures forall i :: 0 <= i < |r| && customers[i].id != customerId ==> r[i] == customers[i]
  {
    if |customers| == 0 then []
    else
      var c := customers[0];
      var head := if c.id == customerId then c.(tier := Some(newTier)) else c;
      [head] + ChangeCustomerTier(customers[1..], customerId, newTier)
  }

  /** When no customer has the given id, the list comes back unchanged. */
  lemma NoMatchNoChange(customers: seq<Customer>, customerId: string, newTier: string)
    requires forall i :: 0 <= i < |customers| ==> customers[i].id != customerId
    ensures ChangeCustomerTier(customers, customerId, newTier) == customers
  {
  }

  /** Making the same tier change twice is the same as making it once. */
  lemma ChangeTwiceIsOnce(customers: seq<Customer>, customerId: string, newTier: string)
    ensures var once := ChangeCustomerTier(customers, customerId, newTier);
      ChangeCustomerTier(once, customerId, newTier) == once
  {
  }

  /** Of two changes to the same customer, the later one wins. */
  lemma LaterChangeWins(customers: seq<Customer>, customerId: string, first: string, second: string)
    ensures ChangeCustomerTier(ChangeCustomerTier(customers, customerId, first), customerId, second)
         == ChangeCustomerTier(customers, customerId, second)
  {
  }

  /** Changes to two different customers can be made in either order. */
  lemma ChangesToDifferentCustomersCommute(customers: seq<Customer>, a: string, ta: string, b: string, tb: string)
    requires a != b
    ensures ChangeCustomerTier(ChangeCustomerTier(customers, a, ta), b, tb)
         == ChangeCustomerTier(ChangeCustomerTier(customers, b, tb), a, ta)
  {
  }

  /**
   * The tier-rule form. Every input holds the text the admin typed; the
   * multiplier starts as 1 and minimum points start empty.
   */
  datatype TierForm = TierForm(tierName: string, minPoints: string, multiplier: string, benefits: string)

  /** The form as it is first shown and as it is reset after a save. */
  const InitialTierForm := TierForm("Silver", "", "1", "")

  /** The body posted for a tier rule; the numeric fields are carried as the form's text. */
  datatype TierPayload = TierPayload(tierName: string, minPoints: string, multiplier: string, benefits: string)

  /** What `handleSave` does with the form: refuse it with a message, or post a payload. */
  datatype SaveOutcome = Rejected(message: string) | Submit(payload: TierPayload)

  const MinPointsRequired := "Minimum points is required"

  /**
   * `handleSave` up to the request: the empty string is the only falsy text,
   * so an empty minimum is refused before any payload is built and any other
   * text, "0" included, goes on to be posted with the form's fields.
   */
  function HandleSave(form: TierForm): (r: SaveOutcome)
    ensures r.Rejected? <==> form.minPoints == ""
    ensures r.Rejected? ==> r.message == MinPointsRequired
    ensures r.Submit? ==>
      && r.payload.minPoints == form.minPoints
      && r.payload.tierName == form.tierName
      && r.payload.multiplier == form.multiplier
      && r.payload.benefits == form.benefits
  {
    if form.minPoints == "" then Rejected(MinPointsRequired)
    else Submit(TierPayload(form.tierName, form.minPoints, form.multiplier, form.benefits))
  }

  /** The form the page shows after a save cannot be saved again until a minimum is typed. */
  lemma ResetFormIsRejected()
    ensures HandleSave(InitialTierForm) == Rejected(MinPointsRequired)
  {
  }
}
