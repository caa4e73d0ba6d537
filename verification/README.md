# Loyalty points: client-side balance, tier edit and points display

This project models, in Dafny, the small pieces of self-contained logic in the
web client of a merchant loyalty-points platform:

- **Customer profile** (`CustomerProfile` module). The active points balance is
  computed from the customer's points history. An entry counts when it is not
  redeemed and its expiry lies strictly after the current time, and the
  balance is the sum of the points of those entries. A missing history gives 0.
  The lifetime spend is the sum of the transaction amounts, where a missing
  amount counts as 0 and a missing list gives 0.
- **Tier management** (`TierManagement` module). An admin edits a customer's
  tier in the listed customers. The customers whose id matches get the new tier,
  and everything else stays as it was. Saving a tier rule is refused when its
  minimum points field is empty.
- **Customer points** (`CustomerPoints` module). The profile response is
  normalised for display. This covers the balance fallback chain, the default
  tier label, the default expiry period of 365 days, and the fixed table of
  benefits per tier.

All three are pure computations, so the model uses datatypes, functions and
lemmas. JavaScript's `a || b` is written out explicitly. A field that may be
missing is an `Option`. A number is truthy when it is present and non-zero. A
string is truthy when it is present and non-empty. Timestamps and amounts are
unbounded integers.

The balance rule is given in two forms. `CalculateActivePoints` filters the
live entries and then sums them, as the page does. `ActivePoints` adds each
entry's contribution in turn. `FilterThenSum` proves the two agree, and the
properties of the balance are proved about `ActivePoints`.

The points-history entry here carries a `redeemed` flag and a whole `points`
value. There is no partially consumed remaining amount. That is what the page
reads, and the model follows the page.

## Model

| member | source | states |
|---|---|---|
| `CustomerProfile.LiveLots` | frontend/frontend/reward_managment_frontend/src/pages/CustomerProfile.jsx:20 | the filter keeps exactly the unredeemed entries that expire strictly after now, with their multiplicities, and nothing else |
| `CustomerProfile.CalculateActivePoints` | frontend/frontend/reward_managment_frontend/src/pages/CustomerProfile.jsx:16-22 | a missing history gives 0; otherwise filter-then-sum equals the balance rule `ActivePoints` |
| `CustomerProfile.FilterThenSum` | frontend/frontend/reward_managment_frontend/src/pages/CustomerProfile.jsx:19-21 | summing the points of the filtered entries equals adding each entry's points when it is live and 0 otherwise |
| `CustomerProfile.ActivePointsAppend` | frontend/frontend/reward_managment_frontend/src/pages/CustomerProfile.jsx:19-21 | the balance of two concatenated histories is the sum of their balances |
| `CustomerProfile.DeadEntryIgnored` | frontend/frontend/reward_managment_frontend/src/pages/CustomerProfile.jsx:20 | a redeemed entry, or one expiring at or before now (the comparison is strict), changes the balance by nothing wherever it sits |
| `CustomerProfile.LiveEntryAdds` | frontend/frontend/reward_managment_frontend/src/pages/CustomerProfile.jsx:19-21 | an unredeemed entry expiring after now raises the balance by exactly its points wherever it sits |
| `CustomerProfile.AppendEntry` | frontend/frontend/reward_managment_frontend/src/pages/CustomerProfile.jsx:19-21 | appending a live entry adds its points, and appending a redeemed or expired entry leaves the balance unchanged |
| `CustomerProfile.ActivePointsBounded` | frontend/frontend/reward_managment_frontend/src/pages/CustomerProfile.jsx:19-21 | with no negative entries the balance lies between 0 and the total points of the whole history |
| `CustomerProfile.ActivePointsOrderFree` | frontend/frontend/reward_managment_frontend/src/pages/CustomerProfile.jsx:19-21 | two histories holding the same entries in any order have the same balance |
| `CustomerProfile.ActivePointsFallOverTime` | frontend/frontend/reward_managment_frontend/src/pages/CustomerProfile.jsx:18-20 | with no negative entries, the balance at a later time is at most the balance at an earlier time |
| `CustomerProfile.SpendOf` | frontend/frontend/reward_managment_frontend/src/pages/CustomerProfile.jsx:40 | a missing amount counts as 0 and a present amount counts as itself |
| `CustomerProfile.LifetimeSpend` | frontend/frontend/reward_managment_frontend/src/pages/CustomerProfile.jsx:39-40 | a missing or empty transaction list gives a lifetime spend of 0 |
| `CustomerProfile.LifetimeSpendIsSumOfAmounts` | frontend/frontend/reward_managment_frontend/src/pages/CustomerProfile.jsx:39-40 | lifetime spend is the sum of the amounts that are present, so transactions without an amount add nothing |
| `CustomerProfile.SumSpendSplit` | frontend/frontend/reward_managment_frontend/src/pages/CustomerProfile.jsx:40 | the spend of two concatenated lists is the sum of their spends |
| `CustomerProfile.LifetimeSpendCoversEachAmount` | frontend/frontend/reward_managment_frontend/src/pages/CustomerProfile.jsx:39-40 | with no negative amounts, every single amount lies between 0 and the lifetime spend |
| `TierManagement.ChangeCustomerTier` | frontend/frontend/reward_managment_frontend/src/pages/TierManagement.jsx:82-86 | the length and order are kept; every customer with the given id ends with the new tier and keeps its id, name and email; every other customer is returned unchanged |
| `TierManagement.NoMatchNoChange` | frontend/frontend/reward_managment_frontend/src/pages/TierManagement.jsx:84 | when no customer has the given id, the list is unchanged |
| `TierManagement.ChangeTwiceIsOnce` | frontend/frontend/reward_managment_frontend/src/pages/TierManagement.jsx:82-86 | making the same tier change twice equals making it once |
| `TierManagement.LaterChangeWins` | frontend/frontend/reward_managment_frontend/src/pages/TierManagement.jsx:82-86 | of two tier changes to the same customer, the later one decides the result |
| `TierManagement.ChangesToDifferentCustomersCommute` | frontend/frontend/reward_managment_frontend/src/pages/TierManagement.jsx:83-85 | tier changes to two different ids give the same list in either order |
| `TierManagement.HandleSave` | frontend/frontend/reward_managment_frontend/src/pages/TierManagement.jsx:55-67 | the save is refused with "Minimum points is required" exactly when minimum points is empty; otherwise the payload carries the form's tier name, minimum, multiplier and benefits |
| `TierManagement.ResetFormIsRejected` | frontend/frontend/reward_managment_frontend/src/pages/TierManagement.jsx:7-12 | the form as first shown cannot be saved until a minimum is entered |
| `CustomerPoints.DisplayedPoints` | frontend/frontend/reward_managment_frontend/src/pages/CustomerPoints.jsx:24 | the shown balance is `points` when present and non-zero, and otherwise comes from `pointsBalance` or is 0; it is 0 exactly when both are missing or zero |
| `CustomerPoints.ZeroPointsFallThrough` | frontend/frontend/reward_managment_frontend/src/pages/CustomerPoints.jsx:24 | a `points` of 0 behaves exactly like a missing `points` and falls through to `pointsBalance` |
| `CustomerPoints.TierLabel` | frontend/frontend/reward_managment_frontend/src/pages/CustomerPoints.jsx:25 | the label is never empty; it is the tier when present and non-empty, else "No tier assigned" |
| `CustomerPoints.ExpiryDays` | frontend/frontend/reward_managment_frontend/src/pages/CustomerPoints.jsx:26 | the shown period is never 0; it is the response's value when present and non-zero, else 365 |
| `CustomerPoints.Benefits` | frontend/frontend/reward_managment_frontend/src/pages/CustomerPoints.jsx:28-33 | the text is never empty; Silver, Gold and Platinum get their table entries, and the fallback text is given exactly for every other tier or no tier |
| `CustomerPoints.Normalise` | frontend/frontend/reward_managment_frontend/src/pages/CustomerPoints.jsx:23-33 | the balance shown is 0 exactly when both balances are missing or zero; the tier label, expiry period and benefits are never empty or zero; the benefits shown equal the benefits of the tier label shown, the default label included (the benefits use the intended lookup, not the expression as written on line 33) |
| `CustomerPoints.LookupAsWritten` | frontend/frontend/reward_managment_frontend/src/pages/CustomerPoints.jsx:28-33 | indexing the object literal gives the table entry for the three tiers, and an inherited member exactly for the other names every object inherits |
| `CustomerPoints.BenefitsAsWritten` | frontend/frontend/reward_managment_frontend/src/pages/CustomerPoints.jsx:33 | the expression as written yields either a string or an inherited member, never a missing value |
| `CustomerPoints.AsWrittenAgreesOffPrototype` | frontend/frontend/reward_managment_frontend/src/pages/CustomerPoints.jsx:28-33 | for every tier that is not an inherited member name, the expression as written gives the intended benefits text |
| `CustomerPoints.ConstructorTierMissesFallback` | frontend/frontend/reward_managment_frontend/src/pages/CustomerPoints.jsx:33 | for the tier "constructor" the expression as written yields `Object` itself, where the intended lookup gives the fallback text |

## Left out

- Requests to the server, `localStorage`, navigation and React state setters are not modelled. The model starts from the parsed response values.
- The parallel fetch of profile and transactions (`Promise.all`) is not modelled. It is concurrency, and only the two folds applied to its results are modelled.
- `new Date(...)` parsing is not modelled. Expiry and the current time are integer timestamps. An entry whose `expiresAt` is missing or unparseable is therefore not represented.
- `redeemed` is a boolean. Other truthy or falsy values of that field are not represented.
- Amounts and points are integers. `NaN`, fractional values and string concatenation in `sum + tx.amount` are not modelled.
- Normalise: builds the benefits text with the intended lookup `Benefits`. It does not use the expression as written on line 33 of CustomerPoints.jsx, which is modelled separately as `BenefitsAsWritten` (see Findings).
- HandleSave: does not model the `Number(...)` conversion of minimum points and multiplier. The payload carries the form's text, and the alert, the POST and the form reset after a successful save are not modelled.
- Saving a customer's tier to the server (`saveCustomerTier`) is a request and is not modelled. Only the local list edit is modelled.
- Earning calculation, FIFO lot redemption, tier thresholds and purchase orchestration are not modelled. None of them appears in the page code modelled here.
- The other pages (analytics charts, policy forms, login and payment, lists of transactions and users) and the server-side schemas and controllers are not part of this model.

## Findings

| source | as written | input that shows it | evidently intended | confidence | as-written member | corrected member |
|---|---|---|---|---|---|---|
| frontend/frontend/reward_managment_frontend/src/pages/CustomerPoints.jsx:28-33 | `benefitsMap[data.tier]` indexes a plain object literal, so a tier named after a member every object inherits yields that member. The member is truthy, so the fallback text is skipped | tier `"constructor"` (also `"toString"`, `"valueOf"`, `"__proto__"`, ...) | every tier other than Silver, Gold and Platinum shows "No benefits available for this tier." | low, not executed. The defect is latent: the server's schemas restrict a customer's `tier` and a rule's `tierName` to Silver, Gold and Platinum (rms_backend 3/rms_backend/server/models/User.js:13-17, rms_backend 3/rms_backend/server/models/RewardPolicy.js:16) | `CustomerPoints.BenefitsAsWritten`, `CustomerPoints.ConstructorTierMissesFallback` | `CustomerPoints.Benefits` |
