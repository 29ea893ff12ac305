/**
 * The Stripe-facing rules of services/stripe.go: which prices become plans
 * and in what order (`ListPlans`), the account URL Stripe sends customers
 * back to (`customerRedirectURL`), and the no-subscription rule of
 * `GetSubscription`.
 *
 * The Stripe client is not modelled: the price list arrives as the
 * sequence the iterator yields plus the error it ends with, and the
 * subscription lookup is a parameter.
 */
module Stripe {
  import opened GoErrors
  import Sorting
  import Subscription

  /** `stripe.Product`, the fields the service reads. */
  datatype Product = Product(id: string, name: string, description: string, deleted: bool, active: bool,
                             metadata: map<string, string>)

  /** `stripe.Price`; `None` stands for a nil pointer. */
  datatype Price = Price(id: string, unitAmount: int, currency: string, recurringInterval: Option<string>,
                         product: Option<Product>)

  /**
   * `domain.Plan`. The source's `Price` field is `UnitAmount / 100` as a
   * float; the plan keeps the integer amount in cents.
   */
  datatype Plan = Plan(id: string, name: string, description: string, unitAmount: int, currency: string,
                       interval: string, priceID: string, features: Subscription.PlanFeature)

  /** A price becomes a plan when it is recurring and its product exists, is not deleted and is active. */
  predicate Offered(p: Option<Price>)
  {
    p.Some? && p.value.recurringInterval.Some? && p.value.product.Some?
    && !p.value.product.value.deleted && p.value.product.value.active
  }

  /** The plan built from an offered price. */
  function ToPlan(p: Price): (plan: Plan)
    requires Offered(Some(p))
    ensures plan.id == p.product.value.id && plan.priceID == p.id && plan.unitAmount == p.unitAmount
    ensures plan.name == p.product.value.name && plan.description == p.product.value.description
    ensures plan.interval == p.recurringInterval.value && plan.currency == p.currency
    ensures plan.features == Subscription.NewPlanFeature(p.product.value.metadata)
  {
    var product := p.product.value;
    Plan(product.id, product.name, product.description, p.unitAmount, p.currency,
         p.recurringInterval.value, p.id, Subscription.NewPlanFeature(product.metadata))
  }

  /** The plans of the offered prices, in iterator order. */
  function Plans(prices: seq<Option<Price>>): (plans: seq<Plan>)
    ensures |plans| <= |prices|
  {
    if |prices| == 0 then []
    else
      var last := prices[|prices| - 1];
      Plans(prices[..|prices| - 1]) + if Offered(last) then [ToPlan(last.value)] else []
  }

  /** A plan is listed exactly when some offered price produces it. */
  lemma {:induction false} PlansFromOffered(prices: seq<Option<Price>>, plan: Plan)
    ensures plan in Plans(prices) <==>
      exists i :: 0 <= i < |prices| && Offered(prices[i]) && ToPlan(prices[i].value) == plan
    decreases |prices|
  {
    if |prices| > 0 {
      var init := prices[..|prices| - 1];
      PlansFromOffered(init, plan);
      assert forall i :: 0 <= i < |init| ==> init[i] == prices[i];
    }
  }

  /** The sort key: `slices.SortFunc` on `Price` orders by the amount in cents. */
  function AmountKey(p: Plan): int { p.unitAmount }

  /**
   * `ListPlans`: an iterator error discards everything; otherwise the
   * offered plans, cheapest first (equal amounts in any order).
   */
  method ListPlans(prices: seq<Option<Price>>, iterErr: Option<Error>) returns (r: Result<seq<Plan>>)
    ensures iterErr.Some? ==> r == Err(Wrap("error listing prices", iterErr.value))
    ensures iterErr.None? ==> r.Ok?
    ensures r.Ok? ==> multiset(r.value) == multiset(Plans(prices))
    ensures r.Ok? ==> Sorting.SortedBy(r.value, AmountKey)
  {
    var plans: seq<Plan> := [];
    var i := 0;
    while i < |prices|
      invariant 0 <= i <= |prices|
      invariant plans == Plans(prices[..i])
    {
      var p := prices[i];
      assert prices[..i + 1][..i] == prices[..i];
      if Offered(p) {
        plans := plans + [ToPlan(p.value)];
      }
      i := i + 1;
    }
    assert prices[..i] == prices;
    if iterErr.Some? {
      return Err(Wrap("error listing prices", iterErr.value));
    }
    var a := new Plan[|plans|](k requires 0 <= k < |plans| => plans[k]);
    assert a[..] == plans;
    Sorting.SortByKey(a, AmountKey);
    return Ok(a[..]);
  }

  /** `customerRedirectURL`: the account page of the site's domain. */
  function CustomerRedirectURL(domain: string, tls: bool): (url: string)
    ensures |url| == (if tls then 8 else 7) + |domain| + 8
    ensures tls ==> url[..8] == "https://" && url[8..|url| - 8] == domain
    ensures !tls ==> url[..7] == "http://" && url[7..|url| - 8] == domain
    ensures url[|url| - 8..] == "/account"
  {
    var path := domain + "/account";
    if tls then "https://" + path else "http://" + path
  }

  /** Different domains give different URLs, and the scheme follows the TLS flag. */
  lemma RedirectURLInjective(d1: string, t1: bool, d2: string, t2: bool)
    requires CustomerRedirectURL(d1, t1) == CustomerRedirectURL(d2, t2)
    ensures d1 == d2 && t1 == t2
  {
    var u := CustomerRedirectURL(d1, t1);
    // "https://" and "http://" differ at index 4
    assert u[4] == (if t1 then "https://"[4] else "http://"[4]);
    assert u[4] == (if t2 then "https://"[4] else "http://"[4]);
  }

  /** A row of the active subscriptions the store lists for the user. */
  datatype SubscriptionRow = SubscriptionRow(stripeID: string)

  /**
   * `GetSubscription`: the first active row's subscription, fetched from
   * Stripe. Returns the outcome and the Stripe id fetched, if any.
   */
  function GetSubscription<S>(rows: Result<seq<SubscriptionRow>>, fetch: string -> Result<S>)
    : (r: (Result<S>, Option<string>))
    ensures rows.Err? ==> r == (Err(rows.error), None)
    // no active row: the dedicated error, and Stripe is not asked
    ensures rows.Ok? && |rows.value| == 0 ==> r == (Err(Base(ErrNotSubscription)), None)
    ensures r.1.Some? <==> rows.Ok? && |rows.value| > 0
    ensures r.1.Some? ==> r.1.value == rows.value[0].stripeID && r.0 == fetch(rows.value[0].stripeID)
  {
    if rows.Err? then (Err(rows.error), None)
    else if |rows.value| == 0 then (Err(Base(ErrNotSubscription)), None)
    else
      var id := rows.value[0].stripeID;
      (fetch(id), Some(id))
  }
}
