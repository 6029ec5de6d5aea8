/** The exposed operation `generateCodes(productType, firstChoice, secondChoice)`:
    captcha token, retried catalog fetch, matching, then either the ice-cream
    codes as fetched or, after the choice check, the activation. Any failure is
    rethrown unchanged.

    The captcha gate is given as its outcome, the catalog endpoint and the
    confirm endpoint as the outcomes of their calls. */
module Codegen {
  import opened Common
  import opened RetryPolicy
  import opened Catalog
  import opened Activation

  /** How many calls went to each endpoint, and how many retry sleeps in all. */
  datatype Trace = Trace(catalogCalls: nat, confirmCalls: nat, sleeps: nat)

  /** `Boolean(choice)` for an optional string: `null` and `""` are falsy. */
  predicate Truthy(choice: Option<string>)
    ensures Truthy(choice) ==> choice.Some? && |choice.value| >= 1
    ensures choice == None || choice == Some("") ==> !Truthy(choice)
    ensures choice.Some? && choice.value != "" ==> Truthy(choice)
  {
    choice.Some? && choice.value != ""
  }

  /** The ice-cream answer: the first two matched codes, the second possibly absent. */
  function IceCreamCodes(codes: seq<string>): (r: GeneratedCodes)
    requires |codes| >= 1
    ensures r.firstCode == codes[0]
    ensures r.secondCode.Some? <==> |codes| >= 2
    ensures r.secondCode.Some? ==> r.secondCode.value == codes[1]
  {
    GeneratedCodes(codes[0], if |codes| >= 2 then Some(codes[1]) else None)
  }

  /** The whole run of `generateCodes`. */
  function Generate(productType: string, firstChoice: Option<string>, secondChoice: Option<string>,
                    captcha: Result<string, Error>, catalog: nat -> Result<seq<Operation>, Error>,
                    confirm: Confirm): (Result<GeneratedCodes, Error>, Trace)
  {
    if captcha.Err? then (Err(captcha.error), Trace(0, 0, 0))
    else AfterCaptcha(productType, Retry(catalog, MaxRetries), firstChoice, secondChoice, confirm)
  }

  /** What follows the captcha, given the retried fetch of the catalog: its
      failure rethrown, or the match and what follows it. */
  function AfterCaptcha(productType: string, fetch: Run<seq<Operation>>, firstChoice: Option<string>,
                        secondChoice: Option<string>, confirm: Confirm): (Result<GeneratedCodes, Error>, Trace)
  {
    if fetch.result.Err? then (Err(fetch.result.error), Trace(fetch.calls, 0, fetch.sleeps))
    else
      var rest := AfterFetch(productType, fetch.result.value, firstChoice, secondChoice, confirm);
      (rest.result, Trace(fetch.calls, rest.calls, fetch.sleeps + rest.sleeps))
  }

  /** What follows a successful fetch: the match, then the ice-cream codes as
      fetched, the choice check, or the activation with its confirm calls and
      sleeps. */
  function AfterFetch(productType: string, ops: seq<Operation>, firstChoice: Option<string>, secondChoice: Option<string>,
                      confirm: Confirm): Run<GeneratedCodes>
  {
    match RestaurantCodes(ops, productType)
    case Err(e) => Run(Err(e), 0, 0)
    case Ok(codes) =>
      if productType == "icecream" then Run(Ok(IceCreamCodes(codes)), 0, 0)
      else if !(Truthy(firstChoice) && Truthy(secondChoice)) then Run(Err(MissingChoices), 0, 0)
      else Activate(codes, firstChoice.value, secondChoice.value, confirm)
  }

  /** `generateCodes` as the source sequences it. */
  method GenerateCodes(productType: string, firstChoice: Option<string>, secondChoice: Option<string>,
                       captcha: Result<string, Error>, catalog: nat -> Result<seq<Operation>, Error>,
                       confirm: Confirm)
    returns (r: Result<GeneratedCodes, Error>, trace: Trace)
    ensures (r, trace) == Generate(productType, firstChoice, secondChoice, captcha, catalog, confirm)
  {
    if captcha.Err? {
      return Err(captcha.error), Trace(0, 0, 0);
    }
    var fetched, calls, sleeps := RetryOn503(catalog, MaxRetries);
    r, trace := FinishGeneration(productType, fetched, calls, sleeps, firstChoice, secondChoice, confirm);
  }

  /** The steps after the fetch, as `generateCodes` runs them. */
  method FinishGeneration(productType: string, fetched: Result<seq<Operation>, Error>, calls: nat, sleeps: nat,
                          firstChoice: Option<string>, secondChoice: Option<string>, confirm: Confirm)
    returns (r: Result<GeneratedCodes, Error>, trace: Trace)
    ensures (r, trace) == AfterCaptcha(productType, Run(fetched, calls, sleeps), firstChoice, secondChoice, confirm)
  {
    if fetched.Err? {
      return Err(fetched.error), Trace(calls, 0, sleeps);
    }
    var confirmCalls, confirmSleeps;
    r, confirmCalls, confirmSleeps := MatchAndActivate(productType, fetched.value, firstChoice, secondChoice, confirm);
    trace := Trace(calls, confirmCalls, sleeps + confirmSleeps);
  }

  /** The match and the branches after it, as `generateCodes` runs them. */
  method MatchAndActivate(productType: string, ops: seq<Operation>, firstChoice: Option<string>, secondChoice: Option<string>,
                          confirm: Confirm)
    returns (r: Result<GeneratedCodes, Error>, calls: nat, sleeps: nat)
    ensures Run(r, calls, sleeps) == AfterFetch(productType, ops, firstChoice, secondChoice, confirm)
  {
    var codes := GetRestaurantCodes(ops, productType);
    if codes.Err? {
      return Err(codes.error), 0, 0;
    }
    if productType == "icecream" {
      return Ok(IceCreamCodes(codes.value)), 0, 0;
    }
    if !(Truthy(firstChoice) && Truthy(secondChoice)) {
      return Err(MissingChoices), 0, 0;
    }
    r, calls, sleeps := ActivateBurgerCodes(codes.value, firstChoice.value, secondChoice.value, confirm);
  }

  /** A failed captcha or catalog fetch is rethrown unchanged; nothing after it runs. */
  lemma EarlyErrorsRethrown(productType: string, firstChoice: Option<string>, secondChoice: Option<string>,
                            captcha: Result<string, Error>, catalog: nat -> Result<seq<Operation>, Error>,
                            confirm: Confirm)
    ensures var (r, trace) := Generate(productType, firstChoice, secondChoice, captcha, catalog, confirm);
      && (captcha.Err? ==> r == Err(captcha.error) && trace == Trace(0, 0, 0))
      && (captcha.Ok? && Retry(catalog, MaxRetries).result.Err? ==>
            r == Err(Retry(catalog, MaxRetries).result.error) && trace.confirmCalls == 0)
  {
  }

  /** `generateCodes('icecream')` returns the first two matched codes as
      fetched, the second possibly absent, and never activates anything. */
  lemma IceCreamReturnsMatchedCodes(firstChoice: Option<string>, secondChoice: Option<string>,
                                    captcha: Result<string, Error>, catalog: nat -> Result<seq<Operation>, Error>,
                                    confirm: Confirm, ops: seq<Operation>)
    requires captcha.Ok? && Retry(catalog, MaxRetries).result == Ok(ops)
    requires MatchingCodes(ops, IceCream) != []
    ensures var (r, trace) := Generate("icecream", firstChoice, secondChoice, captcha, catalog, confirm);
      var all := MatchingCodes(ops, IceCream);
      && r == Ok(GeneratedCodes(all[0], if |all| >= 2 then Some(all[1]) else None))
      && trace.confirmCalls == 0
  {
    ProductLookupExamples();
    RestaurantCodesMeetReference(ops, "icecream", IceCream);
  }

  /** The choice check runs only after the catalog was fetched and matched:
      the fetch is always made, its failure or the matcher's takes precedence,
      and otherwise a missing choice is the error. No confirm call is made. */
  lemma MissingChoicesCheckedAfterFetch(productType: string, firstChoice: Option<string>, secondChoice: Option<string>,
                                        captcha: Result<string, Error>, catalog: nat -> Result<seq<Operation>, Error>,
                                        confirm: Confirm)
    requires captcha.Ok? && productType != "icecream"
    requires !Truthy(firstChoice) || !Truthy(secondChoice)
    ensures var (r, trace) := Generate(productType, firstChoice, secondChoice, captcha, catalog, confirm);
      var fetch := Retry(catalog, MaxRetries);
      && trace.catalogCalls >= 1 && trace.confirmCalls == 0
      && r == if fetch.result.Err? then Err(fetch.result.error)
              else if RestaurantCodes(fetch.result.value, productType).Err? then Err(RestaurantCodes(fetch.result.value, productType).error)
              else Err(MissingChoices)
  {
  }

  /** The product lookup upper-cases the type but the ice-cream branch compares
      it as written: "ICECREAM" matches ice-cream coupons and then takes the
      burger path, where missing choices are an error. */
  lemma UpperCaseIceCreamTakesBurgerPath(captcha: Result<string, Error>, catalog: nat -> Result<seq<Operation>, Error>,
                                         confirm: Confirm, ops: seq<Operation>)
    requires captcha.Ok? && Retry(catalog, MaxRetries).result == Ok(ops)
    requires MatchingCodes(ops, IceCream) != []
    ensures Generate("ICECREAM", None, None, captcha, catalog, confirm).0 == Err(MissingChoices)
  {
    ProductLookupExamples();
    RestaurantCodesMeetReference(ops, "ICECREAM", IceCream);
  }

  /** Outside the ice-cream branch, with the catalog fetched, a matching
      code found and both choices given, the run goes on to activate the
      first two matched codes with those choices, and its result is the
      activation's. */
  lemma BurgerRequestActivates(productType: string, first: string, second: string,
                               captcha: Result<string, Error>, catalog: nat -> Result<seq<Operation>, Error>,
                               confirm: Confirm, ops: seq<Operation>, target: ProductSpec)
    requires captcha.Ok? && Retry(catalog, MaxRetries).result == Ok(ops)
    requires ProductFor(productType) == Some(target) && productType != "icecream"
    requires MatchingCodes(ops, target) != []
    requires first != "" && second != ""
    ensures var (r, trace) := Generate(productType, Some(first), Some(second), captcha, catalog, confirm);
      var act := Activate(Take(MatchingCodes(ops, target), 2), first, second, confirm);
      && r == act.result
      && trace.confirmCalls == act.calls
  {
    RestaurantCodesMeetReference(ops, productType, target);
  }

  /** Outside the ice-cream branch, a successful run returns both codes, each
      made of the caller's choice for its slot and the suffix of the first two
      matched coupon codes, and only when every confirm call answered 200. */
  lemma BurgerSuccessKeepsChoices(productType: string, firstChoice: Option<string>, secondChoice: Option<string>,
                                  captcha: Result<string, Error>, catalog: nat -> Result<seq<Operation>, Error>,
                                  confirm: Confirm)
    requires productType != "icecream"
    requires Generate(productType, firstChoice, secondChoice, captcha, catalog, confirm).0.Ok?
    ensures var r := Generate(productType, firstChoice, secondChoice, captcha, catalog, confirm).0;
      var ops := Retry(catalog, MaxRetries).result.value;
      var target := ProductFor(productType).value;
      var codes := MatchingCodes(ops, target);
      && Truthy(firstChoice) && Truthy(secondChoice) && |codes| >= 2
      && r.value == GeneratedCodes(Rewritten(firstChoice.value, codes[0]), Some(Rewritten(secondChoice.value, codes[1])))
      && r.value.firstCode[..|firstChoice.value|] == firstChoice.value
      && r.value.secondCode.value[..|secondChoice.value|] == secondChoice.value
      && var runs := ConfirmRuns(ConfirmRequests(Take(codes, 2), firstChoice.value, secondChoice.value), confirm);
         forall i :: 0 <= i < |runs| ==> runs[i].result.Ok? && runs[i].result.value.status == 200
  {
    var ops := Retry(catalog, MaxRetries).result.value;
    var target := ProductFor(productType).value;
    RestaurantCodesMeetReference(ops, productType, target);
    var codes := Take(MatchingCodes(ops, target), 2);
    var runs := ConfirmRuns(ConfirmRequests(codes, firstChoice.value, secondChoice.value), confirm);
    SettleAllOrNothing(codes, firstChoice.value, secondChoice.value, runs);
  }
}
