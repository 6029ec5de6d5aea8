/** The activation step `activateBurgerCodes`: one confirm-choice request per
    coupon code, each retried on 503, awaited together; success only when
    every response has status 200, and then each output code is the choice
    letter followed by the coupon code without its first character. */
module Activation {
  import opened Common
  import opened RetryPolicy

  /** The promotion identifier of each choice letter. */
  const PromotionIds: map<string, string> := map["B" := "7129189026081447688", "V" := "6645000801566560157"]

  /** The parameters of one confirm-choice request; `promotionId` is `None`
      when the choice has no identifier (the URL then carries `undefined`). */
  datatype ConfirmRequest = ConfirmRequest(couponCode: string, promotionId: Option<string>)

  datatype Response = Response(status: int)

  /** `{ firstCode, secondCode }`; the second is absent only on the ice-cream path. */
  datatype GeneratedCodes = GeneratedCodes(firstCode: string, secondCode: Option<string>)

  /** The outcome of call number `attempt` of the confirm request for `slot`. */
  type Confirm = (nat, ConfirmRequest, nat) -> Result<Response, Error>

  function PromotionFor(choice: Option<string>): Option<string>
  {
    if choice.Some? && choice.value in PromotionIds then Some(PromotionIds[choice.value]) else None
  }

  /** `choices[i]` of the two-element choice list. */
  function ChoiceAt(i: nat, firstChoice: string, secondChoice: string): Option<string>
  {
    if i == 0 then Some(firstChoice) else if i == 1 then Some(secondChoice) else None
  }

  /** One request per coupon code, bound to the promotion of that slot's choice. */
  function ConfirmRequests(codes: seq<string>, firstChoice: string, secondChoice: string): (reqs: seq<ConfirmRequest>)
    ensures |reqs| == |codes|
    ensures forall i :: 0 <= i < |codes| ==> reqs[i].couponCode == codes[i]
    ensures |codes| >= 1 && firstChoice in PromotionIds ==> reqs[0].promotionId == Some(PromotionIds[firstChoice])
    ensures |codes| >= 2 && secondChoice in PromotionIds ==> reqs[1].promotionId == Some(PromotionIds[secondChoice])
    ensures forall i :: 0 <= i < |codes| ==>
              (reqs[i].promotionId.None? <==> ChoiceAt(i, firstChoice, secondChoice).None?
                                               || ChoiceAt(i, firstChoice, secondChoice).value !in PromotionIds)
  {
    seq(|codes|, i requires 0 <= i < |codes| => ConfirmRequest(codes[i], PromotionFor(ChoiceAt(i, firstChoice, secondChoice))))
  }

  /** `choice + code.substring(1)`: the choice, then the code without its
      first character (nothing of an empty code). */
  function Rewritten(choice: string, code: string): (r: string)
    ensures |r| == |choice| + (if |code| == 0 then 0 else |code| - 1)
    ensures r[..|choice|] == choice
    ensures forall i :: |choice| <= i < |r| ==> r[i] == code[i - |choice| + 1]
  {
    choice + (if |code| == 0 then "" else code[1..])
  }

  /** The rewritten code starts with the choice and keeps the coupon's suffix;
      a one-letter choice keeps a non-empty code's length, and re-applying a
      code's own first letter gives the code back. */
  lemma RewrittenShape(choice: string, code: string)
    requires |code| >= 1
    ensures var r := Rewritten(choice, code);
      && r[..|choice|] == choice && r[|choice|..] == code[1..]
      && (|choice| == 1 ==> |r| == |code| && r[0] == choice[0] && r[1..] == code[1..])
      && (choice == [code[0]] ==> r == code)
  {
  }

  /** The request function of one slot's confirm call. */
  function SlotAttempts(confirm: Confirm, slot: nat, req: ConfirmRequest): nat -> Result<Response, Error>
  {
    (attempt: nat) => confirm(slot, req, attempt)
  }

  /** The retried run of every confirm request, one per slot. */
  function ConfirmRuns(reqs: seq<ConfirmRequest>, confirm: Confirm): (runs: seq<Run<Response>>)
    ensures |runs| == |reqs|
  {
    seq(|reqs|, i requires 0 <= i < |reqs| => Retry(SlotAttempts(confirm, i, reqs[i]), MaxRetries))
  }

  /** `Promise.all` over the runs: the first rejection, in slot order, if any. */
  function FirstRejection(runs: seq<Run<Response>>): (e: Option<Error>)
    ensures e.None? <==> forall i :: 0 <= i < |runs| ==> runs[i].result.Ok?
    ensures e.Some? ==> exists i :: 0 <= i < |runs| && runs[i].result == Err(e.value)
  {
    if runs == [] then None
    else if runs[0].result.Err? then Some(runs[0].result.error)
    else
      var rest := FirstRejection(runs[1..]);
      assert rest.Some? ==> exists i :: 1 <= i < |runs| && runs[i].result == Err(rest.value) by {
        if rest.Some? {
          var i :| 0 <= i < |runs[1..]| && runs[1..][i].result == Err(rest.value);
          assert runs[i + 1].result == Err(rest.value);
        }
      }
      rest
  }

  /** Every run resolved, with status 200. */
  predicate AllStatus200Resolved(runs: seq<Run<Response>>)
  {
    forall i :: 0 <= i < |runs| ==> runs[i].result.Ok? && runs[i].result.value.status == 200
  }

  /** Lines 98-104: any status other than 200 fails the whole activation; on
      success each code is rewritten with its slot's choice. With fewer than
      two codes, reading the missing one fails. */
  function Settle(codes: seq<string>, firstChoice: string, secondChoice: string, runs: seq<Run<Response>>): (r: Result<GeneratedCodes, Error>)
    ensures r.Ok? ==> |codes| >= 2 && AllStatus200Resolved(runs) && r.value.secondCode.Some?
    ensures (exists i :: 0 <= i < |runs| && runs[i].result.Err?) ==>
      (r.Err? && exists j :: 0 <= j < |runs| && runs[j].result == Err(r.error))
    ensures (forall i :: 0 <= i < |runs| ==> runs[i].result.Ok?) && !AllStatus200Resolved(runs) ==>
      r == Err(ActivationFailed)
    ensures AllStatus200Resolved(runs) && |codes| < 2 ==> r == Err(TypeError)
  {
    match FirstRejection(runs)
    case Some(e) => Err(e)
    case None =>
      if !AllStatus200Resolved(runs) then Err(ActivationFailed)
      else if |codes| < 2 then Err(TypeError)
      else Ok(GeneratedCodes(Rewritten(firstChoice, codes[0]), Some(Rewritten(secondChoice, codes[1]))))
  }

  function TotalCalls(runs: seq<Run<Response>>): nat
  {
    if runs == [] then 0 else runs[0].calls + TotalCalls(runs[1..])
  }

  function TotalSleeps(runs: seq<Run<Response>>): nat
  {
    if runs == [] then 0 else runs[0].sleeps + TotalSleeps(runs[1..])
  }

  /** The whole activation: its result, and the calls and sleeps of all its
      confirm requests (each runs to its own end, as nothing cancels it). */
  function Activate(codes: seq<string>, firstChoice: string, secondChoice: string, confirm: Confirm): Run<GeneratedCodes>
  {
    var runs := ConfirmRuns(ConfirmRequests(codes, firstChoice, secondChoice), confirm);
    Run(Settle(codes, firstChoice, secondChoice, runs), TotalCalls(runs), TotalSleeps(runs))
  }

  lemma {:induction false} TotalsAppend(runs: seq<Run<Response>>, run: Run<Response>)
    ensures TotalCalls(runs + [run]) == TotalCalls(runs) + run.calls
    ensures TotalSleeps(runs + [run]) == TotalSleeps(runs) + run.sleeps
  {
    if runs != [] {
      assert (runs + [run])[1..] == runs[1..] + [run];
      TotalsAppend(runs[1..], run);
    }
  }

  /** `activateBurgerCodes` as the source runs it: a retried request per code,
      all awaited, then the status check and the rewriting. */
  method ActivateBurgerCodes(codes: seq<string>, firstChoice: string, secondChoice: string, confirm: Confirm)
    returns (r: Result<GeneratedCodes, Error>, calls: nat, sleeps: nat)
    ensures Run(r, calls, sleeps) == Activate(codes, firstChoice, secondChoice, confirm)
  {
    var reqs := ConfirmRequests(codes, firstChoice, secondChoice);
    var runs: seq<Run<Response>> := [];
    calls, sleeps := 0, 0;
    while |runs| < |reqs|
      invariant |runs| <= |reqs|
      invariant runs == ConfirmRuns(reqs, confirm)[..|runs|]
      invariant calls == TotalCalls(runs) && sleeps == TotalSleeps(runs)
    {
      var i := |runs|;
      var response, c, s := RetryOn503(SlotAttempts(confirm, i, reqs[i]), MaxRetries);
      TotalsAppend(runs, Run(response, c, s));
      runs := runs + [Run(response, c, s)];
      calls, sleeps := calls + c, sleeps + s;
    }
    assert runs == ConfirmRuns(reqs, confirm);
    r := Settle(codes, firstChoice, secondChoice, runs);
  }

  /** All-or-nothing: the activation succeeds exactly when every confirm call
      resolved with status 200 and there are two codes; a success carries both
      codes, each the slot's choice followed by its coupon's suffix. */
  lemma SettleAllOrNothing(codes: seq<string>, firstChoice: string, secondChoice: string, runs: seq<Run<Response>>)
    ensures var r := Settle(codes, firstChoice, secondChoice, runs);
      && (r.Ok? <==> AllStatus200Resolved(runs) && |codes| >= 2)
      && (r.Ok? ==> && r.value.firstCode == Rewritten(firstChoice, codes[0])
                    && r.value.secondCode == Some(Rewritten(secondChoice, codes[1])))
      && (r.Err? && r.error != ActivationFailed && r.error != TypeError ==>
            exists i :: 0 <= i < |runs| && runs[i].result == Err(r.error))
  {
  }
}
