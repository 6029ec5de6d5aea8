/** The engine call the bot makes for each lot (src/bot/bot.js:311-312). As
    written it passes the lot's first letter as the product type and its
    second letter as the first choice; the intended call names the burger
    product and passes both letters as the two choices. */
module LotGeneration {
  import opened Common
  import opened Catalog
  import opened Activation
  import opened Codegen
  import opened Bot

  /** What the remote side answers during one lot's code generation. */
  datatype Remote = Remote(captcha: Result<string, Error>, catalog: nat -> Result<seq<Operation>, Error>, confirm: Confirm)

  /** Letter k of a lot's piece as a one-letter string; `None` is `undefined`. */
  function LetterChoice(piece: string, k: nat): (c: Option<string>)
    ensures c.Some? <==> k < |piece|
    ensures c.Some? ==> c.value == [piece[k]]
  {
    if k < |piece| then Some([piece[k]]) else None
  }

  /** `generateCodes(firstChoice, secondChoice)`, the call as written. */
  function LotCallAsWritten(piece: string, remote: Remote): (Result<GeneratedCodes, Error>, Trace)
    requires |piece| >= 1
  {
    Generate([piece[0]], LetterChoice(piece, 1), None, remote.captcha, remote.catalog, remote.confirm)
  }

  /** As written, every lot's call rejects without activating anything: a
      letter names no product, so the matcher fails (a property read on
      undefined, or no valid codes on an empty catalog). */
  lemma AsWrittenLotCallRejects(piece: string, remote: Remote)
    requires |piece| >= 1
    ensures LotCallAsWritten(piece, remote).0.Err?
    ensures LotCallAsWritten(piece, remote).1.confirmCalls == 0
  {
    OneLetterIsNoProduct(piece[0]);
  }

  function AsWrittenGenerated(pieces: seq<string>, remote: nat -> Remote): nat -> bool
  {
    (i: nat) => i < |pieces| && |pieces[i]| >= 1 && LotCallAsWritten(pieces[i], remote(i)).0.Ok?
  }

  /** Hence confirmation as written stops at the first lot and pushes no file
      entry, whatever the choice string and the remote side. */
  lemma AsWrittenConfirmPushesNothing(entry: Option<Selection>, remote: nat -> Remote)
    requires ChoiceString(entry).Ok? && ChoiceString(entry).value != ""
    ensures ConfirmSpec(entry, AsWrittenGenerated(Pairs(ChoiceString(entry).value), remote))
            == ConfirmOutcome([], Some(GenerationFailed))
  {
    var pieces := Pairs(ChoiceString(entry).value);
    AsWrittenLotCallRejects(pieces[0], remote(0));
    assert !AsWrittenGenerated(pieces, remote)(0);
    assert pieces[..0] == [];
  }

  /** `generateCodes('burger', firstChoice, secondChoice)`, the call intended. */
  function LotCallIntended(piece: string, remote: Remote): (Result<GeneratedCodes, Error>, Trace)
  {
    Generate("burger", LetterChoice(piece, 0), LetterChoice(piece, 1), remote.captcha, remote.catalog, remote.confirm)
  }

  /** A successful intended call returns two codes starting with the lot's two letters. */
  lemma IntendedLotCallKeepsLetters(piece: string, remote: Remote)
    requires LotCallIntended(piece, remote).0.Ok?
    ensures var r := LotCallIntended(piece, remote).0.value;
      && |piece| >= 2 && r.secondCode.Some?
      && |r.firstCode| >= 1 && r.firstCode[0] == piece[0]
      && |r.secondCode.value| >= 1 && r.secondCode.value[0] == piece[1]
  {
    BurgerSuccessKeepsChoices("burger", LetterChoice(piece, 0), LetterChoice(piece, 1),
                              remote.captcha, remote.catalog, remote.confirm);
  }

  function IntendedGenerated(pieces: seq<string>, remote: nat -> Remote): nat -> bool
  {
    (i: nat) => i < |pieces| && LotCallIntended(pieces[i], remote(i)).0.Ok?
  }

  /** File entries 2i and 2i + 1 show the first letters of lot i's two codes. */
  predicate SlotsShowCodeLetters(slots: seq<CodeSlot>, pieces: seq<string>, remote: nat -> Remote)
  {
    && |slots| == 2 * |pieces|
    && forall i :: 0 <= i < |pieces| ==>
         var r := LotCallIntended(pieces[i], remote(i)).0;
         && r.Ok? && r.value.secondCode.Some?
         && |r.value.firstCode| >= 1 && |r.value.secondCode.value| >= 1
         && slots[2 * i].choice == Some(r.value.firstCode[0])
         && slots[2 * i + 1].choice == Some(r.value.secondCode.value[0])
  }

  /** With the intended call, a wizard run whose generations all succeed
      shows every code under the letter it was generated for. */
  lemma IntendedWizardRun(lots: int, meat: int, remote: nat -> Remote)
    requires lots in LotOptions()
    requires 0 <= TotalCodes(lots) && meat in MeatOptions(TotalCodes(lots))
    requires var s := Repeat('B', meat) + Repeat('V', TotalCodes(lots) - meat);
      forall i :: 0 <= i < lots ==> IntendedGenerated(Pairs(s), remote)(i)
    ensures var s := Repeat('B', meat) + Repeat('V', TotalCodes(lots) - meat);
      var outcome := ConfirmSpec(Some(SplitChosen(meat, Some(TotalCodes(lots) - meat))), IntendedGenerated(Pairs(s), remote));
      && |Pairs(s)| == lots && outcome.failure.None?
      && SlotsShowCodeLetters(outcome.slots, Pairs(s), remote)
  {
    var s := Repeat('B', meat) + Repeat('V', TotalCodes(lots) - meat);
    var pieces := Pairs(s);
    var outcome := ConfirmSpec(Some(SplitChosen(meat, Some(TotalCodes(lots) - meat))), IntendedGenerated(pieces, remote));
    WizardArithmetic(lots, meat, IntendedGenerated(pieces, remote));
    PairsAt(s);
    forall i | 0 <= i < lots
      ensures var r := LotCallIntended(pieces[i], remote(i)).0;
        && r.Ok? && r.value.secondCode.Some?
        && |r.value.firstCode| >= 1 && |r.value.secondCode.value| >= 1
        && outcome.slots[2 * i].choice == Some(r.value.firstCode[0])
        && outcome.slots[2 * i + 1].choice == Some(r.value.secondCode.value[0])
    {
      assert IntendedGenerated(pieces, remote)(i);
      IntendedLotCallKeepsLetters(pieces[i], remote(i));
      assert pieces[i] == s[2 * i..2 * i + 2];
      assert outcome.slots[2 * i].choice == Some(s[2 * i]);
      assert outcome.slots[2 * i + 1].choice == Some(s[2 * i + 1]);
    }
  }
}
