/** The selection arithmetic of the chat wizard: a lot count becomes a total
    of twice as many codes, the total is split into meat and veggie codes,
    each step overwrites the user's entry in the shared selection map, and on
    confirmation the choice string `B…BV…V` is cut into pairs, one per lot,
    each lot producing two code files. */
module Bot {
  import opened Common

  type UserId = string

  /** A user's entry in the selection map: `{ totalCodes }` after the first
      step, `{ meatCodes, veggieCodes }` after the second. A `None` veggie
      count stands for `NaN`, what the second step stores when the entry it
      reads has no `totalCodes`. */
  datatype Selection =
    | LotsChosen(totalCodes: int)
    | SplitChosen(meatCodes: int, veggieCodes: Option<int>)

  /** What a handler can fail with; each failure is caught and only logged. */
  datatype BotError =
      /** Destructuring or reading a property of a missing value. */
    | TypeError
      /** `String.prototype.repeat` with a negative count. */
    | RangeError
      /** A code generation for a lot was rejected. */
    | GenerationFailed

  /** The lot counts the first menu offers. */
  function LotOptions(): (opts: seq<int>)
    ensures |opts| == 10 && forall i :: 0 <= i < |opts| ==> opts[i] == i + 1
  {
    seq(10, i => i + 1)
  }

  /** The meat counts the second menu offers for a total. */
  function MeatOptions(totalCodes: nat): (opts: seq<int>)
    ensures |opts| == totalCodes + 1 && forall i :: 0 <= i < |opts| ==> opts[i] == i
  {
    seq(totalCodes + 1, i => i)
  }

  /** Each lot holds two codes. */
  function TotalCodes(lots: int): int
  {
    lots * 2
  }

  /** The entry the second step stores, given the entry it reads. */
  function AfterMeatChoice(entry: Selection, meatCodes: int): (s: Selection)
    ensures s.SplitChosen? && s.meatCodes == meatCodes
    ensures entry.LotsChosen? ==> s.veggieCodes == Some(entry.totalCodes - meatCodes)
                                  && meatCodes + s.veggieCodes.value == entry.totalCodes
    ensures entry.SplitChosen? ==> s.veggieCodes.None?
  {
    match entry
    case LotsChosen(total) => SplitChosen(meatCodes, Some(total - meatCodes))
    case SplitChosen(_, _) => SplitChosen(meatCodes, None)
  }

  function Repeat(c: char, n: nat): (s: string)
    ensures |s| == n && forall i :: 0 <= i < n ==> s[i] == c
  {
    seq(n, _ => c)
  }

  /** `c.repeat(count)`: an undefined or NaN count repeats nothing, a negative one throws. */
  function JsRepeat(c: char, count: Option<int>): (r: Result<string, BotError>)
    ensures count.None? ==> r == Ok("")
    ensures count.Some? && count.value < 0 ==> r == Err(RangeError)
    ensures count.Some? && count.value >= 0 ==>
      (r.Ok? && |r.value| == count.value && forall i :: 0 <= i < |r.value| ==> r.value[i] == c)
  {
    match count
    case None => Ok("")
    case Some(n) => if n < 0 then Err(RangeError) else Ok(Repeat(c, n))
  }

  /** `'B'.repeat(meatCodes) + 'V'.repeat(veggieCodes)` on the user's entry. */
  function ChoiceString(entry: Option<Selection>): (r: Result<string, BotError>)
    ensures entry.None? ==> r == Err(BotError.TypeError)
    ensures entry.Some? && entry.value.LotsChosen? ==> r == Ok("")
    ensures r.Err? && entry.Some? ==> r.error == RangeError
    ensures r.Ok? && entry.value.SplitChosen? && entry.value.veggieCodes.None? ==> |r.value| == entry.value.meatCodes
    ensures entry.Some? && entry.value.SplitChosen? ==>
      (r.Err? <==> entry.value.meatCodes < 0 || (entry.value.veggieCodes.Some? && entry.value.veggieCodes.value < 0))
    ensures r.Ok? ==> forall i :: 0 <= i < |r.value| ==> r.value[i] == 'B' || r.value[i] == 'V'
    ensures r.Ok? ==> forall i, j :: 0 <= i < j < |r.value| ==> !(r.value[i] == 'V' && r.value[j] == 'B')
    ensures r.Ok? && entry.value.SplitChosen? ==>
      forall i :: 0 <= i < |r.value| ==> (r.value[i] == 'B' <==> i < entry.value.meatCodes)
  {
    match entry
    case None => Err(BotError.TypeError)
    case Some(LotsChosen(_)) => Ok("")
    case Some(SplitChosen(meat, veggie)) =>
      match JsRepeat('B', Some(meat))
      case Err(e) => Err(e)
      case Ok(bs) =>
        match JsRepeat('V', veggie)
        case Err(e) => Err(e)
        case Ok(vs) => Ok(bs + vs)
  }

  /** The pieces `/.{1,2}/g` cuts a string into, left to right. */
  function Pairs(s: string): (pieces: seq<string>)
    ensures |pieces| == (|s| + 1) / 2
    ensures forall i :: 0 <= i < |pieces| ==> 1 <= |pieces[i]| <= 2
  {
    if |s| <= 2 then (if s == "" then [] else [s])
    else [s[..2]] + Pairs(s[2..])
  }

  /** `s.match(/.{1,2}/g)`, which is `null` on the empty string. */
  function MatchPairs(s: string): (m: Option<seq<string>>)
    ensures m.None? <==> s == ""
    ensures m.Some? ==> m.value == Pairs(s)
    ensures m.Some? ==> Concat(m.value) == s && forall i :: 0 <= i < |m.value| ==> 1 <= |m.value[i]| <= 2
  {
    if s == "" then None else PairsConcat(s); Some(Pairs(s))
  }

  function Concat(pieces: seq<string>): string
  {
    if pieces == [] then "" else pieces[0] + Concat(pieces[1..])
  }

  function Min(a: int, b: int): int
  {
    if a <= b then a else b
  }

  /** Piece i is the slice at 2i, two long except possibly the last. */
  lemma {:induction false} PairsAt(s: string)
    ensures |Pairs(s)| == (|s| + 1) / 2
    ensures forall i :: 0 <= i < |Pairs(s)| ==> Pairs(s)[i] == s[2 * i..Min(2 * i + 2, |s|)]
  {
    if |s| > 2 {
      PairsAt(s[2..]);
      forall i | 0 <= i < |Pairs(s)|
        ensures Pairs(s)[i] == s[2 * i..Min(2 * i + 2, |s|)]
      {
        if i > 0 {
          var j := i - 1;
          assert Pairs(s)[i] == Pairs(s[2..])[j];
          assert Min(2 * j + 2, |s| - 2) + 2 == Min(2 * i + 2, |s|);
          assert s[2..][2 * j..Min(2 * j + 2, |s| - 2)] == s[2 * i..Min(2 * i + 2, |s|)];
        } else {
          assert Pairs(s)[0] == s[..2];
        }
      }
    }
  }

  /** Concatenating the pieces gives the string back. */
  lemma {:induction false} PairsConcat(s: string)
    ensures Concat(Pairs(s)) == s
  {
    if |s| > 2 {
      PairsConcat(s[2..]);
      assert Pairs(s)[1..] == Pairs(s[2..]);
      assert s == s[..2] + s[2..];
    } else if s != "" {
      assert Concat([s]) == s + Concat([]);
    }
  }

  /** Every piece has length 2 except possibly the last, of length 1; on an
      even-length string every piece has length 2. */
  lemma PairsLengths(s: string)
    ensures forall i :: 0 <= i < |Pairs(s)| ==> |Pairs(s)[i]| == 2 || (i == |Pairs(s)| - 1 && |Pairs(s)[i]| == 1)
    ensures |s| % 2 == 0 ==> |Pairs(s)| == |s| / 2 && forall i :: 0 <= i < |Pairs(s)| ==> |Pairs(s)[i]| == 2
  {
  }

  /** A piece that holds both letters. */
  predicate Mixed(piece: string)
  {
    'B' in piece && 'V' in piece
  }

  /** The choice string of a split: `meat` B's then `veggie` V's, so no V
      precedes a B, and only the piece straddling the boundary (when `meat`
      is odd) mixes the two. */
  lemma ChoiceStringShape(meat: nat, veggie: nat)
    ensures var s := Repeat('B', meat) + Repeat('V', veggie);
      && ChoiceString(Some(SplitChosen(meat, Some(veggie)))) == Ok(s)
      && |s| == meat + veggie
      && (forall i :: 0 <= i < |s| ==> (s[i] == 'B' <==> i < meat) && (s[i] == 'B' || s[i] == 'V'))
      && (forall i, j :: 0 <= i < j < |s| ==> !(s[i] == 'V' && s[j] == 'B'))
      && (forall i :: 0 <= i < |Pairs(s)| && Mixed(Pairs(s)[i]) ==> meat % 2 == 1 && i == meat / 2)
  {
    var s := Repeat('B', meat) + Repeat('V', veggie);
    PairsAt(s);
    forall i | 0 <= i < |Pairs(s)| && Mixed(Pairs(s)[i])
      ensures meat % 2 == 1 && i == meat / 2
    {
      var p := Pairs(s)[i];
      assert p == s[2 * i..Min(2 * i + 2, |s|)];
      var b :| 0 <= b < |p| && p[b] == 'B';
      var v :| 0 <= v < |p| && p[v] == 'V';
      assert s[2 * i + b] == 'B' && s[2 * i + v] == 'V';
    }
  }

  /** One code of a lot: its 1-based lot and code numbers and its choice
      letter (`None` when the lot's piece had a single letter). */
  datatype CodeSlot = CodeSlot(lotNumber: nat, codeNumber: nat, choice: Option<char>)

  datatype Label = Meat | Veggie

  /** The embed shows 'B' as meat and anything else as veggie. */
  function LabelOf(slot: CodeSlot): (l: Label)
    ensures l == Meat <==> slot.choice == Some('B')
  {
    if slot.choice == Some('B') then Meat else Veggie
  }

  /** The decimal digits of n, as `${n}` renders it. */
  function Digits(n: nat): (d: string)
    ensures 1 <= |d| && forall i :: 0 <= i < |d| ==> '0' <= d[i] <= '9'
    ensures n >= 1 ==> d[0] != '0'
  {
    if n < 10 then ['0' + n as char] else Digits(n / 10) + ['0' + (n % 10) as char]
  }

  /** The number a string of decimal digits denotes, most significant first. */
  function DecimalValue(d: string): int
  {
    if d == [] then 0 else DecimalValue(d[..|d| - 1]) * 10 + (d[|d| - 1] as int - '0' as int)
  }

  /** `Digits(n)` denotes n, with no leading zero: it is `${n}`. */
  lemma {:induction false} DigitsValue(n: nat)
    ensures DecimalValue(Digits(n)) == n
  {
    if n >= 10 {
      var d := Digits(n);
      assert d[..|d| - 1] == Digits(n / 10);
      DigitsValue(n / 10);
    }
  }

  /** `lot_{lot}_code_{code}.png` */
  function FileName(slot: CodeSlot): string
  {
    "lot_" + Digits(slot.lotNumber) + "_code_" + Digits(slot.codeNumber) + ".png"
  }

  /** `lots[i][k]` read by the destructuring `[firstChoice, secondChoice] = lots[i]`. */
  function LetterAt(piece: string, k: nat): Option<char>
  {
    if k < |piece| then Some(piece[k]) else None
  }

  /** The two entries lot `i` pushes onto the file list. */
  function LotSlots(i: nat, piece: string): seq<CodeSlot>
  {
    [CodeSlot(i + 1, 1, LetterAt(piece, 0)), CodeSlot(i + 1, 2, LetterAt(piece, 1))]
  }

  /** The file list after the lots `pieces` all went through. */
  function SlotsFor(pieces: seq<string>): seq<CodeSlot>
  {
    if pieces == [] then [] else SlotsFor(pieces[..|pieces| - 1]) + LotSlots(|pieces| - 1, pieces[|pieces| - 1])
  }

  /** Each lot contributes exactly two entries, numbered by lot and by code. */
  lemma {:induction false} SlotsForAt(pieces: seq<string>)
    ensures |SlotsFor(pieces)| == 2 * |pieces|
    ensures forall i :: 0 <= i < |pieces| ==>
      && SlotsFor(pieces)[2 * i] == CodeSlot(i + 1, 1, LetterAt(pieces[i], 0))
      && SlotsFor(pieces)[2 * i + 1] == CodeSlot(i + 1, 2, LetterAt(pieces[i], 1))
  {
    if pieces != [] {
      var init := pieces[..|pieces| - 1];
      SlotsForAt(init);
      forall i | 0 <= i < |init|
        ensures pieces[i] == init[i]
      {
      }
    }
  }

  /** Lot i's two files are named `lot_{i+1}_code_1.png` and `lot_{i+1}_code_2.png`. */
  lemma SlotFileNames(pieces: seq<string>)
    ensures forall i :: 0 <= i < |pieces| ==>
      && 2 * i + 1 < |SlotsFor(pieces)|
      && FileName(SlotsFor(pieces)[2 * i]) == "lot_" + Digits(i + 1) + "_code_1.png"
      && FileName(SlotsFor(pieces)[2 * i + 1]) == "lot_" + Digits(i + 1) + "_code_2.png"
  {
    SlotsForAt(pieces);
    forall i | 0 <= i < |pieces|
      ensures FileName(SlotsFor(pieces)[2 * i]) == "lot_" + Digits(i + 1) + "_code_1.png"
      ensures FileName(SlotsFor(pieces)[2 * i + 1]) == "lot_" + Digits(i + 1) + "_code_2.png"
    {
      CodeFileNames(i + 1, LetterAt(pieces[i], 0), LetterAt(pieces[i], 1));
    }
  }

  /** The two file names of lot `lot`, whatever its letters. */
  lemma CodeFileNames(lot: nat, first: Option<char>, second: Option<char>)
    ensures FileName(CodeSlot(lot, 1, first)) == "lot_" + Digits(lot) + "_code_1.png"
    ensures FileName(CodeSlot(lot, 2, second)) == "lot_" + Digits(lot) + "_code_2.png"
  {
    assert Digits(1) == "1" && Digits(2) == "2";
  }

  /** The number of lots whose generation resolves before the first rejection. */
  function CompletedLots(generated: nat -> bool, lots: nat, i: nat): (k: nat)
    requires i <= lots
    ensures i <= k <= lots
    ensures forall j :: i <= j < k ==> generated(j)
    ensures k < lots ==> !generated(k)
    decreases lots - i
  {
    if i == lots || !generated(i) then i else CompletedLots(generated, lots, i + 1)
  }

  /** What the confirm handler produced: the file entries pushed, and the
      failure that stopped it, if any. */
  datatype ConfirmOutcome = ConfirmOutcome(slots: seq<CodeSlot>, failure: Option<BotError>)

  /** The confirm handler on the user's entry; `generated(i)` says whether the
      code generation of lot `i` resolves. */
  function ConfirmSpec(entry: Option<Selection>, generated: nat -> bool): ConfirmOutcome
  {
    match ChoiceString(entry)
    case Err(e) => ConfirmOutcome([], Some(e))
    case Ok(s) =>
      match MatchPairs(s)
      case None => ConfirmOutcome([], Some(BotError.TypeError))
      case Some(pieces) =>
        var k := CompletedLots(generated, |pieces|, 0);
        ConfirmOutcome(SlotsFor(pieces[..k]), if k < |pieces| then Some(GenerationFailed) else None)
  }

  /** Piece i of an even-length string is the pair at 2i. */
  lemma PieceAt(s: string, i: nat)
    requires |s| % 2 == 0 && 2 * i + 2 <= |s|
    ensures |Pairs(s)| == |s| / 2 && i < |Pairs(s)|
    ensures Pairs(s)[i] == s[2 * i..2 * i + 2]
  {
    PairsAt(s);
    assert Min(2 * i + 2, |s|) == 2 * i + 2;
  }

  /** Entry r of lot i in the file list. */
  lemma SlotAt(pieces: seq<string>, i: nat, r: nat)
    requires i < |pieces| && r < 2
    ensures |SlotsFor(pieces)| == 2 * |pieces|
    ensures SlotsFor(pieces)[2 * i + r] == CodeSlot(i + 1, r + 1, LetterAt(pieces[i], r))
  {
    SlotsForAt(pieces);
  }

  /** Entry r of lot i, on an even-length string. */
  lemma EvenSlotAt(s: string, i: nat, r: nat)
    requires |s| % 2 == 0 && r < 2 && 2 * i + r < |s|
    ensures |SlotsFor(Pairs(s))| == |s|
    ensures SlotsFor(Pairs(s))[2 * i + r] == CodeSlot(i + 1, r + 1, Some(s[2 * i + r]))
  {
    PieceAt(s, i);
    SlotAt(Pairs(s), i, r);
    assert LetterAt(s[2 * i..2 * i + 2], r) == Some(s[2 * i + r]);
  }

  /** On an even-length string, the file list of all its lots carries one
      entry per letter, in order: code j belongs to lot j / 2 + 1. */
  lemma EvenSlots(s: string)
    requires |s| % 2 == 0
    ensures |SlotsFor(Pairs(s))| == |s|
    ensures forall j :: 0 <= j < |s| ==> SlotsFor(Pairs(s))[j] == CodeSlot(j / 2 + 1, j % 2 + 1, Some(s[j]))
  {
    if s != [] {
      EvenSlotAt(s, 0, 0);
    }
    forall j | 0 <= j < |s|
      ensures SlotsFor(Pairs(s))[j] == CodeSlot(j / 2 + 1, j % 2 + 1, Some(s[j]))
    {
      assert j == 2 * (j / 2) + j % 2;
      EvenSlotAt(s, j / 2, j % 2);
    }
  }

  /** A full pass through the wizard from the menus' options: the total is
      twice the lots, the split adds up to it with no negative part, the
      choice string has one piece of two letters per lot, and confirming
      (when every lot's generation resolves) yields two entries per lot whose
      letters spell the choice string, so exactly the first `meat` codes are
      labelled meat. With the engine call as written (src/bot/bot.js:312)
      no lot's generation resolves; see `LotGeneration`. */
  lemma WizardArithmetic(lots: int, meat: int, generated: nat -> bool)
    requires lots in LotOptions()
    requires 0 <= TotalCodes(lots) && meat in MeatOptions(TotalCodes(lots))
    requires forall i :: 0 <= i < lots ==> generated(i)
    ensures var total := TotalCodes(lots);
      var veggie := total - meat;
      var s := Repeat('B', meat) + Repeat('V', veggie);
      var outcome := ConfirmSpec(Some(SplitChosen(meat, Some(veggie))), generated);
      && 2 <= total <= 20 && 0 <= meat <= total && veggie >= 0 && meat + veggie == total
      && ChoiceString(Some(SplitChosen(meat, Some(veggie)))) == Ok(s)
      && MatchPairs(s) == Some(Pairs(s)) && |Pairs(s)| == lots
      && (forall i :: 0 <= i < lots ==> |Pairs(s)[i]| == 2)
      && outcome.failure.None? && |outcome.slots| == total
      && (forall j :: 0 <= j < total ==>
            && outcome.slots[j] == CodeSlot(j / 2 + 1, j % 2 + 1, Some(s[j]))
            && (LabelOf(outcome.slots[j]) == Meat <==> j < meat))
  {
    var total := TotalCodes(lots);
    var veggie := total - meat;
    var s := Repeat('B', meat) + Repeat('V', veggie);
    ChoiceStringShape(meat, veggie);
    PairsLengths(s);
    ConfirmAllResolved(Some(SplitChosen(meat, Some(veggie))), s, generated);
    EvenSlots(s);
  }

  /** When the choice string has even length and every lot's generation
      resolves, confirmation pushes the entries of all its lots. */
  lemma ConfirmAllResolved(entry: Option<Selection>, s: string, generated: nat -> bool)
    requires ChoiceString(entry) == Ok(s) && s != "" && |s| % 2 == 0
    requires forall i :: 0 <= i < |s| / 2 ==> generated(i)
    ensures ConfirmSpec(entry, generated) == ConfirmOutcome(SlotsFor(Pairs(s)), None)
  {
    PairsLengths(s);
    var pieces := Pairs(s);
    assert CompletedLots(generated, |pieces|, 0) == |pieces|;
    assert pieces[..|pieces|] == pieces;
  }

  /** The module-level selection map and the handlers that use it. */
  class Wizard {
    var selections: map<UserId, Selection>

    constructor ()
      ensures selections == map[]
    {
      selections := map[];
    }

    /** First step: the user's entry becomes `{ totalCodes }`, whatever it was. */
    method SelectLots(user: UserId, lots: int)
      modifies this
      ensures selections == old(selections)[user := LotsChosen(TotalCodes(lots))]
    {
      selections := selections[user := LotsChosen(TotalCodes(lots))];
    }

    /** Second step: the entry becomes `{ meatCodes, veggieCodes }`, dropping
        `totalCodes`; with no entry the handler fails and nothing changes. */
    method SelectMeat(user: UserId, meatCodes: int) returns (failure: Option<BotError>)
      modifies this
      ensures failure.None? <==> user in old(selections)
      ensures failure.Some? ==> failure.value == BotError.TypeError && selections == old(selections)
      ensures failure.None? ==>
        selections == old(selections)[user := AfterMeatChoice(old(selections)[user], meatCodes)]
    {
      if user !in selections {
        return Some(BotError.TypeError);
      }
      selections := selections[user := AfterMeatChoice(selections[user], meatCodes)];
      failure := None;
    }

    function EntryOf(user: UserId): Option<Selection>
      reads this
    {
      if user in selections then Some(selections[user]) else None
    }

    /** The confirm handler: builds the choice string, cuts it into lots and
        pushes two file entries per lot until a generation is rejected. It
        leaves the selection map as it is. */
    method Confirm(user: UserId, generated: nat -> bool) returns (outcome: ConfirmOutcome)
      ensures outcome == ConfirmSpec(EntryOf(user), generated)
    {
      var choices := ChoiceString(EntryOf(user));
      if choices.Err? {
        return ConfirmOutcome([], Some(choices.error));
      }
      var lots := MatchPairs(choices.value);
      if lots.None? {
        return ConfirmOutcome([], Some(BotError.TypeError));
      }
      var pieces := lots.value;
      var files: seq<CodeSlot> := [];
      ghost var k := CompletedLots(generated, |pieces|, 0);
      for i := 0 to |pieces|
        invariant i <= k
        invariant files == SlotsFor(pieces[..i])
      {
        if !generated(i) {
          return ConfirmOutcome(files, Some(GenerationFailed));
        }
        files := files + LotSlots(i, pieces[i]);
        assert pieces[..i + 1][..i] == pieces[..i];
      }
      outcome := ConfirmOutcome(files, None);
    }
  }

  /** The wizard run by one user: the two selection steps then confirmation.
      Only that user's entry changes, and it ends as the split. */
  method RunWizard(w: Wizard, user: UserId, lots: int, meat: int, generated: nat -> bool)
    returns (outcome: ConfirmOutcome)
    modifies w
    ensures w.selections == old(w.selections)[user := SplitChosen(meat, Some(TotalCodes(lots) - meat))]
    ensures forall u :: u != user && u in old(w.selections) ==> u in w.selections && w.selections[u] == old(w.selections)[u]
    ensures outcome == ConfirmSpec(Some(SplitChosen(meat, Some(TotalCodes(lots) - meat))), generated)
  {
    w.SelectLots(user, lots);
    var failure := w.SelectMeat(user, meat);
    outcome := w.Confirm(user, generated);
  }
}
