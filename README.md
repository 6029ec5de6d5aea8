# Mystery-code generator: a Dafny model of its decision logic

The repository generates promotional codes for a fast-food chain's "mystery"
operations. Its engine (`src/codegen/codegen.js`) fetches the list of
promotional operations with a 503-retry policy, picks the coupon codes of the
requested product and, for the burger product, confirms a meat/veggie choice
for each of two coupons, rewriting each code with the chosen letter. Its chat
bot (`src/bot/bot.js`) walks a user through choosing a number of lots and a
meat/veggie split, then cuts the resulting choice string into one pair per lot.

This project models that decision logic, not the network calls around it:

- `RetryPolicy` (retry.dfy): `retryOn503` as a counted loop (`RetryOn503`),
  specified by the function `Retry`. The request function is given as the
  outcome of each call, by attempt number; calls and sleeps are counted.
- `Catalog` (catalog.dfy): the product table, the case-insensitive lookup and
  `getRestaurantCodes` as a loop with `break` (`GetRestaurantCodes`),
  specified by `RestaurantCodes`, and checked against a reference definition
  without early stop (`MatchingCodes`).
- `Activation` (activation.dfy): the confirm requests, the retried responses
  awaited together, the all-or-nothing status check and the code rewriting.
- `Codegen` (codegen.js's `generateCodes`, in codegen.dfy): the sequence
  captcha, fetch, match, ice-cream branch, choice check, activation, with
  every error rethrown unchanged.
- `Bot` (bot.dfy): the shared selection map as a class `Wizard` whose
  handlers update one user's entry, the `B…BV…V` choice string, the
  `/.{1,2}/g` pair chunking and the per-lot file list.
- `LotGeneration` (lots.dfy): the bot's per-lot call into the engine,
  composed with `Generate`, both as written and as intended.
- `Common` (common.dfy): `Option`, `Result` and the engine's error values.

## Model

| member | source | states |
|---|---|---|
| `RetryPolicy.RetryOn503` | src/codegen/codegen.js:38-49 | the loop returns the same result, call count and sleep count as the specification `Retry` |
| `RetryPolicy.RetryFromCharacterized` | src/codegen/codegen.js:39-48 | from any attempt, a run either used all remaining attempts on 503 failures, slept after each, and gave up with the distinct error, or stopped at the first outcome that is not a 503 failure and returned or rethrew exactly it after one sleep fewer than calls |
| `RetryPolicy.RetryCharacterized` | src/codegen/codegen.js:38-48 | the same characterization for a whole run: at most `maxRetries` calls, every call before the last failed with 503 |
| `RetryPolicy.RetryStopsAt` | src/codegen/codegen.js:39-43 | when attempt k is the first that does not fail with 503, the run yields that attempt's outcome after exactly k calls and k - 1 sleeps |
| `RetryPolicy.RetryReturnsFirstSuccess` | src/codegen/codegen.js:39-41 | a first success on attempt k <= maxRetries is returned after exactly k calls and k - 1 sleeps |
| `RetryPolicy.RetryRethrowsOther` | src/codegen/codegen.js:42-43 | a failure whose status is not 503, or that has no response, is rethrown unchanged on its attempt, with no further call |
| `RetryPolicy.RetryExhausts` | src/codegen/codegen.js:39-48 | maxRetries consecutive 503 failures end in "Max retries reached for 503 errors" after maxRetries calls and maxRetries sleeps; with maxRetries <= 0 nothing is called |
| `Catalog.ProductFor` | src/codegen/codegen.js:24-35 | the lookup yields the burger product exactly for "BURGER" once upper-cased, the ice-cream product exactly for "ICECREAM", and nothing otherwise |
| `Catalog.ProductForIgnoresCase` | src/codegen/codegen.js:71 | upper-casing the product type first finds the same product, so the lookup ignores case |
| `Catalog.OneLetterIsNoProduct` | src/codegen/codegen.js:71 | a one-letter product type, such as a choice letter, names no product |
| `Catalog.ProductLookupExamples` | src/codegen/codegen.js:71 | "icecream", "ICECREAM", "burger" and "Burger" all find their product |
| `Catalog.RestaurantCodes` | src/codegen/codegen.js:70-83 | a result holds one or two codes; the only errors are "No valid codes found" and, for an unknown product with at least one operation, a property read on undefined; an unknown product always fails, with the first on an empty list and the second otherwise |
| `Catalog.CouponCodes` | src/codegen/codegen.js:76 | an operation without coupons contributes no code; otherwise one code per coupon, in the coupons' order, each its coupon's restaurant code |
| `Catalog.Scan` | src/codegen/codegen.js:74-79 | the loop only appends to the codes already collected, and the result is a prefix of those followed by the codes of all matching operations: all of them, or already two or more |
| `Catalog.GetRestaurantCodes` | src/codegen/codegen.js:70-83 | the loop with its early `break` computes `RestaurantCodes` |
| `Catalog.ScanIsPrefix` | src/codegen/codegen.js:72-79 | the codes the scan collects are a prefix of the codes of all matching operations, ordered by operation then coupon, and are either all of them or already two or more |
| `Catalog.RestaurantCodesMeetReference` | src/codegen/codegen.js:70-83 | for a known product, the matcher fails exactly when no matching operation has a coupon code, and otherwise returns the first two codes of all matching operations (one code is no error, even for the burger product); operations that match neither name nor code, and absent coupons, contribute nothing |
| `Catalog.LaterOperationsIgnored` | src/codegen/codegen.js:74-79 | once a matching operation brings the count to two, appending any further operations changes nothing |
| `Activation.ConfirmRequests` | src/codegen/codegen.js:87-90 | one request per coupon code, in order, carrying that code and the promotion identifier of the slot's choice, or none when the choice letter is not in the table |
| `Activation.Rewritten` | src/codegen/codegen.js:103-104 | a rewritten code starts with the whole choice and continues with the coupon code from its second character on; an empty code contributes nothing |
| `Activation.RewrittenShape` | src/codegen/codegen.js:103-104 | a rewritten code is the choice followed by the coupon code minus its first character; a one-letter choice keeps the code's length, and the code's own first letter gives the code back |
| `Activation.FirstRejection` | src/codegen/codegen.js:92-96 | awaiting all runs rejects exactly when some run failed, and then with one of the failures |
| `Activation.Settle` | src/codegen/codegen.js:98-105 | a success needs two codes and every response resolved with status 200, and returns a second code; when some run failed the result is a failure carrying one of the runs' errors; when all resolved but some status is not 200 it is "Burger code activation failed"; when all answered 200 with fewer than two codes, reading the missing code throws |
| `Activation.ActivateBurgerCodes` | src/codegen/codegen.js:85-106 | the method sends the requests, retries each, and settles exactly as the specification `Activate` |
| `Activation.SettleAllOrNothing` | src/codegen/codegen.js:98-105 | activation succeeds exactly when every response resolved with status 200 and there are two codes, and then both codes are the slots' choices followed by their coupons' suffixes; no partial pair is returned |
| `Codegen.Truthy` | src/codegen/codegen.js:131 | a choice passes the check exactly when it is present and non-empty |
| `Codegen.IceCreamCodes` | src/codegen/codegen.js:124-128 | the ice-cream answer is the first matched code and, exactly when a second one was matched, that second code |
| `Codegen.GenerateCodes` | src/codegen/codegen.js:109-145 | the method runs the steps in the order and with the results of the specification `Generate` |
| `Codegen.FinishGeneration` | src/codegen/codegen.js:121-138 | once the fetch has run, a failed fetch is rethrown with its call and sleep counts, and otherwise the counts of the fetch and of the confirmations add up as the specification `AfterCaptcha` states |
| `Codegen.MatchAndActivate` | src/codegen/codegen.js:122-138 | on the fetched operations: a failed match is rethrown, ice cream returns the matched codes, a missing choice fails before any confirmation, and otherwise the burger codes are activated, as the specification `AfterFetch` states |
| `Codegen.EarlyErrorsRethrown` | src/codegen/codegen.js:110-121 | a captcha failure is rethrown unchanged before any call, and a failed catalog fetch is rethrown unchanged with no confirm call |
| `Codegen.IceCreamReturnsMatchedCodes` | src/codegen/codegen.js:121-129 | for "icecream" the first two matched codes are returned as fetched, the second possibly absent, with no confirm call |
| `Codegen.MissingChoicesCheckedAfterFetch` | src/codegen/codegen.js:121-133 | with a missing or empty choice the catalog is still fetched, its failure or the matcher's wins, "Missing choices for burger type" comes otherwise, and no confirm call is made |
| `Codegen.UpperCaseIceCreamTakesBurgerPath` | src/codegen/codegen.js:124-133 | "ICECREAM" finds the ice-cream coupons but the case-sensitive branch sends it down the burger path, where missing choices are an error |
| `Codegen.BurgerRequestActivates` | src/codegen/codegen.js:121-138 | outside the ice-cream branch, with the catalog fetched, a matching code found and both choices non-empty, the run activates the first two matched codes with those choices and returns the activation's result |
| `Codegen.BurgerSuccessKeepsChoices` | src/codegen/codegen.js:131-140 | a successful non-ice-cream run had both choices, at least two matched codes, every confirm response at status 200, and returns each code as that slot's choice followed by its coupon's suffix |
| `Bot.LotOptions` | src/bot/bot.js:203 | the lot menu offers exactly 1 to 10 |
| `Bot.MeatOptions` | src/bot/bot.js:234 | the meat menu offers exactly 0 to the total |
| `Bot.AfterMeatChoice` | src/bot/bot.js:249-253 | the second step stores the meat count and the total minus it, so the two add up to the total; an entry without a total gives a NaN veggie count |
| `Bot.JsRepeat` | src/bot/bot.js:277 | `repeat` of an undefined or NaN count is empty, a negative count throws a RangeError, and a count n gives n copies of the letter |
| `Bot.ChoiceString` | src/bot/bot.js:276-277 | without an entry the destructuring throws; a lots-only entry gives the empty string; for a split, the handler throws a RangeError exactly when a count is negative; otherwise the string holds only B and V, no V before a B, and for a split the first meat letters are exactly the B's; a split whose veggie count is undefined (the NaN of an unparsed field) gives exactly meat B's |
| `Bot.ChoiceStringShape` | src/bot/bot.js:277 | the choice string is meat B's then veggie V's: its length is their sum, no V precedes a B, and only the pair straddling an odd boundary mixes the letters |
| `Bot.Pairs` | src/bot/bot.js:309 | the chunking yields half the length, rounded up, pieces, each of one or two characters |
| `Bot.MatchPairs` | src/bot/bot.js:309 | `match` gives null exactly on the empty string, and otherwise exactly the `/.{1,2}/g` cut `Pairs(s)`: pieces of one or two characters that concatenate back to the string |
| `Bot.PairsAt` | src/bot/bot.js:309 | piece i of the chunking is the slice starting at 2i, of length two except possibly the last; there are half the length, rounded up, pieces |
| `Bot.PairsConcat` | src/bot/bot.js:309 | concatenating the pieces gives the string back |
| `Bot.PairsLengths` | src/bot/bot.js:309 | every piece has length 2 except possibly a last piece of length 1; an even-length string gives half its length in pieces, all of length 2 |
| `Bot.SlotsForAt` | src/bot/bot.js:310-317 | each lot i pushes exactly two entries, lot i + 1 code 1 and code 2, carrying the lot's two letters |
| `Bot.DigitsValue` | src/bot/bot.js:314-315 | the lot number written into a file name is the decimal rendering of the number: its digits denote it, with no leading zero |
| `Bot.SlotFileNames` | src/bot/bot.js:314-315 | lot i's two files are named `lot_{i+1}_code_1.png` and `lot_{i+1}_code_2.png` |
| `Bot.LabelOf` | src/bot/bot.js:339 | an entry is labelled meat exactly when its letter is B, and veggie otherwise |
| `Bot.EvenSlots` | src/bot/bot.js:309-317 | for an even-length choice string the file list has one entry per letter, in order, entry j in lot j / 2 + 1 |
| `Bot.CompletedLots` | src/bot/bot.js:310-312 | the lots processed are those before the first rejected generation |
| `Bot.WizardArithmetic` | src/bot/bot.js:227-339 | from the menus' options the total is twice the lots, the split is non-negative and adds up, there is one two-letter piece per lot, and, when every lot's generation resolves, confirmation yields two entries per lot spelling the choice string, the first meat of them labelled meat |
| `Bot.Wizard.constructor` | src/bot/bot.js:25 | the selection map starts empty |
| `Bot.Wizard.SelectLots` | src/bot/bot.js:227-229 | the user's entry becomes the total of twice the lots; every other entry is unchanged |
| `Bot.Wizard.SelectMeat` | src/bot/bot.js:249-253 | with an entry, it is replaced by the meat/veggie split, dropping the total; without one the handler fails and the map is unchanged |
| `Bot.Wizard.Confirm` | src/bot/bot.js:276-321 | the handler builds the choice string, chunks it and pushes two entries per lot until a generation is rejected, as `ConfirmSpec` states |
| `Bot.RunWizard` | src/bot/bot.js:225-321 | the two steps and confirmation change only the user's entry, which ends as the split |
| `LotGeneration.AsWrittenLotCallRejects` | src/bot/bot.js:311-312 | as written, a lot's engine call gets a single letter as product type, so it always rejects and confirms nothing |
| `LotGeneration.AsWrittenConfirmPushesNothing` | src/bot/bot.js:309-321 | as written, confirmation stops at the first lot and pushes no file entry, whatever the choice string and the remote answers |
| `LotGeneration.IntendedLotCallKeepsLetters` | src/bot/bot.js:311-312 | with the burger product named, a successful lot call returns two codes starting with the lot's two letters |
| `LotGeneration.IntendedWizardRun` | src/bot/bot.js:309-321 | with the burger product named and every generation succeeding, file entries 2i and 2i + 1 carry the first letters of lot i's two codes, so each code is shown under the letter it was generated for |

## Left out

- Captcha solving is an outside module; its outcome is a parameter, and a failure is rethrown unchanged.
- The device identifier (a random UUID) and its MD5 digest keyed with a secret are library calls with no logic of their own; they feed only the request payload, which the model does not build.
- The impersonation and device headers are static configuration and are not modelled.
- HTTP calls are not made: the catalog and confirm endpoints are given as the outcome of each call, by attempt number (and, for confirmation, by slot and request). The response body of the catalog is taken to be a sequence of operations.
- `RetryPolicy.RetryOn503`: sleeps are counted, not timed; the delay (1000 ms by default) only lengthens each one.
- `Activation.FirstRejection`: when several confirm calls fail, the source rejects with whichever fails first in time; the model takes the first in slot order and states only that the error is one of the failures.
- Concurrency of the two confirm calls is not modelled; each runs its own retry loop to the end, as nothing cancels it, and the model adds up their calls and sleeps.
- `Catalog.ProductFor`: upper-casing is modelled for ASCII letters only; the few non-ASCII letters whose upper case is ASCII are not.
- Operations without a `name` or `code` are modelled by names that match nothing; a coupon without a `restaurantCode` is not modelled; a catalog body that is not a list is not modelled.
- Choice letters that name inherited object properties (`"toString"` and the like) are not modelled; every other unknown letter gives a request without a promotion identifier.
- The code does less checking than one might expect, and the model follows the code: an unknown choice letter is sent as `undefined` rather than rejected; a burger request with a single matched coupon is not rejected up front but fails after activation when the missing second code is read; the matcher collects codes across all matching operations rather than only the first.
- The bot's confirm handler takes a lot's generation as a parameter saying whether it resolves; `LotGeneration` composes it with the engine, both as written and as intended (see Findings).
- `Bot.Pairs`: the regular expression's `.` does not match line terminators; the choice string holds only B and V, so the model cuts any character.
- Discord client setup, channels, embeds, QR rendering, zip archiving, file deletion and the delayed channel deletion are I/O; a failed QR rendering, which pushes a null entry, is modelled as pushing the entry.

## Findings

| source | as written | input that shows it | evidently intended | confidence | as-written member | corrected member |
|---|---|---|---|---|---|---|
| src/bot/bot.js:312 | `generateCodes(firstChoice, secondChoice)` passes the lot's first letter as the product type and its second letter as the first choice, against the signature at src/codegen/codegen.js:109 | any confirmed split, e.g. one lot "BV": product "B" is unknown, so the matcher reads a property of undefined (or finds no codes on an empty catalog), the call rejects and no file entry is pushed | `generateCodes('burger', firstChoice, secondChoice)` | high; not executed | `LotGeneration.AsWrittenConfirmPushesNothing` | `LotGeneration.IntendedWizardRun` |
