/** The catalog matcher `getRestaurantCodes` and the product table it reads:
    it scans the operations fetched from the remote service, collects the
    coupon codes of those matching the requested product, stops once two are
    collected and keeps at most two. */
module Catalog {
  import opened Common

  /** A recognised product: display name, machine code, and whether its codes
      need a per-slot choice. */
  datatype ProductSpec = ProductSpec(name: string, code: string, requiredChoices: bool)

  const Burger := ProductSpec("Burger Mystère ou Veggie Mystère", "burger-mystere", true)
  const IceCream := ProductSpec("Glace Mystère", "glace-mystere", false)

  datatype Coupon = Coupon(restaurantCode: string)

  /** A promotional operation as fetched; `coupons` may be absent. */
  datatype Operation = Operation(name: string, code: string, coupons: Option<seq<Coupon>>)

  function UpperChar(c: char): char
  {
    if 'a' <= c <= 'z' then (c as int - 32) as char else c
  }

  function ToUpperCase(s: string): string
  {
    seq(|s|, i requires 0 <= i < |s| => UpperChar(s[i]))
  }

  /** `PRODUCT_TYPES[productType.toUpperCase()]`; `None` is `undefined`. */
  function ProductFor(productType: string): (p: Option<ProductSpec>)
    ensures p == Some(Burger) <==> ToUpperCase(productType) == "BURGER"
    ensures p == Some(IceCream) <==> ToUpperCase(productType) == "ICECREAM"
    ensures p.None? <==> ToUpperCase(productType) !in {"BURGER", "ICECREAM"}
  {
    var key := ToUpperCase(productType);
    if key == "BURGER" then Some(Burger)
    else if key == "ICECREAM" then Some(IceCream)
    else None
  }

  /** The lookup ignores the case of ASCII letters: any spelling finds what
      its upper-cased form finds. */
  lemma ProductForIgnoresCase(s: string)
    ensures ProductFor(ToUpperCase(s)) == ProductFor(s)
  {
    assert ToUpperCase(ToUpperCase(s)) == ToUpperCase(s);
  }

  /** A one-letter type, such as a choice letter, names no product. */
  lemma {:induction false} OneLetterIsNoProduct(c: char)
    ensures ProductFor([c]).None?
  {
    assert |ToUpperCase([c])| == 1;
  }

  /** Some spellings and the products they find. */
  lemma ProductLookupExamples()
    ensures ProductFor("icecream") == Some(IceCream) && ProductFor("ICECREAM") == Some(IceCream)
    ensures ProductFor("burger") == Some(Burger) && ProductFor("Burger") == Some(Burger)
  {
  }

  predicate Matches(op: Operation, target: ProductSpec)
  {
    op.name == target.name || op.code == target.code
  }

  /** `(operation.coupons || []).map(c => c.restaurantCode)`: the restaurant
      codes of the coupons in order, none when `coupons` is absent. */
  function CouponCodes(op: Operation): (codes: seq<string>)
    ensures op.coupons.None? ==> codes == []
    ensures op.coupons.Some? ==>
      (|codes| == |op.coupons.value| && forall i :: 0 <= i < |codes| ==> codes[i] == op.coupons.value[i].restaurantCode)
  {
    match op.coupons
    case None => []
    case Some(cs) => seq(|cs|, i requires 0 <= i < |cs| => cs[i].restaurantCode)
  }

  /** Reference definition: every coupon code of every matching operation,
      ordered by operation and then by coupon, with no early stop. */
  function MatchingCodes(ops: seq<Operation>, target: ProductSpec): seq<string>
  {
    if ops == [] then []
    else (if Matches(ops[0], target) then CouponCodes(ops[0]) else []) + MatchingCodes(ops[1..], target)
  }

  /** The scan as the loop runs it, from collected `codes` onwards: it stops
      right after the first matching operation that brings the count to 2. */
  function Scan(ops: seq<Operation>, target: ProductSpec, codes: seq<string>): (r: seq<string>)
    ensures codes <= r <= codes + MatchingCodes(ops, target)
    ensures r == codes + MatchingCodes(ops, target) || |r| >= 2
  {
    if ops == [] then codes
    else if Matches(ops[0], target) then
      var more := codes + CouponCodes(ops[0]);
      assert codes + MatchingCodes(ops, target) == more + MatchingCodes(ops[1..], target);
      if |more| >= 2 then more else Scan(ops[1..], target, more)
    else Scan(ops[1..], target, codes)
  }

  /** `codes.slice(0, n)` */
  function Take(s: seq<string>, n: nat): seq<string>
  {
    if |s| <= n then s else s[..n]
  }

  /** The outcome of `getRestaurantCodes(operations, productType)`. An unknown
      product is only read, and fails, once there is an operation to compare. */
  function RestaurantCodes(ops: seq<Operation>, productType: string): (r: Result<seq<string>, Error>)
    ensures r.Ok? ==> 1 <= |r.value| <= 2
    ensures r.Err? ==> r.error == NoValidCodes || (r.error == TypeError && ProductFor(productType).None? && ops != [])
    ensures ProductFor(productType).None? ==> r == (if ops == [] then Err(NoValidCodes) else Err(TypeError))
  {
    match ProductFor(productType)
    case None => if ops == [] then Err(NoValidCodes) else Err(TypeError)
    case Some(target) =>
      var codes := Scan(ops, target, []);
      if |codes| == 0 then Err(NoValidCodes) else Ok(Take(codes, 2))
  }

  /** `getRestaurantCodes` as the source runs it: a loop pushing into `codes`
      with a `break`. */
  method GetRestaurantCodes(operations: seq<Operation>, productType: string) returns (r: Result<seq<string>, Error>)
    ensures r == RestaurantCodes(operations, productType)
  {
    var target := ProductFor(productType);
    var codes: seq<string> := [];
    var i := 0;
    while i < |operations|
      invariant 0 <= i <= |operations|
      invariant target.None? ==> i == 0 && codes == []
      invariant |codes| < 2
      invariant target.Some? ==> Scan(operations, target.value, []) == Scan(operations[i..], target.value, codes)
    {
      var operation := operations[i];
      assert operations[i..][0] == operation && operations[i..][1..] == operations[i + 1..];
      if target.None? {
        return Err(TypeError);
      }
      if operation.name == target.value.name || operation.code == target.value.code {
        codes := codes + CouponCodes(operation);
        if |codes| >= 2 {
          assert Scan(operations, target.value, []) == codes;
          break;
        }
      }
      i := i + 1;
    }
    if |codes| == 0 {
      return Err(NoValidCodes);
    }
    r := Ok(Take(codes, 2));
  }

  /** What the scan collects is a prefix of the reference list, and it is
      either the whole list or already holds two codes. */
  lemma {:induction false} ScanIsPrefix(ops: seq<Operation>, target: ProductSpec, codes: seq<string>)
    ensures var s := Scan(ops, target, codes);
      s <= codes + MatchingCodes(ops, target) && (s == codes + MatchingCodes(ops, target) || |s| >= 2)
  {
    if ops != [] {
      if Matches(ops[0], target) {
        var more := codes + CouponCodes(ops[0]);
        assert codes + MatchingCodes(ops, target) == more + MatchingCodes(ops[1..], target);
        if |more| < 2 {
          ScanIsPrefix(ops[1..], target, more);
        }
      } else {
        assert codes + MatchingCodes(ops, target) == codes + MatchingCodes(ops[1..], target);
        ScanIsPrefix(ops[1..], target, codes);
      }
    }
  }

  /** Stopping early does not change the answer: the result is the first two
      codes of all matching operations, and the matcher fails exactly when
      no matching operation has a coupon (a single code is no error, even
      for the burger product). */
  lemma RestaurantCodesMeetReference(ops: seq<Operation>, productType: string, target: ProductSpec)
    requires ProductFor(productType) == Some(target)
    ensures RestaurantCodes(ops, productType) ==
      if MatchingCodes(ops, target) == [] then Err(NoValidCodes) else Ok(Take(MatchingCodes(ops, target), 2))
  {
    ScanIsPrefix(ops, target, []);
    var all := MatchingCodes(ops, target);
    assert [] + all == all;
    var s := Scan(ops, target, []);
    if s != all {
      assert Take(s, 2) == s[..2] == all[..2] == Take(all, 2);
    }
  }

  /** Operations after the one that completed the pair are never inspected. */
  lemma {:induction false} LaterOperationsIgnored(ops: seq<Operation>, later: seq<Operation>, target: ProductSpec, codes: seq<string>)
    requires |codes| < 2 && |Scan(ops, target, codes)| >= 2
    ensures Scan(ops + later, target, codes) == Scan(ops, target, codes)
  {
    assert ops != [];
    assert (ops + later)[0] == ops[0];
    assert (ops + later)[1..] == ops[1..] + later;
    var more := codes + CouponCodes(ops[0]);
    if Matches(ops[0], target) {
      if |more| < 2 {
        LaterOperationsIgnored(ops[1..], later, target, more);
      }
    } else {
      LaterOperationsIgnored(ops[1..], later, target, codes);
    }
  }
}
