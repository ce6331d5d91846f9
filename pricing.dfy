/**
 * The integer and price arithmetic of the layer: the UQ112x112 cross prices
 * of `encodePrice` (the fixed-point format of the Uniswap V2 price oracle,
 * section 2.2 of the Uniswap V2 Core whitepaper), the sizing of
 * `amountForSell`, and the reserve and price selection of `getLpInfo`, whose
 * floating-point quantities are modelled as exact reals.
 */
module Pricing {
  import opened Wrappers
  import opened Addresses
  import opened Ledger

  /**
   * BigNumber division by zero throws, and so does `BigNumber.from` of a
   * JavaScript number that is not a safe integer.
   */
  datatype ArithError = DivisionByZero | NumberOverflow

  /** `BigNumber.from(b).pow(e)`. */
  function Pow(b: int, e: nat): int
  {
    if e == 0 then 1 else b * Pow(b, e - 1)
  }

  /** One to any power is one. */
  lemma {:induction false} PowOne(e: nat)
    ensures Pow(1, e) == 1
  {
    if e > 0 {
      PowOne(e - 1);
    }
  }

  /** A positive base to any power is positive. */
  lemma {:induction false} PowPositive(b: int, e: nat)
    requires b > 0
    ensures Pow(b, e) > 0
  {
    if e > 0 {
      PowPositive(b, e - 1);
    }
  }

  /** 2^112, the UQ112x112 unit. */
  const Q112: nat := 0x1_0000_0000_0000_0000_0000_0000_0000

  /** Powers add up: b^(m+n) == b^m * b^n. */
  lemma {:induction false} PowAdd(b: int, m: nat, n: nat)
    ensures Pow(b, m + n) == Pow(b, m) * Pow(b, n)
  {
    if m > 0 {
      PowAdd(b, m - 1, n);
      assert Pow(b, m + n) == b * Pow(b, m - 1 + n);
    }
  }

  /** The constant is `BigNumber.from(2).pow(112)`. */
  lemma Q112IsPow()
    ensures Q112 == Pow(2, 112)
  {
    assert Pow(2, 8) == 0x100;
    PowAdd(2, 8, 8);
    PowAdd(2, 16, 16);
    PowAdd(2, 32, 32);
    PowAdd(2, 64, 32);
    PowAdd(2, 96, 16);
  }

  /** `q` is `n` divided by `d`, rounded down. */
  predicate FloorQuotient(q: int, n: int, d: int)
  {
    q * d <= n < (q + 1) * d
  }

  /** Multiplying by a non-negative factor keeps the order. */
  lemma MulMono(a: int, b: int, k: nat)
    requires a <= b
    ensures a * k <= b * k
  {
    var d: nat := b - a;
    assert b * k - a * k == d * k;
  }

  /** The floored quotient is unique. */
  lemma FloorQuotientUnique(q: int, q': int, n: int, d: nat)
    requires d > 0 && FloorQuotient(q, n, d) && FloorQuotient(q', n, d)
    ensures q == q'
  {
    if q < q' {
      MulMono(q + 1, q', d);
    } else if q' < q {
      MulMono(q' + 1, q, d);
    }
  }

  /** Natural-number division, rounded down. */
  function NatDiv(n: nat, d: nat): (q: nat)
    requires d > 0
    ensures FloorQuotient(q, n, d)
  {
    var q := n / d;
    assert n == q * d + n % d;
    assert (q + 1) * d == q * d + d;
    q
  }

  /**
   * `encodePrice(reserve0, reserve1)`: the two cross prices as UQ112x112
   * integers, reserve1/reserve0 and reserve0/reserve1, each rounded down. A
   * zero reserve is a division by zero.
   */
  function EncodePrice(reserve0: nat, reserve1: nat): (r: Result<(nat, nat), ArithError>)
    ensures r.Success? <==> reserve0 > 0 && reserve1 > 0
    ensures r.Failure? ==> r.error == DivisionByZero
    ensures r.Success? ==>
      FloorQuotient(r.value.0, reserve1 * Q112, reserve0) &&
      FloorQuotient(r.value.1, reserve0 * Q112, reserve1)
  {
    if reserve0 == 0 || reserve1 == 0 then
      Failure(DivisionByZero)
    else
      Success((NatDiv(reserve1 * Q112, reserve0), NatDiv(reserve0 * Q112, reserve1)))
  }

  /** Exchanging the reserves exchanges the two prices. */
  lemma EncodePriceSwapped(reserve0: nat, reserve1: nat)
    ensures EncodePrice(reserve1, reserve0).Success? == EncodePrice(reserve0, reserve1).Success?
    ensures EncodePrice(reserve0, reserve1).Success? ==>
      EncodePrice(reserve1, reserve0).value == (EncodePrice(reserve0, reserve1).value.1,
                                                EncodePrice(reserve0, reserve1).value.0)
  {
    if reserve0 > 0 && reserve1 > 0 {
      var p, q := EncodePrice(reserve0, reserve1).value, EncodePrice(reserve1, reserve0).value;
      FloorQuotientUnique(p.0, q.1, reserve1 * Q112, reserve0);
      FloorQuotientUnique(p.1, q.0, reserve0 * Q112, reserve1);
    }
  }

  /** Equal reserves encode the price 1.0, which is Q112 in UQ112x112. */
  lemma EncodePriceEqualReserves(reserve: nat)
    requires reserve > 0
    ensures EncodePrice(reserve, reserve) == Success((Q112, Q112))
  {
    var p := EncodePrice(reserve, reserve).value;
    assert FloorQuotient(Q112, reserve * Q112, reserve) by {
      assert (Q112 + 1) * reserve == Q112 * reserve + reserve;
    }
    FloorQuotientUnique(p.0, Q112, reserve * Q112, reserve);
    FloorQuotientUnique(p.1, Q112, reserve * Q112, reserve);
  }

  lemma FloorBelowProduct(c: nat, n: nat, d: nat, bound: nat)
    requires d > 0 && c * d <= n && n < bound
    ensures c < bound
  {
    MulMono(1, d, c);
  }

  /**
   * With reserves that fit the pool's uint112 storage, both prices fit in the
   * 224 bits of a UQ112x112 value.
   */
  lemma EncodePriceFitsUint224(reserve0: nat, reserve1: nat)
    requires 0 < reserve0 < Q112 && 0 < reserve1 < Q112
    ensures EncodePrice(reserve0, reserve1).value.0 < Q112 * Q112
    ensures EncodePrice(reserve0, reserve1).value.1 < Q112 * Q112
  {
    var p := EncodePrice(reserve0, reserve1).value;
    assert reserve1 * Q112 < Q112 * Q112;
    assert reserve0 * Q112 < Q112 * Q112;
    FloorBelowProduct(p.0, reserve1 * Q112, reserve0, Q112 * Q112);
    FloorBelowProduct(p.1, reserve0 * Q112, reserve1, Q112 * Q112);
  }

  /**
   * The two prices are reciprocal up to rounding down: their product is at
   * most 1.0 * 1.0, that is Q112 * Q112.
   */
  lemma EncodePriceProduct(reserve0: nat, reserve1: nat)
    requires reserve0 > 0 && reserve1 > 0
    ensures EncodePrice(reserve0, reserve1).value.0 * EncodePrice(reserve0, reserve1).value.1
      <= Q112 * Q112
  {
    var p := EncodePrice(reserve0, reserve1).value;
    var a, b := p.0, p.1;
    assert a * reserve0 <= reserve1 * Q112;
    assert b * reserve1 <= reserve0 * Q112;
    calc {
      (a * b) * (reserve0 * reserve1);
      == (a * reserve0) * (b * reserve1);
      <= { MulLe(a * reserve0, reserve1 * Q112, b * reserve1, reserve0 * Q112); }
      (reserve1 * Q112) * (reserve0 * Q112);
      == (Q112 * Q112) * (reserve0 * reserve1);
    }
    CancelPositive(a * b, Q112 * Q112, reserve0 * reserve1);
  }

  lemma MulLe(x: nat, x': nat, y: nat, y': nat)
    requires x <= x' && y <= y'
    ensures x * y <= x' * y'
  {
    MulMono(x, x', y);
    MulMono(y, y', x');
  }

  lemma CancelPositive(x: nat, y: nat, k: nat)
    requires k > 0 && x * k <= y * k
    ensures x <= y
  {
    if x > y {
      MulMono(y + 1, x, k);
    }
  }

  /** 10^18, `D18` of `amountForSell`. */
  const D18: nat := 1000000000000000000

  function Abs(x: int): nat
  {
    if x < 0 then -x else x
  }

  /** BigNumber `div`: the quotient truncated toward zero. */
  function TruncDiv(a: int, b: int): (q: int)
    requires b > 0
    ensures FloorQuotient(Abs(q), Abs(a), b)
    ensures (a >= 0 ==> q >= 0) && (a <= 0 ==> q <= 0)
  {
    if a >= 0 then NatDiv(a, b) as int else -(NatDiv(-a, b) as int)
  }

  /**
   * The bound of ethers' `BigNumber.from` on a JavaScript number: a magnitude of
   * 2^53 - 1 or more is refused as an overflow.
   */
  const MAX_SAFE: nat := 0x1f_ffff_ffff_ffff

  /**
   * `amountForSell(usdAmount, token, calculator)` with the calculator's price
   * given: usdAmount * 10^18 * 1^decimals / price. Since `1^decimals` is one,
   * the result does not depend on the token's decimals. An unsafe `usdAmount`
   * throws when it is converted, before the division; then a zero price throws.
   */
  function AmountForSell(usdAmount: int, decimals: nat, price: nat): (r: Result<int, ArithError>)
    ensures r.Success? <==> Abs(usdAmount) < MAX_SAFE && price > 0
    ensures Abs(usdAmount) >= MAX_SAFE ==> r == Failure(NumberOverflow)
    ensures Abs(usdAmount) < MAX_SAFE && price == 0 ==> r == Failure(DivisionByZero)
    ensures r.Success? ==> r.value == TruncDiv(usdAmount * D18, price)
    ensures r.Success? && usdAmount >= 0 ==> FloorQuotient(r.value, usdAmount * D18, price)
  {
    PowOne(decimals);
    if Abs(usdAmount) >= MAX_SAFE then Failure(NumberOverflow)
    else if price == 0 then Failure(DivisionByZero)
    else Success(TruncDiv(usdAmount * D18 * Pow(1, decimals), price))
  }

  /** The decimals argument never changes the amount. */
  lemma AmountForSellIgnoresDecimals(usdAmount: int, d: nat, d': nat, price: nat)
    ensures AmountForSell(usdAmount, d, price) == AmountForSell(usdAmount, d', price)
  {
  }

  /** `+formatUnits(raw, decimals)`: a raw amount in whole-token units, as an exact real. */
  function Normalized(raw: nat, decimals: nat): (r: real)
    ensures r >= 0.0
    ensures r == 0.0 <==> raw == 0
    ensures r * (Pow(10, decimals) as real) == raw as real
  {
    PowPositive(10, decimals);
    raw as real / Pow(10, decimals) as real
  }

  /**
   * JavaScript division of non-negative numbers: `None` stands for the
   * non-finite result (Infinity or NaN) of a division by zero.
   */
  function Quotient(x: real, y: real): (r: Option<real>)
    ensures r.Some? <==> y != 0.0
    ensures r.Some? ==> r.value * y == x
  {
    if y == 0.0 then None else Some(x / y)
  }

  /** The tuple `getLpInfo` returns: target reserve, opposite token, opposite reserve, price. */
  datatype LpInfo = LpInfo(tokenStacked: real, oppositeToken: Address,
                           oppositeTokenStacked: real, price: Option<real>)

  /**
   * `getLpInfo`'s selection: the target is token0 exactly when the strings are
   * equal, and every other target is treated as token1. The price is the
   * target's price in units of the opposite token.
   */
  function LpInfoOf(token0: Address, token1: Address, reserve0: real, reserve1: real,
                    target: Address): (r: LpInfo)
    ensures target == token0 ==>
      r.tokenStacked == reserve0 && r.oppositeToken == token1 && r.oppositeTokenStacked == reserve1
    ensures target != token0 ==>
      r.tokenStacked == reserve1 && r.oppositeToken == token0 && r.oppositeTokenStacked == reserve0
    ensures r.price.Some? <==> r.tokenStacked != 0.0
    ensures r.price.Some? ==> r.price.value * r.tokenStacked == r.oppositeTokenStacked
  {
    var tokenStacked := if target == token0 then reserve0 else reserve1;
    var oppositeTokenStacked := if target == token0 then reserve1 else reserve0;
    var oppositeToken := if target == token0 then token1 else token0;
    var price := if token0 == target then Quotient(reserve1, reserve0) else Quotient(reserve0, reserve1);
    LpInfo(tokenStacked, oppositeToken, oppositeTokenStacked, price)
  }

  /**
   * What `getLpInfo` reports about a pool whose reserves are raw integers and
   * whose tokens' whole units are `unit0` and `unit1` base units: the opposite
   * token, the two reserves in whole-token units (times the unit they are the
   * raw reserves), a price that is finite exactly when the target's raw reserve
   * is non-zero, and then the target's price in units of the opposite token.
   */
  ghost predicate DescribesPool(r: LpInfo, p: Pool, unit0: real, unit1: real, target: Address)
  {
    (target == p.token0 ==>
      r.oppositeToken == p.token1 &&
      r.tokenStacked * unit0 == p.reserve0 as real &&
      r.oppositeTokenStacked * unit1 == p.reserve1 as real &&
      (r.price.Some? <==> p.reserve0 > 0)) &&
    (target != p.token0 ==>
      r.oppositeToken == p.token0 &&
      r.tokenStacked * unit1 == p.reserve1 as real &&
      r.oppositeTokenStacked * unit0 == p.reserve0 as real &&
      (r.price.Some? <==> p.reserve1 > 0)) &&
    (r.price.Some? ==> r.price.value * r.tokenStacked == r.oppositeTokenStacked)
  }

  /** `getLpInfo` on a pool: the reserves divided by 10^decimals, then `LpInfoOf`. */
  function PoolLpInfo(p: Pool, d0: nat, d1: nat, target: Address): (r: LpInfo)
    ensures DescribesPool(r, p, Pow(10, d0) as real, Pow(10, d1) as real, target)
  {
    var n0, n1 := Normalized(p.reserve0, d0), Normalized(p.reserve1, d1);
    LpInfoOfDescribesPool(p, Pow(10, d0) as real, Pow(10, d1) as real, target, n0, n1);
    LpInfoOf(p.token0, p.token1, n0, n1, target)
  }

  /** `LpInfoOf` over any two reserves that scale back to the raw ones describes the pool. */
  lemma LpInfoOfDescribesPool(p: Pool, unit0: real, unit1: real, target: Address, n0: real, n1: real)
    requires n0 * unit0 == p.reserve0 as real && (n0 == 0.0 <==> p.reserve0 == 0)
    requires n1 * unit1 == p.reserve1 as real && (n1 == 0.0 <==> p.reserve1 == 0)
    ensures DescribesPool(LpInfoOf(p.token0, p.token1, n0, n1, target), p, unit0, unit1, target)
  {
    var r := LpInfoOf(p.token0, p.token1, n0, n1, target);
    if target == p.token0 {
      assert r.tokenStacked == n0 && r.oppositeTokenStacked == n1 && r.oppositeToken == p.token1;
    } else {
      assert r.tokenStacked == n1 && r.oppositeTokenStacked == n0 && r.oppositeToken == p.token0;
    }
  }

  /** A target that is neither of the pool's tokens gets token1's answer. */
  lemma LpInfoOtherTarget(token0: Address, token1: Address, reserve0: real, reserve1: real,
                          target: Address)
    requires target != token0 && token1 != token0
    ensures LpInfoOf(token0, token1, reserve0, reserve1, target) ==
            LpInfoOf(token0, token1, reserve0, reserve1, token1)
  {
  }

  /** With both reserves non-zero, the prices read for token0 and for token1 multiply to one. */
  lemma PriceProduct(token0: Address, token1: Address, reserve0: real, reserve1: real)
    requires token0 != token1 && reserve0 != 0.0 && reserve1 != 0.0
    ensures LpInfoOf(token0, token1, reserve0, reserve1, token0).price.Some?
    ensures LpInfoOf(token0, token1, reserve0, reserve1, token1).price.Some?
    ensures LpInfoOf(token0, token1, reserve0, reserve1, token0).price.value *
            LpInfoOf(token0, token1, reserve0, reserve1, token1).price.value == 1.0
  {
    var p := LpInfoOf(token0, token1, reserve0, reserve1, token0).price.value;
    var q := LpInfoOf(token0, token1, reserve0, reserve1, token1).price.value;
    assert p * reserve0 == reserve1;
    assert q * reserve1 == reserve0;
    assert (p * q) * reserve1 == p * reserve0 by {
      assert (p * q) * reserve1 == p * (q * reserve1);
    }
    CancelReal(p * q, 1.0, reserve1);
  }

  /** A non-zero factor cancels. */
  lemma CancelReal(x: real, y: real, k: real)
    requires k != 0.0 && x * k == y * k
    ensures x == y
  {
    assert (x - y) * k == 0.0;
  }

  /** Reserves 100 and 300: token0 costs 3.0 token1, token1 costs 1/3 token0. */
  lemma PriceExample(token0: Address, token1: Address)
    requires token0 != token1
    ensures LpInfoOf(token0, token1, 100.0, 300.0, token0).price == Some(3.0)
    ensures LpInfoOf(token0, token1, 100.0, 300.0, token1).price == Some(1.0 / 3.0)
  {
  }
}
