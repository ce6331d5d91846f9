/**
 * The workflows of `UniswapUtils`: swap, add and remove liquidity, pair
 * lookup, token acquisition. Each works over one of two router/factory
 * shapes: Uniswap V2 (the standard one) or Firebird (the extended one).
 *
 * Each workflow has two forms. A pure plan function says which mutating calls
 * it issues, in what order, with which arguments, and whether it fails. A
 * method of `Network` runs those calls one by one against the ledger and is
 * proved to follow the plan.
 */
module UniswapUtils {
  import opened Wrappers
  import opened Addresses
  import opened Ledger
  import opened Pricing

  /** The third and fourth arguments of the Firebird factory's `getPair`. */
  const FIREBIRD_WEIGHT_A: nat := 50
  const FIREBIRD_SWAP_FEE: nat := 20

  /** `utils.parseEther("0.1")`: the native coin kept back for gas. */
  const ONE_TENTH_ETHER: nat := 100000000000000000

  /**
   * The deployment constants the layer compares against: the Firebird router
   * and factory, the wrapped native token, and the router mapping of
   * `MaticAddresses.getRouterByFactory`.
   */
  datatype Config = Config(firebirdRouter: Address, firebirdFactory: Address, wmatic: Address,
                           routerByFactory: Address -> Address)

  /** The failures the layer raises itself, before or between calls. */
  datatype Error =
    | InsufficientBalance(token: Address, available: nat, required: nat)
    | NeedsFunding(token: Address)
    | MissingRouteToken
    | NegativeValue(value: int)

  datatype Status = Done | Failed(error: Error)

  /** The mutating calls a workflow issues, in order, and how it ends. */
  datatype Plan = Plan(calls: seq<Call>, status: Status)

  /** The router test of `swapExactTokensForTokens`: only the argument is lower-cased. */
  predicate IsFirebirdRouter(cfg: Config, router: Address)
  {
    Lower(router) == cfg.firebirdRouter
  }

  /** The factory test of `addLiquidity` and `getPairFromFactory`: both sides are lower-cased. */
  predicate IsFirebirdFactory(cfg: Config, factory: Address)
  {
    SameAddress(factory, cfg.firebirdFactory)
  }

  /**
   * The router test is case-insensitive only if the configured Firebird router
   * is written in lower case; otherwise it never holds.
   */
  lemma FirebirdRouterComparison(cfg: Config, router: Address)
    ensures IsFirebirdRouter(cfg, router) ==> IsLowerCase(cfg.firebirdRouter)
    ensures IsLowerCase(cfg.firebirdRouter) ==>
      (IsFirebirdRouter(cfg, router) <==> SameAddress(router, cfg.firebirdRouter))
  {
    OneSidedComparison(router, cfg.firebirdRouter);
  }

  /**
   * `getPairFromFactory`'s query: the tokens in the caller's order. The Firebird
   * factory, whatever the case of its address, is asked with the extra
   * arguments 50 and 20; any other factory gets the two-argument query.
   */
  function PairQuery(cfg: Config, token0: Address, token1: Address, factory: Address): (k: PairKey)
    ensures k.factory == factory && k.tokenA == token0 && k.tokenB == token1
    ensures k.ExtPair? <==> IsFirebirdFactory(cfg, factory)
    ensures k.ExtPair? ==> k.weightA == FIREBIRD_WEIGHT_A && k.swapFee == FIREBIRD_SWAP_FEE
  {
    if IsFirebirdFactory(cfg, factory) then
      ExtPair(factory, token0, token1, FIREBIRD_WEIGHT_A, FIREBIRD_SWAP_FEE)
    else
      StdPair(factory, token0, token1)
  }

  /** Two spellings of the same factory resolve to the same pool. */
  lemma PairQueryCaseInsensitive(cfg: Config, s: State, token0: Address, token1: Address,
                                 factory: Address, factory': Address)
    requires SameAddress(factory, factory')
    ensures PairOf(s, PairQuery(cfg, token0, token1, factory)) ==
            PairOf(s, PairQuery(cfg, token0, token1, factory'))
  {
  }

  /**
   * `swapExactTokensForTokens(sender, route, amount, to, router)`. The balance
   * guard on `route[0]` runs first and emits nothing when it fails. Otherwise
   * it approves exactly `amount` for the router, then swaps with no output
   * floor and the fixed deadline. The Firebird router gets `route[0]`,
   * `route[1]` and the one pool the Firebird factory registers for them, and
   * ignores any later hops; a one-token route fails after the approval, at
   * the pool lookup. Any other router gets the whole route as its path.
   */
  function SwapPlan(cfg: Config, s: State, sender: Address, route: seq<Address>, amount: nat,
                    to: Address, router: Address): (p: Plan)
    ensures Disciplined(p.calls)
    ensures p.status == Done <==>
      |route| > 0 && BalanceOf(s, route[0], sender) >= amount &&
      (IsFirebirdRouter(cfg, router) ==> |route| >= 2)
    ensures p.calls == [] <==> |route| == 0 || BalanceOf(s, route[0], sender) < amount
    ensures |route| > 0 && BalanceOf(s, route[0], sender) < amount ==>
      p.status == Failed(InsufficientBalance(route[0], BalanceOf(s, route[0], sender), amount))
    ensures p.calls != [] ==> p.calls[0] == Approve(route[0], sender, router, amount)
    ensures p.status.Failed? ==> |p.calls| <= 1
    ensures p.status == Done && IsFirebirdRouter(cfg, router) ==>
      |p.calls| == 2 &&
      p.calls[1] == SwapExt(sender, router, route[0], route[1], amount, 0,
        [PairOf(s, ExtPair(cfg.firebirdFactory, route[0], route[1], FIREBIRD_WEIGHT_A, FIREBIRD_SWAP_FEE))],
        to, DEADLINE)
    ensures p.status == Done && !IsFirebirdRouter(cfg, router) ==>
      p.calls == [Approve(route[0], sender, router, amount),
                  SwapStd(sender, router, amount, 0, route, to, DEADLINE)]
  {
    if |route| == 0 then
      Plan([], Failed(MissingRouteToken))
    else if BalanceOf(s, route[0], sender) < amount then
      Plan([], Failed(InsufficientBalance(route[0], BalanceOf(s, route[0], sender), amount)))
    else
      var approve := Approve(route[0], sender, router, amount);
      if IsFirebirdRouter(cfg, router) then
        if |route| < 2 then
          Plan([approve], Failed(MissingRouteToken))
        else
          var approved := Approved(s, route[0], sender, router, amount);
          var pair := PairOf(approved,
            ExtPair(cfg.firebirdFactory, route[0], route[1], FIREBIRD_WEIGHT_A, FIREBIRD_SWAP_FEE));
          var swap := SwapExt(sender, router, route[0], route[1], amount, 0, [pair], to, DEADLINE);
          assert CallOk([approve, swap], 1);
          Plan([approve, swap], Done)
      else
        var swap := SwapStd(sender, router, amount, 0, route, to, DEADLINE);
        assert CallOk([approve, swap], 1);
        Plan([approve, swap], Done)
  }

  /** On the Firebird router, hops after the second never reach the call. */
  lemma FirebirdSwapIgnoresLaterHops(cfg: Config, s: State, sender: Address, route: seq<Address>,
                                     amount: nat, to: Address, router: Address)
    requires IsFirebirdRouter(cfg, router) && |route| >= 2
    ensures SwapPlan(cfg, s, sender, route, amount, to, router) ==
            SwapPlan(cfg, s, sender, route[..2], amount, to, router)
  {
  }

  /**
   * `addLiquidity(sender, tokenA, tokenB, amountA, amountB, factory, router)`
   * up to its final lookup. Both balance guards run before any call, tokenA's
   * first. Then come the approval of exactly amountA of tokenA, that of exactly
   * amountB of tokenB, and one add-liquidity call with minimums 1 and 1 and the
   * liquidity going to the sender. For the Firebird factory, the call also
   * carries the pool `getPairFromFactory` resolves after the approvals.
   */
  function AddLiquidityPlan(cfg: Config, s: State, sender: Address, tokenA: Address, tokenB: Address,
                            amountA: nat, amountB: nat, factory: Address, router: Address): (p: Plan)
    ensures Disciplined(p.calls)
    ensures p.calls == [] <==> p.status.Failed?
    ensures p.status == Done <==>
      BalanceOf(s, tokenA, sender) >= amountA && BalanceOf(s, tokenB, sender) >= amountB
    ensures BalanceOf(s, tokenA, sender) < amountA ==>
      p.status == Failed(InsufficientBalance(tokenA, BalanceOf(s, tokenA, sender), amountA))
    ensures BalanceOf(s, tokenA, sender) >= amountA && BalanceOf(s, tokenB, sender) < amountB ==>
      p.status == Failed(InsufficientBalance(tokenB, BalanceOf(s, tokenB, sender), amountB))
    ensures p.status == Done ==>
      |p.calls| == 3 &&
      p.calls[0] == Approve(tokenA, sender, router, amountA) &&
      p.calls[1] == Approve(tokenB, sender, router, amountB) &&
      p.calls[2] == if IsFirebirdFactory(cfg, factory) then
        AddLiqExt(sender, router, PairOf(s, PairQuery(cfg, tokenA, tokenB, factory)),
                  tokenA, tokenB, amountA, amountB, 1, 1, sender, DEADLINE)
      else
        AddLiqStd(sender, router, tokenA, tokenB, amountA, amountB, 1, 1, sender, DEADLINE)
  {
    var balA := BalanceOf(s, tokenA, sender);
    var balB := BalanceOf(s, tokenB, sender);
    if balA < amountA then
      Plan([], Failed(InsufficientBalance(tokenA, balA, amountA)))
    else if balB < amountB then
      Plan([], Failed(InsufficientBalance(tokenB, balB, amountB)))
    else
      var approveA := Approve(tokenA, sender, router, amountA);
      var approveB := Approve(tokenB, sender, router, amountB);
      var approved := Approved(Approved(s, tokenA, sender, router, amountA), tokenB, sender, router, amountB);
      var add := if IsFirebirdFactory(cfg, factory) then
          AddLiqExt(sender, router, PairOf(approved, PairQuery(cfg, tokenA, tokenB, factory)),
                    tokenA, tokenB, amountA, amountB, 1, 1, sender, DEADLINE)
        else
          AddLiqStd(sender, router, tokenA, tokenB, amountA, amountB, 1, 1, sender, DEADLINE);
      assert CallOk([approveA, approveB, add], 2);
      Plan([approveA, approveB, add], Done)
  }

  /**
   * `removeLiquidity(sender, lpToken, tokenA, tokenB, amount, router)`: no
   * guard; the approval of exactly `amount` LP tokens, then the removal with
   * minimums 1 and 1 and the proceeds going to the sender.
   */
  function RemoveLiquidityCalls(sender: Address, lpToken: Address, tokenA: Address, tokenB: Address,
                                amount: nat, router: Address): (cs: seq<Call>)
    ensures Disciplined(cs)
    ensures |cs| == 2 && cs[0] == Approve(lpToken, sender, router, amount)
    ensures cs[1] == RemoveLiq(sender, router, tokenA, tokenB, amount, 1, 1, sender, DEADLINE)
  {
    var cs := [Approve(lpToken, sender, router, amount),
               RemoveLiq(sender, router, tokenA, tokenB, amount, 1, 1, sender, DEADLINE)];
    assert CallOk(cs, 1);
    cs
  }

  /**
   * `buyToken(signer, router, token, amount, oppositeToken)`. The wrapped
   * native token (compared exactly) is acquired by wrapping `amount`, with no
   * swap. Any other token needs a non-zero balance of the opposite token,
   * else the call refuses with nothing emitted. Then it is bought by a swap of
   * `amount` along [oppositeToken, token] into the signer's account.
   */
  function BuyTokenPlan(cfg: Config, s: State, signer: Address, router: Address, token: Address,
                        amount: nat, oppositeToken: Address): (p: Plan)
    ensures Disciplined(p.calls)
    ensures token == cfg.wmatic ==> p == Plan([Wrap(signer, amount)], Done)
    ensures token != cfg.wmatic && BalanceOf(s, oppositeToken, signer) == 0 ==>
      p == Plan([], Failed(NeedsFunding(oppositeToken)))
    ensures token != cfg.wmatic && BalanceOf(s, oppositeToken, signer) > 0 ==>
      p == SwapPlan(cfg, s, signer, [oppositeToken, token], amount, signer, router)
  {
    if token == cfg.wmatic then
      Plan([Wrap(signer, amount)], Done)
    else if BalanceOf(s, oppositeToken, signer) == 0 then
      Plan([], Failed(NeedsFunding(oppositeToken)))
    else
      SwapPlan(cfg, s, signer, [oppositeToken, token], amount, signer, router)
  }

  /**
   * A successful `buyToken` of anything but the wrapped native token spends
   * exactly `amount` of the opposite token and delivers to the signer.
   */
  lemma BuyTokenSwapsIntoSigner(cfg: Config, s: State, signer: Address, router: Address,
                                token: Address, amount: nat, oppositeToken: Address)
    requires token != cfg.wmatic
    requires BuyTokenPlan(cfg, s, signer, router, token, amount, oppositeToken).status == Done
    ensures var cs := BuyTokenPlan(cfg, s, signer, router, token, amount, oppositeToken).calls;
      |cs| == 2 && cs[0] == Approve(oppositeToken, signer, router, amount) &&
      (cs[1].SwapStd? || cs[1].SwapExt?) && cs[1].amountIn == amount && cs[1].to == signer
  {
  }

  /**
   * The acquisitions of `buyTokensAndAddLiq`: token0, then token1, each only if
   * the signer's balance read at the start, before either acquisition, is zero.
   */
  function AcquisitionCalls(s: State, signer: Address, token0: Address, token1: Address): (cs: seq<Call>)
    ensures Disciplined(cs)
    ensures |cs| == (if BalanceOf(s, token0, signer) == 0 then 1 else 0) +
                    (if BalanceOf(s, token1, signer) == 0 then 1 else 0)
    ensures BalanceOf(s, token0, signer) == 0 ==> cs[0] == GetToken(token0, signer)
    ensures BalanceOf(s, token1, signer) == 0 ==> cs[|cs| - 1] == GetToken(token1, signer)
  {
    (if BalanceOf(s, token0, signer) == 0 then [GetToken(token0, signer)] else []) +
    (if BalanceOf(s, token1, signer) == 0 then [GetToken(token1, signer)] else [])
  }

  /** A signer holding 50 of token0 and none of token1 acquires token1 only. */
  lemma AcquisitionExample(s: State, signer: Address, token0: Address, token1: Address)
    requires BalanceOf(s, token0, signer) == 50 && BalanceOf(s, token1, signer) == 0
    ensures AcquisitionCalls(s, signer, token0, token1) == [GetToken(token1, signer)]
  {
  }

  /**
   * `swapNETWORK_COINForExactTokens(signer, path, amountOut, router)`: it
   * offers the whole native balance less 0.1 ether. A negative value cannot be
   * encoded into a transaction, so nothing is sent then.
   */
  function NetworkCoinPlan(s: State, signer: Address, path: seq<Address>, amountOut: nat,
                           router: Address): (p: Plan)
    ensures Disciplined(p.calls)
    ensures NativeBalanceOf(s, signer) < ONE_TENTH_ETHER ==>
      p == Plan([], Failed(NegativeValue(NativeBalanceOf(s, signer) - ONE_TENTH_ETHER)))
    ensures NativeBalanceOf(s, signer) >= ONE_TENTH_ETHER ==>
      p.status == Done && |p.calls| == 1 && p.calls[0].SwapNative? &&
      p.calls[0].value + ONE_TENTH_ETHER == NativeBalanceOf(s, signer) &&
      p.calls[0] == SwapNative(signer, router, amountOut, path, signer, DEADLINE, p.calls[0].value)
  {
    var value := NativeBalanceOf(s, signer) - ONE_TENTH_ETHER;
    if value < 0 then Plan([], Failed(NegativeValue(value)))
    else Plan([SwapNative(signer, router, amountOut, path, signer, DEADLINE, value)], Done)
  }

  /**
   * The chain the signer talks to: its state, the trace of mutating calls
   * issued so far, what its contracts do, and the deployment's addresses.
   */
  class Network {
    var state: State
    var trace: seq<Call>
    const contracts: Contracts
    const cfg: Config

    /** Every call issued so far kept the layer's call discipline. */
    ghost predicate Valid()
      reads this
    {
      Disciplined(trace)
    }

    constructor (init: State, contracts: Contracts, cfg: Config)
      ensures state == init && trace == [] && this.contracts == contracts && this.cfg == cfg
      ensures Valid()
    {
      state := init;
      trace := [];
      this.contracts := contracts;
      this.cfg := cfg;
    }

    /** Submits one mutating call, which is mined before the next is issued. */
    method Submit(c: Call)
      modifies this
      ensures state == Effect(contracts, c, old(state))
      ensures trace == old(trace) + [c]
    {
      state := Effect(contracts, c, state);
      trace := trace + [c];
    }

    /**
     * `getPairFromFactory`: the Firebird factory, in any case, is asked for the
     * pool of (token0, token1) with the extra arguments 50 and 20; any other
     * factory is asked the two-argument question.
     */
    function GetPairFromFactory(token0: Address, token1: Address, factory: Address): (pair: Address)
      reads this
      ensures IsFirebirdFactory(cfg, factory) ==>
        pair == PairOf(state, ExtPair(factory, token0, token1, FIREBIRD_WEIGHT_A, FIREBIRD_SWAP_FEE))
      ensures !IsFirebirdFactory(cfg, factory) ==> pair == PairOf(state, StdPair(factory, token0, token1))
    {
      PairOf(state, PairQuery(cfg, token0, token1, factory))
    }

    /**
     * `getLpInfo(pool, target)`. Reading a pool or a token that does not exist
     * fails. Otherwise the target is the pool's token0 exactly when the
     * strings are equal, and is taken as token1 otherwise. Both reserves are
     * reported in whole-token units. The price is finite exactly when the
     * target's reserve is non-zero, and it is then the target's price in units
     * of the opposite token.
     */
    function GetLpInfo(pool: Address, target: Address): (r: Option<LpInfo>)
      reads this
      ensures r.Some? <==>
        PoolAt(state, pool).Some? && DecimalsOf(state, PoolAt(state, pool).value.token0).Some? &&
        DecimalsOf(state, PoolAt(state, pool).value.token1).Some?
      ensures r.Some? ==>
        var p := PoolAt(state, pool).value;
        DescribesPool(r.value, p, Pow(10, DecimalsOf(state, p.token0).value) as real,
                      Pow(10, DecimalsOf(state, p.token1).value) as real, target)
    {
      match PoolAt(state, pool)
      case None => None
      case Some(p) =>
        match (DecimalsOf(state, p.token0), DecimalsOf(state, p.token1))
        case (Some(d0), Some(d1)) =>
          Some(PoolLpInfo(p, d0, d1, target))
        case _ => None
    }

    /**
     * For a pool with two distinct tokens and non-zero reserves, the prices
     * `getLpInfo` reads for token0 and for token1 multiply to one.
     */
    lemma GetLpInfoPriceProduct(pool: Address)
      requires PoolAt(state, pool).Some?
      requires PoolAt(state, pool).value.token0 != PoolAt(state, pool).value.token1
      requires PoolAt(state, pool).value.reserve0 > 0 && PoolAt(state, pool).value.reserve1 > 0
      requires DecimalsOf(state, PoolAt(state, pool).value.token0).Some?
      requires DecimalsOf(state, PoolAt(state, pool).value.token1).Some?
      ensures var p := PoolAt(state, pool).value;
        GetLpInfo(pool, p.token0).Some? && GetLpInfo(pool, p.token0).value.price.Some? &&
        GetLpInfo(pool, p.token1).Some? && GetLpInfo(pool, p.token1).value.price.Some? &&
        GetLpInfo(pool, p.token0).value.price.value * GetLpInfo(pool, p.token1).value.price.value == 1.0
    {
      var p := PoolAt(state, pool).value;
      var d0, d1 := DecimalsOf(state, p.token0).value, DecimalsOf(state, p.token1).value;
      PriceProduct(p.token0, p.token1, Normalized(p.reserve0, d0), Normalized(p.reserve1, d1));
    }

    method SwapExactTokensForTokens(sender: Address, route: seq<Address>, amountToSell: nat,
                                    to: Address, router: Address) returns (r: Status)
      requires Valid()
      modifies this
      ensures Valid()
      ensures var p := SwapPlan(cfg, old(state), sender, route, amountToSell, to, router);
        r == p.status && trace == old(trace) + p.calls && state == Run(contracts, p.calls, old(state))
    {
      ghost var s0, t0 := state, trace;
      ghost var p := SwapPlan(cfg, s0, sender, route, amountToSell, to, router);
      DisciplinedAppend(t0, p.calls);
      if |route| == 0 {
        return Failed(MissingRouteToken);
      }
      var bal := BalanceOf(state, route[0], sender);
      if bal < amountToSell {
        return Failed(InsufficientBalance(route[0], bal, amountToSell));
      }
      var approve := Approve(route[0], sender, router, amountToSell);
      if IsFirebirdRouter(cfg, router) {
        Submit(approve);
        if |route| < 2 {
          RunOne(contracts, approve, s0);
          return Failed(MissingRouteToken);
        }
        var pair := PairOf(state,
          ExtPair(cfg.firebirdFactory, route[0], route[1], FIREBIRD_WEIGHT_A, FIREBIRD_SWAP_FEE));
        var swap := SwapExt(sender, router, route[0], route[1], amountToSell, 0, [pair], to, DEADLINE);
        Submit(swap);
        assert p.calls == [approve, swap];
        RunTwo(contracts, approve, swap, s0);
      } else {
        var swap := SwapStd(sender, router, amountToSell, 0, route, to, DEADLINE);
        Submit(approve);
        Submit(swap);
        assert p.calls == [approve, swap];
        RunTwo(contracts, approve, swap, s0);
      }
      assert trace == t0 + p.calls;
      r := Done;
    }

    method AddLiquidity(sender: Address, tokenA: Address, tokenB: Address, amountA: nat, amountB: nat,
                        factory: Address, router: Address) returns (r: Result<Address, Error>)
      requires Valid()
      modifies this
      ensures Valid()
      ensures var p := AddLiquidityPlan(cfg, old(state), sender, tokenA, tokenB, amountA, amountB,
                                        factory, router);
        trace == old(trace) + p.calls && state == Run(contracts, p.calls, old(state)) &&
        (p.status.Failed? ==> r == Failure(p.status.error)) &&
        (p.status == Done ==> r == Success(PairOf(state, PairQuery(cfg, tokenA, tokenB, factory))))
    {
      ghost var s0, t0 := state, trace;
      ghost var p := AddLiquidityPlan(cfg, s0, sender, tokenA, tokenB, amountA, amountB, factory, router);
      DisciplinedAppend(t0, p.calls);
      var balA := BalanceOf(state, tokenA, sender);
      var balB := BalanceOf(state, tokenB, sender);
      if balA < amountA {
        return Failure(InsufficientBalance(tokenA, balA, amountA));
      }
      if balB < amountB {
        return Failure(InsufficientBalance(tokenB, balB, amountB));
      }
      var approveA := Approve(tokenA, sender, router, amountA);
      var approveB := Approve(tokenB, sender, router, amountB);
      Submit(approveA);
      Submit(approveB);
      assert state.pairs == s0.pairs;
      var add;
      if IsFirebirdFactory(cfg, factory) {
        var pair := GetPairFromFactory(tokenA, tokenB, factory);
        add := AddLiqExt(sender, router, pair, tokenA, tokenB, amountA, amountB, 1, 1, sender, DEADLINE);
      } else {
        add := AddLiqStd(sender, router, tokenA, tokenB, amountA, amountB, 1, 1, sender, DEADLINE);
      }
      Submit(add);
      assert p.calls == [approveA, approveB, add];
      RunThree(contracts, approveA, approveB, add, s0);
      assert trace == t0 + p.calls;
      var pair := GetPairFromFactory(tokenA, tokenB, factory);
      r := Success(pair);
    }

    method RemoveLiquidity(sender: Address, lpToken: Address, tokenA: Address, tokenB: Address,
                           amount: nat, router: Address)
      requires Valid()
      modifies this
      ensures Valid()
      ensures var cs := RemoveLiquidityCalls(sender, lpToken, tokenA, tokenB, amount, router);
        trace == old(trace) + cs && state == Run(contracts, cs, old(state))
    {
      ghost var s0, t0 := state, trace;
      ghost var cs := RemoveLiquidityCalls(sender, lpToken, tokenA, tokenB, amount, router);
      DisciplinedAppend(t0, cs);
      var approve := Approve(lpToken, sender, router, amount);
      var remove := RemoveLiq(sender, router, tokenA, tokenB, amount, 1, 1, sender, DEADLINE);
      Submit(approve);
      Submit(remove);
      RunTwo(contracts, approve, remove, s0);
      assert trace == t0 + cs;
    }

    /** `getTokenFromHolder`: one call to the token holder; the other arguments go unused. */
    method GetTokenFromHolder(signer: Address, router: Address, token: Address, amountForSell: nat,
                              oppositeToken: Address)
      requires Valid()
      modifies this
      ensures Valid()
      ensures trace == old(trace) + [GetToken(token, signer)]
      ensures state == Effect(contracts, GetToken(token, signer), old(state))
    {
      DisciplinedAppend(trace, [GetToken(token, signer)]);
      Submit(GetToken(token, signer));
    }

    method BuyToken(signer: Address, router: Address, token: Address, amountForSell: nat,
                    oppositeToken: Address) returns (r: Status)
      requires Valid()
      modifies this
      ensures Valid()
      ensures var p := BuyTokenPlan(cfg, old(state), signer, router, token, amountForSell, oppositeToken);
        r == p.status && trace == old(trace) + p.calls && state == Run(contracts, p.calls, old(state))
    {
      if token == cfg.wmatic {
        DisciplinedAppend(trace, [Wrap(signer, amountForSell)]);
        Submit(Wrap(signer, amountForSell));
        return Done;
      }
      var bal := BalanceOf(state, oppositeToken, signer);
      if bal == 0 {
        return Failed(NeedsFunding(oppositeToken));
      }
      r := SwapExactTokensForTokens(signer, [oppositeToken, token], amountForSell, signer, router);
    }

    /**
     * `buyTokensAndAddLiq`: the acquisitions, then the target factory's pool
     * for (token0, token1) resolved before the add, then `addLiquidity` of the
     * signer's whole current balances of both tokens through the target
     * factory's router. `bought` is the logged change of the signer's balance
     * of that pool's LP token.
     */
    method BuyTokensAndAddLiq(signer: Address, factory0: Address, factory1: Address,
                              targetFactory: Address, token0: Address, token0Opposite: Address,
                              token1: Address, token1Opposite: Address,
                              amountForSell0: nat, amountForSell1: nat)
      returns (lpToken: Address, bought: int)
      requires Valid()
      modifies this
      ensures Valid()
      ensures var acquisitions := AcquisitionCalls(old(state), signer, token0, token1);
        var acquired := Run(contracts, acquisitions, old(state));
        var p := AddLiquidityPlan(cfg, acquired, signer, token0, token1,
          BalanceOf(acquired, token0, signer), BalanceOf(acquired, token1, signer),
          targetFactory, cfg.routerByFactory(targetFactory));
        p.status == Done &&
        trace == old(trace) + acquisitions + p.calls &&
        state == Run(contracts, p.calls, acquired) &&
        lpToken == PairOf(acquired, PairQuery(cfg, token0, token1, targetFactory)) &&
        bought == BalanceOf(state, lpToken, signer) - BalanceOf(acquired, lpToken, signer)
    {
      ghost var s0, t0 := state, trace;
      ghost var acquisitions := AcquisitionCalls(s0, signer, token0, token1);
      AcquireMissing(signer, factory0, factory1, token0, token0Opposite, token1, token1Opposite,
                     amountForSell0, amountForSell1);
      ghost var acquired, traced := state, trace;
      assert acquired == Run(contracts, acquisitions, s0) && traced == t0 + acquisitions;
      lpToken := GetPairFromFactory(token0, token1, targetFactory);
      var lpBalanceBefore: int := BalanceOf(state, lpToken, signer);
      var amount0 := BalanceOf(state, token0, signer);
      var amount1 := BalanceOf(state, token1, signer);
      var _ := AddLiquidity(signer, token0, token1, amount0, amount1, targetFactory,
                            cfg.routerByFactory(targetFactory));
      ghost var p := AddLiquidityPlan(cfg, acquired, signer, token0, token1, amount0, amount1,
                                      targetFactory, cfg.routerByFactory(targetFactory));
      assert p.status == Done;
      assert trace == traced + p.calls;
      assert trace == t0 + acquisitions + p.calls;
      var lpBalanceAfter: int := BalanceOf(state, lpToken, signer);
      bought := lpBalanceAfter - lpBalanceBefore;
    }

    /**
     * The first block of `buyTokensAndAddLiq`: both balances are read, then
     * each token whose balance was zero is fetched from its holder, token0
     * first, through the router of that token's own factory.
     */
    method AcquireMissing(signer: Address, factory0: Address, factory1: Address,
                          token0: Address, token0Opposite: Address,
                          token1: Address, token1Opposite: Address,
                          amountForSell0: nat, amountForSell1: nat)
      requires Valid()
      modifies this
      ensures Valid()
      ensures var acquisitions := AcquisitionCalls(old(state), signer, token0, token1);
        trace == old(trace) + acquisitions && state == Run(contracts, acquisitions, old(state))
    {
      ghost var s0, t0 := state, trace;
      var token0Bal := BalanceOf(state, token0, signer);
      var token1Bal := BalanceOf(state, token1, signer);
      ghost var first: seq<Call> := if token0Bal == 0 then [GetToken(token0, signer)] else [];
      ghost var second: seq<Call> := if token1Bal == 0 then [GetToken(token1, signer)] else [];
      if token0Bal == 0 {
        GetTokenFromHolder(signer, cfg.routerByFactory(factory0), token0, amountForSell0, token0Opposite);
        RunOne(contracts, GetToken(token0, signer), s0);
      }
      ghost var s1 := state;
      assert s1 == Run(contracts, first, s0);
      assert trace == t0 + first;
      if token1Bal == 0 {
        GetTokenFromHolder(signer, cfg.routerByFactory(factory1), token1, amountForSell1, token1Opposite);
        RunOne(contracts, GetToken(token1, signer), s1);
      }
      assert state == Run(contracts, second, s1);
      assert trace == t0 + (first + second);
      RunAppend(contracts, first, second, s0);
    }

    method SwapNetworkCoinForExactTokens(signer: Address, path: seq<Address>, amount: nat,
                                         router: Address) returns (r: Status)
      requires Valid()
      modifies this
      ensures Valid()
      ensures var p := NetworkCoinPlan(old(state), signer, path, amount, router);
        r == p.status && trace == old(trace) + p.calls && state == Run(contracts, p.calls, old(state))
    {
      var networkCoinAmount := NativeBalanceOf(state, signer) - ONE_TENTH_ETHER;
      if networkCoinAmount < 0 {
        return Failed(NegativeValue(networkCoinAmount));
      }
      var c := SwapNative(signer, router, amount, path, signer, DEADLINE, networkCoinAmount);
      DisciplinedAppend(trace, [c]);
      Submit(c);
      r := Done;
    }
  }
}
