/**
 * The remote state the workflows act on, as an abstract ledger: ERC-20
 * balances and allowances, native-coin balances, token decimals, the
 * factories' pair registries and the pools' reserves. Every mutating remote
 * call is a `Call` descriptor; a run of the workflows leaves a trace of them.
 */
module Ledger {
  import opened Wrappers
  import opened Addresses

  /** What a factory's `getPair` answers for a pair it does not know. */
  const ZERO_ADDRESS: Address := "0x0000000000000000000000000000000000000000"

  /** `UniswapUtils.deadline`: a far-future deadline passed to every router call. */
  const DEADLINE: nat := 1000000000000

  /** A factory `getPair` query: two-argument (Uniswap V2) or with Firebird's two extra arguments. */
  datatype PairKey =
    | StdPair(factory: Address, tokenA: Address, tokenB: Address)
    | ExtPair(factory: Address, tokenA: Address, tokenB: Address, weightA: nat, swapFee: nat)

  /** What `token0()`, `token1()` and `getReserves()` of a pool answer. */
  datatype Pool = Pool(token0: Address, token1: Address, reserve0: nat, reserve1: nat)

  /**
   * The chain as seen by the workflows. Contracts treat addresses as numbers,
   * so every lookup below lower-cases the addresses it is given.
   */
  datatype State = State(
    balances: map<(Address, Address), nat>,
    allowances: map<(Address, Address, Address), nat>,
    native: map<Address, nat>,
    decimals: map<Address, nat>,
    pairs: map<PairKey, Address>,
    pools: map<Address, Pool>)

  /** ERC-20 `balanceOf`: an account never credited holds zero. */
  function BalanceOf(s: State, token: Address, owner: Address): nat
  {
    var k := (Lower(token), Lower(owner));
    if k in s.balances then s.balances[k] else 0
  }

  /** ERC-20 `allowance`. */
  function AllowanceOf(s: State, token: Address, owner: Address, spender: Address): nat
  {
    var k := (Lower(token), Lower(owner), Lower(spender));
    if k in s.allowances then s.allowances[k] else 0
  }

  /** The native-coin balance (`signer.getBalance()`). */
  function NativeBalanceOf(s: State, owner: Address): nat
  {
    if Lower(owner) in s.native then s.native[Lower(owner)] else 0
  }

  /** ERC-20 `decimals()`; `None` when the address is not a token. */
  function DecimalsOf(s: State, token: Address): Option<nat>
  {
    if Lower(token) in s.decimals then Some(s.decimals[Lower(token)]) else None
  }

  /** The pool at an address; `None` when there is no pool contract there. */
  function PoolAt(s: State, pool: Address): Option<Pool>
  {
    if Lower(pool) in s.pools then Some(s.pools[Lower(pool)]) else None
  }

  function NormalKey(k: PairKey): PairKey
  {
    match k
    case StdPair(f, a, b) => StdPair(Lower(f), Lower(a), Lower(b))
    case ExtPair(f, a, b, w, fee) => ExtPair(Lower(f), Lower(a), Lower(b), w, fee)
  }

  /** A factory's `getPair`: the registered pool, or the zero address. */
  function PairOf(s: State, k: PairKey): Address
  {
    var n := NormalKey(k);
    if n in s.pairs then s.pairs[n] else ZERO_ADDRESS
  }

  /** The mutating remote calls the workflows issue, with the arguments they pass. */
  datatype Call =
    | Approve(token: Address, owner: Address, spender: Address, amount: nat)
    | SwapStd(sender: Address, router: Address, amountIn: nat, amountOutMin: nat,
              path: seq<Address>, to: Address, deadline: nat)
    | SwapExt(sender: Address, router: Address, tokenIn: Address, tokenOut: Address,
              amountIn: nat, amountOutMin: nat, pools: seq<Address>, to: Address, deadline: nat)
    | AddLiqStd(sender: Address, router: Address, tokenA: Address, tokenB: Address,
                amountA: nat, amountB: nat, amountAMin: nat, amountBMin: nat,
                to: Address, deadline: nat)
    | AddLiqExt(sender: Address, router: Address, pair: Address, tokenA: Address, tokenB: Address,
                amountA: nat, amountB: nat, amountAMin: nat, amountBMin: nat,
                to: Address, deadline: nat)
    | RemoveLiq(sender: Address, router: Address, tokenA: Address, tokenB: Address,
                liquidity: nat, amountAMin: nat, amountBMin: nat, to: Address, deadline: nat)
    | SwapNative(sender: Address, router: Address, amountOut: nat, path: seq<Address>,
                 to: Address, deadline: nat, value: nat)
    | Wrap(owner: Address, amount: nat)
    | GetToken(token: Address, owner: Address)

  /**
   * EIP-20 `approve`: the allowance of `spender` over `owner`'s `token` becomes
   * exactly `amount`; no other allowance and nothing else changes.
   */
  function Approved(s: State, token: Address, owner: Address, spender: Address, amount: nat): (r: State)
    ensures AllowanceOf(r, token, owner, spender) == amount
    ensures forall t, o, sp ::
      (Lower(t), Lower(o), Lower(sp)) != (Lower(token), Lower(owner), Lower(spender)) ==>
        AllowanceOf(r, t, o, sp) == AllowanceOf(s, t, o, sp)
    ensures r == s.(allowances := r.allowances)
  {
    s.(allowances := s.allowances[(Lower(token), Lower(owner), Lower(spender)) := amount])
  }

  /**
   * What the contracts behind the routers, the tokens, the wrapper and the
   * token holders do with a call. The model does not interpret it.
   */
  type Contracts = (Call, State) -> State

  /** The effect of one call: EIP-20 for an approval, the contracts' own for the rest. */
  function Effect(contracts: Contracts, c: Call, s: State): State
  {
    match c
    case Approve(token, owner, spender, amount) => Approved(s, token, owner, spender, amount)
    case _ => contracts(c, s)
  }

  /** The state after a sequence of calls, mined in order. */
  function Run(contracts: Contracts, cs: seq<Call>, s: State): State
    decreases |cs|
  {
    if cs == [] then s else Run(contracts, cs[1..], Effect(contracts, cs[0], s))
  }

  /** Running two sequences of calls one after the other is running their concatenation. */
  lemma {:induction false} RunAppend(contracts: Contracts, a: seq<Call>, b: seq<Call>, s: State)
    ensures Run(contracts, a + b, s) == Run(contracts, b, Run(contracts, a, s))
    decreases |a|
  {
    if a == [] {
      assert a + b == b;
    } else {
      assert (a + b)[1..] == a[1..] + b;
      RunAppend(contracts, a[1..], b, Effect(contracts, a[0], s));
    }
  }

  /** Running one call is applying its effect. */
  lemma RunOne(contracts: Contracts, a: Call, s: State)
    ensures Run(contracts, [a], s) == Effect(contracts, a, s)
  {
  }

  /** Running two calls is applying their effects in order. */
  lemma RunTwo(contracts: Contracts, a: Call, b: Call, s: State)
    ensures Run(contracts, [a, b], s) == Effect(contracts, b, Effect(contracts, a, s))
  {
    assert [a, b] == [a] + [b];
    RunAppend(contracts, [a], [b], s);
    RunOne(contracts, a, s);
    RunOne(contracts, b, Effect(contracts, a, s));
  }

  /** Running three calls is applying their effects in order. */
  lemma RunThree(contracts: Contracts, a: Call, b: Call, c: Call, s: State)
    ensures Run(contracts, [a, b, c], s) ==
            Effect(contracts, c, Effect(contracts, b, Effect(contracts, a, s)))
  {
    assert [a, b, c] == [a, b] + [c];
    RunAppend(contracts, [a, b], [c], s);
    RunTwo(contracts, a, b, s);
    RunOne(contracts, c, Run(contracts, [a, b], s));
  }

  /**
   * The layer's call discipline at position `i` of a trace: a router call
   * spends only right after the approvals for exactly what it spends, and
   * carries the fixed deadline and the fixed minimums (0 out on swaps, 1 and 1
   * on liquidity, proceeds to the sender).
   */
  predicate CallOk(t: seq<Call>, i: nat)
    requires i < |t|
  {
    match t[i]
    case SwapStd(sender, router, amountIn, amountOutMin, path, _, deadline) =>
      amountOutMin == 0 && deadline == DEADLINE && |path| > 0 &&
      1 <= i && t[i - 1] == Approve(path[0], sender, router, amountIn)
    case SwapExt(sender, router, tokenIn, _, amountIn, amountOutMin, pools, _, deadline) =>
      amountOutMin == 0 && deadline == DEADLINE && |pools| == 1 &&
      1 <= i && t[i - 1] == Approve(tokenIn, sender, router, amountIn)
    case AddLiqStd(sender, router, tokenA, tokenB, amountA, amountB, minA, minB, to, deadline) =>
      minA == 1 && minB == 1 && to == sender && deadline == DEADLINE &&
      2 <= i && t[i - 2] == Approve(tokenA, sender, router, amountA) &&
      t[i - 1] == Approve(tokenB, sender, router, amountB)
    case AddLiqExt(sender, router, _, tokenA, tokenB, amountA, amountB, minA, minB, to, deadline) =>
      minA == 1 && minB == 1 && to == sender && deadline == DEADLINE &&
      2 <= i && t[i - 2] == Approve(tokenA, sender, router, amountA) &&
      t[i - 1] == Approve(tokenB, sender, router, amountB)
    case RemoveLiq(sender, router, _, _, liquidity, minA, minB, to, deadline) =>
      minA == 1 && minB == 1 && to == sender && deadline == DEADLINE &&
      1 <= i && t[i - 1].Approve? && t[i - 1].owner == sender &&
      t[i - 1].spender == router && t[i - 1].amount == liquidity
    case SwapNative(sender, _, _, _, to, deadline, _) =>
      to == sender && deadline == DEADLINE
    case _ => true
  }

  /** Every call of the trace keeps the discipline. */
  predicate Disciplined(t: seq<Call>)
  {
    forall i :: 0 <= i < |t| ==> CallOk(t, i)
  }

  /** Whether a call's discipline holds depends only on the calls up to it. */
  lemma CallOkPrefix(t: seq<Call>, u: seq<Call>, i: nat)
    requires i < |t|
    ensures CallOk(t + u, i) == CallOk(t, i)
  {
    assert forall j :: 0 <= j <= i ==> (t + u)[j] == t[j];
  }

  /** A call that keeps the discipline at the head of one trace keeps it after any other trace. */
  lemma CallOkShift(t: seq<Call>, u: seq<Call>, j: nat)
    requires j < |u| && CallOk(u, j)
    ensures CallOk(t + u, |t| + j)
  {
    assert forall m :: 0 <= m <= j ==> (t + u)[|t| + m] == u[m];
    if j >= 1 {
      assert (t + u)[|t| + j - 1] == u[j - 1];
    }
    if j >= 2 {
      assert (t + u)[|t| + j - 2] == u[j - 2];
    }
  }

  /** Appending a disciplined sequence of calls to a disciplined trace keeps it disciplined. */
  lemma DisciplinedAppend(t: seq<Call>, u: seq<Call>)
    requires Disciplined(t) && Disciplined(u)
    ensures Disciplined(t + u)
  {
    forall i | 0 <= i < |t + u|
      ensures CallOk(t + u, i)
    {
      if i < |t| {
        CallOkPrefix(t, u, i);
      } else {
        CallOkShift(t, u, i - |t|);
      }
    }
  }

  /**
   * For a disciplined trace mined in order from any state, at the moment each
   * swap executes the router's allowance over the input token is exactly the
   * amount the swap spends.
   */
  lemma AllowanceAtSwap(contracts: Contracts, t: seq<Call>, s: State, i: nat)
    requires Disciplined(t) && i < |t| && (t[i].SwapStd? || t[i].SwapExt?)
    ensures t[i].SwapStd? ==> |t[i].path| > 0
    ensures var before := Run(contracts, t[..i], s);
      var tokenIn := if t[i].SwapStd? then t[i].path[0] else t[i].tokenIn;
      AllowanceOf(before, tokenIn, t[i].sender, t[i].router) == t[i].amountIn
  {
    assert CallOk(t, i);
    assert t[..i] == t[..i - 1] + [t[i - 1]];
    RunAppend(contracts, t[..i - 1], [t[i - 1]], s);
  }

  /**
   * At the moment each add-liquidity call executes, the router's allowance over
   * the second token is exactly its amount, and over the first token too
   * unless both are the same token (the second approval then overwrote it).
   */
  lemma AllowanceAtAddLiquidity(contracts: Contracts, t: seq<Call>, s: State, i: nat)
    requires Disciplined(t) && i < |t| && (t[i].AddLiqStd? || t[i].AddLiqExt?)
    ensures var before := Run(contracts, t[..i], s);
      AllowanceOf(before, t[i].tokenB, t[i].sender, t[i].router) == t[i].amountB &&
      (Lower(t[i].tokenA) != Lower(t[i].tokenB) ==>
        AllowanceOf(before, t[i].tokenA, t[i].sender, t[i].router) == t[i].amountA)
  {
    assert CallOk(t, i);
    assert t[..i] == t[..i - 2] + [t[i - 2]] + [t[i - 1]];
    RunAppend(contracts, t[..i - 2] + [t[i - 2]], [t[i - 1]], s);
    RunAppend(contracts, t[..i - 2], [t[i - 2]], s);
  }
}
