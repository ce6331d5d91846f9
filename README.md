# UniswapUtils: a verified model of the AMM interaction layer

This project models the layer in `test/UniswapUtils.ts` that turns "swap",
"add liquidity", "remove liquidity", "find the pool" and "read a price" into
calls on one of two AMM interface shapes:

- the standard shape: a Uniswap V2 router and factory;
- the extended shape: the Firebird router and factory. The factory's
  `getPair` takes two extra arguments, fixed at `50, 20`. The router's swap
  takes `tokenIn, tokenOut, pools[]` instead of a path, and its
  add-liquidity takes the pool as its first argument.

The remote chain is an abstract ledger (`Ledger.State`). It holds:

- ERC-20 balances and allowances;
- native-coin balances;
- token decimals;
- the factories' pair registries, where an unknown pair answers the zero address;
- the pools' tokens and reserves.

Every mutating remote call is a `Ledger.Call` descriptor: `Approve`,
`SwapStd`, `SwapExt`, `AddLiqStd`, `AddLiqExt`, `RemoveLiq`, `SwapNative`,
`Wrap`, `GetToken`. The class `UniswapUtils.Network` holds the current
state and the trace of calls issued so far. It also holds `contracts`, an
uninterpreted function giving the effect of each call on the state. The one
exception is an approval, which follows EIP-20 `approve`: the allowance
becomes exactly the amount.

Each workflow comes in two forms:

- a pure function (`SwapPlan`, `AddLiquidityPlan`, `RemoveLiquidityCalls`,
  `BuyTokenPlan`, `AcquisitionCalls`, `NetworkCoinPlan`). It gives the calls
  the workflow emits, in order and with their arguments, and how it ends.
  Its `ensures` state the guards, the ordering and the fixed arguments.
- a method of `Network`. It performs the same steps one at a time and is
  proved to append exactly the plan's calls to the trace. Its final state is
  the result of mining those calls in order.

Every method keeps `Valid()`, which says that the whole trace is
`Disciplined`. For each router call, `Ledger.CallOk` states:

- an exact-input swap (`SwapStd`, `SwapExt`) comes right after an approval
  by its sender, for its router, of exactly its input amount of its input
  token. It carries an output floor of 0 and the deadline `1000000000000`.
- an add-liquidity call (`AddLiqStd`, `AddLiqExt`) comes right after two
  approvals by its sender, for its router: exactly `amountA` of tokenA, then
  exactly `amountB` of tokenB. It carries minimums of 1 and 1 and the
  deadline, and sends the LP tokens to the sender.
- a `RemoveLiq` comes right after an approval by its sender, for its router,
  of exactly its liquidity amount. The router's `removeLiquidity` is not told
  the LP token's address, so the descriptor does not record which token that
  approval was for. It carries minimums of 1 and 1 and the deadline, and
  sends the proceeds to the sender.
- the native-coin swap (`SwapNative`) carries an exact output amount rather
  than a floor. It sends the tokens to the sender, carries the deadline, and
  needs no approval.

`Ledger.AllowanceAtSwap` and `Ledger.AllowanceAtAddLiquidity` use this
discipline. When an exact-input swap executes, the router's allowance on the
input token is exactly the swap's input amount. When an add-liquidity call
executes, the router's allowance on tokenB is exactly `amountB`. Its
allowance on tokenA is exactly `amountA` when the two tokens differ; when
they are the same token, the second approval overwrites the first.

Pure arithmetic is in `Pricing`:

- `encodePrice`: the UQ112x112 cross prices of the Uniswap V2 price oracle
  (section 2.2 of the Uniswap V2 Core whitepaper);
- `amountForSell`: BigNumber division truncates toward zero;
- `getLpInfo`'s selection of reserves and price, over exact reals.

Address comparisons are in `Addresses`. Lower-casing is modelled on ASCII
letters.

## Behaviour of the code worth knowing

- At `test/UniswapUtils.ts:54` the router test lower-cases the argument but
  not the configured Firebird router it is compared with.
  `UniswapUtils.FirebirdRouterComparison` proves two things:
  - this test is case-insensitive only when the configured constant is
    written in lower case;
  - otherwise the Firebird swap branch is never taken.
- The route-length check at `:56` builds an expectation but never asserts
  it, so it never rejects. On the Firebird router:
  - hops after the second are ignored;
  - a one-token route fails only after the approval has been sent, when
    `getPair(route[0], undefined, …)` is encoded.

  The standard router receives the whole route. No route is refused with an
  "unsupported route" error.
- `buyToken` compares the token with the wrapped native token exactly
  (`===`, `:285`). It wraps `amountForSell`, not a fixed reserve.
- `buyTokensAndAddLiq` acquires tokens through `getTokenFromHolder` (`:322`,
  `:325`). That function only calls `TokenUtils.getToken` (`:248`), with no
  funding guard; its commented-out body is dead. The LP delta is logged,
  not returned. The model returns it as the out-parameter `bought`, beside
  the pool address that was logged too.
- `getLpInfo` compares the target with `token0` exactly (`===`). Any other
  target is treated as `token1`.

## Model

| member | source | states |
|---|---|---|
| `Addresses.Lower` | test/UniswapUtils.ts:367 | `toLowerCase` keeps the length and lower-cases every ASCII letter, position by position |
| `Addresses.SameAddressIff` | test/UniswapUtils.ts:110 | comparing two lower-cased addresses is comparing them character by character, ignoring case |
| `Addresses.OneSidedComparison` | test/UniswapUtils.ts:54 | `x.toLowerCase() === k` can hold only for a lower-case `k`, and is then the case-insensitive comparison |
| `UniswapUtils.FirebirdRouterComparison` | test/UniswapUtils.ts:54 | the Firebird router branch is taken only if the configured router is lower case; it is then taken exactly for the same address in any case |
| `UniswapUtils.PairQuery` | test/UniswapUtils.ts:366-375 | the Firebird factory (case-insensitive) is asked `getPair(t0, t1, 50, 20)` and any other factory `getPair(t0, t1)`, with the tokens in the caller's order |
| `UniswapUtils.PairQueryCaseInsensitive` | test/UniswapUtils.ts:367 | two spellings of one factory address resolve to the same pool |
| `UniswapUtils.Network.GetPairFromFactory` | test/UniswapUtils.ts:366-375 | for the Firebird factory, in any letter case, the pool is the registry's answer to `getPair(token0, token1, 50, 20)`; for any other factory it is the answer to `getPair(token0, token1)`; an unknown pair is the zero address |
| `Pricing.EncodePrice` | test/UniswapUtils.ts:377-379 | succeeds exactly when both reserves are non-zero, and then each price `c` of numerator `n` and divisor `d` satisfies `c*d <= n < (c+1)*d`, for `reserve1*2^112/reserve0` and `reserve0*2^112/reserve1` |
| `Pricing.Q112IsPow` | test/UniswapUtils.ts:378 | the constant used is `BigNumber.from(2).pow(112)` |
| `Pricing.FloorQuotientUnique` | test/UniswapUtils.ts:378 | the bounds in `EncodePrice`'s contract determine each price uniquely |
| `Pricing.EncodePriceSwapped` | test/UniswapUtils.ts:378 | exchanging the reserves exchanges the two prices |
| `Pricing.EncodePriceEqualReserves` | test/UniswapUtils.ts:378 | equal reserves encode 1.0 (2^112) both ways |
| `Pricing.EncodePriceFitsUint224` | test/UniswapUtils.ts:378 | reserves below 2^112 give prices below 2^224, the UQ112x112 range |
| `Pricing.EncodePriceProduct` | test/UniswapUtils.ts:378 | the two prices are reciprocal up to rounding down: their product is at most 2^224 |
| `Pricing.PowOne` | test/UniswapUtils.ts:363 | `BigNumber.from(1).pow(dec)` is 1 for every `dec` |
| `Pricing.TruncDiv` | test/UniswapUtils.ts:363 | BigNumber `div` truncates toward zero: the magnitude is the floored quotient of the magnitudes, and the sign follows the dividend |
| `Pricing.AmountForSell` | test/UniswapUtils.ts:355-364 | fails with an overflow when `|usdAmount|` is at least 2^53 - 1, which `BigNumber.from` refuses, and otherwise with a division by zero on a zero price; it succeeds in every other case, and then the result is `usdAmount*10^18` divided by the price and truncated, whatever the decimals, and for a non-negative amount it is the floored quotient |
| `Pricing.AmountForSellIgnoresDecimals` | test/UniswapUtils.ts:363 | two decimals values give the same amount |
| `Pricing.Normalized` | test/UniswapUtils.ts:187-188 | a reserve in whole-token units times `10^decimals` is the raw reserve |
| `Pricing.Quotient` | test/UniswapUtils.ts:197-199 | a division by zero is non-finite; any other quotient times the divisor is the dividend |
| `Pricing.LpInfoOf` | test/UniswapUtils.ts:190-202 | for `target == token0` the result is `(reserve0, token1, reserve1, …)`, else `(reserve1, token0, reserve0, …)`; the price is finite exactly when the target's reserve is non-zero, and the price times the target's reserve is the opposite reserve |
| `Pricing.LpInfoOtherTarget` | test/UniswapUtils.ts:190-192 | a target that is neither pool token gets `token1`'s answer |
| `Pricing.PriceProduct` | test/UniswapUtils.ts:195-200 | with non-zero reserves, the prices read for `token0` and for `token1` multiply to exactly 1 |
| `Pricing.PriceExample` | test/UniswapUtils.ts:195-200 | reserves 100 and 300 give prices 3 and 1/3 |
| `UniswapUtils.Network.GetLpInfo` | test/UniswapUtils.ts:178-203 | defined exactly when the pool and both of its tokens' decimals can be read; for the target `token0` the opposite token is `token1`, the target's reserve times 10^d0 is `reserve0` and the opposite reserve times 10^d1 is `reserve1`, and for any other target the mirror image; the price is finite exactly when the target's reserve is non-zero, and then price times the target's reserve is the opposite reserve |
| `UniswapUtils.Network.GetLpInfoPriceProduct` | test/UniswapUtils.ts:178-203 | for a pool with distinct tokens and non-zero reserves, the prices read for `token0` and for `token1` are both finite and multiply to exactly 1 |
| `Pricing.PoolLpInfo` | test/UniswapUtils.ts:184-202 | the answer `DescribesPool`: with units 10^d0 and 10^d1, the opposite token, both reserves in whole-token units, a finite price exactly for a non-zero target reserve, and price times target reserve equal to the opposite reserve |
| `Pricing.LpInfoOfDescribesPool` | test/UniswapUtils.ts:190-200 | the selection and the division, applied to any two reserves that scale back to the raw ones and are zero exactly when those are, describe the pool |
| `Ledger.Approved` | test/UniswapUtils.ts:58 | an approval sets that one allowance to exactly the amount and changes nothing else |
| `Ledger.DisciplinedAppend` | test/UniswapUtils.ts:58-80 | appending a disciplined sequence of calls to a disciplined trace keeps it disciplined |
| `Ledger.AllowanceAtSwap` | test/UniswapUtils.ts:58-80 | in a disciplined trace, each swap executes while the router's allowance over its input token is exactly the amount it sells |
| `Ledger.AllowanceAtAddLiquidity` | test/UniswapUtils.ts:107-135 | each add-liquidity executes while the allowance over tokenB is exactly amountB, and over tokenA exactly amountA unless the two tokens are the same |
| `UniswapUtils.SwapPlan` | test/UniswapUtils.ts:49-81 | an empty route or a balance below the amount emits nothing and fails; otherwise `Approve(route[0], router, amount)` comes first, then the swap with floor 0, recipient `to` and the fixed deadline: Firebird gets `(route[0], route[1], [its pool])` and a one-token route fails after the approval; any other router gets the whole route |
| `UniswapUtils.FirebirdSwapIgnoresLaterHops` | test/UniswapUtils.ts:56-70 | on the Firebird router the route's entries after index 1 change nothing |
| `UniswapUtils.Network.SwapExactTokensForTokens` | test/UniswapUtils.ts:42-82 | appends exactly `SwapPlan`'s calls, leaves the state those calls produce, returns its status, and keeps the trace disciplined |
| `UniswapUtils.AddLiquidityPlan` | test/UniswapUtils.ts:94-136 | both balance guards (tokenA's first) fail with nothing emitted; otherwise two exact approvals, A then B, and one add-liquidity call with minimums 1, 1 and recipient the sender, carrying the resolved pool on the Firebird factory |
| `UniswapUtils.Network.AddLiquidity` | test/UniswapUtils.ts:84-140 | appends exactly `AddLiquidityPlan`'s calls; on success returns the pool `getPairFromFactory` resolves after the add |
| `UniswapUtils.RemoveLiquidityCalls` | test/UniswapUtils.ts:152-163 | the approval of exactly the LP amount, then the removal with minimums 1, 1 to the sender and the fixed deadline |
| `UniswapUtils.Network.RemoveLiquidity` | test/UniswapUtils.ts:142-164 | appends exactly those two calls and leaves the state they produce |
| `UniswapUtils.BuyTokenPlan` | test/UniswapUtils.ts:285-302 | the wrapped native token is wrapped and never swapped; another token with no opposite-token balance fails with nothing emitted; otherwise the swap of `amount` along `[oppositeToken, token]` to the signer |
| `UniswapUtils.BuyTokenSwapsIntoSigner` | test/UniswapUtils.ts:295-301 | a successful purchase by swap approves and sells exactly `amount` of the opposite token and delivers to the signer |
| `UniswapUtils.Network.BuyToken` | test/UniswapUtils.ts:273-303 | appends exactly `BuyTokenPlan`'s calls and returns its status |
| `UniswapUtils.Network.GetTokenFromHolder` | test/UniswapUtils.ts:240-248 | issues one `getToken(token, signer)` and nothing else |
| `UniswapUtils.AcquisitionCalls` | test/UniswapUtils.ts:319-326 | one `getToken` per token whose balance read at the start is zero, token0's first |
| `UniswapUtils.AcquisitionExample` | test/UniswapUtils.ts:319-326 | holding 50 of token0 and none of token1, only token1 is acquired |
| `UniswapUtils.Network.AcquireMissing` | test/UniswapUtils.ts:319-326 | appends exactly `AcquisitionCalls` for the starting state |
| `UniswapUtils.Network.BuyTokensAndAddLiq` | test/UniswapUtils.ts:305-349 | after the acquisitions, the pool is resolved on the target factory; `addLiquidity` of the signer's full current balances through the target factory's router succeeds; `bought` is the LP balance after minus before on that pool |
| `UniswapUtils.NetworkCoinPlan` | test/UniswapUtils.ts:29-39 | the value offered is the native balance minus 0.1 ether, in one `swapETHForExactTokens` to the signer with the fixed deadline; a negative value sends nothing |
| `UniswapUtils.Network.SwapNetworkCoinForExactTokens` | test/UniswapUtils.ts:23-40 | appends exactly `NetworkCoinPlan`'s calls and returns its status |

## Left out

- The contracts' own behaviour: AMM pricing, reserve changes, LP minting,
  wrapping and the token holder's transfer. These are the uninterpreted
  `contracts` function. Only an approval has a defined effect (EIP-20).
- Failures reported by the node or a contract (reverts). Every submitted call
  is taken to be mined. A call the router would revert still appears in the
  trace. Examples: a one-token path on a Uniswap router, or a swap with
  nothing to swap.
- Failed reads. The workflows treat every read as total: `balanceOf`
  always answers, and an address that is not a token answers 0. Token
  metadata (`decimals`, `tokenSymbol`) is not consulted, because the
  workflows never use it beyond logging and the float guards. The source
  makes these reads before any mutating call:
  - `decimals` and `tokenSymbol` of `_route[0]` at `:50-52`;
  - `decimals`, `tokenSymbol` and `balanceOf` of both tokens at `:94-99`;
  - `decimals` and `tokenSymbol` of the token at `:281-282`, also on the
    wrapped-native path;
  - `decimals` of the opposite token at `:290`;
  - `balanceOf` of the LP token at `:330`.

  A read that throws (ethers refusing the call, or a call to an address
  with no code) would stop the workflow before its first approval. The
  model does not capture this, so `SwapPlan`, `AddLiquidityPlan`,
  `BuyTokenPlan` and `BuyTokensAndAddLiq` never fail on a read. In
  particular, when the target factory has no pair yet, `lpToken` at
  `:328` is the zero address. The `balanceOf` at `:330` is then a read of
  an address with no code, which will likely throw; the model instead
  reads a balance of 0 and goes on to add liquidity. Only
  `Network.GetLpInfo` models a failed read: a missing pool or missing
  decimals give `None`.
- Ethers' refusal of a mixed-case address whose EIP-55 checksum is wrong.
  Every address string is accepted, so "in any letter case" in the rows
  for `PairQuery` and `Network.GetPairFromFactory` means any casing that
  ethers accepts: all lower case, all upper case, or the checksummed form.
- The `wait` flag of `RunHelper.runAndWait` and the asynchronous
  scheduling. They decide when a call is mined, not which calls are issued or
  in what order, and every call is modelled as mined before the next.
- `console.log` output. The one logged quantity the workflows compute
  (`bought`, with its pool) is returned by `BuyTokensAndAddLiq`.
- `TokenUtils.decimals`, `tokenSymbol`, `tokenName`, `balanceOf`,
  `approve`, `getToken`, `wrapMatic`, `connectInterface`, the typechain
  bindings and `MaticAddresses`. These are not part of this model. They
  become ledger lookups, call descriptors, or fields of `Config`;
  `getRouterByFactory` is a total function in `Config`.
- `priceCalculator.getPriceWithDefaultOutput`: a foreign call. Its price is
  an argument of `Pricing.AmountForSell`.
- `UniswapUtils.buyAllBigTokens` and `UniswapUtils.wrapMatic`: fixed
  sequences of foreign calls, with no logic of their own.
- `UniswapUtils.createPairForRewardToken`: a fixed test fixture over named
  addresses; not part of the modelled core.
- `connectRouter`, `connectFactory` and `connectLpContract`: they only bind
  an address to an interface. The route's router address is taken to be the
  contract's `router.address`.
- Default parameter values (`oppositeToken = WMATIC_TOKEN`,
  `wait = false`): callers of the model pass them explicitly.
- Amounts passed as decimal strings are modelled as natural numbers;
  malformed or negative strings are not modelled.
- `Pricing.LpInfoOf`: prices are exact reals, not IEEE doubles, so the
  double rounding of `formatUnits` followed by `/` is not modelled.
- The balance guards at `:51`, `:101-104` and `:292` compare floats. They
  are modelled as the equivalent integer comparison on base units, because
  both sides share the token's decimals; double rounding is not modelled.
- `UniswapUtils.BuyTokenPlan`: the wrap is recorded with `amountForSell` in
  base units. The `formatUnits(…, 18)` string handed to `wrapMatic` is
  taken to round-trip.
- `Pricing.AmountForSell`: `usdAmount` is an integer. A fractional
  JavaScript number, which `BigNumber.from` also rejects, is not modelled;
  the refusal of an unsafe integer (magnitude 2^53 - 1 or more) is.
- Amounts, balances, allowances and reserves are unbounded naturals. On the
  chain they are uint256, so they are assumed below 2^256; the ABI encoder's
  rejection of a larger argument (for example the LP amount handed to
  `removeLiquidity`, or the native-coin swap's amount) is not modelled.
- `Addresses.Lower`: only ASCII letters are lowered. Hex addresses contain
  nothing else.
- Whether a factory answers `(A, B)` and `(B, A)` with the same pool is a
  property of its registry, which is an uninterpreted map here.
