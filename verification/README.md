# Parachain runtime core: self-contained call routing, fee coefficient, block budgets

This project models the three parts of the parachain runtime (`runtime/src/lib.rs`) that have behaviour of their own. The rest of that file wires pallets together.

1. **Self-contained call routing** (`impl SelfContainedCall for RuntimeCall`). A self-contained call carries its own authorisation: its signer, a 20-byte Ethereum address, is recovered from the call itself. The runtime answers the protocol's phases by matching on the call union:
   - classify (`is_self_contained`);
   - check (`check_self_contained`);
   - validate (`validate_self_contained`);
   - pre-dispatch (`pre_dispatch_self_contained`);
   - apply (`apply_self_contained`).

   An Ethereum pallet call goes to the Ethereum pallet with its arguments unchanged. Every other call is answered "not self-contained" (`false` or `None`). Apply dispatches only the Ethereum `transact` call. It uses a dedicated origin, `EthereumTransaction(signer)`, that carries the recovered signer. The pallet's answers and the runtime dispatcher are parameters (`SelfContained.EthereumPallet`, `SelfContained.Dispatcher`), so every property holds whatever they compute.
2. **Weight-to-fee coefficient** (`WeightToFee::polynomial`). The polynomial has one term of degree 1. Its coefficient is `p / q`, where `p = MILLI_UNIT / 10` and `q = 100 * base extrinsic reference time`. The coefficient is stored as the integer quotient plus the remainder as a per-billion fraction. The model proves that this pair is `p / q` rounded down to whole billionths.
3. **Time units, balance units and block weight limits.** Block counts per minute, hour and day are derived from the 6-second block time, using the source's 32-bit cast and integer division. The balance unit ladder is modelled as given. The per-class limits split `MAXIMUM_BLOCK_WEIGHT`: `Normal` gets 75%, and `Operational` may use the whole block with the remainder reserved for it.

Modules:
- `Base`: integer widths, byte strings, `Option`/`Result`.
- `Primitives`: weights, dispatch info, validity, dispatch results.
- `Perbill`: per-billion fractions.
- `SelfContained`: call routing.
- `WeightToFee`: the fee coefficient.
- `Constants`: time and balance units.
- `BlockWeights`: per-class limits.

Each of Rust's fixed-width integers is a subset type of `nat`. An overflow the source would hit shows up here as a verification failure. A cast or saturation the source performs on purpose is written out: `Constants.AsBlockNumber` and `BlockWeights.SaturatingMul`.

## Model

| member | source | states |
|---|---|---|
| `SelfContained.IsSelfContained` | runtime/src/lib.rs:238-243 | A call is self-contained exactly when it is an Ethereum pallet call that the pallet classifies as self-contained; every other call is not |
| `SelfContained.CheckSelfContained` | runtime/src/lib.rs:245-250 | Signer recovery answers `None` for every non-Ethereum call and is the pallet's own answer for an Ethereum call |
| `SelfContained.ValidateSelfContained` | runtime/src/lib.rs:252-262 | Validation answers `None` for every non-Ethereum call; for an Ethereum call it is the pallet's answer for the same signer, dispatch info and length |
| `SelfContained.PreDispatchSelfContained` | runtime/src/lib.rs:264-276 | Pre-dispatch answers `None` for every non-Ethereum call; for an Ethereum call it is the pallet's answer for the same signer, dispatch info and length |
| `SelfContained.ApplyOrigin` | runtime/src/lib.rs:282-288 | Apply builds an origin if and only if the call is the Ethereum `transact`, and that origin is `EthereumTransaction` carrying the supplied signer |
| `SelfContained.ApplySelfContained` | runtime/src/lib.rs:278-290 | Apply answers `Some` if and only if the call is the Ethereum `transact` (other Ethereum calls and all other calls get `None`); its answer is the dispatch of that same call under `EthereumTransaction(info)` |
| `SelfContained.NonEthereumCallsFallThrough` | runtime/src/lib.rs:238-290 | For any call outside the Ethereum pallet, all five phases answer "not self-contained", for every pallet and dispatcher |
| `SelfContained.EthereumCallsPassThrough` | runtime/src/lib.rs:238-276 | For an Ethereum call, classify, check, validate and pre-dispatch return exactly the pallet's answers, with signer, dispatch info and length forwarded unchanged |
| `SelfContained.ApplyOriginIdentifiesSigner` | runtime/src/lib.rs:283-286 | Two signers give the same apply origin only if they are equal; the origin is never a native `Signed`, `Root` or unsigned origin |
| `SelfContained.RoutingPreservesConsistency` | runtime/src/lib.rs:235-276 | If the pallet answers check, validate and pre-dispatch only for the calls it classifies as self-contained, then the runtime answers them only for calls it classifies as self-contained, across the whole call union |
| `WeightToFee.FeeDenominator` | runtime/src/lib.rs:157 | `q` is 100 times the base extrinsic reference time, with no overflow in the 128-bit balance type; it is at least 100 when the base time is positive |
| `WeightToFee.RatioCoefficient` | runtime/src/lib.rs:158-163 | The term has degree 1 and is not negative. Its integer part is the floor of `p / q` (`coeff_integer * q + p % q == p`). Its fraction is `p % q` over `q` rounded down to billionths, strictly below one whole |
| `WeightToFee.Polynomial` | runtime/src/lib.rs:151-165 | The polynomial is exactly one non-negative term of degree 1. For `p = MILLI_UNIT / 10` and `q = 100 * base extrinsic reference time`, its integer part and per-billion fraction split `p / q` as above |
| `WeightToFee.CoefficientIsRatioInBillionths` | runtime/src/lib.rs:156-162 | The integer part and the per-billion fraction together are `p / q` rounded down to whole billionths: the split loses less than one billionth |
| `Perbill.FromRational` | runtime/src/lib.rs:161 | `from_rational(n, d)` is `n / d` rounded down to billionths when `0 < d` and `n <= d`, is below one whole when `n < d`, and is one whole when `d == 0` or `n > d` |
| `Perbill.FromPercent` | runtime/src/lib.rs:363 | A percentage up to 100 becomes that many hundredths of a whole; larger percentages are clamped to one whole |
| `Perbill.MulFloor` | runtime/src/lib.rs:341 | A `Perbill` times a 64-bit integer, rounded down: never more than the integer, and within one unit of the exact product |
| `Constants.AsBlockNumber` | runtime/src/lib.rs:309 | The `as BlockNumber` cast keeps the value when it fits in 32 bits and otherwise drops a multiple of 2^32 |
| `Constants.MinutesFor` | runtime/src/lib.rs:309 | Blocks per minute is the largest count whose total duration fits in 60 000 ms |
| `Constants.HoursFor` | runtime/src/lib.rs:310 | Blocks per hour are 60 times blocks per minute, fit the 32-bit block number, and never last longer than an hour |
| `Constants.DaysFor` | runtime/src/lib.rs:311 | Blocks per day are 24 times blocks per hour, fit the 32-bit block number, and never last longer than a day |
| `Constants.DayOfBlocksFitsInADay` | runtime/src/lib.rs:308-311 | For any block time whose low 32 bits (the value the source divides by after `as BlockNumber`) are non-zero, a day's worth of blocks lasts at most a day of those block times, and exactly a day when that block time divides a minute |
| `Constants.WrappedBlockTimeOutlastsADay` | runtime/src/lib.rs:309 | The cast wraps: a block time of 2^32 + 1 ms is divided as 1 ms, giving 86 400 000 blocks a day, which together last far longer than a day |
| `Constants.TimeUnits` | runtime/src/lib.rs:300-311 | With 6000 ms blocks, `MINUTES == 10`, `HOURS == 600` and `DAYS == 14_400`; `SLOT_DURATION` equals the block time; `DAYS` blocks last exactly one day |
| `Constants.UnitLadder` | runtime/src/lib.rs:314-316 | `UNIT == 1000 * MILLI_UNIT == 1_000_000 * MICRO_UNIT`, and the existential deposit (line 355) is one `MILLI_UNIT` |
| `BlockWeights.SaturatingMul` | runtime/src/lib.rs:368 | `saturating_mul` on `u64` returns the exact product exactly when it fits in 64 bits, and `u64::MAX` whenever it does not |
| `BlockWeights.MaximumBlockWeight` | runtime/src/lib.rs:365-370 | The maximum block weight is two seconds of reference time, without saturation, and the relay chain's maximum proof size |
| `BlockWeights.WeightSub` | runtime/src/lib.rs:347-349 | Weight subtraction is component-wise and undoes addition; it is only defined where it does not underflow |
| `BlockWeights.RuntimeClassLimits` | runtime/src/lib.rs:335-350 | For any `Perbill` multiplication whose product never exceeds its input: `Normal` max total plus `Operational` reserve is exactly the maximum block weight in each component; `Normal` max total is at most `Operational` max total; `Operational` max total is the whole block; the reserve never underflows |
| `BlockWeights.RuntimeLimitsRoundingDown` | runtime/src/lib.rs:340-370 | With rounding down, `Normal` gets 1.5 s of reference time and the `Operational` reserve 0.5 s; the proof size is split three to one, up to rounding |

## Left out

- The Ethereum pallet's own logic is left out: signer recovery (ECDSA), nonce, fee and gas checks, and dispatch. It lives in external crates and is a parameter here.
- The composition of the phases lives in the self-contained extrinsic type of the Frontier crates, which are not part of this model. That type decides in what order the phases are called and what a `None` from check means. Only the runtime's answer to each phase is modelled.
- Apply dispatches only `Ethereum::transact`, not every self-contained call, and the model follows the code in this. `EthereumCall.OtherEthereumCall` stands for any other variant of the pallet's call enum; the pallet currently declares only `transact`.
- The `len: usize` argument is a `nat`. The routing only forwards it, so its width does not matter.
- `SelfContained.RuntimeOrigin` is cut down to root, signed, none and the Ethereum transaction origin. The runtime's origin union also holds the pallet origins of the collectives, XCM and other pallets; the routing never builds those.
- Evaluating the fee polynomial (fee = coefficient × weight, with saturation) is left out. It lives in the library, so fee monotonicity and zero fee for zero weight are not stated.
- `Perbill.FromRational`: rounding down is an assumption about the arithmetic library, which is not part of this model. The bounds on the result depend on that assumption.
- `Perbill.MulFloor`: the library may round to nearest rather than down. For that reason `BlockWeights.RuntimeClassLimits` is stated for any multiplication that does not exceed its input. Only `BlockWeights.RuntimeLimitsRoundingDown` fixes the floor rounding.
- `BlockWeights.Scale`: treating `Perbill * Weight` as the same `Perbill` multiplication applied separately to reference time and proof size is an assumption about the weights library, which is not part of this model.
- Block times of 2^32 ms or more wrap in the `as BlockNumber` cast. The time-unit bounds are stated for the truncated block time, which is what the source divides by; `Constants.WrappedBlockTimeOutlastsADay` shows the effect. The runtime's 6000 ms block time does not wrap.
- Three constants come from libraries outside this model:
  - the base extrinsic weight (`ExtrinsicBaseWeight`) is a parameter of `WeightToFee.Polynomial`;
  - the relay chain's maximum proof size (`MAX_POV_SIZE`) is a parameter of `BlockWeights.MaximumBlockWeight`;
  - `WEIGHT_REF_TIME_PER_SECOND` is taken as 10^12 reference-time units.
- Only the `max_total` and `reserved` settings of the block-weights builder are modelled. The builder's base block weight, per-class base extrinsic weight, `avg_block_initialization` with `AVERAGE_ON_INITIALIZE_RATIO`, and the checks in `build_or_panic` are library code.
- `BlockWeights` (`with_sensible_defaults`), `BlockLength`, `RuntimeBlockLength` and `MaxCollectivesProposalWeight` are left out. They are configuration built by library functions.
- `TransactionConverter::convert_transaction` is left out. Its correctness rests on the SCALE codec round trip, which is not part of this model, and its failure is a panic.
- The extension tuples `TxExtension` and `SignedExtra` are left out. The individual checks and their short-circuit semantics are in external crates; only their order is declared here.
- Also left out as library orchestration or configuration without logic of its own:
  - `Executive` and the validate-block registration;
  - the pallet composition;
  - opaque types and session keys;
  - dynamic parameters;
  - the runtime version;
  - the consensus hook;
  - the WASM binary include.
