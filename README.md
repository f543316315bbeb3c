# BRC-20 commit/reveal plan builder

This project models `BitcoinPlanBuilder` of the wallet core's Bitcoin module. It turns a
`ComposePlan` request into a `TransactionPlan` that holds two unsigned transaction specs
(`SigningInput`s). The first, the *commit*, locks funds into an output that commits to a
BRC-20 transfer inscription. The second, the *reveal*, spends that output into the tagged
(dust) output.

There is a circle: the commit output must pay for the reveal, and the reveal must name the
commit txid. The planner breaks it with two calls to `BitcoinEntry.preimage_hashes`:

1. It asks for the fee of a provisional reveal. That spec has a zero txid and the maximal
   input value.
2. It builds the commit with one inscription output worth `fee + tagged_output.value`, and
   asks for the commit's txid.
3. It builds the final reveal. Its input spends that txid with the bytes reversed.

Files:

- `proto.dfy` (module `BitcoinProto`) holds the protobuf messages the planner reads and
  writes, as datatypes. It also holds their protobuf defaults and the `u64` / `u32` / `u8`
  ranges.
- `plan_builder.dfy` (module `PlanBuilder`) holds the planner as pure functions. The
  oracle `preimage_hashes` is a function parameter, so every contract holds for every
  oracle.

The planner also has a specification predicate, `IsBrc20Plan`. It states what a plan for a
request is without following the planner's steps. Two lemmas tie it to the planner:
`PlanBrc20Sound` proves every plan the planner returns meets it, and `PlanBrc20Unique`
proves no other plan does.

The source fails with `panic!()`, `unwrap()` or `assert_eq!`. The model returns an `Err`
arm of `Result` at each of those points instead:

| error | where the source fails |
|---|---|
| `UnsupportedComposeVariant` | any compose variant other than `brc20` |
| `MissingInscription` | `inscription` is absent |
| `MissingTaggedOutput` | `tagged_output` is absent |
| `PreimageHashFailed(status)` | either oracle call reports a status other than `OK` |
| `CommitValueOverflow` | `fee_estimate + tagged_output.value` exceeds `u64::MAX` |

The last one is the overflow panic of a build with overflow checks on.

The final reveal is not the provisional reveal with only its txid changed. It also leaves
`fee_per_vb` and its input value at their defaults (0), where the provisional reveal has the
request's fee rate and `u64::MAX` (rust/tw_bitcoin/src/modules/plan_builder.rs:119-135).
`RevealSpecsAgree` and `IsBrc20Plan` state exactly these differences.

## Model

| member | source | states |
|---|---|---|
| `PlanBuilder.Plan` | rust/tw_bitcoin/src/modules/plan_builder.rs:16-31 | Only the `brc20` compose variant yields a plan, wrapped as the `brc20` plan variant and equal to what `plan_brc20` built. Every other variant is `UnsupportedComposeVariant` and never a plan. A `brc20` failure passes through unchanged. |
| `PlanBuilder.PlanBrc20` | rust/tw_bitcoin/src/modules/plan_builder.rs:35-141 | A missing inscription gives `MissingInscription`, checked first. A missing tagged output gives `MissingTaggedOutput`. A success always has both `commit` and `reveal` set. A `PreimageHashFailed` error always carries a non-`OK` status. |
| `PlanBuilder.Brc20Info` | rust/tw_bitcoin/src/modules/plan_builder.rs:41-47 | The copied inscription info equals the request's inscription field for field (`one_prevout`, `inscribe_to`, `ticker`, `transfer_amount`). |
| `PlanBuilder.Zeros` | rust/tw_bitcoin/src/modules/plan_builder.rs:53-54 | `vec![0; n]` has length `n`, and every byte is zero. |
| `PlanBuilder.ProvisionalReveal` | rust/tw_bitcoin/src/modules/plan_builder.rs:53-75 | The spec given to the fee oracle has one input with a 32-byte all-zero txid, value `u64::MAX` and the inscription. Its outputs are exactly `[tagged_output]`. Its selector is `UseAll`, change is disabled with no change output, and `fee_per_vb` is copied from the request. |
| `PlanBuilder.CloneInputs` | rust/tw_bitcoin/src/modules/plan_builder.rs:99-104 | The commit inputs are the request inputs: same length, same order, same elements. |
| `PlanBuilder.Reverse` | rust/tw_bitcoin/src/modules/plan_builder.rs:116 | The reversed txid has the same length, and byte `k` is byte `len-1-k` of the oracle's txid. |
| `PlanBuilder.ReverseInvolutive` | rust/tw_bitcoin/src/modules/plan_builder.rs:116 | Reversing twice gives back the original bytes. |
| `PlanBuilder.ReverseInjective` | rust/tw_bitcoin/src/modules/plan_builder.rs:116-120 | Distinct commit txids give distinct reveal references. |
| `PlanBuilder.RevealSpecsAgree` | rust/tw_bitcoin/src/modules/plan_builder.rs:53-135 | The final reveal has the same outputs, selector, change settings and input inscription as the provisional reveal. Setting its input's txid back to zeros, its input value to `u64::MAX` and its fee rate to the request's gives exactly the provisional reveal. |
| `PlanBuilder.PlanBrc20Sound` | rust/tw_bitcoin/src/modules/plan_builder.rs:35-141 | Every plan returned meets `IsBrc20Plan`, covering both specs. Commit: exactly one inscription output, worth the oracle's fee estimate for the provisional reveal plus `tagged_output.value`, carrying the same `inscribe_to`, `ticker` and `transfer_amount`; its inputs, selector, change output and change flag come from the request, and `fee_per_vb` is the default. Reveal: one input whose txid is the byte reversal of the oracle's txid for the commit, and outputs `[tagged_output]` with `UseAll` and change disabled. Both oracle statuses are `OK`. |
| `PlanBuilder.PlanBrc20Unique` | rust/tw_bitcoin/src/modules/plan_builder.rs:35-141 | Any plan meeting `IsBrc20Plan` is the planner's result, so the specification fixes the plan exactly. |
| `PlanBuilder.PlanBrc20Failures` | rust/tw_bitcoin/src/modules/plan_builder.rs:77-115 | With inscription and tagged output present: a non-`OK` fee estimate gives `PreimageHashFailed` with that status; an overflowing sum gives `CommitValueOverflow`; a non-`OK` commit answer gives `PreimageHashFailed` with that status. In each case the result has no commit and no reveal. When both answers are `OK` and the sum fits in `u64`, planning succeeds. |
| `PlanBuilder.PlanBrc20OracleLocality` | rust/tw_bitcoin/src/modules/plan_builder.rs:77-116 | The plan depends on the oracle only through its answers on the provisional reveal and on the commit spec. Two oracles that agree there give identical results, so planning is deterministic. |
| `PlanBuilder.RevealReferencesCommit` | rust/tw_bitcoin/src/modules/plan_builder.rs:112-120 | Reversing the final reveal input's txid gives back the txid the oracle reported for the returned commit spec. |
| `PlanBuilder.OrdiScenario` | rust/tw_bitcoin/src/modules/plan_builder.rs:80-120 | Take ticker `ordi`, amount 100, a 546-unit tagged output and 5 per vbyte, with an oracle that answers fee 200 and commit txid `00..01`. The plan succeeds, its commit output is worth 746, and the reveal txid is `01 00..00`. |

## Left out

- The internals of `BitcoinEntry.preimage_hashes`: sighash computation, weight and fee math, and txid hashing. It is a call into code that is not part of this model, so it is an arbitrary function parameter.
- `super::utils::hard_clone_proto_input` / `hard_clone_proto_output`: they only detach Rust lifetimes and borrowed protobuf buffers, so they are the identity (`HardCloneInput`, `HardCloneOutput`).
- Protobuf wire encoding, `CoinContext` and the `PlanBuilder` trait plumbing: library and I/O concerns with no behaviour of their own here.
- Fields the planner neither reads nor sets are not modelled. The `SigningInput` fields `version`, `private_key` and `lock_time` are at their defaults in both specs. The `Input` field `sequence_enable_zero` is at its default on the two reveal inputs, and is carried over unchanged from the request on the commit inputs. `Proto.Error` codes other than `OK` are collapsed into `Failure(code)` with a non-zero code.
- The `dbg!(fee_estimate)` call: debug output only.
- Whether the single fee estimate covers the signed reveal transaction's real size. That depends on signing and witness sizes outside this file, and the source does not promise it.
- PlanBrc20: an overflowing `fee_estimate + tagged_output.value` is modelled as the `CommitValueOverflow` failure, the overflow panic of a checked build. A build without overflow checks would wrap the value silently, and the model does not produce that wrapped plan.
