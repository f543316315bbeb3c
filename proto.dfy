/**
 * The protobuf messages that the BRC-20 plan builder reads and writes
 * (the BitcoinV2 and Utxo protocols of the wallet core), as immutable values.
 *
 * Only the fields the planner reads or sets are modelled. Every message has a
 * default value that mirrors protobuf's `Default::default()`: zero numbers,
 * empty byte strings and lists, an absent `oneof`, and the first enum variant.
 */
module BitcoinProto {

  const U64_MAX: int := 0xFFFF_FFFF_FFFF_FFFF

  /** Protobuf `uint64`. */
  type u64 = x: int | 0 <= x <= U64_MAX

  /** Protobuf `uint32`. */
  type u32 = x: int | 0 <= x < 0x1_0000_0000

  type u8 = x: int | 0 <= x < 0x100

  /** Protobuf `bytes` (transaction ids, scripts, address payloads). */
  type Bytes = seq<u8>

  /** An optional message field (`Option<T>` in the generated Rust). */
  datatype Option<T> = None | Some(value: T)

  /** The wire value of a `Proto.Error` other than `OK` (whose wire value is 0). */
  type ErrorCode = c: int | 1 <= c witness 1

  /** `Proto.Error`: `OK`, or one of the other error codes of the Bitcoin entry. */
  datatype ProtoError = OK | Failure(code: ErrorCode)

  /** `Utxo.SighashType`; `UseDefault` is the protobuf default. */
  datatype SighashType =
    | UseDefault
    | All
    | NoneHash
    | Single
    | AllPlusAnyoneCanPay
    | NonePlusAnyoneCanPay
    | SinglePlusAnyoneCanPay

  /** `Utxo.InputSelector`; `SelectAscending` is the protobuf default. */
  datatype InputSelector = SelectAscending | SelectInOrder | SelectDescending | UseAll

  /** `Input.InputBrc20Inscription`: what is inscribed and to whom. */
  datatype InputBrc20Inscription = InputBrc20Inscription(
    onePrevout: bool,
    inscribeTo: Bytes,
    ticker: string,
    transferAmount: u64)

  /** `Output.OutputBrc20Inscription`: the commit output that locks funds to the inscription script. */
  datatype OutputBrc20Inscription = OutputBrc20Inscription(
    inscribeTo: Bytes,
    ticker: string,
    transferAmount: u64)

  /** `Input.InputBuilder.variant`: a BRC-20 inscription, or any other builder variant (opaque here). */
  datatype InputVariant =
    | InputBrc20Inscribe(brc20: InputBrc20Inscription)
    | InputOtherVariant(tag: nat, payload: Bytes)

  /** `Input.to_recipient`. */
  datatype InputRecipient =
    | InputBuilder(variant: InputVariant)
    | InputCustomScript(script: Bytes)

  /** `Input`: the outpoint it spends (`txid`, `vout`), its value and how it is signed. */
  datatype Input = Input(
    txid: Bytes,
    vout: u32,
    sequence: u32,
    value: u64,
    sighashType: SighashType,
    toRecipient: Option<InputRecipient>)

  /** `Output.OutputBuilder.variant`: a BRC-20 inscription, or any other builder variant (opaque here). */
  datatype OutputVariant =
    | OutputBrc20Inscribe(brc20: OutputBrc20Inscription)
    | OutputOtherVariant(tag: nat, payload: Bytes)

  /** `Output.to_recipient`. */
  datatype OutputRecipient =
    | OutputBuilder(variant: OutputVariant)
    | OutputCustomScript(scriptPubkey: Bytes)
    | OutputFromAddress(address: string)

  /** `Output`: an amount and where it goes. */
  datatype Output = Output(value: u64, toRecipient: Option<OutputRecipient>)

  /** `SigningInput`: an unsigned transaction spec, handed to the signer or to `preimage_hashes`. */
  datatype SigningInput = SigningInput(
    inputs: seq<Input>,
    outputs: seq<Output>,
    inputSelector: InputSelector,
    feePerVb: u64,
    changeOutput: Option<Output>,
    disableChangeOutput: bool)

  /** `PreSigningOutput`: what `preimage_hashes` reports for a spec. */
  datatype PreSigningOutput = PreSigningOutput(error: ProtoError, txid: Bytes, feeEstimate: u64)

  /** `ComposePlan.ComposeBrc20Plan`: the caller's request for a BRC-20 transfer inscription. */
  datatype ComposeBrc20Plan = ComposeBrc20Plan(
    inputs: seq<Input>,
    inputSelector: InputSelector,
    feePerVb: u64,
    changeOutput: Option<Output>,
    disableChangeOutput: bool,
    inscription: Option<InputBrc20Inscription>,
    taggedOutput: Option<Output>)

  /** `ComposePlan.compose`: the BRC-20 variant, or an unset / unsupported one. */
  datatype ComposeVariant = Brc20Compose(brc20: ComposeBrc20Plan) | OtherCompose

  datatype ComposePlan = ComposePlan(compose: ComposeVariant)

  /** `TransactionPlan.Brc20Plan`: the unsigned commit and reveal transactions. */
  datatype Brc20Plan = Brc20Plan(commitTx: Option<SigningInput>, revealTx: Option<SigningInput>)

  /** `TransactionPlan.plan`. */
  datatype PlanVariant = Brc20Planned(brc20: Brc20Plan) | NoPlan

  datatype TransactionPlan = TransactionPlan(plan: PlanVariant)

  /** `Input::default()`. */
  const DEFAULT_INPUT: Input := Input([], 0, 0, 0, UseDefault, None)

  /** `SigningInput::default()`. */
  const DEFAULT_SIGNING_INPUT: SigningInput := SigningInput([], [], SelectAscending, 0, None, false)
}
