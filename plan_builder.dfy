/**
 * `BitcoinPlanBuilder`: builds the unsigned commit and reveal transactions of a
 * BRC-20 transfer inscription.
 *
 * The reveal transaction spends the commit transaction's inscription output, so
 * the commit output must hold the reveal fee plus the dust amount of the tagged
 * output, and the reveal input must name the commit txid. The planner breaks
 * this circle with two calls to `preimage_hashes`: one on a provisional reveal
 * spec (for its fee) and one on the commit spec (for its txid).
 *
 * `preimage_hashes` is an external collaborator, so it is a parameter here: every
 * contract below holds for every oracle. The source's `panic!()`, `unwrap()` and
 * `assert_eq!` sites are the `Err` arms of `Result`.
 */
module PlanBuilder {
  import opened BitcoinProto

  datatype PlanError =
    | UnsupportedComposeVariant
    | MissingInscription
    | MissingTaggedOutput
    | PreimageHashFailed(status: ProtoError)
    | CommitValueOverflow

  datatype Result<T> = Ok(value: T) | Err(error: PlanError)

  /** `BitcoinEntry.preimage_hashes`, as seen by the planner: a deterministic function of the spec. */
  type Oracle = SigningInput -> PreSigningOutput

  /** `vec![0; n]`. */
  function Zeros(n: nat): (r: Bytes)
    ensures |r| == n && forall k :: 0 <= k < n ==> r[k] == 0
  {
    if n == 0 then [] else [0] + Zeros(n - 1)
  }

  /** The placeholder txid of the provisional reveal input: 32 zero bytes. */
  const ZERO_TXID: Bytes := Zeros(32)

  /** The inscription recipient of a reveal input. */
  function Brc20Recipient(info: InputBrc20Inscription): Option<InputRecipient> {
    Some(InputBuilder(InputBrc20Inscribe(info)))
  }

  /** `hard_clone_proto_input`: detaches borrowed buffers, keeps every value. */
  function HardCloneInput(input: Input): Input {
    input
  }

  /** `hard_clone_proto_output`: detaches borrowed buffers, keeps every value. */
  function HardCloneOutput(output: Output): Output {
    output
  }

  /** `proto.change_output.map(hard_clone_proto_output)`. */
  function HardCloneChange(change: Option<Output>): Option<Output> {
    match change
    case None => None
    case Some(o) => Some(HardCloneOutput(o))
  }

  /** `inputs.into_iter().map(hard_clone_proto_input).collect()`: the same inputs, in the same order. */
  function CloneInputs(inputs: seq<Input>): (r: seq<Input>)
    ensures |r| == |inputs|
    ensures forall k :: 0 <= k < |inputs| ==> r[k] == inputs[k]
  {
    if inputs == [] then [] else [HardCloneInput(inputs[0])] + CloneInputs(inputs[1..])
  }

  /** `txid.iter().copied().rev().collect()`: the bytes from last to first. */
  function Reverse(s: Bytes): (r: Bytes)
    ensures |r| == |s|
    ensures forall k :: 0 <= k < |s| ==> r[k] == s[|s| - 1 - k]
  {
    if s == [] then [] else [s[|s| - 1]] + Reverse(s[..|s| - 1])
  }

  /** Reversing the reveal's txid reference gives back the txid the oracle reported. */
  lemma ReverseInvolutive(s: Bytes)
    ensures Reverse(Reverse(s)) == s
  {
  }

  /** Distinct commit txids are referenced by distinct reveal inputs. */
  lemma ReverseInjective(a: Bytes, b: Bytes)
    requires Reverse(a) == Reverse(b)
    ensures a == b
  {
    ReverseInvolutive(a);
    ReverseInvolutive(b);
  }

  /** `brc20_info`: the request's inscription, copied field by field. */
  function Brc20Info(inscription: InputBrc20Inscription): (info: InputBrc20Inscription)
    ensures info == inscription
  {
    InputBrc20Inscription(inscription.onePrevout, inscription.inscribeTo, inscription.ticker, inscription.transferAmount)
  }

  /** The reveal input, spending `txid` with the inscription; every other field is the default. */
  function RevealInput(info: InputBrc20Inscription, txid: Bytes, value: u64): Input {
    DEFAULT_INPUT.(txid := txid, value := value, sighashType := UseDefault, toRecipient := Brc20Recipient(info))
  }

  /**
   * The provisional reveal spec handed to the fee oracle: a zero txid and the
   * maximal value (so that the simulated balance never runs short), the tagged
   * output, every input used, no change, and the request's fee rate.
   */
  function ProvisionalReveal(info: InputBrc20Inscription, tagged: Output, feePerVb: u64): (spec: SigningInput)
    ensures |spec.inputs| == 1
    ensures |spec.inputs[0].txid| == 32 && forall k :: 0 <= k < 32 ==> spec.inputs[0].txid[k] == 0
    ensures spec.inputs[0].value == U64_MAX
    ensures spec.inputs[0].toRecipient == Some(InputBuilder(InputBrc20Inscribe(info)))
    ensures spec.outputs == [tagged]
    ensures spec.inputSelector == UseAll && spec.disableChangeOutput && spec.changeOutput == None
    ensures spec.feePerVb == feePerVb
  {
    DEFAULT_SIGNING_INPUT.(
      inputs := [RevealInput(info, ZERO_TXID, U64_MAX)],
      outputs := [tagged],
      inputSelector := UseAll,
      feePerVb := feePerVb,
      disableChangeOutput := true)
  }

  /** The commit's single output: `value` locked to the inscription script of `info`. */
  function CommitOutput(info: InputBrc20Inscription, value: u64): Output {
    Output(value, Some(OutputBuilder(OutputBrc20Inscribe(
      OutputBrc20Inscription(info.inscribeTo, info.ticker, info.transferAmount)))))
  }

  /** The commit spec: the request's inputs, selector and change settings, and the inscription output. */
  function CommitSpec(req: ComposeBrc20Plan, info: InputBrc20Inscription, value: u64): SigningInput {
    DEFAULT_SIGNING_INPUT.(
      inputs := CloneInputs(req.inputs),
      outputs := [CommitOutput(info, value)],
      inputSelector := req.inputSelector,
      changeOutput := HardCloneChange(req.changeOutput),
      disableChangeOutput := req.disableChangeOutput)
  }

  /** The final reveal spec: spends `commitRef`; the fee rate and the input value stay at their defaults. */
  function FinalReveal(info: InputBrc20Inscription, tagged: Output, commitRef: Bytes): SigningInput {
    DEFAULT_SIGNING_INPUT.(
      inputs := [RevealInput(info, commitRef, 0)],
      outputs := [tagged],
      inputSelector := UseAll,
      disableChangeOutput := true)
  }

  /** The final reveal differs from the provisional one only in its input's txid and value and in the fee rate. */
  lemma RevealSpecsAgree(info: InputBrc20Inscription, tagged: Output, feePerVb: u64, commitRef: Bytes)
    ensures var final := FinalReveal(info, tagged, commitRef);
      final.(inputs := [final.inputs[0].(txid := ZERO_TXID, value := U64_MAX)], feePerVb := feePerVb)
        == ProvisionalReveal(info, tagged, feePerVb)
  {
  }

  /** `BitcoinPlanBuilder::plan_brc20`. */
  function PlanBrc20(req: ComposeBrc20Plan, oracle: Oracle): (r: Result<Brc20Plan>)
    ensures req.inscription.None? ==> r == Err(MissingInscription)
    ensures req.inscription.Some? && req.taggedOutput.None? ==> r == Err(MissingTaggedOutput)
    ensures r.Ok? ==> r.value.commitTx.Some? && r.value.revealTx.Some?
    ensures r.Err? && r.error.PreimageHashFailed? ==> r.error.status != OK
    ensures r.Err? ==> r.error != UnsupportedComposeVariant
  {
    if req.inscription.None? then Err(MissingInscription)
    else
      var info := Brc20Info(req.inscription.value);
      if req.taggedOutput.None? then Err(MissingTaggedOutput)
      else
        var tagged := HardCloneOutput(req.taggedOutput.value);
        var presigned := oracle(ProvisionalReveal(info, tagged, req.feePerVb));
        if presigned.error != OK then Err(PreimageHashFailed(presigned.error))
        else if presigned.feeEstimate + tagged.value > U64_MAX then Err(CommitValueOverflow)
        else
          var commitTx := CommitSpec(req, info, presigned.feeEstimate + tagged.value);
          var committed := oracle(commitTx);
          if committed.error != OK then Err(PreimageHashFailed(committed.error))
          else Ok(Brc20Plan(Some(commitTx), Some(FinalReveal(info, tagged, Reverse(committed.txid)))))
  }

  /** `BitcoinPlanBuilder::plan`: only the BRC-20 variant is planned; any other variant is an error. */
  function Plan(proto: ComposePlan, oracle: Oracle): (r: Result<TransactionPlan>)
    ensures !proto.compose.Brc20Compose? ==> r == Err(UnsupportedComposeVariant)
    ensures r.Ok? <==> proto.compose.Brc20Compose? && PlanBrc20(proto.compose.brc20, oracle).Ok?
    ensures r.Ok? ==> r.value.plan == Brc20Planned(PlanBrc20(proto.compose.brc20, oracle).value)
    ensures r.Err? && proto.compose.Brc20Compose? ==> r.error == PlanBrc20(proto.compose.brc20, oracle).error
  {
    match proto.compose
    case Brc20Compose(req) =>
      (match PlanBrc20(req, oracle)
       case Ok(built) => Ok(TransactionPlan(Brc20Planned(built)))
       case Err(e) => Err(e))
    case OtherCompose => Err(UnsupportedComposeVariant)
  }

  /**
   * What a BRC-20 plan for `req` is, stated without the planner's steps: the
   * commit spends the request's inputs into one inscription output worth the
   * oracle's fee for the placeholder reveal plus the dust of the tagged output;
   * the reveal spends the commit (its txid in reversed byte order) into exactly
   * the tagged output, with change disabled; both oracle answers were `OK`.
   */
  ghost predicate IsBrc20Plan(req: ComposeBrc20Plan, oracle: Oracle, p: Brc20Plan)
    requires req.inscription.Some? && req.taggedOutput.Some?
  {
    var info := req.inscription.value;
    var tagged := req.taggedOutput.value;
    p.commitTx.Some? && p.revealTx.Some? &&
    var commitTx := p.commitTx.value;
    var revealTx := p.revealTx.value;
    // the reveal transaction
    |revealTx.inputs| == 1 &&
    revealTx.outputs == [tagged] &&
    revealTx.inputSelector == UseAll &&
    revealTx.feePerVb == 0 &&
    revealTx.changeOutput == None &&
    revealTx.disableChangeOutput &&
    var spend := revealTx.inputs[0];
    spend.vout == 0 && spend.sequence == 0 && spend.value == 0 &&
    spend.sighashType == UseDefault &&
    spend.toRecipient == Some(InputBuilder(InputBrc20Inscribe(info))) &&
    // the reveal references the commit txid, byte-reversed
    var commitTxid := oracle(commitTx).txid;
    |spend.txid| == |commitTxid| &&
    (forall k :: 0 <= k < |commitTxid| ==> spend.txid[k] == commitTxid[|commitTxid| - 1 - k]) &&
    // the reveal as it was estimated: placeholder txid, maximal value, the request's fee rate
    var estimated := oracle(revealTx.(inputs := [spend.(txid := ZERO_TXID, value := U64_MAX)], feePerVb := req.feePerVb));
    estimated.error == OK &&
    oracle(commitTx).error == OK &&
    // the commit transaction
    commitTx.inputs == req.inputs &&
    commitTx.inputSelector == req.inputSelector &&
    commitTx.feePerVb == 0 &&
    commitTx.changeOutput == req.changeOutput &&
    commitTx.disableChangeOutput == req.disableChangeOutput &&
    |commitTx.outputs| == 1 &&
    commitTx.outputs[0].value == estimated.feeEstimate + tagged.value &&
    commitTx.outputs[0].toRecipient ==
      Some(OutputBuilder(OutputBrc20Inscribe(OutputBrc20Inscription(info.inscribeTo, info.ticker, info.transferAmount))))
  }

  /** Every plan the planner returns meets `IsBrc20Plan`. */
  lemma PlanBrc20Sound(req: ComposeBrc20Plan, oracle: Oracle)
    requires PlanBrc20(req, oracle).Ok?
    ensures req.inscription.Some? && req.taggedOutput.Some?
    ensures IsBrc20Plan(req, oracle, PlanBrc20(req, oracle).value)
  {
  }

  /** `IsBrc20Plan` admits one plan only, and it is the one the planner returns. */
  lemma PlanBrc20Unique(req: ComposeBrc20Plan, oracle: Oracle, p: Brc20Plan)
    requires req.inscription.Some? && req.taggedOutput.Some?
    requires IsBrc20Plan(req, oracle, p)
    ensures PlanBrc20(req, oracle) == Ok(p)
  {
    var info := req.inscription.value;
    var tagged := req.taggedOutput.value;
    var commitTx := p.commitTx.value;
    var revealTx := p.revealTx.value;
    var spend := revealTx.inputs[0];
    var provisional := ProvisionalReveal(info, tagged, req.feePerVb);
    assert revealTx.(inputs := [spend.(txid := ZERO_TXID, value := U64_MAX)], feePerVb := req.feePerVb) == provisional;
    var fee := oracle(provisional).feeEstimate;
    assert commitTx.outputs[0] == CommitOutput(info, fee + tagged.value);
    assert commitTx.inputs == CloneInputs(req.inputs);
    assert commitTx == CommitSpec(req, info, fee + tagged.value);
    assert spend.txid == Reverse(oracle(commitTx).txid);
    assert revealTx == FinalReveal(info, tagged, Reverse(oracle(commitTx).txid));
  }

  /**
   * The planner fails exactly at the source's panic sites, in the source's
   * order; a failed oracle call yields no commit and no reveal spec.
   */
  lemma PlanBrc20Failures(req: ComposeBrc20Plan, oracle: Oracle)
    requires req.inscription.Some? && req.taggedOutput.Some?
    ensures var info := req.inscription.value;
      var tagged := req.taggedOutput.value;
      var estimated := oracle(ProvisionalReveal(info, tagged, req.feePerVb));
      var value := estimated.feeEstimate + tagged.value;
      && (estimated.error != OK ==> PlanBrc20(req, oracle) == Err(PreimageHashFailed(estimated.error)))
      && (estimated.error == OK && value > U64_MAX ==> PlanBrc20(req, oracle) == Err(CommitValueOverflow))
      && (estimated.error == OK && value <= U64_MAX ==>
            var committed := oracle(CommitSpec(req, info, value));
            (committed.error != OK ==> PlanBrc20(req, oracle) == Err(PreimageHashFailed(committed.error))) &&
            (committed.error == OK ==> PlanBrc20(req, oracle).Ok?))
  {
  }

  /** The plan depends on the oracle only through its answers on the two specs the planner asks about. */
  lemma PlanBrc20OracleLocality(req: ComposeBrc20Plan, oracle1: Oracle, oracle2: Oracle)
    requires req.inscription.Some? && req.taggedOutput.Some?
    requires var info := req.inscription.value;
      var tagged := req.taggedOutput.value;
      var provisional := ProvisionalReveal(info, tagged, req.feePerVb);
      && oracle1(provisional) == oracle2(provisional)
      && (oracle1(provisional).feeEstimate + tagged.value <= U64_MAX ==>
            var commitTx := CommitSpec(req, info, oracle1(provisional).feeEstimate + tagged.value);
            oracle1(commitTx) == oracle2(commitTx))
    ensures PlanBrc20(req, oracle1) == PlanBrc20(req, oracle2)
  {
  }

  /** The reveal input's txid, reversed once more, is the commit txid the oracle reported. */
  lemma RevealReferencesCommit(req: ComposeBrc20Plan, oracle: Oracle)
    requires PlanBrc20(req, oracle).Ok?
    ensures var p := PlanBrc20(req, oracle).value;
      Reverse(p.revealTx.value.inputs[0].txid) == oracle(p.commitTx.value).txid
  {
    var p := PlanBrc20(req, oracle).value;
    ReverseInvolutive(oracle(p.commitTx.value).txid);
  }

  // A worked example: ticker "ordi", 100 tokens, a 546-satoshi tagged output,
  // 5 sat/vB, a fee estimate of 200 and a commit txid 00..01.

  const ORDI: InputBrc20Inscription := InputBrc20Inscription(false, [0x51, 0x20], "ordi", 100)

  const DUST_OUTPUT: Output := Output(546, Some(OutputCustomScript([0x51])))

  const COMMIT_TXID: Bytes := Zeros(31) + [1]

  /** Answers 200 for the reveal estimate (the only `UseAll` spec here) and `COMMIT_TXID` otherwise. */
  function MockOracle(spec: SigningInput): PreSigningOutput {
    if spec.inputSelector == UseAll then PreSigningOutput(OK, [], 200)
    else PreSigningOutput(OK, COMMIT_TXID, 0)
  }

  lemma OrdiScenario(inputs: seq<Input>, change: Option<Output>)
    ensures var req := ComposeBrc20Plan(inputs, SelectAscending, 5, change, false, Some(ORDI), Some(DUST_OUTPUT));
      var r := PlanBrc20(req, MockOracle);
      && r.Ok?
      && r.value.commitTx.value.outputs[0].value == 746
      && r.value.revealTx.value.inputs[0].txid == [1] + Zeros(31)
  {
  }
}
