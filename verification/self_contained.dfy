/** The runtime's routing of the self-contained call protocol
    (`impl SelfContainedCall for RuntimeCall`).

    A self-contained call carries its own authorisation: its signer is
    recovered from the call itself instead of from a signature attached to the
    extrinsic. Only calls of the Ethereum pallet can be self-contained. The
    runtime answers each phase of the protocol (classify, check, validate,
    pre-dispatch, apply) by a match over the call union: it hands an Ethereum
    call to the Ethereum pallet with its arguments unchanged, and answers
    "not self-contained" for every other call.

    The Ethereum pallet's own answers (signer recovery, nonce, fee and gas
    checks) and the runtime's dispatcher are not part of this model; they are
    parameters, so every property below holds whatever they compute. */
module SelfContained {
  import opened Base
  import opened Primitives

  /** An Ethereum transaction, kept as its encoded form. */
  datatype Transaction = Transaction(encoded: Bytes)

  /** Calls of the Ethereum pallet. `Transact` is the call the pallet declares;
      `OtherEthereumCall` stands for any further variant of the pallet's call
      enum, which the runtime's apply must not dispatch. */
  datatype EthereumCall =
    | Transact(transaction: Transaction)
    | OtherEthereumCall(callIndex: u8)

  /** The runtime's call union: the Ethereum pallet's calls, and the calls of
      every other pallet, identified by pallet index and encoded call. */
  datatype RuntimeCall =
    | Ethereum(call: EthereumCall)
    | Other(palletIndex: u8, encodedCall: Bytes)

  /** Dispatch origins. `EthereumTransaction` is the Ethereum pallet's origin: it
      carries a signer recovered from the transaction itself, unlike `Signed`,
      whose account signed the extrinsic. */
  datatype RuntimeOrigin =
    | Root
    | Signed(account: AccountId)
    | NoneOrigin
    | EthereumTransaction(signer: H160)

  /** The Ethereum pallet's answers to the four query phases of the protocol. */
  datatype EthereumPallet = EthereumPallet(
    isSelfContained: EthereumCall -> bool,
    checkSelfContained: EthereumCall -> Option<Result<H160, TransactionValidityError>>,
    validateSelfContained: (EthereumCall, H160, DispatchInfo, nat) -> Option<TransactionValidity>,
    preDispatchSelfContained: (EthereumCall, H160, DispatchInfo, nat) -> Option<Result<(), TransactionValidityError>>)

  /** Dispatch of a runtime call under an origin. */
  type Dispatcher = (RuntimeCall, RuntimeOrigin) -> DispatchResultWithInfo

  /** Classify: is the call self-contained? */
  function IsSelfContained(pallet: EthereumPallet, call: RuntimeCall): (r: bool)
    ensures r <==> call.Ethereum? && pallet.isSelfContained(call.call)
  {
    match call
    case Ethereum(c) => pallet.isSelfContained(c)
    case Other(_, _) => false
  }

  /** Check: recover the signer from the call, if the call has one. */
  function CheckSelfContained(pallet: EthereumPallet, call: RuntimeCall): (r: Option<Result<H160, TransactionValidityError>>)
    ensures !call.Ethereum? ==> r == None
    ensures call.Ethereum? ==> r == pallet.checkSelfContained(call.call)
  {
    match call
    case Ethereum(c) => pallet.checkSelfContained(c)
    case Other(_, _) => None
  }

  /** Validate: pool-time validity of the call for the recovered signer `info`,
      given its dispatch information and encoded length `len`. */
  function ValidateSelfContained(pallet: EthereumPallet, call: RuntimeCall, info: H160, dispatchInfo: DispatchInfo, len: nat): (r: Option<TransactionValidity>)
    ensures !call.Ethereum? ==> r == None
    ensures call.Ethereum? ==> r == pallet.validateSelfContained(call.call, info, dispatchInfo, len)
  {
    match call
    case Ethereum(c) => pallet.validateSelfContained(c, info, dispatchInfo, len)
    case Other(_, _) => None
  }

  /** Pre-dispatch: the last admission check before the call is applied. */
  function PreDispatchSelfContained(pallet: EthereumPallet, call: RuntimeCall, info: H160, dispatchInfo: DispatchInfo, len: nat): (r: Option<Result<(), TransactionValidityError>>)
    ensures !call.Ethereum? ==> r == None
    ensures call.Ethereum? ==> r == pallet.preDispatchSelfContained(call.call, info, dispatchInfo, len)
  {
    match call
    case Ethereum(c) => pallet.preDispatchSelfContained(c, info, dispatchInfo, len)
    case Other(_, _) => None
  }

  /** Is the call the Ethereum pallet's `transact`? */
  predicate IsEthereumTransact(call: RuntimeCall) {
    call.Ethereum? && call.call.Transact?
  }

  /** The origin under which apply dispatches the call, if it dispatches it. */
  function ApplyOrigin(call: RuntimeCall, info: H160): (r: Option<RuntimeOrigin>)
    ensures r.Some? <==> IsEthereumTransact(call)
    ensures r.Some? ==> r.value.EthereumTransaction? && r.value.signer == info
  {
    match call
    case Ethereum(Transact(_)) => Some(EthereumTransaction(info))
    case _ => None
  }

  /** Apply: dispatch an Ethereum `transact` under the origin carrying its
      recovered signer; every other call is not applied here. */
  function ApplySelfContained(dispatch: Dispatcher, call: RuntimeCall, info: H160): (r: Option<DispatchResultWithInfo>)
    ensures r.Some? <==> IsEthereumTransact(call)
    ensures r.Some? ==> r.value == dispatch(call, EthereumTransaction(info))
  {
    match ApplyOrigin(call, info)
    case Some(origin) => Some(dispatch(call, origin))
    case None => None
  }

  /** Fall-through: no phase answers for a call outside the Ethereum pallet,
      whatever the pallet and the dispatcher do. */
  lemma NonEthereumCallsFallThrough(pallet: EthereumPallet, dispatch: Dispatcher, call: RuntimeCall,
                                   info: H160, dispatchInfo: DispatchInfo, len: nat)
    requires !call.Ethereum?
    ensures !IsSelfContained(pallet, call)
    ensures CheckSelfContained(pallet, call) == None
    ensures ValidateSelfContained(pallet, call, info, dispatchInfo, len) == None
    ensures PreDispatchSelfContained(pallet, call, info, dispatchInfo, len) == None
    ensures ApplySelfContained(dispatch, call, info) == None
  {
  }

  /** Pass-through: for an Ethereum call every query phase is exactly the
      pallet's answer for the same signer, dispatch information and length. */
  lemma EthereumCallsPassThrough(pallet: EthereumPallet, c: EthereumCall,
                                 info: H160, dispatchInfo: DispatchInfo, len: nat)
    ensures IsSelfContained(pallet, Ethereum(c)) == pallet.isSelfContained(c)
    ensures CheckSelfContained(pallet, Ethereum(c)) == pallet.checkSelfContained(c)
    ensures ValidateSelfContained(pallet, Ethereum(c), info, dispatchInfo, len)
         == pallet.validateSelfContained(c, info, dispatchInfo, len)
    ensures PreDispatchSelfContained(pallet, Ethereum(c), info, dispatchInfo, len)
         == pallet.preDispatchSelfContained(c, info, dispatchInfo, len)
  {
  }

  /** The origin built by apply identifies its signer: two signers give the
      same origin only if they are the same, and the origin is never a native
      signed, root or unsigned origin. */
  lemma ApplyOriginIdentifiesSigner(call: RuntimeCall, a: H160, b: H160)
    requires IsEthereumTransact(call)
    ensures ApplyOrigin(call, a) == ApplyOrigin(call, b) <==> a == b
    ensures forall account: AccountId :: ApplyOrigin(call, a) != Some(Signed(account))
    ensures ApplyOrigin(call, a) != Some(Root) && ApplyOrigin(call, a) != Some(NoneOrigin)
  {
  }

  /** The pallet is consistent with its classifier at one query: for a call it
      does not classify as self-contained it answers none of the later phases. */
  predicate PalletConsistentAt(pallet: EthereumPallet, c: EthereumCall, info: H160, dispatchInfo: DispatchInfo, len: nat) {
    !pallet.isSelfContained(c) ==>
      && pallet.checkSelfContained(c) == None
      && pallet.validateSelfContained(c, info, dispatchInfo, len) == None
      && pallet.preDispatchSelfContained(c, info, dispatchInfo, len) == None
  }

  /** The same consistency for the runtime's routing, at one query over the call union. */
  predicate RuntimeConsistentAt(pallet: EthereumPallet, call: RuntimeCall, info: H160, dispatchInfo: DispatchInfo, len: nat) {
    !IsSelfContained(pallet, call) ==>
      && CheckSelfContained(pallet, call) == None
      && ValidateSelfContained(pallet, call, info, dispatchInfo, len) == None
      && PreDispatchSelfContained(pallet, call, info, dispatchInfo, len) == None
  }

  /** Routing preserves the pallet's consistency: when the Ethereum pallet only
      answers for calls it classifies as self-contained, the runtime never
      answers a later phase for a call it classifies as not self-contained. */
  lemma {:induction false} RoutingPreservesConsistency(pallet: EthereumPallet)
    requires forall c, info, dispatchInfo, len :: PalletConsistentAt(pallet, c, info, dispatchInfo, len)
    ensures forall call, info, dispatchInfo, len :: RuntimeConsistentAt(pallet, call, info, dispatchInfo, len)
  {
    forall call, info, dispatchInfo, len
      ensures RuntimeConsistentAt(pallet, call, info, dispatchInfo, len)
    {
      if call.Ethereum? {
        assert PalletConsistentAt(pallet, call.call, info, dispatchInfo, len);
      }
    }
  }
}
