/** The library types the runtime's core passes around: two-dimensional
    weights, dispatch information, transaction validity and dispatch results.
    Only their shape is modelled; the libraries that define them are not part
    of this model. */
module Primitives {
  import opened Base

  /** A two-dimensional cost: reference time and proof size. */
  datatype Weight = Weight(refTime: u64, proofSize: u64)

  /** Component-wise `<=` on weights. */
  predicate WeightLe(a: Weight, b: Weight) {
    a.refTime <= b.refTime && a.proofSize <= b.proofSize
  }

  /** Classes of dispatchable calls; each has its own share of a block. */
  datatype DispatchClass = Normal | Operational | Mandatory

  datatype Pays = PaysYes | PaysNo

  /** What is known about a call before it is dispatched. */
  datatype DispatchInfo = DispatchInfo(weight: Weight, dispatchClass: DispatchClass, paysFee: Pays)

  /** A transaction the pool may accept. */
  datatype ValidTransaction = ValidTransaction(
    priority: u64,
    requiredTags: seq<Bytes>,
    providedTags: seq<Bytes>,
    longevity: u64,
    propagate: bool)

  /** Reasons for which a transaction can never be valid. */
  datatype InvalidTransaction =
    | Call
    | Payment
    | Future
    | Stale
    | BadProof
    | AncientBirthBlock
    | ExhaustsResources
    | BadMandatory
    | MandatoryValidation
    | BadSigner
    | Custom(code: u8)

  /** Reasons for which validity cannot be decided yet. */
  datatype UnknownTransaction =
    | CannotLookup
    | NoUnsignedValidator
    | CustomUnknown(code: u8)

  datatype TransactionValidityError =
    | Invalid(invalid: InvalidTransaction)
    | Unknown(unknown: UnknownTransaction)

  type TransactionValidity = Result<ValidTransaction, TransactionValidityError>

  /** The weight actually used by a dispatch, when it differs from the declared one. */
  datatype PostDispatchInfo = PostDispatchInfo(actualWeight: Option<Weight>, paysFee: Pays)

  datatype DispatchError =
    | BadOrigin
    | CannotLookupAccount
    | Module(palletIndex: u8, error: Bytes)
    | Other(message: string)

  datatype DispatchErrorWithPostInfo = DispatchErrorWithPostInfo(postInfo: PostDispatchInfo, error: DispatchError)

  /** `DispatchResultWithInfo<PostDispatchInfo>`. */
  type DispatchResultWithInfo = Result<PostDispatchInfo, DispatchErrorWithPostInfo>
}
