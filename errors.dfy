/** The error surface of the NFT packs program: the closed `NFTPacksError`
    enumeration, its numeric codes (the declaration position, as `e as u32`
    gives it), the derived `FromPrimitive` decode, and the host-level errors
    the handlers can also end with. */
module Errors {

  /** Every variant of `NFTPacksError`, in declaration order, followed by the
      three variants the claim handler raises that the enumeration does not
      declare (they have no numeric code). */
  datatype NFTPacksError =
    | WrongTotalPacksAmount
    | ProvedVouchersMismatchPackVouchers
    | PackIsAlreadyOpen
    | PackSetNotConfigured
    | PackAlreadyActivated
    | PackAlreadyDeactivated
    | PackSetNotActivated
    | ProvingPackProcessCompleted
    | ProvingVoucherProcessCompleted
    | WrongEdition
    | WrongEditionMint
    | Overflow
    | Underflow
    | NotEmptyPackSet
    | WrongPackState
    | ImmutablePackSet
    | SmallTotalPacksAmount
    | CantSetTheSameValue
    | WrongPackCard
    | WrongPackVoucher
    | SmallMaxSupply
    | WrongNumberToOpen
    // raised by the claim handler, absent from the declared enumeration
    | WrongVoucherOwner
    | WrongRedeemDate
    | UserRedeemedAllCards

  /** Number of declared variants. */
  const DECLARED_COUNT: nat := 22

  /** The declared variants in declaration order: an independent reference
      for the code mapping below. */
  const DeclarationOrder: seq<NFTPacksError> := [
    WrongTotalPacksAmount, ProvedVouchersMismatchPackVouchers, PackIsAlreadyOpen,
    PackSetNotConfigured, PackAlreadyActivated, PackAlreadyDeactivated,
    PackSetNotActivated, ProvingPackProcessCompleted, ProvingVoucherProcessCompleted,
    WrongEdition, WrongEditionMint, Overflow, Underflow, NotEmptyPackSet,
    WrongPackState, ImmutablePackSet, SmallTotalPacksAmount, CantSetTheSameValue,
    WrongPackCard, WrongPackVoucher, SmallMaxSupply, WrongNumberToOpen
  ]

  /** True for the variants the enumeration declares. */
  predicate Declared(e: NFTPacksError) {
    !(e.WrongVoucherOwner? || e.WrongRedeemDate? || e.UserRedeemedAllCards?)
  }

  /** The discriminant `e as u32` of a declared variant. */
  function Code(e: NFTPacksError): (n: nat)
    requires Declared(e)
    ensures n < DECLARED_COUNT
    ensures DeclarationOrder[n] == e
  {
    match e
    case WrongTotalPacksAmount => 0
    case ProvedVouchersMismatchPackVouchers => 1
    case PackIsAlreadyOpen => 2
    case PackSetNotConfigured => 3
    case PackAlreadyActivated => 4
    case PackAlreadyDeactivated => 5
    case PackSetNotActivated => 6
    case ProvingPackProcessCompleted => 7
    case ProvingVoucherProcessCompleted => 8
    case WrongEdition => 9
    case WrongEditionMint => 10
    case Overflow => 11
    case Underflow => 12
    case NotEmptyPackSet => 13
    case WrongPackState => 14
    case ImmutablePackSet => 15
    case SmallTotalPacksAmount => 16
    case CantSetTheSameValue => 17
    case WrongPackCard => 18
    case WrongPackVoucher => 19
    case SmallMaxSupply => 20
    case WrongNumberToOpen => 21
  }

  /** The derived `FromPrimitive::from_u32` decode: a code below the number of
      declared variants names that variant, any other code names nothing. */
  function FromCode(n: nat): (r: Option<NFTPacksError>)
    ensures r.Some? <==> n < DECLARED_COUNT
    ensures r.Some? ==> Declared(r.value) && r.value == DeclarationOrder[n]
  {
    if n < DECLARED_COUNT then Some(DeclarationOrder[n]) else None
  }

  /** Distinct declared variants have distinct codes. */
  lemma CodeInjective(e1: NFTPacksError, e2: NFTPacksError)
    requires Declared(e1) && Declared(e2)
    ensures Code(e1) == Code(e2) ==> e1 == e2
  {
  }

  /** Decoding the code of a variant gives the variant back. */
  lemma DecodeCode(e: NFTPacksError)
    requires Declared(e)
    ensures FromCode(Code(e)) == Some(e)
  {
  }

  /** Every code below the number of declared variants decodes, to the
      variant whose code it is; every other code decodes to nothing. */
  lemma CodeDecode(n: nat)
    ensures n < DECLARED_COUNT ==> FromCode(n).Some? && Code(FromCode(n).value) == n
    ensures n >= DECLARED_COUNT ==> FromCode(n) == None
  {
    match n
    case 0 =>
    case 1 =>
    case 2 =>
    case 3 =>
    case 4 =>
    case 5 =>
    case 6 =>
    case 7 =>
    case 8 =>
    case 9 =>
    case 10 =>
    case 11 =>
    case 12 =>
    case 13 =>
    case 14 =>
    case 15 =>
    case 16 =>
    case 17 =>
    case 18 =>
    case 19 =>
    case 20 =>
    case 21 =>
    case _ =>
  }

  /** The arithmetic errors keep their fixed codes. */
  lemma ArithmeticCodes()
    ensures Code(Overflow) == 11 && Code(Underflow) == 12
    ensures FromCode(11) == Some(Overflow) && FromCode(12) == Some(Underflow)
  {
  }

  /** The errors of the host runtime (`ProgramError`), with `Custom` carrying a
      program-defined code. The variants after `Custom` stand for the errors
      raised by helpers outside this model (owner, key, signer, rent and
      derivation checks, failing foreign calls). */
  datatype ProgramError =
    | Custom(code: nat)
    | InvalidArgument
    | InvalidAccountData
    | UninitializedAccount
    | IllegalOwner
    | MissingRequiredSignature
    | AccountNotRentExempt
    | DerivedKeyInvalid
    | ExternalCallFailed

  /** `From<NFTPacksError> for ProgramError`: a declared variant becomes
      `Custom` of its declaration position. */
  function ToProgramError(e: NFTPacksError): (p: ProgramError)
    requires Declared(e)
    ensures p.Custom? && p.code < DECLARED_COUNT
    ensures FromCode(p.code) == Some(e)
  {
    Custom(Code(e))
  }

  /** Why a handler failed: a program error variant, or a host error. */
  datatype Failure = Packs(err: NFTPacksError) | Program(perr: ProgramError)

  datatype Option<+T> = None | Some(value: T) {
    predicate IsFailure() {
      None?
    }

    function PropagateFailure<U>(): Option<U>
      requires None?
    {
      None
    }

    function Extract(): T
      requires Some?
    {
      value
    }
  }

  /** The `Result<T, ProgramError>` of a handler or helper. */
  datatype Result<+T> = Ok(value: T) | Err(error: Failure) {
    predicate IsFailure() {
      Err?
    }

    function PropagateFailure<U>(): Result<U>
      requires Err?
    {
      Err(error)
    }

    function Extract(): T
      requires Ok?
    {
      value
    }
  }

  /** A check that either passes or fails with an error. */
  datatype Outcome = Pass | Fail(error: Failure) {
    predicate IsFailure() {
      Fail?
    }

    function PropagateFailure<U>(): Result<U>
      requires Fail?
    {
      Err(error)
    }
  }

  /** `Pass` when the condition holds, otherwise `Fail` with the given error. */
  function Need(condition: bool, error: Failure): (o: Outcome)
    ensures o.Pass? <==> condition
    ensures o.Fail? ==> o.error == error
  {
    if condition then Pass else Fail(error)
  }
}
