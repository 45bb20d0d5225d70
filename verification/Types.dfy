/** The chain's data model: amounts, coins, records, parameters, messages and errors. */
module Types {
  const TWO64: int := 0x1_0000_0000_0000_0000

  /** Go's uint64. Every addition that may leave the range goes through `Wrap`. */
  type u64 = x: int | 0 <= x < 0x1_0000_0000_0000_0000

  function Wrap(x: int): (w: u64)
    ensures 0 <= x < TWO64 ==> w == x
  {
    x % TWO64
  }

  type Address = string

  datatype Option<+T> = None | Some(value: T)

  datatype Result<+T> = Ok(value: T) | Err(error: Error) {
    predicate IsFailure() {
      Err?
    }
    function PropagateFailure<U>(): Result<U>
      requires Err?
    {
      Err(error)
    }
    function Extract(): T
      requires Ok?
    {
      value
    }
  }

  datatype Outcome = Pass | Fail(error: Error) {
    predicate IsFailure() {
      Fail?
    }
    function PropagateFailure<U>(): Result<U>
      requires Fail?
    {
      Err(error)
    }
  }

  function Need(condition: bool, error: Error): Outcome {
    if condition then Pass else Fail(error)
  }

  datatype Error =
    | BadEnvelope | InvalidSignature | InvalidNonce | BadPayload | PartyNotSigner
    | EmptyName | ZeroPrice | DuplicateName | BelowMinPrice
    | DomainNotFound | DomainInactive | AttestationDomainMismatch
    | ServiceNotFound | ServiceInactive | NotOwner | ServiceAlreadyInactive
    | InsufficientPrice | InvalidDeadline | InsufficientFunds
    | RequestNotFound | RequestNotPending | WrongProvider | InputHashMismatch
    | ChallengeNotApplicable | ChallengeWindowClosed | ChallengeOutputMatches | MissingResult
    | VouchNotApplicable | VouchNotEligible | VouchHashMismatch | VouchDuplicate | VouchWindowClosed
    | Unauthorized | InvalidDecision | EmptyDomainField | NegativeMargin
    | InvalidAddress

  datatype Coin = Coin(denom: string, amount: u64) {
    predicate IsPositive() {
      amount > 0
    }
    predicate IsValid() {
      denom != ""
    }
    predicate IsLT(other: Coin) {
      denom == other.denom && amount < other.amount
    }
  }

  const ZERO_COIN := Coin("", 0)

  datatype Status = Pending | Submitted | Challenged | Finalized | Slashed | Refunded {
    predicate IsOpen() {
      Pending? || Submitted? || Challenged?
    }
  }

  datatype Attestation = Attestation(
    provider: Address, domainId: u64, model: string, runtime: string, hardware: string,
    precision: string, tokenizer: string, inputHash: string, outputHash: string,
    producedAt: int, signature: string)

  datatype Domain = Domain(
    id: u64, model: string, runtime: string, hardware: string, precision: string,
    tokenizer: string, description: string, registeredAt: int, active: bool, margin: int)
  {
    /** The tuple check of submit, challenge and vouch; an empty tokenizer pins nothing. */
    predicate Attests(att: Attestation) {
      && att.domainId == id
      && att.model == model
      && att.runtime == runtime
      && att.hardware == hardware
      && att.precision == precision
      && (tokenizer != "" ==> att.tokenizer == tokenizer)
    }
  }

  datatype Service = Service(
    id: u64, owner: Address, name: string, description: string, price: Coin,
    domainId: u64, active: bool, createdAt: int, bond: Coin)

  datatype InferenceResult = InferenceResult(
    outputHash: string, outputUri: string, outputText: string, attestation: Attestation)

  datatype Challenge = Challenge(
    challenger: Address, postedAt: int, attestation: Attestation, bond: Coin)

  datatype Voucher = Voucher(
    voucher: Address, postedAt: int, attestation: Attestation, bond: Coin, supportsProvider: bool)

  datatype Request = Request(
    id: u64, serviceId: u64, requester: Address, inputHash: string, inputUri: string,
    inputText: string, escrow: Coin, deadline: int, status: Status, createdAt: int,
    finalizedAt: int, result: Option<InferenceResult>, paid: Option<Coin>, submittedAt: int,
    challenges: seq<Challenge>, providerBond: Option<Coin>, vouchers: seq<Voucher>)
  {
    /** Amount of the provider bond; a record without one holds none. */
    function BondAmount(): u64 {
      if providerBond.Some? then providerBond.value.amount else 0
    }
    /** Amount of the first challenge's bond; no challenge, no bond. */
    function ChallengeAmount(): u64 {
      if challenges != [] then challenges[0].bond.amount else 0
    }
  }

  datatype Params = Params(
    challengeWindow: int, minServicePrice: Coin, maxDeadline: int, providerBond: Coin,
    challengerBond: Coin, voucherBond: Coin, voucherMargin: int, registrationBond: Coin,
    minLifetime: int, voucherScaleBP: int)

  const DEFAULT_PARAMS := Params(
    45, Coin("aios", 1), 10000, Coin("aios", 50), Coin("aios", 50), Coin("aios", 25),
    0, Coin("aios", 100), 1000, 5000)

  /** Blocks a dispute stays open after its challenge was posted. */
  const RESOLUTION_WINDOW: int := 20

  datatype Decision = ForProvider | ForChallenger | Unknown

  datatype Msg =
    | RegisterService(owner: Address, name: string, description: string, price: Coin, domainId: u64)
    | RequestInference(requester: Address, serviceId: u64, inputHash: string, inputUri: string,
                       inputText: string, maxPrice: Coin, deadline: int)
    | SubmitResult(provider: Address, requestId: u64, result: InferenceResult)
    | Transfer(from: Address, to: Address, amount: u64)
    | RegisterDomain(authority: Address, model: string, runtime: string, hardware: string,
                     precision: string, tokenizer: string, description: string, margin: int)
    | FileChallenge(challenger: Address, requestId: u64, attestation: Attestation)
    | Vouch(voucher: Address, requestId: u64, attestation: Attestation)
    | UpdateService(owner: Address, serviceId: u64, description: string, price: Coin)
    | DeactivateService(owner: Address, serviceId: u64)
    | DeactivateDomain(authority: Address, domainId: u64)
    | ResolveChallenge(authority: Address, requestId: u64, decision: Decision)

  type Byte = x: int | 0 <= x < 256

  /** First twenty bytes of the SHA-256 of a public key. */
  type Digest = d: seq<Byte> | |d| == 20 witness seq(20, _ => 0)

  /** A signed envelope. `wellFormed` stands for the type, hex and length checks, `authentic` for
      the Ed25519 check, and `payload` is absent when its JSON does not decode. */
  datatype SignedTx = SignedTx(
    wellFormed: bool, authentic: bool, signer: Digest, nonce: u64, payload: Option<Msg>)
}
