/** Machine integers, byte strings, errors and the constants of the bridge program. */
module Types {

  type byte = x: int | 0 <= x < 0x100
  type u16 = x: int | 0 <= x < 0x1_0000
  type u64 = x: int | 0 <= x < 0x1_0000_0000_0000_0000

  const U64_MAX: u64 := 0xFFFF_FFFF_FFFF_FFFF

  type Bytes = seq<byte>
  type Bytes32 = b: Bytes | |b| == 32 witness seq(32, i => 0)
  type Bytes64 = b: Bytes | |b| == 64 witness seq(64, i => 0)

  type Pubkey = Bytes32
  type Digest = Bytes32
  type TxId = Bytes64

  const PUBKEY_SIZE := 32
  const SIGNATURE_SIZE := 64
  const OFFSETS_SIZE := 14
  const OFFSETS_START := 2
  const MESSAGE_SIZE := 32

  const MAX_GUARDIAN_SIGNATURES := 10
  const MAX_GUARDIAN_COUNT := 15
  const UNSET_THRESHOLD: byte := 255

  const LAMPORTS_PER_SOL := 1_000_000_000
  const MAX_ADDITIONAL_SOL_GAS := 500_000_000
  const MIN_SOL_BRIDGE_AMOUNT := 5_000_000
  const METADATA_CREATION_FEE: u64 := 10_000_000
  const DEFAULT_BRIDGE_FEE: u64 := 500_000

  const SOLANA_DOLLAR_VALUE := 200
  const DOLLAR_CAP_PER_EPOCH: u64 := 1_000_000
  const AWAITING_TIME_SECONDS := 21_600

  /** The program's own errors, then the failures raised by the runtime around it. */
  datatype Error =
    | BridgePaused
    | InvalidChain
    | InvalidOperator
    | Unauthorized
    | TokenNotExists
    | TokenPaused
    | InsufficientAmount
    | InsufficientFunds
    | InvalidEd25519ProgramId
    | InvalidEd25519Accounts
    | InvalidEd25519Data
    | InvalidGuardianSigCount
    | InvalidGuardianSignatureMessage
    | InvalidGuardianSignaturePubKey
    | GuardianAlreadyExists
    | GuardianNotFound
    | InvalidGuardianThreshold
    | InvalidSignerCount
    | InvalidSignerIndexes
    | GuardianSignatureAlreadyExists
    | GuardianThresholdNotMet
    | TooMuchAdditionalSolGas
    | TooLittleAdditionalSolGas
    | TooLittleSolBridgeAmount
    | InvalidOSForMintingSol
    | InvalidOSForBurningSol
    | InstantBridgeCapExceeded
    | AccountMissing
    | AccountExists
    | AccountTooSmall
    | ConstraintViolated
    | MissingSignature
    | BalanceTooLow
    | Overflow
    | Panicked

  datatype Result<+T> = Ok(value: T) | Err(error: Error) {
    predicate IsFailure() {
      Err?
    }

    function PropagateFailure<U>(): (r: Result<U>)
      requires Err?
    {
      Err(this.error)
    }

    function Extract(): T
      requires Ok?
    {
      value
    }
  }

  datatype Option<+T> = None | Some(value: T)

  /** No element occurs at two positions. */
  predicate NoDups<T(==)>(s: seq<T>) {
    forall i, j :: 0 <= i < j < |s| ==> s[i] != s[j]
  }
}
