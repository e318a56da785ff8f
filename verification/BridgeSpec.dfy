/** One bridge handler and the accounts around it, with the instructions as functions of the state.
    An instruction either gives a new state or an error; the runtime discards a failed one's writes. */
module BridgeSpec {
  import opened Types
  import opened Payloads
  import opened Ed25519Codec
  import opened Ledgers
  import opened SignerIndexes

  datatype Chain = Solana | Solayer

  datatype TokenInfo = TokenInfo(solanaMint: Pubkey, solayerMint: Pubkey, solanaNative: bool, solayerNative: bool,
                                 paused: bool)

  datatype Record = Record(index: seq<byte>, createdAt: u64)

  datatype Proof = Proof(msgHash: Digest, txId: TxId, user: Pubkey, createdAt: u64)

  datatype SourceProof = SourceProof(msgHash: Digest, user: Pubkey, createdAt: u64)

  datatype Cap = Cap(remained: u64, epoch: u64)

  datatype Clock = Clock(epoch: u64, time: u64)

  datatype KnownMints = KnownMints(sol: Pubkey, usdc: Pubkey, usdt: Pubkey, layer: Pubkey,
                                   pengu: Pubkey, fartcoin: Pubkey, ray: Pubkey)

  /** What an instruction sees but never changes: SHA-256, the derivation of wrapped mint addresses, the
      handler's own address, its rent minimum, the build's `solayer` feature and the well-known mints. */
  datatype Config = Config(hash: Bytes -> Digest, derive: Pubkey -> Pubkey, handler: Pubkey, rent: u64,
                           solayerBuild: bool, known: KnownMints)

  datatype State = State(
    pause: bool, nonce: u64, chain: Chain, feeVault: Pubkey, manager: Pubkey, operator: Pubkey,
    threshold: byte, cap: Cap, fee: u64,
    guardians: seq<Pubkey>,
    records: map<Digest, Record>,
    proofs: map<Digest, Proof>,
    sourceProofs: map<(Pubkey, u64), SourceProof>,
    tokens: map<Pubkey, TokenInfo>,
    ledger: Ledger)

  datatype Setting =
    | SetPause(pause: bool)
    | SetFeeVault(feeVault: Pubkey)
    | SetFee(fee: u64)
    | SetManager(newManager: Pubkey)
    | SetOperator(newOperator: Pubkey)
    | SetCap(remained: u64)

  datatype Instruction =
    | AddGuardian(manager: Pubkey, guardian: Pubkey)
    | RemoveGuardian(manager: Pubkey, guardian: Pubkey)
    | UpdateThreshold(manager: Pubkey, threshold: byte)
    | Configure(manager: Pubkey, setting: Setting)
    | PauseToken(manager: Pubkey, mint: Pubkey, pause: bool)
    | AddToken(operator: Pubkey, sourceMint: Pubkey, decimals: byte)
    | VerifySignature(msgHash: Digest, indexes: seq<byte>, previous: Ed25519Ix)
    | SourceToken(signer: Pubkey, mint: Pubkey, amount: u64, recipient: Pubkey, targetMint: Pubkey,
                  gas: u64, proofNonce: u64)
    | SourceSol(signer: Pubkey, amount: u64, recipient: Pubkey, proofNonce: u64)
    | Release(operator: Pubkey, msgHash: Digest, claim: Claim)

  /** The state `initialize` writes, around the ledger it finds. */
  function Initial(chain: Chain, feeVault: Pubkey, manager: Pubkey, operator: Pubkey, clock: Clock,
                   ledger: Ledger): State
  {
    State(false, 0, chain, feeVault, manager, operator, UNSET_THRESHOLD,
          Cap(DOLLAR_CAP_PER_EPOCH, clock.epoch), DEFAULT_BRIDGE_FEE,
          [], map[], map[], map[], map[], ledger)
  }

  function ParseChain(chain: byte): Result<Chain> {
    if chain == 1 then Ok(Solana) else if chain == 2 then Ok(Solayer) else Err(InvalidChain)
  }

  // ------------------------------------------------------------- guardians

  function AddGuardianTo(s: State, manager: Pubkey, guardian: Pubkey): (r: Result<State>)
    ensures r.Ok? ==> r.value == s.(guardians := r.value.guardians)
  {
    if manager != s.manager then Err(Unauthorized)
    else if guardian in s.guardians then Err(GuardianAlreadyExists)
    else if |s.guardians| >= MAX_GUARDIAN_COUNT then Err(AccountTooSmall)
    else Ok(s.(guardians := s.guardians + [guardian]))
  }

  /** `retain(|g| g != guardian)`. */
  function Without(guardians: seq<Pubkey>, guardian: Pubkey): (r: seq<Pubkey>)
    ensures |r| <= |guardians|
  {
    if guardians == [] then []
    else if guardians[0] == guardian then Without(guardians[1..], guardian)
    else [guardians[0]] + Without(guardians[1..], guardian)
  }

  function RemoveGuardianFrom(s: State, manager: Pubkey, guardian: Pubkey): (r: Result<State>)
    ensures r.Ok? ==> r.value == s.(guardians := r.value.guardians)
  {
    if manager != s.manager then Err(Unauthorized)
    else if guardian !in s.guardians then Err(GuardianNotFound)
    else
      var left := Without(s.guardians, guardian);
      if |left| < s.threshold then Err(GuardianThresholdNotMet)
      else Ok(s.(guardians := left))
  }

  function UpdatedThreshold(s: State, manager: Pubkey, threshold: byte): (r: Result<State>)
    ensures r.Ok? ==> r.value == s.(threshold := r.value.threshold)
  {
    if manager != s.manager then Err(Unauthorized)
    else if !(0 < threshold <= MAX_GUARDIAN_COUNT) then Err(InvalidGuardianThreshold)
    else if threshold < (|s.guardians| % 0x100) / 2 + 1 then Err(InvalidGuardianThreshold)
    else if |s.guardians| < threshold then Err(GuardianThresholdNotMet)
    else Ok(s.(threshold := threshold))
  }

  function Configured(s: State, manager: Pubkey, setting: Setting): (r: Result<State>)
    ensures r.Ok? ==> r.value == s.(pause := r.value.pause, feeVault := r.value.feeVault, manager := r.value.manager,
                                    operator := r.value.operator, cap := r.value.cap, fee := r.value.fee)
  {
    if manager != s.manager then Err(Unauthorized)
    else match setting
      case SetPause(pause) => Ok(s.(pause := pause))
      case SetFeeVault(feeVault) =>
        if feeVault == s.feeVault then Err(ConstraintViolated) else Ok(s.(feeVault := feeVault))
      case SetFee(fee) => Ok(s.(fee := fee))
      case SetManager(newManager) => Ok(s.(manager := newManager))
      case SetOperator(newOperator) => Ok(s.(operator := newOperator))
      case SetCap(remained) => Ok(s.(cap := s.cap.(remained := remained)))
  }

  // ------------------------------------------------------------ signatures

  function OpenIndex(s: State, msgHash: Digest): seq<byte> {
    if msgHash in s.records then s.records[msgHash].index else []
  }

  /** The guardians a batch names. An index past the end of the list panics. */
  function Named(guardians: seq<Pubkey>, indexes: seq<byte>): (r: Result<seq<Pubkey>>)
    ensures r.Ok? <==> forall i :: 0 <= i < |indexes| ==> indexes[i] < |guardians|
    ensures r.Ok? ==> |r.value| == |indexes| && forall i :: 0 <= i < |indexes| ==> r.value[i] == guardians[indexes[i]]
  {
    if forall i :: 0 <= i < |indexes| ==> indexes[i] < |guardians| then
      Ok(seq(|indexes|, i requires 0 <= i < |indexes| => guardians[indexes[i]]))
    else
      Err(Panicked)
  }

  function CheckBatch(guardians: seq<Pubkey>, open: seq<byte>, indexes: seq<byte>): Result<seq<Pubkey>> {
    if indexes == [] || |indexes| > |guardians| then Err(InvalidSignerCount)
    else if exists i :: 0 <= i < |indexes| && indexes[i] in open then Err(GuardianSignatureAlreadyExists)
    else if |Dedup(Sort(indexes))| != |indexes| then Err(InvalidSignerIndexes)
    else if |open| + |indexes| > |guardians| || |open| + |indexes| > MAX_GUARDIAN_SIGNATURES then
      Err(InvalidGuardianSigCount)
    else Named(guardians, indexes)
  }

  function VerifiedBatch(s: State, msgHash: Digest, indexes: seq<byte>, previous: Ed25519Ix,
                         clock: Clock): (r: Result<State>)
    ensures r.Ok? ==>
              r.value == s.(records := s.records[msgHash := Record(OpenIndex(s, msgHash) + indexes, clock.time)])
  {
    var open := OpenIndex(s, msgHash);
    var signers :- CheckBatch(s.guardians, open, indexes);
    var _ :- Ed25519IxVerdict(previous, signers, msgHash);
    Ok(s.(records := s.records[msgHash := Record(open + indexes, clock.time)]))
  }

  // ---------------------------------------------------------- instant cap

  function Pow10(n: nat): (p: real)
    ensures p >= 1.0
  {
    if n == 0 then 1.0 else 10.0 * Pow10(n - 1)
  }

  function Whitelist(known: KnownMints): seq<(Pubkey, real)> {
    [(known.usdc, 1.0), (known.usdt, 1.0), (known.layer, 1.0),
     (known.pengu, 0.04), (known.fartcoin, 1.5), (known.ray, 3.0)]
  }

  /** `find` the first entry for a mint and `map` it to its price. */
  function PriceIn(list: seq<(Pubkey, real)>, mint: Pubkey): (r: Option<real>)
    ensures r.Some? <==> exists i :: 0 <= i < |list| && list[i].0 == mint
    ensures r.Some? ==> exists i :: 0 <= i < |list| && list[i] == (mint, r.value)
  {
    if list == [] then None
    else if list[0].0 == mint then Some(list[0].1)
    else
      assert forall i :: 0 < i < |list| ==> list[i] == list[1..][i - 1];
      assert forall i :: 0 <= i < |list[1..]| ==> list[1..][i] == list[i + 1];
      PriceIn(list[1..], mint)
  }

  predicate IsTokenWhitelisted(known: KnownMints, mint: Pubkey) {
    PriceIn(Whitelist(known), mint).Some?
  }

  function Units(amount: u64, decimals: byte): real {
    amount as real / Pow10(decimals)
  }

  /** The dollar value of a whitelisted amount; anything below one whole token counts as one. */
  function TokenDollars(known: KnownMints, mint: Pubkey, amount: u64, decimals: byte): (r: Option<real>)
    ensures r.Some? <==> IsTokenWhitelisted(known, mint)
    ensures r.Some? ==> r.value >= 0.0
  {
    var units := Units(amount, decimals);
    match PriceIn(Whitelist(known), mint)
    case None => None
    case Some(price) => Some(price * if units < 1.0 then 1.0 else units)
  }

  function SolDollars(amount: u64): real {
    amount as real / LAMPORTS_PER_SOL as real * SOLANA_DOLLAR_VALUE as real
  }

  /** The cast of a non-negative float to u64: truncation, saturating at the largest u64. */
  function Truncate(dollars: real): u64
    requires dollars >= 0.0
  {
    if dollars.Floor > U64_MAX then U64_MAX else dollars.Floor
  }

  function Refreshed(cap: Cap, clock: Clock): Cap {
    if cap.epoch != clock.epoch then Cap(DOLLAR_CAP_PER_EPOCH, clock.epoch) else cap
  }

  /** Draws on the bucket, or falls back on the waiting time when the bucket is too low. */
  function Charge(cap: Cap, dollars: u64, createdAt: u64, clock: Clock): Result<Cap> {
    var bucket := Refreshed(cap, clock);
    if bucket.remained < dollars then
      if clock.time < createdAt then Err(Panicked)
      else if clock.time - createdAt < AWAITING_TIME_SECONDS then Err(InstantBridgeCapExceeded)
      else Ok(bucket)
    else
      Ok(bucket.(remained := bucket.remained - dollars))
  }

  /** The dollars a release is measured at, when the cap applies to it at all. */
  function MeasuredDollars(cfg: Config, s: State, c: Claim): (r: Option<real>)
    ensures r.Some? ==> r.value >= 0.0
  {
    if s.chain != Solana then None
    else if c.SolClaim? then Some(SolDollars(c.amount))
    else if c.mint !in s.ledger.mints then None
    else TokenDollars(cfg.known, c.mint, c.amount, s.ledger.mints[c.mint].decimals)
  }

  function ChargedCap(cfg: Config, s: State, c: Claim, createdAt: u64, clock: Clock): Result<Cap> {
    match MeasuredDollars(cfg, s, c)
    case None => Ok(s.cap)
    case Some(dollars) => Charge(s.cap, Truncate(dollars), createdAt, clock)
  }

  // --------------------------------------------------------------- release

  function CheckApproval(s: State, record: Record): Result<()> {
    if record.index == [] || |record.index| > |s.guardians| || |record.index| > MAX_GUARDIAN_SIGNATURES then
      Err(InvalidSignerCount)
    else if |record.index| < s.threshold then Err(GuardianThresholdNotMet)
    else Ok(())
  }

  predicate NativeHere(chain: Chain, info: TokenInfo) {
    (chain == Solana && info.solanaNative) || (chain == Solayer && info.solayerNative)
  }

  function PayTokens(cfg: Config, native: bool, l: Ledger, mint: Pubkey, recipient: Pubkey, amount: u64): Result<Ledger>
    requires mint in l.mints
  {
    if native then
      if Tokens(l, cfg.handler, mint) < amount then Err(InsufficientFunds)
      else MoveTokens(l, cfg.handler, recipient, mint, amount)
    else
      MintTokens(l, recipient, mint, amount)
  }

  /** `transfer_sol_to_recipient`: the handler keeps its rent minimum. */
  function TransferSol(cfg: Config, l: Ledger, recipient: Pubkey, n: u64): (r: Result<Ledger>)
    ensures r.Ok? ==> r.value.tokens == l.tokens && r.value.mints == l.mints
  {
    if cfg.rent + n > U64_MAX then Err(Overflow)
    else if cfg.rent + n > Lamports(l, cfg.handler) then Err(InsufficientFunds)
    else MoveLamports(l, cfg.handler, recipient, n)
  }

  function MintSol(cfg: Config, l: Ledger, recipient: Pubkey, n: u64): (r: Result<Ledger>)
    ensures r.Ok? ==> r.value.tokens == l.tokens && r.value.mints == l.mints
  {
    if !cfg.solayerBuild then Err(InvalidOSForMintingSol) else AddLamports(l, recipient, n)
  }

  function PaySol(cfg: Config, chain: Chain, l: Ledger, recipient: Pubkey, n: u64): (r: Result<Ledger>)
    ensures r.Ok? ==> r.value.tokens == l.tokens && r.value.mints == l.mints
  {
    if chain == Solayer then MintSol(cfg, l, recipient, n) else TransferSol(cfg, l, recipient, n)
  }

  function Pay(cfg: Config, s: State, c: Claim): Result<Ledger>
    requires c.TokenClaim? ==> c.mint in s.tokens && c.mint in s.ledger.mints
  {
    match c
    case TokenClaim(_, recipient, _, mint, amount, _, _, gas) =>
      var paid :- PayTokens(cfg, NativeHere(s.chain, s.tokens[mint]), s.ledger, mint, recipient, amount);
      if gas > 0 then PaySol(cfg, s.chain, paid, recipient, gas) else Ok(paid)
    case SolClaim(_, recipient, amount, _, _) =>
      PaySol(cfg, s.chain, s.ledger, recipient, amount)
  }

  /** The accounts a target handler needs: an unused proof address, an open record, a known token. */
  function CheckTargetAccounts(cfg: Config, s: State, operator: Pubkey, msgHash: Digest, txId: TxId,
                               mint: Option<Pubkey>): Result<()>
  {
    if operator != s.operator then Err(InvalidOperator)
    else if mint.Some? && mint.value !in s.ledger.mints then Err(AccountMissing)
    else if cfg.hash(txId) in s.proofs then Err(AccountExists)
    else if msgHash !in s.records then Err(AccountMissing)
    else if mint.Some? && mint.value !in s.tokens then Err(AccountMissing)
    else Ok(())
  }

  function ClaimMint(c: Claim): Option<Pubkey> {
    if c.TokenClaim? then Some(c.mint) else None
  }

  function CheckGasAndHash(cfg: Config, msgHash: Digest, c: Claim): Result<()> {
    if c.TokenClaim? && c.gas > MAX_ADDITIONAL_SOL_GAS then Err(TooMuchAdditionalSolGas)
    else if cfg.hash(Payload(cfg.known.sol, c)) != msgHash then Err(InvalidGuardianSignatureMessage)
    else Ok(())
  }

  /** Everything a target handler checks before it moves assets; the cap is charged on the way. */
  function Authorised(cfg: Config, s: State, operator: Pubkey, msgHash: Digest, c: Claim,
                      clock: Clock): (r: Result<Cap>)
    ensures r.Ok? ==> c.TokenClaim? ==> c.mint in s.tokens && c.mint in s.ledger.mints
  {
    var _ :- CheckTargetAccounts(cfg, s, operator, msgHash, c.txId, ClaimMint(c));
    if s.pause then Err(BridgePaused)
    else
      var record := s.records[msgHash];
      var cap :- ChargedCap(cfg, s, c, record.createdAt, clock);
      var _ :- CheckApproval(s, record);
      var _ :- CheckGasAndHash(cfg, msgHash, c);
      Ok(cap)
  }

  /** Both target handlers; the claim's kind tells which. */
  function Released(cfg: Config, s: State, operator: Pubkey, msgHash: Digest, c: Claim,
                    clock: Clock): (r: Result<State>)
    ensures r.Ok? ==> r.value == s.(cap := r.value.cap, ledger := r.value.ledger, proofs := r.value.proofs,
                                    records := s.records - {msgHash})
  {
    var cap :- Authorised(cfg, s, operator, msgHash, c, clock);
    var ledger :- Pay(cfg, s, c);
    Ok(s.(cap := cap, ledger := ledger,
          proofs := s.proofs[cfg.hash(c.txId) := Proof(msgHash, c.txId, c.recipient, clock.time)],
          records := s.records - {msgHash}))
  }

  // ---------------------------------------------------------------- source

  function BurnSol(cfg: Config, l: Ledger, from: Pubkey, n: u64): (r: Result<Ledger>)
    ensures r.Ok? ==> r.value.tokens == l.tokens && r.value.mints == l.mints
  {
    if !cfg.solayerBuild then Err(InvalidOSForBurningSol) else SubLamports(l, from, n)
  }

  function TakeSol(cfg: Config, chain: Chain, l: Ledger, signer: Pubkey, n: u64): (r: Result<Ledger>)
    ensures r.Ok? ==> r.value.tokens == l.tokens && r.value.mints == l.mints
  {
    if chain == Solayer then BurnSol(cfg, l, signer, n) else MoveLamports(l, signer, cfg.handler, n)
  }

  function TakeGas(cfg: Config, chain: Chain, l: Ledger, signer: Pubkey, gas: u64): (r: Result<Ledger>)
    ensures r.Ok? ==> r.value.tokens == l.tokens && r.value.mints == l.mints
  {
    if gas > MAX_ADDITIONAL_SOL_GAS then Err(TooMuchAdditionalSolGas)
    else if gas == 0 then Ok(l)
    else if gas < MIN_SOL_BRIDGE_AMOUNT then Err(TooLittleAdditionalSolGas)
    else TakeSol(cfg, chain, l, signer, gas)
  }

  /** A token seen for the first time is native to this chain. */
  function NativeInfo(chain: Chain, mint: Pubkey, targetMint: Pubkey): TokenInfo {
    if chain == Solana then TokenInfo(mint, targetMint, true, false, false)
    else TokenInfo(targetMint, mint, false, true, false)
  }

  predicate Classified(tokens: map<Pubkey, TokenInfo>, mint: Pubkey) {
    mint in tokens && (tokens[mint].solanaNative || tokens[mint].solayerNative)
  }

  /** Lock or burn, and the token record afterwards. */
  function TakeTokens(cfg: Config, chain: Chain, tokens: map<Pubkey, TokenInfo>, feeVault: Pubkey, l: Ledger,
                      signer: Pubkey, mint: Pubkey, amount: u64, targetMint: Pubkey): Result<(Ledger, TokenInfo)>
    requires mint in l.mints
  {
    if !Classified(tokens, mint) then
      var locked :- MoveTokens(l, signer, cfg.handler, mint, amount);
      var paid :-
        if chain == Solayer then MoveLamports(locked, signer, feeVault, METADATA_CREATION_FEE) else Ok(locked);
      Ok((paid, NativeInfo(chain, mint, targetMint)))
    else if tokens[mint].paused then Err(TokenPaused)
    else if NativeHere(chain, tokens[mint]) then
      var locked :- MoveTokens(l, signer, cfg.handler, mint, amount);
      Ok((locked, tokens[mint]))
    else
      var burned :- BurnTokens(l, signer, mint, amount);
      Ok((burned, tokens[mint]))
  }

  /** The hash a source handler stores in its proof account. */
  function SourceDigest(cfg: Config, signer: Pubkey, recipient: Pubkey, mint: Pubkey, amount: u64,
                        proofNonce: u64): Digest
  {
    cfg.hash(SourceMessage(signer, recipient, mint, amount, proofNonce))
  }

  /** Takes the next nonce and issues the proof. */
  function Numbered(cfg: Config, s: State, ledger: Ledger, tokens: map<Pubkey, TokenInfo>, signer: Pubkey,
                    recipient: Pubkey, mint: Pubkey, amount: u64, proofNonce: u64, clock: Clock): Result<State>
  {
    if s.nonce == U64_MAX then Err(Panicked)
    else Ok(s.(nonce := s.nonce + 1, ledger := ledger, tokens := tokens,
               sourceProofs := s.sourceProofs[(signer, proofNonce) :=
                 SourceProof(SourceDigest(cfg, signer, recipient, mint, amount, proofNonce), signer, clock.time)]))
  }

  /** The handler's address is off the curve, so it never signs; a used proof address fails `init`. */
  function CheckSourceAccounts(cfg: Config, s: State, signer: Pubkey, proofNonce: u64): Result<()> {
    if signer == cfg.handler then Err(MissingSignature)
    else if (signer, proofNonce) in s.sourceProofs then Err(AccountExists)
    else Ok(())
  }

  function SourcedToken(cfg: Config, s: State, signer: Pubkey, mint: Pubkey, amount: u64, recipient: Pubkey,
                        targetMint: Pubkey, gas: u64, proofNonce: u64, clock: Clock): (r: Result<State>)
    ensures r.Ok? ==> r.value == s.(nonce := r.value.nonce, ledger := r.value.ledger, tokens := r.value.tokens,
                                    sourceProofs := r.value.sourceProofs)
  {
    var _ :- CheckSourceAccounts(cfg, s, signer, proofNonce);
    if mint !in s.ledger.mints then Err(AccountMissing)
    else if s.pause then Err(BridgePaused)
    else if Tokens(s.ledger, signer, mint) < amount then Err(InsufficientAmount)
    else
      var afterFee :- MoveLamports(s.ledger, signer, s.feeVault, s.fee);
      var afterGas :- TakeGas(cfg, s.chain, afterFee, signer, gas);
      var taken :- TakeTokens(cfg, s.chain, s.tokens, s.feeVault, afterGas, signer, mint, amount, targetMint);
      Numbered(cfg, s, taken.0, s.tokens[mint := taken.1], signer, recipient, mint, amount, proofNonce, clock)
  }

  function SourcedSol(cfg: Config, s: State, signer: Pubkey, amount: u64, recipient: Pubkey,
                      proofNonce: u64, clock: Clock): (r: Result<State>)
    ensures r.Ok? ==>
              r.value == s.(nonce := r.value.nonce, ledger := r.value.ledger, sourceProofs := r.value.sourceProofs)
  {
    var _ :- CheckSourceAccounts(cfg, s, signer, proofNonce);
    if s.pause then Err(BridgePaused)
    else if amount < MIN_SOL_BRIDGE_AMOUNT then Err(TooLittleSolBridgeAmount)
    else
      var afterFee :- MoveLamports(s.ledger, signer, s.feeVault, s.fee);
      if Lamports(afterFee, signer) < amount then Err(InsufficientAmount)
      else
        var taken :- TakeSol(cfg, s.chain, afterFee, signer, amount);
        Numbered(cfg, s, taken, s.tokens, signer, recipient, cfg.known.sol, amount, proofNonce, clock)
  }

  // ---------------------------------------------------------------- tokens

  /** A wrapped token is foreign here and native to the other chain. */
  function WrappedInfo(chain: Chain, mint: Pubkey, sourceMint: Pubkey): TokenInfo {
    if chain == Solana then TokenInfo(mint, sourceMint, false, true, false)
    else TokenInfo(sourceMint, mint, true, false, false)
  }

  function AddedToken(cfg: Config, s: State, operator: Pubkey, sourceMint: Pubkey, decimals: byte): (r: Result<State>)
    ensures r.Ok? ==> r.value == s.(ledger := r.value.ledger, tokens := r.value.tokens)
  {
    var mint := cfg.derive(sourceMint);
    if operator != s.operator then Err(InvalidOperator)
    else if mint in s.ledger.mints && s.ledger.mints[mint].decimals != decimals then Err(ConstraintViolated)
    else
      var mints := if mint in s.ledger.mints then s.ledger.mints else s.ledger.mints[mint := Mint(decimals, 0)];
      var info := if Classified(s.tokens, mint) then s.tokens[mint] else WrappedInfo(s.chain, mint, sourceMint);
      Ok(s.(ledger := s.ledger.(mints := mints), tokens := s.tokens[mint := info]))
  }

  /** The token record is not writable in this instruction, so the flag it sets is lost. */
  function PausedToken(s: State, manager: Pubkey, mint: Pubkey): Result<State> {
    if manager != s.manager then Err(Unauthorized)
    else if mint !in s.ledger.mints || mint !in s.tokens then Err(AccountMissing)
    else Ok(s)
  }

  // ------------------------------------------------------------------ step

  function Step(cfg: Config, s: State, ix: Instruction, clock: Clock): Result<State> {
    match ix
    case AddGuardian(manager, guardian) => AddGuardianTo(s, manager, guardian)
    case RemoveGuardian(manager, guardian) => RemoveGuardianFrom(s, manager, guardian)
    case UpdateThreshold(manager, threshold) => UpdatedThreshold(s, manager, threshold)
    case Configure(manager, setting) => Configured(s, manager, setting)
    case PauseToken(manager, mint, _) => PausedToken(s, manager, mint)
    case AddToken(operator, sourceMint, decimals) => AddedToken(cfg, s, operator, sourceMint, decimals)
    case VerifySignature(msgHash, indexes, previous) => VerifiedBatch(s, msgHash, indexes, previous, clock)
    case SourceToken(signer, mint, amount, recipient, targetMint, gas, proofNonce) =>
      SourcedToken(cfg, s, signer, mint, amount, recipient, targetMint, gas, proofNonce, clock)
    case SourceSol(signer, amount, recipient, proofNonce) =>
      SourcedSol(cfg, s, signer, amount, recipient, proofNonce, clock)
    case Release(operator, msgHash, claim) => Released(cfg, s, operator, msgHash, claim, clock)
  }
}
