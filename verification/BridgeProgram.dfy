/** The program's handlers as they run: each updates the accounts' fields in the source's order and may
    stop halfway with an error. `Execute` is the runtime around them, which undoes a failed handler. */
module BridgeProgram {
  import opened Types
  import Encoding
  import opened Payloads
  import opened Ed25519Codec
  import opened Ledgers
  import opened SignerIndexes
  import opened BridgeSpec

  /** The content of a key field no instruction has written yet. */
  const ZERO_KEY: Pubkey := seq(32, i => 0)

  /** The handler did what the specification says: its new state, or its error. */
  predicate Meets<T>(r: Result<T>, now: State, spec: Result<State>) {
    match spec
    case Ok(s) => r.Ok? && now == s
    case Err(e) => r.Err? && r.error == e
  }

  method FindPrice(list: seq<(Pubkey, real)>, mint: Pubkey) returns (r: Option<real>)
    ensures r == PriceIn(list, mint)
  {
    for i := 0 to |list|
      invariant PriceIn(list, mint) == PriceIn(list[i..], mint)
    {
      assert list[i..][1..] == list[i + 1..];
      if list[i].0 == mint {
        return Some(list[i].1);
      }
    }
    r := None;
  }

  /** Clamps the amount, then finds the mint in the whitelist. */
  method GetWhitelistedTokenPrice(known: KnownMints, mint: Pubkey, amount: u64, decimals: byte)
    returns (r: Option<real>)
    ensures r == TokenDollars(known, mint, amount, decimals)
  {
    var amountWithDecimal := Units(amount, decimals);
    if amountWithDecimal < 1.0 {
      amountWithDecimal := 1.0;
    }
    var price := FindPrice(Whitelist(known), mint);
    r := match price case None => None case Some(p) => Some(p * amountWithDecimal);
  }

  /** The writable fields of the bridge_handler account. */
  datatype Handler = Handler(pause: bool, nonce: u64, feeVault: Pubkey, manager: Pubkey, operator: Pubkey,
                             guardianThreshold: byte, cap: Cap, bridgeAssetFee: u64)

  class Bridge {
    const cfg: Config

    // the bridge_handler account; the chain never changes after initialize
    const chain: Chain
    var handler: Handler
    // guardian_info
    var guardians: seq<Pubkey>
    // verified_signatures, bridge_proof and token_info accounts, by the part of their seeds that varies
    var records: map<Digest, Record>
    var proofs: map<Digest, Proof>
    var sourceProofs: map<(Pubkey, u64), SourceProof>
    var tokens: map<Pubkey, TokenInfo>
    // balances kept by the system and token programs
    var ledger: Ledger

    function State(): State
      reads this
    {
      BridgeSpec.State(handler.pause, handler.nonce, chain, handler.feeVault, handler.manager, handler.operator,
                       handler.guardianThreshold, handler.cap, handler.bridgeAssetFee,
                       guardians, records, proofs, sourceProofs, tokens, ledger)
    }

    constructor Initialize(cfg: Config, chain: Chain, feeVault: Pubkey, manager: Pubkey, operator: Pubkey,
                           clock: Clock, ledger: Ledger)
      ensures this.cfg == cfg && this.chain == chain
      ensures State() == Initial(chain, feeVault, manager, operator, clock, ledger)
    {
      this.cfg := cfg;
      this.chain := chain;
      this.handler := Handler(false, 0, feeVault, manager, operator, UNSET_THRESHOLD,
                              Cap(DOLLAR_CAP_PER_EPOCH, clock.epoch), DEFAULT_BRIDGE_FEE);
      this.guardians := [];
      this.records, this.proofs, this.sourceProofs, this.tokens := map[], map[], map[], map[];
      this.ledger := ledger;
    }

    // ----------------------------------------------------------- guardians

    method AddGuardian(manager: Pubkey, guardian: Pubkey) returns (r: Result<()>)
      modifies this
      ensures Meets(r, State(), AddGuardianTo(old(State()), manager, guardian))
    {
      if manager != handler.manager {
        return Err(Unauthorized);
      }
      if guardian in guardians {
        return Err(GuardianAlreadyExists);
      }
      guardians := guardians + [guardian];
      if |guardians| > MAX_GUARDIAN_COUNT {
        return Err(AccountTooSmall);
      }
      r := Ok(());
    }

    method Retain(guardian: Pubkey)
      modifies `guardians
      ensures guardians == Without(old(guardians), guardian)
    {
      var kept: seq<Pubkey> := [];
      for i := 0 to |guardians|
        invariant guardians == old(guardians)
        invariant Without(guardians, guardian) == kept + Without(guardians[i..], guardian)
      {
        assert guardians[i..][0] == guardians[i] && guardians[i..][1..] == guardians[i + 1..];
        if guardians[i] != guardian {
          assert kept + ([guardians[i]] + Without(guardians[i + 1..], guardian))
              == kept + [guardians[i]] + Without(guardians[i + 1..], guardian);
          kept := kept + [guardians[i]];
        }
      }
      guardians := kept;
    }

    method RemoveGuardian(manager: Pubkey, guardian: Pubkey) returns (r: Result<()>)
      modifies this
      ensures Meets(r, State(), RemoveGuardianFrom(old(State()), manager, guardian))
    {
      if manager != handler.manager {
        return Err(Unauthorized);
      }
      if guardian !in guardians {
        return Err(GuardianNotFound);
      }
      Retain(guardian);
      if |guardians| < handler.guardianThreshold {
        return Err(GuardianThresholdNotMet);
      }
      r := Ok(());
    }

    method UpdateGuardianThreshold(manager: Pubkey, threshold: byte) returns (r: Result<()>)
      modifies this
      ensures Meets(r, State(), UpdatedThreshold(old(State()), manager, threshold))
    {
      if manager != handler.manager {
        return Err(Unauthorized);
      }
      if !(threshold > 0 && threshold <= MAX_GUARDIAN_COUNT) {
        return Err(InvalidGuardianThreshold);
      }
      var minimumThreshold := (|guardians| % 0x100) / 2 + 1;
      if threshold < minimumThreshold {
        return Err(InvalidGuardianThreshold);
      }
      if |guardians| < threshold {
        return Err(GuardianThresholdNotMet);
      }
      handler := handler.(guardianThreshold := threshold);
      r := Ok(());
    }

    /** The handlers that assign one field of the handler account. */
    method UpdateSetting(manager: Pubkey, setting: Setting) returns (r: Result<()>)
      modifies this
      ensures Meets(r, State(), Configured(old(State()), manager, setting))
    {
      if manager != handler.manager {
        return Err(Unauthorized);
      }
      match setting {
        case SetPause(pause) => handler := handler.(pause := pause);
        case SetFeeVault(feeVault) =>
          if feeVault == handler.feeVault {
            return Err(ConstraintViolated);
          }
          handler := handler.(feeVault := feeVault);
        case SetFee(fee) => handler := handler.(bridgeAssetFee := fee);
        case SetManager(newManager) => handler := handler.(manager := newManager);
        case SetOperator(newOperator) => handler := handler.(operator := newOperator);
        case SetCap(remained) => handler := handler.(cap := handler.cap.(remained := remained));
      }
      r := Ok(());
    }

    // ---------------------------------------------------------- signatures

    method CheckSignerIndexes(pubkeyIndex: seq<byte>, signerIndexes: seq<byte>) returns (r: Result<seq<Pubkey>>)
      ensures r == CheckBatch(guardians, pubkeyIndex, signerIndexes)
    {
      if signerIndexes == [] || |signerIndexes| > |guardians| {
        return Err(InvalidSignerCount);
      }
      if exists i :: 0 <= i < |signerIndexes| && signerIndexes[i] in pubkeyIndex {
        return Err(GuardianSignatureAlreadyExists);
      }
      var unique := Sort(signerIndexes);
      unique := DedupInPlace(unique);
      if |unique| != |signerIndexes| {
        return Err(InvalidSignerIndexes);
      }
      var concatSigCount := |pubkeyIndex| + |signerIndexes|;
      if !(concatSigCount <= |guardians| && concatSigCount <= MAX_GUARDIAN_SIGNATURES) {
        return Err(InvalidGuardianSigCount);
      }
      r := Named(guardians, signerIndexes);
    }

    method VerifySignature(msgHash: Digest, signerIndexes: seq<byte>, previous: Ed25519Ix, clock: Clock)
      returns (r: Result<()>)
      modifies this
      ensures Meets(r, State(), VerifiedBatch(old(State()), msgHash, signerIndexes, previous, clock))
    {
      // init_if_needed
      if msgHash !in records {
        records := records[msgHash := Record([], 0)];
      }
      var pubkeyIndex := records[msgHash].index;
      var named := CheckSignerIndexes(pubkeyIndex, signerIndexes);
      var signers :- named;
      var verdict := VerifyEd25519Ix(previous, signers, msgHash);
      var _ :- verdict;
      pubkeyIndex := pubkeyIndex + signerIndexes;
      records := records[msgHash := Record(pubkeyIndex, clock.time)];
      r := Ok(());
    }

    // --------------------------------------------------------------- target

    /** The block both target handlers run on Solana, on a dollar value already truncated. */
    method ValidateInstantCap(dollars: u64, createdAt: u64, clock: Clock) returns (r: Result<()>)
      modifies `handler
      ensures match Charge(old(handler.cap), dollars, createdAt, clock)
              case Ok(charged) => r.Ok? && handler == old(handler).(cap := charged)
              case Err(e) => r == Err(e)
    {
      if handler.cap.epoch != clock.epoch {
        handler := handler.(cap := handler.cap.(remained := DOLLAR_CAP_PER_EPOCH));
        handler := handler.(cap := handler.cap.(epoch := clock.epoch));
      }
      if handler.cap.remained < dollars {
        if clock.time < createdAt {
          return Err(Panicked);
        }
        var awaitingTime := clock.time - createdAt;
        if awaitingTime < AWAITING_TIME_SECONDS {
          return Err(InstantBridgeCapExceeded);
        }
      } else {
        handler := handler.(cap := handler.cap.(remained := handler.cap.remained - dollars));
      }
      r := Ok(());
    }

    /** The account constraints of a target handler, with the mint of the token one. */
    method CheckAccounts(operator: Pubkey, msgHash: Digest, sourceTxId: TxId, mint: Option<Pubkey>)
      returns (r: Result<()>)
      ensures r == CheckTargetAccounts(cfg, State(), operator, msgHash, sourceTxId, mint)
    {
      if operator != handler.operator {
        return Err(InvalidOperator);
      }
      if mint.Some? && mint.value !in ledger.mints {
        return Err(AccountMissing);
      }
      if cfg.hash(sourceTxId) in proofs {
        return Err(AccountExists);
      }
      if msgHash !in records {
        return Err(AccountMissing);
      }
      if mint.Some? && mint.value !in tokens {
        return Err(AccountMissing);
      }
      r := Ok(());
    }

    method CheckSignatureCount(verified: Record) returns (r: Result<()>)
      ensures r == CheckApproval(State(), verified)
    {
      if !(verified.index != [] && |verified.index| <= |guardians| && |verified.index| <= MAX_GUARDIAN_SIGNATURES) {
        return Err(InvalidSignerCount);
      }
      if |verified.index| < handler.guardianThreshold {
        return Err(GuardianThresholdNotMet);
      }
      r := Ok(());
    }

    method DeliverSol(recipient: Pubkey, lamports: u64) returns (r: Result<()>)
      modifies `ledger
      ensures match PaySol(cfg, chain, old(ledger), recipient, lamports)
              case Ok(l) => r.Ok? && ledger == l
              case Err(e) => r == Err(e)
    {
      if chain == Solayer {
        r := MintSolToRecipient(recipient, lamports);
      } else {
        r := TransferSolToRecipient(recipient, lamports);
      }
    }

    /** Releases a native token from the vault, mints a wrapped one. */
    method DeliverTokens(mint: Pubkey, recipient: Pubkey, amount: u64) returns (r: Result<()>)
      requires mint in tokens && mint in ledger.mints
      modifies `ledger
      ensures match PayTokens(cfg, NativeHere(chain, tokens[mint]), old(ledger), mint, recipient, amount)
              case Ok(l) => r.Ok? && ledger == l
              case Err(e) => r == Err(e)
    {
      var info := tokens[mint];
      if (chain == Solana && info.solanaNative) || (chain == Solayer && info.solayerNative) {
        if Tokens(ledger, cfg.handler, mint) < amount {
          return Err(InsufficientFunds);
        }
        ledger :- MoveTokens(ledger, cfg.handler, recipient, mint, amount);
      } else {
        ledger :- MintTokens(ledger, recipient, mint, amount);
      }
      r := Ok(());
    }

    method MintSolToRecipient(recipient: Pubkey, lamports: u64) returns (r: Result<()>)
      modifies `ledger
      ensures match MintSol(cfg, old(ledger), recipient, lamports)
              case Ok(l) => r.Ok? && ledger == l
              case Err(e) => r == Err(e)
    {
      if !cfg.solayerBuild {
        return Err(InvalidOSForMintingSol);
      }
      ledger :- AddLamports(ledger, recipient, lamports);
      r := Ok(());
    }

    method TransferSolToRecipient(recipient: Pubkey, lamports: u64) returns (r: Result<()>)
      modifies `ledger
      ensures match TransferSol(cfg, old(ledger), recipient, lamports)
              case Ok(l) => r.Ok? && ledger == l
              case Err(e) => r == Err(e)
    {
      if cfg.rent + lamports > U64_MAX {
        return Err(Overflow);
      }
      if cfg.rent + lamports > Lamports(ledger, cfg.handler) {
        return Err(InsufficientFunds);
      }
      ledger := SubLamports(ledger, cfg.handler, lamports).value;
      ledger :- AddLamports(ledger, recipient, lamports);
      r := Ok(());
    }

    /** The checks of the token handler, up to the message hash. */
    method AuthoriseTokenRelease(operator: Pubkey, msgHash: Digest, sourceTxId: TxId, sender: Pubkey,
                                 sourceMint: Pubkey, mint: Pubkey, recipient: Pubkey, receiveAmount: u64,
                                 nonce: u64, additionalSolGas: u64, clock: Clock) returns (r: Result<()>)
      modifies `handler
      ensures var c := TokenClaim(sender, recipient, sourceMint, mint, receiveAmount, nonce, sourceTxId,
                                  additionalSolGas);
              match Authorised(cfg, old(State()), operator, msgHash, c, clock)
              case Ok(cap) => r.Ok? && handler == old(handler).(cap := cap)
              case Err(e) => r == Err(e)
    {
      ghost var c := TokenClaim(sender, recipient, sourceMint, mint, receiveAmount, nonce, sourceTxId,
                                additionalSolGas);
      var accounts := CheckAccounts(operator, msgHash, sourceTxId, Some(mint));
      var _ :- accounts;
      var verified := records[msgHash];
      if handler.pause {
        return Err(BridgePaused);
      }
      if chain == Solana && IsTokenWhitelisted(cfg.known, mint) {
        var price := GetWhitelistedTokenPrice(cfg.known, mint, receiveAmount, ledger.mints[mint].decimals);
        if price.None? {
          return Err(TokenNotExists);
        }
        var validated := ValidateInstantCap(Truncate(price.value), verified.createdAt, clock);
        var _ :- validated;
      }
      assert ChargedCap(cfg, old(State()), c, verified.createdAt, clock) == Ok(handler.cap);
      var approved := CheckSignatureCount(verified);
      var _ :- approved;
      if additionalSolGas > MAX_ADDITIONAL_SOL_GAS {
        return Err(TooMuchAdditionalSolGas);
      }
      var message := cfg.hash(TokenPayload(sender, recipient, sourceMint, mint, receiveAmount, nonce, sourceTxId,
                                           additionalSolGas));
      if message != msgHash {
        return Err(InvalidGuardianSignatureMessage);
      }
      r := Ok(());
    }

    method BridgeAssetTargetChain(operator: Pubkey, msgHash: Digest, sourceTxId: TxId, sender: Pubkey,
                                  sourceMint: Pubkey, mint: Pubkey, recipient: Pubkey, receiveAmount: u64,
                                  nonce: u64, additionalSolGas: u64, clock: Clock) returns (r: Result<()>)
      modifies this
      ensures var c := TokenClaim(sender, recipient, sourceMint, mint, receiveAmount, nonce, sourceTxId,
                                  additionalSolGas);
              Meets(r, State(), Released(cfg, old(State()), operator, msgHash, c, clock))
    {
      hide Authorised, PayTokens, PaySol;
      var authorised := AuthoriseTokenRelease(operator, msgHash, sourceTxId, sender, sourceMint, mint, recipient,
                                              receiveAmount, nonce, additionalSolGas, clock);
      var _ :- authorised;
      var delivered := DeliverTokens(mint, recipient, receiveAmount);
      var _ :- delivered;
      proofs := proofs[cfg.hash(sourceTxId) := Proof(msgHash, sourceTxId, recipient, clock.time)];
      if additionalSolGas > 0 {
        var sent := DeliverSol(recipient, additionalSolGas);
        var _ :- sent;
      }
      // close = operator
      records := records - {msgHash};
      r := Ok(());
    }

    method BridgeAssetTargetChainSol(operator: Pubkey, msgHash: Digest, sourceTxId: TxId, sender: Pubkey,
                                     recipient: Pubkey, receiveAmount: u64, nonce: u64, clock: Clock)
      returns (r: Result<()>)
      modifies this
      ensures var c := SolClaim(sender, recipient, receiveAmount, nonce, sourceTxId);
              Meets(r, State(), Released(cfg, old(State()), operator, msgHash, c, clock))
    {
      hide PaySol, Charge, SolPayload;
      ghost var c := SolClaim(sender, recipient, receiveAmount, nonce, sourceTxId);
      var accounts := CheckAccounts(operator, msgHash, sourceTxId, None);
      var _ :- accounts;
      var verified := records[msgHash];

      if handler.pause {
        return Err(BridgePaused);
      }
      if chain == Solana {
        var dollarValue := receiveAmount as real / LAMPORTS_PER_SOL as real * SOLANA_DOLLAR_VALUE as real;
        var validated := ValidateInstantCap(Truncate(dollarValue), verified.createdAt, clock);
        var _ :- validated;
      }
      assert ChargedCap(cfg, old(State()), c, verified.createdAt, clock) == Ok(handler.cap);

      var approved := CheckSignatureCount(verified);
      var _ :- approved;

      var message := cfg.hash(SolPayload(cfg.known.sol, sender, recipient, receiveAmount, nonce, sourceTxId));
      if message != msgHash {
        return Err(InvalidGuardianSignatureMessage);
      }

      proofs := proofs[cfg.hash(sourceTxId) := Proof(message, sourceTxId, recipient, clock.time)];

      var sent := DeliverSol(recipient, receiveAmount);
      var _ :- sent;
      // close = operator
      records := records - {msgHash};
      r := Ok(());
    }

    // --------------------------------------------------------------- source

    method TakeSolFrom(signer: Pubkey, lamports: u64) returns (r: Result<()>)
      modifies `ledger
      ensures match TakeSol(cfg, chain, old(ledger), signer, lamports)
              case Ok(l) => r.Ok? && ledger == l
              case Err(e) => r == Err(e)
    {
      if chain == Solayer {
        if !cfg.solayerBuild {
          return Err(InvalidOSForBurningSol);
        }
        ledger :- SubLamports(ledger, signer, lamports);
      } else {
        ledger :- MoveLamports(ledger, signer, cfg.handler, lamports);
      }
      r := Ok(());
    }

    method TakeGasFrom(signer: Pubkey, additionalSolGas: u64) returns (r: Result<()>)
      modifies `ledger
      ensures match TakeGas(cfg, chain, old(ledger), signer, additionalSolGas)
              case Ok(l) => r.Ok? && ledger == l
              case Err(e) => r == Err(e)
    {
      if additionalSolGas > MAX_ADDITIONAL_SOL_GAS {
        return Err(TooMuchAdditionalSolGas);
      }
      if additionalSolGas > 0 {
        if additionalSolGas < MIN_SOL_BRIDGE_AMOUNT {
          return Err(TooLittleAdditionalSolGas);
        }
        r := TakeSolFrom(signer, additionalSolGas);
        return;
      }
      r := Ok(());
    }

    /** Locks or burns, after classifying a token seen for the first time. */
    method TakeTokensFrom(signer: Pubkey, mint: Pubkey, amount: u64, targetMint: Pubkey) returns (r: Result<()>)
      requires mint in ledger.mints
      modifies `ledger, `tokens
      ensures match TakeTokens(cfg, chain, old(tokens), handler.feeVault, old(ledger), signer, mint, amount, targetMint)
              case Ok(taken) => r.Ok? && ledger == taken.0 && tokens == old(tokens)[mint := taken.1]
              case Err(e) => r == Err(e)
    {
      // init_if_needed
      var info := if mint in tokens then tokens[mint] else TokenInfo(ZERO_KEY, ZERO_KEY, false, false, false);
      if !info.solanaNative && !info.solayerNative {
        // not classified before, then it is native to this chain
        ledger :- MoveTokens(ledger, signer, cfg.handler, mint, amount);
        if chain == Solayer {
          ledger :- MoveLamports(ledger, signer, handler.feeVault, METADATA_CREATION_FEE);
        }
        if chain == Solana {
          info := TokenInfo(mint, targetMint, true, false, false);
        } else {
          info := TokenInfo(targetMint, mint, false, true, false);
        }
        tokens := tokens[mint := info];
      } else {
        if info.paused {
          return Err(TokenPaused);
        }
        if (chain == Solana && info.solanaNative) || (chain == Solayer && info.solayerNative) {
          ledger :- MoveTokens(ledger, signer, cfg.handler, mint, amount);
        } else {
          ledger :- BurnTokens(ledger, signer, mint, amount);
        }
        assert tokens == old(tokens)[mint := info];
      }
      r := Ok(());
    }

    /** `issue_bridge_proof`, on the proof account `init` created. */
    method IssueBridgeProof(signer: Pubkey, proofNonce: u64, recipient: Pubkey, mint: Pubkey, amount: u64, clock: Clock)
      modifies `sourceProofs
      ensures sourceProofs == old(sourceProofs)[(signer, proofNonce) :=
                SourceProof(SourceDigest(cfg, signer, recipient, mint, amount, proofNonce), signer, clock.time)]
    {
      var message := signer + recipient + mint + Encoding.Be64(amount) + Encoding.Be64(proofNonce);
      sourceProofs := sourceProofs[(signer, proofNonce) := SourceProof(cfg.hash(message), signer, clock.time)];
    }

    /** Takes the next nonce, then issues the proof. */
    method NumberTransfer(signer: Pubkey, proofNonce: u64, recipient: Pubkey, mint: Pubkey, amount: u64, clock: Clock)
      returns (r: Result<u64>)
      modifies `handler, `sourceProofs
      ensures Meets(r, State(),
                    Numbered(cfg, old(State()), ledger, tokens, signer, recipient, mint, amount, proofNonce, clock))
      ensures r.Ok? ==> r.value == old(handler.nonce)
    {
      var issued := handler.nonce;
      if issued == U64_MAX {
        return Err(Panicked);
      }
      handler := handler.(nonce := issued + 1);
      IssueBridgeProof(signer, proofNonce, recipient, mint, amount, clock);
      r := Ok(issued);
    }

    method BridgeAssetSourceChain(signer: Pubkey, mint: Pubkey, amount: u64, recipient: Pubkey, targetMint: Pubkey,
                                  additionalSolGas: u64, proofNonce: u64, clock: Clock) returns (r: Result<u64>)
      modifies this
      ensures Meets(r, State(), SourcedToken(cfg, old(State()), signer, mint, amount, recipient, targetMint,
                                             additionalSolGas, proofNonce, clock))
      ensures r.Ok? ==> r.value == old(handler.nonce)
    {
      hide TakeGas, TakeTokens, MoveLamports, SourceDigest, Tokens;
      if signer == cfg.handler {
        return Err(MissingSignature);
      }
      if (signer, proofNonce) in sourceProofs {
        return Err(AccountExists);
      }
      if mint !in ledger.mints {
        return Err(AccountMissing);
      }
      if handler.pause {
        return Err(BridgePaused);
      }
      if Tokens(ledger, signer, mint) < amount {
        return Err(InsufficientAmount);
      }
      ledger :- MoveLamports(ledger, signer, handler.feeVault, handler.bridgeAssetFee);
      var gasTaken := TakeGasFrom(signer, additionalSolGas);
      var _ :- gasTaken;
      var taken := TakeTokensFrom(signer, mint, amount, targetMint);
      var _ :- taken;
      assert SourcedToken(cfg, old(State()), signer, mint, amount, recipient, targetMint, additionalSolGas,
                          proofNonce, clock)
          == Numbered(cfg, old(State()), ledger, tokens, signer, recipient, mint, amount, proofNonce, clock);
      r := NumberTransfer(signer, proofNonce, recipient, mint, amount, clock);
    }

    method BridgeAssetSourceChainSol(signer: Pubkey, amount: u64, recipient: Pubkey, proofNonce: u64, clock: Clock)
      returns (r: Result<u64>)
      modifies this
      ensures Meets(r, State(), SourcedSol(cfg, old(State()), signer, amount, recipient, proofNonce, clock))
      ensures r.Ok? ==> r.value == old(handler.nonce)
    {
      if signer == cfg.handler {
        return Err(MissingSignature);
      }
      if (signer, proofNonce) in sourceProofs {
        return Err(AccountExists);
      }
      if handler.pause {
        return Err(BridgePaused);
      }
      if amount < MIN_SOL_BRIDGE_AMOUNT {
        return Err(TooLittleSolBridgeAmount);
      }
      ledger :- MoveLamports(ledger, signer, handler.feeVault, handler.bridgeAssetFee);
      if Lamports(ledger, signer) < amount {
        return Err(InsufficientAmount);
      }
      var taken := TakeSolFrom(signer, amount);
      var _ :- taken;
      r := NumberTransfer(signer, proofNonce, recipient, cfg.known.sol, amount, clock);
    }

    // --------------------------------------------------------------- tokens

    method AddToken(operator: Pubkey, sourceMint: Pubkey, decimals: byte) returns (r: Result<()>)
      modifies this
      ensures Meets(r, State(), AddedToken(cfg, old(State()), operator, sourceMint, decimals))
    {
      if operator != handler.operator {
        return Err(InvalidOperator);
      }
      // init_if_needed, at the address derived from the source mint
      var mint := cfg.derive(sourceMint);
      if mint !in ledger.mints {
        ledger := ledger.(mints := ledger.mints[mint := Mint(decimals, 0)]);
      } else if ledger.mints[mint].decimals != decimals {
        return Err(ConstraintViolated);
      }
      assert ledger.mints == ledger.mints && ledger.(mints := ledger.mints) == ledger;
      var alreadyExists := mint in tokens && (tokens[mint].solanaNative || tokens[mint].solayerNative);
      if !alreadyExists {
        var (solanaMint, solayerMint) := if chain == Solana then (mint, sourceMint) else (sourceMint, mint);
        var (solanaNative, solayerNative) := if chain == Solana then (false, true) else (true, false);
        tokens := tokens[mint := TokenInfo(solanaMint, solayerMint, solanaNative, solayerNative, false)];
      }
      assert tokens == tokens[mint := tokens[mint]];
      r := Ok(());
    }

    /** The flag is set on a copy: the account is not writable here. */
    method SetTokenPause(manager: Pubkey, mint: Pubkey, pause: bool) returns (r: Result<()>)
      modifies this
      ensures Meets(r, State(), PausedToken(old(State()), manager, mint))
    {
      if manager != handler.manager {
        return Err(Unauthorized);
      }
      if mint !in ledger.mints || mint !in tokens {
        return Err(AccountMissing);
      }
      var info := tokens[mint];
      info := info.(paused := pause);
      r := Ok(());
    }

    // -------------------------------------------------------------- runtime

    method Restore(s: State)
      requires s.chain == chain
      modifies this
      ensures State() == s
    {
      handler := Handler(s.pause, s.nonce, s.feeVault, s.manager, s.operator, s.threshold, s.cap, s.fee);
      guardians, records, proofs, sourceProofs, tokens, ledger :=
        s.guardians, s.records, s.proofs, s.sourceProofs, s.tokens, s.ledger;
    }

    method Dispatch(ix: Instruction, clock: Clock) returns (r: Result<()>)
      modifies this
      ensures Meets(r, State(), Step(cfg, old(State()), ix, clock))
    {
      match ix
      case AddGuardian(manager, guardian) => r := AddGuardian(manager, guardian);
      case RemoveGuardian(manager, guardian) => r := RemoveGuardian(manager, guardian);
      case UpdateThreshold(manager, threshold) => r := UpdateGuardianThreshold(manager, threshold);
      case Configure(manager, setting) => r := UpdateSetting(manager, setting);
      case PauseToken(manager, mint, pause) => r := SetTokenPause(manager, mint, pause);
      case AddToken(operator, sourceMint, decimals) => r := AddToken(operator, sourceMint, decimals);
      case VerifySignature(msgHash, indexes, previous) => r := VerifySignature(msgHash, indexes, previous, clock);
      case SourceToken(signer, mint, amount, recipient, targetMint, gas, proofNonce) =>
        var issued := BridgeAssetSourceChain(signer, mint, amount, recipient, targetMint, gas, proofNonce, clock);
        var _ :- issued;
        r := Ok(());
      case SourceSol(signer, amount, recipient, proofNonce) =>
        var issued := BridgeAssetSourceChainSol(signer, amount, recipient, proofNonce, clock);
        var _ :- issued;
        r := Ok(());
      case Release(operator, msgHash, claim) =>
        match claim
        case TokenClaim(sender, recipient, sourceMint, mint, amount, nonce, txId, gas) =>
          r := BridgeAssetTargetChain(operator, msgHash, txId, sender, sourceMint, mint, recipient, amount, nonce,
                                      gas, clock);
        case SolClaim(sender, recipient, amount, nonce, txId) =>
          r := BridgeAssetTargetChainSol(operator, msgHash, txId, sender, recipient, amount, nonce, clock);
    }

    /** Runs one instruction atomically. */
    method Execute(ix: Instruction, clock: Clock) returns (r: Result<()>)
      modifies this
      ensures match Step(cfg, old(State()), ix, clock)
              case Ok(s) => r.Ok? && State() == s
              case Err(e) => r == Err(e) && State() == old(State())
    {
      var before := State();
      r := Dispatch(ix, clock);
      if r.Err? {
        Restore(before);
      }
    }
  }

  /** The `initialize` instruction, which takes the chain as a number. */
  method InitializeBridge(cfg: Config, chain: byte, feeVault: Pubkey, manager: Pubkey, operator: Pubkey,
                          clock: Clock, ledger: Ledger) returns (r: Result<Bridge>)
    ensures match ParseChain(chain)
            case Ok(c) =>
              r.Ok? && fresh(r.value) && r.value.cfg == cfg
              && r.value.State() == Initial(c, feeVault, manager, operator, clock, ledger)
            case Err(e) => r == Err(e)
  {
    var parsed :- ParseChain(chain);
    var bridge := new Bridge.Initialize(cfg, parsed, feeVault, manager, operator, clock, ledger);
    r := Ok(bridge);
  }
}
