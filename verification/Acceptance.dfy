/** Exactly which calls succeed, told from the input state and the fields of the call, and what each writes. */
module Acceptance {
  import opened Types
  import opened Payloads
  import opened Ed25519Codec
  import opened Ledgers
  import opened BridgeSpec
  import opened Approval
  import opened Batches
  import opened Effects

  // ------------------------------------------------- the cap, in integers

  function TenTo(n: nat): (p: nat)
    ensures p > 0
  {
    if n == 0 then 1 else 10 * TenTo(n - 1)
  }

  /** The listed tokens and their prices in cents; nothing for any other. */
  function Cents(known: KnownMints, mint: Pubkey): nat {
    if mint == known.usdc || mint == known.usdt || mint == known.layer then 100
    else if mint == known.pengu then 4
    else if mint == known.fartcoin then 150
    else if mint == known.ray then 300
    else 0
  }

  function Quotient(a: nat, b: nat): nat
    requires b > 0
  {
    a / b
  }

  /** The value of an amount at a price, `one` being one whole token: at least the price of one, in whole dollars. */
  function WholeDollars(cents: nat, amount: nat, one: nat): nat
    requires one > 0
  {
    Quotient(cents * (if amount < one then one else amount), 100 * one)
  }

  /** What a release on Solana is measured at: 200 dollars a SOL, the listed price of a token. */
  function Dollars(cfg: Config, s: State, c: Claim): Option<nat> {
    if s.chain != Solana then None
    else if c.SolClaim? then Some(c.amount / 5_000_000)
    else if Cents(cfg.known, c.mint) == 0 || c.mint !in s.ledger.mints then None
    else Some(WholeDollars(Cents(cfg.known, c.mint), c.amount, TenTo(s.ledger.mints[c.mint].decimals)))
  }

  lemma ScalingKeepsOrder(x: real, y: real, b: real)
    requires b > 0.0
    ensures x < y ==> x * b < y * b
    ensures x >= y ==> x * b >= y * b
  {
  }

  /** Dividing leaves the whole part and less than one. */
  lemma WholePart(x: real, b: real, q: real, r: real)
    requires b > 0.0 && 0.0 <= r < b && x * b == q * b + r
    ensures q <= x < q + 1.0
  {
    assert (x - q) * b == r;
    ScalingKeepsOrder(x - q, 0.0, b);
    ScalingKeepsOrder(x - q, 1.0, b);
  }

  lemma ProductAsReal(a: int, b: int)
    ensures (a * b) as real == a as real * b as real
  {
  }

  lemma FloorFromParts(a: nat, b: nat, q: nat, r: nat)
    requires r < b && a == q * b + r
    ensures (a as real / b as real).Floor == q
  {
    ProductAsReal(q, b);
    var x, product := a as real / b as real, q * b;
    assert a as real == product as real + r as real;
    assert x * b as real == a as real;
    WholePart(x, b as real, q as real, r as real);
  }

  lemma FloorOfQuotient(a: nat, b: nat)
    requires b > 0
    ensures (a as real / b as real).Floor == Quotient(a, b)
  {
    FloorFromParts(a, b, a / b, a % b);
  }

  lemma {:induction false} Pow10IsTenTo(n: nat)
    ensures Pow10(n) == TenTo(n) as real
  {
    if n > 0 {
      Pow10IsTenTo(n - 1);
    }
  }

  lemma FirstOfList(first: (Pubkey, real), rest: seq<(Pubkey, real)>, mint: Pubkey)
    ensures PriceIn([first] + rest, mint) == if first.0 == mint then Some(first.1) else PriceIn(rest, mint)
  {
    assert ([first] + rest)[1..] == rest;
  }

  lemma PriceInCents(known: KnownMints, mint: Pubkey)
    ensures PriceIn(Whitelist(known), mint)
            == if Cents(known, mint) == 0 then None else Some(Cents(known, mint) as real / 100.0)
  {
    hide PriceIn;
    var ray := [(known.ray, 3.0)];
    var fartcoin := [(known.fartcoin, 1.5)] + ray;
    var pengu := [(known.pengu, 0.04)] + fartcoin;
    var layer := [(known.layer, 1.0)] + pengu;
    var usdt := [(known.usdt, 1.0)] + layer;
    assert Whitelist(known) == [(known.usdc, 1.0)] + usdt && ray == [(known.ray, 3.0)] + [];
    FirstOfList((known.usdc, 1.0), usdt, mint);
    FirstOfList((known.usdt, 1.0), layer, mint);
    FirstOfList((known.layer, 1.0), pengu, mint);
    FirstOfList((known.pengu, 0.04), fartcoin, mint);
    FirstOfList((known.fartcoin, 1.5), ray, mint);
    FirstOfList((known.ray, 3.0), [], mint);
    assert PriceIn([], mint) == None;
  }

  /** The reals of the handlers come to these integers. */
  lemma MeasuredInIntegers(cfg: Config, s: State, c: Claim)
    ensures MeasuredDollars(cfg, s, c).Some? == Dollars(cfg, s, c).Some?
    ensures Dollars(cfg, s, c).Some? ==> MeasuredDollars(cfg, s, c).value.Floor == Dollars(cfg, s, c).value
  {
    hide Whitelist, PriceIn, Pow10, TenTo, WholeDollars, Cents;
    if c.SolClaim? {
      FloorOfQuotient(c.amount, 5_000_000);
      assert SolDollars(c.amount) == c.amount as real / 5_000_000.0;
    } else {
      PriceInCents(cfg.known, c.mint);
      if Dollars(cfg, s, c).Some? {
        TokenInIntegers(cfg.known, c.mint, c.amount, s.ledger.mints[c.mint].decimals);
      }
    }
  }

  lemma TokenInIntegers(known: KnownMints, mint: Pubkey, amount: u64, decimals: byte)
    requires Cents(known, mint) > 0
    ensures var one, dollars := TenTo(decimals), TokenDollars(known, mint, amount, decimals);
            dollars.Some? && dollars.value.Floor == WholeDollars(Cents(known, mint), amount, one)
  {
    hide Whitelist, PriceIn, Pow10, TenTo, Cents;
    PriceInCents(known, mint);
    Pow10IsTenTo(decimals);
    var cents, one := Cents(known, mint), TenTo(decimals);
    var m := if amount < one then one else amount;
    ClampedUnits(amount, one);
    Cross(cents, m, one);
    FloorOfQuotient(cents * m, 100 * one);
  }

  lemma ClampedUnits(amount: nat, one: nat)
    requires one > 0
    ensures var units := amount as real / one as real;
            (if units < 1.0 then 1.0 else units) == (if amount < one then one else amount) as real / one as real
  {
    var units := amount as real / one as real;
    assert units * one as real == amount as real;
  }

  lemma Cross(cents: nat, m: nat, one: nat)
    requires one > 0
    ensures cents as real / 100.0 * (m as real / one as real) == (cents * m) as real / (100 * one) as real
  {
    var x := m as real / one as real;
    assert m as real == x * one as real;
    assert (cents * m) as real == cents as real * m as real;
    assert (100 * one) as real == 100.0 * one as real;
    assert (cents * m) as real == cents as real / 100.0 * x * (100 * one) as real;
  }

  /** What is left in the bucket when the call comes. */
  function Left(s: State, clock: Clock): nat {
    if s.cap.epoch != clock.epoch then 1_000_000 else s.cap.remained
  }

  /** The dollars charged: never more than the cast to u64 can give. */
  function Charged(dollars: nat): nat {
    if dollars > U64_MAX then U64_MAX else dollars
  }

  predicate CapAllows(cfg: Config, s: State, c: Claim, createdAt: u64, clock: Clock) {
    match Dollars(cfg, s, c)
    case None => true
    case Some(dollars) => Charged(dollars) <= Left(s, clock) || createdAt + 21_600 <= clock.time
  }

  function CapAfter(cfg: Config, s: State, c: Claim, clock: Clock): Cap {
    match Dollars(cfg, s, c)
    case None => s.cap
    case Some(dollars) =>
      Cap(if Charged(dollars) <= Left(s, clock) then Left(s, clock) - Charged(dollars) else Left(s, clock), clock.epoch)
  }

  lemma CapExact(cfg: Config, s: State, c: Claim, createdAt: u64, clock: Clock)
    ensures ChargedCap(cfg, s, c, createdAt, clock).Ok? <==> CapAllows(cfg, s, c, createdAt, clock)
    ensures ChargedCap(cfg, s, c, createdAt, clock).Ok? ==>
              ChargedCap(cfg, s, c, createdAt, clock).value == CapAfter(cfg, s, c, clock)
  {
    hide MeasuredDollars, Dollars;
    MeasuredInIntegers(cfg, s, c);
  }

  // --------------------------------------------------------------- release

  /** The vault or the supply, and the lamports, allow the payout, and the recipient's balances have room for it. */
  predicate CanPay(cfg: Config, s: State, c: Claim) {
    var l, h, r := s.ledger, cfg.handler, c.recipient;
    && (c.TokenClaim? ==>
          && c.mint in s.tokens && c.mint in l.mints
          && if NativeHere(s.chain, s.tokens[c.mint]) then
               c.amount <= Tokens(l, h, c.mint) && (r == h || Tokens(l, r, c.mint) + c.amount <= U64_MAX)
             else
               Supply(l, c.mint) + c.amount <= U64_MAX && Tokens(l, r, c.mint) + c.amount <= U64_MAX)
    && (c.SolClaim? || c.gas > 0 ==>
          if s.chain == Solana then
            cfg.rent + SolOut(c) <= Lamports(l, h) && (r == h || Lamports(l, r) + SolOut(c) <= U64_MAX)
          else
            cfg.solayerBuild && Lamports(l, r) + SolOut(c) <= U64_MAX)
  }

  lemma PayExact(cfg: Config, s: State, c: Claim)
    requires c.TokenClaim? ==> c.mint in s.tokens && c.mint in s.ledger.mints
    ensures Pay(cfg, s, c).Ok? <==> CanPay(cfg, s, c)
  {
    hide MoveTokens, MintTokens, MoveLamports, AddLamports, NativeHere, Tokens, Supply;
    if c.TokenClaim? {
      var paid := PayTokens(cfg, NativeHere(s.chain, s.tokens[c.mint]), s.ledger, c.mint, c.recipient, c.amount);
      assert paid.Ok? ==> paid.value.lamports == s.ledger.lamports;
    }
  }

  predicate MayRelease(cfg: Config, s: State, operator: Pubkey, d: Digest, c: Claim, clock: Clock) {
    && operator == s.operator && !s.pause
    && d == cfg.hash(Payload(cfg.known.sol, c)) && cfg.hash(c.txId) !in s.proofs
    && d in s.records
    && 0 < |s.records[d].index| <= 10 && s.threshold <= |s.records[d].index| <= |s.guardians|
    && CapAllows(cfg, s, c, s.records[d].createdAt, clock)
    && (c.TokenClaim? ==> c.gas <= 500_000_000)
    && CanPay(cfg, s, c)
  }

  /** A release succeeds exactly then; it pays its claim, charges the cap, leaves a proof and closes the record. */
  lemma ReleaseExact(cfg: Config, s: State, operator: Pubkey, d: Digest, c: Claim, clock: Clock)
    ensures var r := Step(cfg, s, Release(operator, d, c), clock);
            && (r.Ok? <==> MayRelease(cfg, s, operator, d, c, clock))
            && (r.Ok? ==>
                  && Paid(cfg, s, r.value.ledger, c)
                  && r.value == s.(cap := CapAfter(cfg, s, c, clock), ledger := r.value.ledger,
                                   proofs := s.proofs[cfg.hash(c.txId) := Proof(d, c.txId, c.recipient, clock.time)],
                                   records := s.records - {d}))
  {
    hide Pay, ChargedCap, CapAllows, CapAfter, Payload, Paid, CanPay, Released;
    ReleasedExact(cfg, s, operator, d, c, clock);
    if Released(cfg, s, operator, d, c, clock).Ok? {
      ReleaseEffect(cfg, s, operator, d, c, clock);
    }
  }

  lemma ReleasedExact(cfg: Config, s: State, operator: Pubkey, d: Digest, c: Claim, clock: Clock)
    ensures var r := Released(cfg, s, operator, d, c, clock);
            && (r.Ok? <==> MayRelease(cfg, s, operator, d, c, clock))
            && (r.Ok? ==> r.value.cap == CapAfter(cfg, s, c, clock))
  {
    hide Pay, ChargedCap, CapAllows, CapAfter, Payload;
    if d in s.records {
      CapExact(cfg, s, c, s.records[d].createdAt, clock);
    }
    if c.TokenClaim? ==> c.mint in s.tokens && c.mint in s.ledger.mints {
      PayExact(cfg, s, c);
    }
    hide CanPay;
  }

  // ---------------------------------------------------------------- source

  /** The fee of a token's first transfer on Solayer. */
  function FirstUseFee(s: State, mint: Pubkey): nat {
    if s.chain == Solayer && !Classified(s.tokens, mint) then 10_000_000 else 0
  }

  /** The signer's lamports cover the fees and what crosses; the fee vault and the handler have room for theirs. */
  predicate LamportsCover(cfg: Config, s: State, signer: Pubkey, sol: nat, extra: nat) {
    var l, v, h := s.ledger, s.feeVault, cfg.handler;
    && s.fee <= Lamports(l, signer)
    && (if signer == v then 0 else s.fee) + sol + extra <= Lamports(l, signer)
    && (signer != v ==> Lamports(l, v) + s.fee + extra <= U64_MAX)
    && (s.chain == Solana && sol > 0 ==> Lamports(l, h) + (if v == h then s.fee else 0) + sol <= U64_MAX)
  }

  /** The accounts and the state admit a transfer by the signer. */
  predicate Admits(cfg: Config, s: State, signer: Pubkey, proofNonce: u64) {
    && !s.pause && signer != cfg.handler && (signer, proofNonce) !in s.sourceProofs && s.nonce < U64_MAX
  }

  /** The handler's vault has room for a token that is locked, the supply holds one that is burned. */
  predicate TokenFits(cfg: Config, s: State, mint: Pubkey, amount: u64) {
    && (Classified(s.tokens, mint) ==> !s.tokens[mint].paused)
    && if !Classified(s.tokens, mint) || NativeHere(s.chain, s.tokens[mint]) then
         Tokens(s.ledger, cfg.handler, mint) + amount <= U64_MAX
       else
         amount <= Supply(s.ledger, mint)
  }

  predicate MayTransferToken(cfg: Config, s: State, signer: Pubkey, mint: Pubkey, amount: u64, gas: u64,
                             proofNonce: u64)
  {
    && Admits(cfg, s, signer, proofNonce)
    && mint in s.ledger.mints && amount <= Tokens(s.ledger, signer, mint) && TokenFits(cfg, s, mint, amount)
    && (gas == 0 || 5_000_000 <= gas <= 500_000_000)
    && (gas > 0 && s.chain == Solayer ==> cfg.solayerBuild)
    && LamportsCover(cfg, s, signer, gas, FirstUseFee(s, mint))
  }

  predicate MayTransferSol(cfg: Config, s: State, signer: Pubkey, amount: u64, proofNonce: u64) {
    && Admits(cfg, s, signer, proofNonce)
    && 5_000_000 <= amount && (s.chain == Solayer ==> cfg.solayerBuild)
    && LamportsCover(cfg, s, signer, amount, 0)
  }

  lemma TakeGasExact(cfg: Config, chain: Chain, l: Ledger, signer: Pubkey, gas: u64)
    requires signer != cfg.handler
    ensures TakeGas(cfg, chain, l, signer, gas).Ok? <==>
              && (gas == 0 || 5_000_000 <= gas <= 500_000_000)
              && (gas > 0 ==>
                    && gas <= Lamports(l, signer)
                    && if chain == Solana then Lamports(l, cfg.handler) + gas <= U64_MAX else cfg.solayerBuild)
  {
    hide MoveLamports, SubLamports, Lamports;
  }

  lemma TakeTokensExact(cfg: Config, s: State, l: Ledger, signer: Pubkey, mint: Pubkey, amount: u64, targetMint: Pubkey)
    requires mint in l.mints && signer != cfg.handler
    requires l.tokens == s.ledger.tokens && l.mints == s.ledger.mints
    requires amount <= Tokens(s.ledger, signer, mint)
    ensures TakeTokens(cfg, s.chain, s.tokens, s.feeVault, l, signer, mint, amount, targetMint).Ok? <==>
              && TokenFits(cfg, s, mint, amount)
              && (FirstUseFee(s, mint) > 0 ==>
                    && FirstUseFee(s, mint) <= Lamports(l, signer)
                    && (signer != s.feeVault ==> Lamports(l, s.feeVault) + FirstUseFee(s, mint) <= U64_MAX))
  {
    hide MoveTokens, MoveLamports, BurnTokens, Lamports, Tokens, Supply, NativeHere;
    SameBalances(s.ledger, l);
    var locked := MoveTokens(l, signer, cfg.handler, mint, amount);
    if locked.Ok? {
      SameBalances(l, locked.value);
    }
  }

  /** A token transfer succeeds exactly then; it locks or burns the amount, and writes what `Written` says, with the
      token native to this chain if it was not known. */
  lemma TokenTransferExact(cfg: Config, s: State, signer: Pubkey, mint: Pubkey, amount: u64, recipient: Pubkey,
                           targetMint: Pubkey, gas: u64, proofNonce: u64, clock: Clock)
    ensures var r := Step(cfg, s, SourceToken(signer, mint, amount, recipient, targetMint, gas, proofNonce), clock);
            && (r.Ok? <==> MayTransferToken(cfg, s, signer, mint, amount, gas, proofNonce))
            && (r.Ok? ==>
                  && Taken(cfg, s, r.value.ledger, signer, gas, s.fee + FirstUseFee(s, mint), Some((mint, amount)))
                  && Written(cfg, s, r.value, signer, recipient, mint, amount, proofNonce, clock,
                             s.tokens[mint :=
                               if Classified(s.tokens, mint) then s.tokens[mint]
                               else if s.chain == Solana then TokenInfo(mint, targetMint, true, false, false)
                               else TokenInfo(targetMint, mint, false, true, false)]))
  {
    hide SourcedToken, Taken, Written, MayTransferToken;
    SourcedTokenExact(cfg, s, signer, mint, amount, recipient, targetMint, gas, proofNonce, clock);
    if SourcedToken(cfg, s, signer, mint, amount, recipient, targetMint, gas, proofNonce, clock).Ok? {
      SourceTokenEffect(cfg, s, signer, mint, amount, recipient, targetMint, gas, proofNonce, clock);
    }
  }

  lemma SourcedTokenExact(cfg: Config, s: State, signer: Pubkey, mint: Pubkey, amount: u64, recipient: Pubkey,
                          targetMint: Pubkey, gas: u64, proofNonce: u64, clock: Clock)
    ensures SourcedToken(cfg, s, signer, mint, amount, recipient, targetMint, gas, proofNonce, clock).Ok? <==>
            MayTransferToken(cfg, s, signer, mint, amount, gas, proofNonce)
  {
    hide TakeGas, TakeTokens, MoveLamports, SourceDigest, TokenFits, Lamports, Tokens;
    var fee := MoveLamports(s.ledger, signer, s.feeVault, s.fee);
    if signer != cfg.handler && fee.Ok? && mint in s.ledger.mints && amount <= Tokens(s.ledger, signer, mint) {
      MoveLamportsEffect(s.ledger, signer, s.feeVault, s.fee);
      TakeGasExact(cfg, s.chain, fee.value, signer, gas);
      var taken := TakeGas(cfg, s.chain, fee.value, signer, gas);
      if taken.Ok? {
        TakeGasEffect(cfg, s.chain, fee.value, signer, gas);
        TakeTokensExact(cfg, s, taken.value, signer, mint, amount, targetMint);
      }
    }
  }

  /** The same for a transfer of SOL. */
  lemma SolTransferExact(cfg: Config, s: State, signer: Pubkey, amount: u64, recipient: Pubkey, proofNonce: u64,
                         clock: Clock)
    ensures var r := Step(cfg, s, SourceSol(signer, amount, recipient, proofNonce), clock);
            && (r.Ok? <==> MayTransferSol(cfg, s, signer, amount, proofNonce))
            && (r.Ok? ==>
                  && Taken(cfg, s, r.value.ledger, signer, amount, s.fee, None)
                  && Written(cfg, s, r.value, signer, recipient, cfg.known.sol, amount, proofNonce, clock, s.tokens))
  {
    hide SourcedSol, Taken, Written, MayTransferSol;
    SourcedSolExact(cfg, s, signer, amount, recipient, proofNonce, clock);
    if SourcedSol(cfg, s, signer, amount, recipient, proofNonce, clock).Ok? {
      SourceSolEffect(cfg, s, signer, amount, recipient, proofNonce, clock);
    }
  }

  lemma SourcedSolExact(cfg: Config, s: State, signer: Pubkey, amount: u64, recipient: Pubkey, proofNonce: u64,
                        clock: Clock)
    ensures SourcedSol(cfg, s, signer, amount, recipient, proofNonce, clock).Ok? <==>
            MayTransferSol(cfg, s, signer, amount, proofNonce)
  {
    hide MoveLamports, SubLamports, SourceDigest, Lamports;
    var fee := MoveLamports(s.ledger, signer, s.feeVault, s.fee);
    if signer != cfg.handler && fee.Ok? {
      MoveLamportsEffect(s.ledger, signer, s.feeVault, s.fee);
    }
  }

  // ---------------------------------------------------- the other handlers

  /** Signatures are recorded exactly when the Ed25519 instruction carries the named guardians' signatures of the
      digest, in order, and the indexes extend the record; anyone may call. */
  lemma VerificationExact(cfg: Config, s: State, d: Digest, indexes: seq<byte>, previous: Ed25519Ix, clock: Clock)
    ensures var r := Step(cfg, s, VerifySignature(d, indexes, previous), clock);
            var open := if d in s.records then s.records[d].index else [];
            && (r.Ok? <==>
                  && previous.isEd25519Program && previous.accounts == 0
                  && Extends(s.guardians, open, indexes)
                  && LoadedSignatures(previous.data).Ok?
                  && Covers(s.guardians, indexes, LoadedSignatures(previous.data).value, d))
            && (r.Ok? ==> r.value == s.(records := s.records[d := Record(open + indexes, clock.time)]))
  {
    hide LoadedSignatures, CheckBatch, Covers, Extends;
    if previous.isEd25519Program && previous.accounts == 0 && LoadedSignatures(previous.data).Ok? {
      BatchVerified(s, d, indexes, previous, LoadedSignatures(previous.data).value, clock);
    } else if VerifiedBatch(s, d, indexes, previous, clock).Ok? {
      VerifierExact(previous, CheckBatch(s.guardians, OpenIndex(s, d), indexes).value, d);
    }
  }

  /** `add_token` is the operator's; it creates the wrapped mint with the decimals given, if there is none, and
      records the mint it wraps, if there is no record. */
  lemma AddTokenExact(cfg: Config, s: State, operator: Pubkey, sourceMint: Pubkey, decimals: byte, clock: Clock)
    ensures var r, mint := Step(cfg, s, AddToken(operator, sourceMint, decimals), clock), cfg.derive(sourceMint);
            && (r.Ok? <==>
                  operator == s.operator && (mint in s.ledger.mints ==> s.ledger.mints[mint].decimals == decimals))
            && (r.Ok? ==>
                  && r.value == s.(ledger := r.value.ledger, tokens := r.value.tokens)
                  && r.value.ledger.lamports == s.ledger.lamports && r.value.ledger.tokens == s.ledger.tokens
                  && r.value.ledger.mints == (if mint in s.ledger.mints then s.ledger.mints
                                              else s.ledger.mints[mint := Mint(decimals, 0)])
                  && r.value.tokens == s.tokens[mint :=
                       if Classified(s.tokens, mint) then s.tokens[mint]
                       else if s.chain == Solana then TokenInfo(mint, sourceMint, false, true, false)
                       else TokenInfo(sourceMint, mint, true, false, false)])
  {
  }

  /** The manager's settings: each changes its own field, and the fee vault must change. */
  lemma SettingExact(cfg: Config, s: State, manager: Pubkey, setting: Setting, clock: Clock)
    ensures var r := Step(cfg, s, Configure(manager, setting), clock);
            && (r.Ok? <==> manager == s.manager && (setting.SetFeeVault? ==> setting.feeVault != s.feeVault))
            && (r.Ok? ==>
                  && r.value.pause == (if setting.SetPause? then setting.pause else s.pause)
                  && r.value.feeVault == (if setting.SetFeeVault? then setting.feeVault else s.feeVault)
                  && r.value.fee == (if setting.SetFee? then setting.fee else s.fee)
                  && r.value.manager == (if setting.SetManager? then setting.newManager else s.manager)
                  && r.value.operator == (if setting.SetOperator? then setting.newOperator else s.operator)
                  && r.value.cap == Cap(if setting.SetCap? then setting.remained else s.cap.remained, s.cap.epoch)
                  && r.value == s.(pause := r.value.pause, feeVault := r.value.feeVault, fee := r.value.fee,
                                   manager := r.value.manager, operator := r.value.operator, cap := r.value.cap))
  {
  }

  /** What `initialize` leaves: an unset threshold, a full bucket, no guardians and no accounts, and a manager and an
      operator that can do what is theirs and nobody else. */
  lemma InitialExact(cfg: Config, number: byte, feeVault: Pubkey, manager: Pubkey, operator: Pubkey, clock: Clock,
                     ledger: Ledger, other: Pubkey, key: Pubkey, decimals: byte)
    ensures ParseChain(number)
            == if number == 1 then Ok(Solana) else if number == 2 then Ok(Solayer) else Err(InvalidChain)
    ensures ParseChain(number).Ok? ==>
              var s := Initial(ParseChain(number).value, feeVault, manager, operator, clock, ledger);
              && s.chain == ParseChain(number).value && s.feeVault == feeVault && s.ledger == ledger
              && s.threshold == 255 && s.cap == Cap(1_000_000, clock.epoch) && s.fee == 500_000
              && s.nonce == 0 && !s.pause && s.guardians == []
              && s.records == map[] && s.proofs == map[] && s.sourceProofs == map[] && s.tokens == map[]
              && (Step(cfg, s, AddGuardian(other, key), clock).Ok? <==> other == manager)
              && (cfg.derive(key) !in ledger.mints ==>
                    (Step(cfg, s, AddToken(other, key, decimals), clock).Ok? <==> other == operator))
  {
  }
}
