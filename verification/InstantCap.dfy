/** The instant-bridge cap: one dollar bucket for both target handlers, and the wait that replaces it. */
module InstantCap {
  import opened Types
  import opened Payloads
  import opened BridgeSpec
  import opened Runs

  /** An account of the current window, kept apart from the bucket: the value last set, the truncated
      dollars of the instant releases since, their true worth, their number and the largest measure of one. */
  datatype Window = Window(limit: nat, spent: nat, worth: real, count: nat, largest: real)

  /** No counted release was measured at 2^64 dollars or more, where the cast to u64 saturates. */
  predicate Unsaturated(w: Window) {
    w.largest < U64_MAX as real + 1.0
  }

  function Opened(limit: nat): Window {
    Window(limit, 0, 0.0, 0, 0.0)
  }

  /** The worth of a claim before the one-token minimum and before truncation. */
  function Worth(cfg: Config, s: State, c: Claim): real {
    if c.SolClaim? then SolDollars(c.amount)
    else if c.mint !in s.ledger.mints then 0.0
    else match PriceIn(Whitelist(cfg.known), c.mint)
      case None => 0.0
      case Some(price) => price * Units(c.amount, s.ledger.mints[c.mint].decimals)
  }

  /** Whether what is left of the window covers a claim. */
  predicate Covers(w: Window, dollars: real)
    requires dollars >= 0.0
  {
    w.spent + Truncate(dollars) <= w.limit
  }

  function Renewed(w: Window, cap: Cap, clock: Clock): Window {
    if cap.epoch != clock.epoch then Opened(DOLLAR_CAP_PER_EPOCH) else w
  }

  ghost function NextWindow(cfg: Config, s: State, w: Window, tx: Tx): Window {
    if !Succeeds(cfg, s, tx) then w
    else match tx.action.ix
      case Configure(_, SetCap(remained)) => Opened(remained)
      case Release(_, _, c) =>
        (match MeasuredDollars(cfg, s, c)
         case None => w
         case Some(dollars) =>
           var now := Renewed(w, s.cap, tx.clock);
           if Covers(now, dollars) then
             Window(now.limit, now.spent + Truncate(dollars), now.worth + Worth(cfg, s, c), now.count + 1,
                    if dollars > now.largest then dollars else now.largest)
           else now)
      case _ => w
  }

  ghost function WindowOf(cfg: Config, s0: State, txs: seq<Tx>): Window {
    if txs == [] then Opened(DOLLAR_CAP_PER_EPOCH)
    else
      var front := txs[..|txs| - 1];
      NextWindow(cfg, After(cfg, s0, front), WindowOf(cfg, s0, front), txs[|txs| - 1])
  }

  lemma ReleaseCharges(cfg: Config, s: State, operator: Pubkey, d: Digest, c: Claim, clock: Clock)
    requires Released(cfg, s, operator, d, c, clock).Ok?
    ensures d in s.records && Ok(Released(cfg, s, operator, d, c, clock).value.cap)
                              == ChargedCap(cfg, s, c, s.records[d].createdAt, clock)
  {
    hide Pay, ChargedCap;
  }

  lemma StepKeepsWindow(cfg: Config, s: State, w: Window, ix: Instruction, clock: Clock)
    requires Step(cfg, s, ix, clock).Ok? && s.cap.remained + w.spent == w.limit
    ensures var w' := NextWindow(cfg, s, w, Tx(Call(ix), clock));
            Step(cfg, s, ix, clock).value.cap.remained + w'.spent == w'.limit
  {
    hide Released, SourcedToken, SourcedSol, AddedToken, VerifiedBatch, MeasuredDollars, Worth, Truncate;
    match ix
    case Configure(_, _) =>
    case Release(operator, d, c) => ReleaseCharges(cfg, s, operator, d, c, clock);
    case _ => StepFrame(cfg, s, ix, clock);
  }

  /** Conservation: the bucket is always the value last set, by an epoch or by the manager, less the truncated
      dollars of the instant releases of both handlers since. So they never exceed it, and delayed
      releases and failed steps take nothing. */
  lemma {:induction false} CapConserved(cfg: Config, s0: State, txs: seq<Tx>)
    requires IsInitial(cfg, s0)
    ensures var w := WindowOf(cfg, s0, txs);
            After(cfg, s0, txs).cap.remained + w.spent == w.limit
  {
    if txs != [] {
      var front, tx := txs[..|txs| - 1], txs[|txs| - 1];
      CapConserved(cfg, s0, front);
      var s, w := After(cfg, s0, front), WindowOf(cfg, s0, front);
      if Succeeds(cfg, s, tx) {
        StepKeepsWindow(cfg, s, w, tx.action.ix, tx.clock);
      }
      hide Step;
    }
  }

  // --------------------------------------------------------------- rounding

  lemma WhitelistPricesPositive(known: KnownMints, mint: Pubkey)
    ensures var price := PriceIn(Whitelist(known), mint); price.Some? ==> price.value > 0.0
  {
  }

  lemma Scale(price: real, a: real, b: real)
    requires price >= 0.0 && a <= b
    ensures price * a <= price * b
  {
  }

  lemma ClampRaises(known: KnownMints, mint: Pubkey, amount: u64, decimals: byte)
    requires TokenDollars(known, mint, amount, decimals).Some?
    ensures 0.0 <= PriceIn(Whitelist(known), mint).value * Units(amount, decimals)
                <= TokenDollars(known, mint, amount, decimals).value
  {
    WhitelistPricesPositive(known, mint);
    hide Whitelist, PriceIn;
    var price, units := PriceIn(Whitelist(known), mint).value, Units(amount, decimals);
    assert units >= 0.0;
    hide Units;
    Scale(price, units, if units < 1.0 then 1.0 else units);
    Scale(price, 0.0, units);
  }

  /** The one-token minimum only raises the measure. */
  lemma WorthIsMeasured(cfg: Config, s: State, c: Claim)
    requires MeasuredDollars(cfg, s, c).Some?
    ensures 0.0 <= Worth(cfg, s, c) <= MeasuredDollars(cfg, s, c).value
  {
    hide TokenDollars, Units, Whitelist, PriceIn;
    if c.TokenClaim? {
      ClampRaises(cfg.known, c.mint, c.amount, s.ledger.mints[c.mint].decimals);
    }
  }

  /** Truncation loses less than a dollar exactly when the cast does not saturate. */
  lemma TruncationExact(dollars: real)
    requires dollars >= 0.0
    ensures dollars < Truncate(dollars) as real + 1.0 <==> dollars < U64_MAX as real + 1.0
  {
  }

  /** Below the largest limit a counted release cannot saturate, and otherwise each is charged within a dollar
      of its worth. */
  predicate Bounded(w: Window) {
    && w.spent <= w.limit
    && (w.limit < U64_MAX ==> Unsaturated(w))
    && (w.count == 0 ==> w.worth == 0.0)
    && (w.count > 0 && Unsaturated(w) ==> w.worth < w.spent as real + w.count as real)
  }

  lemma NextWindowBounded(cfg: Config, s: State, w: Window, tx: Tx)
    requires Bounded(w)
    ensures Bounded(NextWindow(cfg, s, w, tx))
  {
    hide Step, Worth, Truncate, MeasuredDollars;
    if Succeeds(cfg, s, tx) && tx.action.ix.Release? && MeasuredDollars(cfg, s, tx.action.ix.claim).Some? {
      var c := tx.action.ix.claim;
      WorthIsMeasured(cfg, s, c);
      var dollars := MeasuredDollars(cfg, s, c).value;
      TruncationExact(dollars);
      TruncatedBelowMax(dollars);
    }
  }

  lemma TruncatedBelowMax(dollars: real)
    requires dollars >= 0.0
    ensures Truncate(dollars) < U64_MAX ==> dollars < U64_MAX as real + 1.0
  {
  }

  /** Rounding: k instant releases in a window of limit C are truly worth less than C + k dollars, for every limit,
      when no counted release measures 2^64 dollars; and none can below the largest limit. */
  lemma {:induction false} TrueWorthBounded(cfg: Config, s0: State, txs: seq<Tx>)
    requires IsInitial(cfg, s0)
    ensures var w := WindowOf(cfg, s0, txs);
            && (w.count >= 1 && Unsaturated(w) ==> w.worth < w.limit as real + w.count as real)
            && (w.limit < U64_MAX ==> Unsaturated(w))
            && Bounded(w)
  {
    if txs != [] {
      var front := txs[..|txs| - 1];
      TrueWorthBounded(cfg, s0, front);
      NextWindowBounded(cfg, After(cfg, s0, front), WindowOf(cfg, s0, front), txs[|txs| - 1]);
    }
  }

  lemma ScaledDivision(price: real, a: real, p: real, bound: real)
    requires p >= 1.0
    ensures price * (a / p) < bound <==> price * a < bound * p
  {
    assert a == (a / p) * p;
    assert price * a == (price * (a / p)) * p;
    var x := price * (a / p);
    assert x < bound ==> x * p < bound * p;
    assert x >= bound ==> x * p >= bound * p;
  }

  lemma SolWorthSmall(amount: u64)
    ensures SolDollars(amount) < U64_MAX as real + 1.0
  {
  }

  lemma MeasuredToken(cfg: Config, s: State, c: Claim)
    requires MeasuredDollars(cfg, s, c).Some? && c.TokenClaim?
    ensures PriceIn(Whitelist(cfg.known), c.mint).Some? && c.mint in s.ledger.mints
  {
    hide Whitelist, PriceIn;
  }

  /** What a token is worth stays below 2^64 dollars if and only if its amount and price say so; SOL always does. */
  lemma WorthExact(cfg: Config, s: State, c: Claim)
    requires MeasuredDollars(cfg, s, c).Some?
    ensures Worth(cfg, s, c) < U64_MAX as real + 1.0 <==>
            (c.TokenClaim? ==>
               PriceIn(Whitelist(cfg.known), c.mint).value * c.amount as real
               < (U64_MAX as real + 1.0) * Pow10(s.ledger.mints[c.mint].decimals))
  {
    hide Whitelist, PriceIn, TokenDollars, SolDollars;
    if c.SolClaim? {
      SolWorthSmall(c.amount);
    } else {
      hide Pow10;
      MeasuredToken(cfg, s, c);
      ScaledDivision(PriceIn(Whitelist(cfg.known), c.mint).value, c.amount as real,
                     Pow10(s.ledger.mints[c.mint].decimals), U64_MAX as real + 1.0);
    }
  }

  /** At the largest limit the first instant release keeps the bound if and only if it is one of SOL, or price times
      amount is below 2^64 units of the token's decimals. */
  lemma SaturationExact(cfg: Config, s: State, operator: Pubkey, d: Digest, c: Claim, clock: Clock)
    requires Released(cfg, s, operator, d, c, clock).Ok? && MeasuredDollars(cfg, s, c).Some?
    requires s.cap == Cap(U64_MAX, clock.epoch)
    ensures var w := NextWindow(cfg, s, Opened(U64_MAX), Tx(Call(Release(operator, d, c)), clock));
            && w.count == 1
            && (w.worth < w.limit as real + w.count as real <==>
                (c.TokenClaim? ==>
                   PriceIn(Whitelist(cfg.known), c.mint).value * c.amount as real
                   < (U64_MAX as real + 1.0) * Pow10(s.ledger.mints[c.mint].decimals)))
  {
    hide Released, Worth, MeasuredDollars, Whitelist, PriceIn;
    WorthExact(cfg, s, c);
  }

  lemma RayPrice(known: KnownMints)
    requires known.ray !in {known.usdc, known.usdt, known.layer, known.pengu, known.fartcoin}
    ensures PriceIn(Whitelist(known), known.ray) == Some(3.0)
  {
    var list := Whitelist(known);
    assert list[1..][0] == list[1] && list[1..][1..][0] == list[2] && list[1..][1..][1..][0] == list[3];
    assert list[1..][1..][1..][1..][0] == list[4] && list[1..][1..][1..][1..][1..][0] == list[5];
    assert PriceIn(list[1..][1..][1..][1..][1..], known.ray) == Some(3.0);
    assert PriceIn(list[1..][1..][1..], known.ray) == Some(3.0);
    assert PriceIn(list[1..], known.ray) == Some(3.0);
  }

  /** It can be worth more: releasing the largest amount of a three-dollar token without decimals, whenever it is
      approved and can be paid, passes as an instant release at a third of its worth and breaks the bound. */
  lemma LargestLimitSaturates(cfg: Config, s: State, d: Digest, c: Claim, clock: Clock)
    requires cfg.known.ray !in {cfg.known.usdc, cfg.known.usdt, cfg.known.layer, cfg.known.pengu, cfg.known.fartcoin}
    requires s.chain == Solana && !s.pause && s.cap == Cap(U64_MAX, clock.epoch)
    requires c.TokenClaim? && c.mint == cfg.known.ray && c.amount == U64_MAX && c.gas == 0
    requires c.mint in s.tokens && c.mint in s.ledger.mints && s.ledger.mints[c.mint].decimals == 0
    requires cfg.hash(c.txId) !in s.proofs && d == cfg.hash(Payload(cfg.known.sol, c))
    requires d in s.records && CheckApproval(s, s.records[d]).Ok? && Pay(cfg, s, c).Ok?
    ensures Released(cfg, s, s.operator, d, c, clock).Ok?
    ensures Released(cfg, s, s.operator, d, c, clock).value.cap == Cap(0, clock.epoch)
    ensures var w := NextWindow(cfg, s, Opened(U64_MAX), Tx(Call(Release(s.operator, d, c)), clock));
            w.count == 1 && w.worth > w.limit as real + w.count as real
  {
    hide Payload, Pay, CheckApproval, Whitelist, PriceIn;
    RayPrice(cfg.known);
    assert Pow10(0) == 1.0;
    assert MeasuredDollars(cfg, s, c) == Some(3.0 * U64_MAX as real);
    assert Worth(cfg, s, c) == 3.0 * U64_MAX as real;
    SaturationExact(cfg, s, s.operator, d, c, clock);
  }

  /** A larger amount is never measured lower. */
  lemma ChargeMonotone(known: KnownMints, mint: Pubkey, a: u64, b: u64, decimals: byte)
    requires a <= b
    ensures TokenDollars(known, mint, a, decimals).Some? ==>
              Truncate(TokenDollars(known, mint, a, decimals).value)
              <= Truncate(TokenDollars(known, mint, b, decimals).value)
    ensures Truncate(SolDollars(a)) <= Truncate(SolDollars(b))
  {
    var price := PriceIn(Whitelist(known), mint);
    if price.Some? {
      WhitelistPricesPositive(known, mint);
      assert Units(a, decimals) <= Units(b, decimals) by {
        Divide(a as real, b as real, Pow10(decimals));
      }
      Scale(price.value, if Units(a, decimals) < 1.0 then 1.0 else Units(a, decimals),
                         if Units(b, decimals) < 1.0 then 1.0 else Units(b, decimals));
    }
  }

  lemma Divide(a: real, b: real, p: real)
    requires a <= b && p >= 1.0
    ensures a / p <= b / p
  {
    assert (b - a) / p >= 0.0;
  }

  // ------------------------------------------------------------------ delay

  ghost predicate ClockMonotone(txs: seq<Tx>) {
    forall i, j :: 0 <= i <= j < |txs| ==> txs[i].clock.time <= txs[j].clock.time
  }

  lemma StepKeepsRestamp(cfg: Config, s: State, ix: Instruction, clock: Clock, d: Digest)
    requires Step(cfg, s, ix, clock).Ok?
    ensures var t := Step(cfg, s, ix, clock).value;
            d in t.records ==>
              if ix.VerifySignature? && ix.msgHash == d then t.records[d].createdAt == clock.time
              else d in s.records && t.records[d] == s.records[d]
  {
    hide Released, SourcedToken, SourcedSol, AddedToken, VerifiedBatch;
    if !ix.VerifySignature? && !ix.Release? {
      StepFrame(cfg, s, ix, clock);
    }
  }

  /** A record is never older than any batch that went into it: every batch restamps it. */
  lemma {:induction false} RecordRestamped(cfg: Config, s0: State, txs: seq<Tx>, d: Digest, j: nat, k: nat)
    requires ClockMonotone(txs) && j < k <= |txs| && Records(cfg, Before(cfg, s0, txs, j), txs[j], d)
    ensures var s := Before(cfg, s0, txs, k); d in s.records ==> s.records[d].createdAt >= txs[j].clock.time
  {
    hide Step, Act, Before, After;
    AfterPrefix(cfg, s0, txs, k - 1);
    ActRestamps(cfg, Before(cfg, s0, txs, k - 1), txs[k - 1], d);
    if j < k - 1 {
      RecordRestamped(cfg, s0, txs, d, j, k - 1);
    }
  }

  lemma ActRestamps(cfg: Config, s: State, tx: Tx, d: Digest)
    ensures var t := Act(cfg, s, tx);
            d in t.records ==>
              if Records(cfg, s, tx, d) then t.records[d].createdAt == tx.clock.time
              else d in s.records && t.records[d] == s.records[d]
  {
    hide Step;
    if Succeeds(cfg, s, tx) {
      StepKeepsRestamp(cfg, s, tx.action.ix, tx.clock, d);
    }
  }

  /** A release that succeeds although the cap does not cover it. */
  ghost predicate ReleasesAboveCap(cfg: Config, s: State, operator: Pubkey, d: Digest, c: Claim, clock: Clock) {
    && Released(cfg, s, operator, d, c, clock).Ok?
    && MeasuredDollars(cfg, s, c).Some?
    && Truncate(MeasuredDollars(cfg, s, c).value) > Refreshed(s.cap, clock).remained
  }

  /** A release above what is left of the cap comes at least six hours after every signature batch that was
      ever recorded for its digest. */
  lemma DelayGuaranteed(cfg: Config, s0: State, txs: seq<Tx>, j: nat, operator: Pubkey, d: Digest, c: Claim,
                        clock: Clock)
    requires ClockMonotone(txs) && j < |txs|
    ensures (&& Records(cfg, Before(cfg, s0, txs, j), txs[j], d)
             && ReleasesAboveCap(cfg, After(cfg, s0, txs), operator, d, c, clock)) ==>
              clock.time >= txs[j].clock.time + AWAITING_TIME_SECONDS
  {
    hide Released, Records, Act;
    if Records(cfg, Before(cfg, s0, txs, j), txs[j], d)
       && ReleasesAboveCap(cfg, After(cfg, s0, txs), operator, d, c, clock) {
      RecordRestamped(cfg, s0, txs, d, j, |txs|);
      assert txs[..|txs|] == txs;
      ReleaseCharges(cfg, After(cfg, s0, txs), operator, d, c, clock);
    }
  }
}
