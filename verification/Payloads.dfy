/** The byte strings guardians sign, and the claims they encode. */
module Payloads {
  import opened Types
  import opened Encoding

  /** What a release pays out: one constructor per target handler. */
  datatype Claim =
    | TokenClaim(sender: Pubkey, recipient: Pubkey, sourceMint: Pubkey, mint: Pubkey,
                 amount: u64, nonce: u64, txId: TxId, gas: u64)
    | SolClaim(sender: Pubkey, recipient: Pubkey, amount: u64, nonce: u64, txId: TxId)

  /** The bytes `bridge_asset_target_chain` hashes. */
  function TokenPayload(sender: Pubkey, recipient: Pubkey, sourceMint: Pubkey, mint: Pubkey,
                        amount: u64, nonce: u64, txId: TxId, gas: u64): Bytes
  {
    sender + recipient + sourceMint + mint + Be64(amount) + Be64(nonce) + txId + Be64(gas)
  }

  /** The bytes `bridge_asset_target_chain_sol` hashes. */
  function SolPayload(solMint: Pubkey, sender: Pubkey, recipient: Pubkey,
                      amount: u64, nonce: u64, txId: TxId): Bytes
  {
    sender + recipient + solMint + Be64(amount) + Be64(nonce) + txId
  }

  function Payload(solMint: Pubkey, c: Claim): Bytes {
    match c
    case TokenClaim(sender, recipient, sourceMint, mint, amount, nonce, txId, gas) =>
      TokenPayload(sender, recipient, sourceMint, mint, amount, nonce, txId, gas)
    case SolClaim(sender, recipient, amount, nonce, txId) =>
      SolPayload(solMint, sender, recipient, amount, nonce, txId)
  }

  /** The script's `Buffer.concat` for SOL; the mint is an argument there. */
  function ScriptSolMessage(sender: Pubkey, recipient: Pubkey, mint: Pubkey,
                            amount: u64, nonce: u64, txId: TxId): Bytes
  {
    Flatten([sender, recipient, mint, Be64(amount), Be64(nonce), txId])
  }

  /** The script's `Buffer.concat` for tokens: it carries a single mint. */
  function ScriptTokenMessage(sender: Pubkey, recipient: Pubkey, mint: Pubkey,
                              amount: u64, nonce: u64, txId: TxId, gas: u64): Bytes
  {
    Flatten([sender, recipient, mint, Be64(amount), Be64(nonce), txId, Be64(gas)])
  }

  /** The bytes a source handler hashes into its proof account. */
  function SourceMessage(signer: Pubkey, recipient: Pubkey, mint: Pubkey, amount: u64, proofNonce: u64): Bytes {
    signer + recipient + mint + Be64(amount) + Be64(proofNonce)
  }

  lemma ConcatInjective(a: Bytes, a': Bytes, b: Bytes, b': Bytes)
    requires |a| == |a'| && a + b == a' + b'
    ensures a == a' && b == b'
  {
    assert a == (a + b)[..|a|] == (a' + b')[..|a'|] == a';
    assert b == (a + b)[|a|..] == (a' + b')[|a'|..] == b';
  }

  /** Equal-sized fields can be read back from the end of their concatenation. */
  lemma LastFieldInjective(a: Bytes, a': Bytes, b: Bytes, b': Bytes)
    requires |b| == |b'| && a + b == a' + b'
    ensures a == a' && b == b'
  {
    assert |a + b| == |a' + b'|;
    ConcatInjective(a, a', b, b');
  }

  /** A payload determines every field of the claim it encodes, and its kind. */
  lemma PayloadInjective(solMint: Pubkey, c: Claim, d: Claim)
    requires Payload(solMint, c) == Payload(solMint, d)
    ensures c == d
  {
    PayloadSize(solMint, c);
    PayloadSize(solMint, d);
    match c
    case TokenClaim(s, r, sm, m, a, n, t, g) =>
      LastFieldInjective(s + r + sm + m + Be64(a) + Be64(n) + t,
                         d.sender + d.recipient + d.sourceMint + d.mint + Be64(d.amount) + Be64(d.nonce) + d.txId,
                         Be64(g), Be64(d.gas));
      Be64Injective(g, d.gas);
      LastFieldInjective(s + r + sm + m + Be64(a) + Be64(n),
                         d.sender + d.recipient + d.sourceMint + d.mint + Be64(d.amount) + Be64(d.nonce), t, d.txId);
      NumbersInjective(s + r + sm + m, d.sender + d.recipient + d.sourceMint + d.mint, a, d.amount, n, d.nonce);
      LastFieldInjective(s + r + sm, d.sender + d.recipient + d.sourceMint, m, d.mint);
      LastFieldInjective(s + r, d.sender + d.recipient, sm, d.sourceMint);
      LastFieldInjective(s, d.sender, r, d.recipient);
    case SolClaim(s, r, a, n, t) =>
      LastFieldInjective(s + r + solMint + Be64(a) + Be64(n),
                         d.sender + d.recipient + solMint + Be64(d.amount) + Be64(d.nonce), t, d.txId);
      NumbersInjective(s + r + solMint, d.sender + d.recipient + solMint, a, d.amount, n, d.nonce);
      LastFieldInjective(s + r, d.sender + d.recipient, solMint, solMint);
      LastFieldInjective(s, d.sender, r, d.recipient);
  }

  lemma NumbersInjective(p: Bytes, p': Bytes, a: u64, a': u64, n: u64, n': u64)
    requires p + Be64(a) + Be64(n) == p' + Be64(a') + Be64(n')
    ensures p == p' && a == a' && n == n'
  {
    LastFieldInjective(p + Be64(a), p' + Be64(a'), Be64(n), Be64(n'));
    LastFieldInjective(p, p', Be64(a), Be64(a'));
    Be64Injective(a, a');
    Be64Injective(n, n');
  }

  /** 216 bytes for a token claim, 176 for a SOL claim, so the two kinds never share bytes. */
  lemma PayloadSize(solMint: Pubkey, c: Claim)
    ensures |Payload(solMint, c)| == if c.TokenClaim? then 216 else 176
  {
  }

  /** The script hashes the bytes the SOL handler hashes exactly when it is given the SOL mint. */
  lemma ScriptSolMessageAgrees(solMint: Pubkey, sender: Pubkey, recipient: Pubkey, mint: Pubkey,
                               amount: u64, nonce: u64, txId: TxId)
    ensures ScriptSolMessage(sender, recipient, mint, amount, nonce, txId)
            == SolPayload(solMint, sender, recipient, amount, nonce, txId)
            <==> mint == solMint
  {
    FlattenSix(sender, recipient, mint, Be64(amount), Be64(nonce), txId);
    if ScriptSolMessage(sender, recipient, mint, amount, nonce, txId)
       == SolPayload(solMint, sender, recipient, amount, nonce, txId) {
      LastFieldInjective(sender + recipient + mint + Be64(amount) + Be64(nonce),
                         sender + recipient + solMint + Be64(amount) + Be64(nonce), txId, txId);
      NumbersInjective(sender + recipient + mint, sender + recipient + solMint, amount, amount, nonce, nonce);
      LastFieldInjective(sender + recipient, sender + recipient, mint, solMint);
    }
  }

  lemma FlattenSix(a: Bytes, b: Bytes, c: Bytes, d: Bytes, e: Bytes, f: Bytes)
    ensures Flatten([a, b, c, d, e, f]) == a + b + c + d + e + f
  {
    FlattenAppend([], a);
    FlattenAppend([a], b);
    FlattenAppend([a, b], c);
    FlattenAppend([a, b, c], d);
    FlattenAppend([a, b, c, d], e);
    FlattenAppend([a, b, c, d, e], f);
    assert [] + [a] == [a] && [a] + [b] == [a, b] && [a, b] + [c] == [a, b, c];
    assert [a, b, c] + [d] == [a, b, c, d] && [a, b, c, d] + [e] == [a, b, c, d, e];
    assert [a, b, c, d, e] + [f] == [a, b, c, d, e, f];
    assert [] + a == a;
  }

  lemma FlattenAppend(chunks: seq<Bytes>, last: Bytes)
    ensures Flatten(chunks + [last]) == Flatten(chunks) + last
  {
    var all := chunks + [last];
    assert all[..|all| - 1] == chunks;
  }

  /** The script's token message is 184 bytes: it is never what the handler hashes, for any inputs. */
  lemma ScriptTokenMessageNeverAgrees(solMint: Pubkey, sender: Pubkey, recipient: Pubkey, mint: Pubkey,
                                      amount: u64, nonce: u64, txId: TxId, gas: u64, c: Claim)
    ensures ScriptTokenMessage(sender, recipient, mint, amount, nonce, txId, gas) != Payload(solMint, c)
  {
    FlattenSix(sender, recipient, mint, Be64(amount), Be64(nonce), txId);
    FlattenAppend([sender, recipient, mint, Be64(amount), Be64(nonce), txId], Be64(gas));
    assert [sender, recipient, mint, Be64(amount), Be64(nonce), txId] + [Be64(gas)]
        == [sender, recipient, mint, Be64(amount), Be64(nonce), txId, Be64(gas)];
    PayloadSize(solMint, c);
  }

  /** A source proof's message determines the transfer it stands for, and is never one that guardians sign. */
  lemma SourceMessageInjective(signer: Pubkey, recipient: Pubkey, mint: Pubkey, amount: u64, proofNonce: u64,
                               signer': Pubkey, recipient': Pubkey, mint': Pubkey, amount': u64, proofNonce': u64,
                               solMint: Pubkey, c: Claim)
    ensures SourceMessage(signer, recipient, mint, amount, proofNonce)
            == SourceMessage(signer', recipient', mint', amount', proofNonce') ==>
              && signer == signer' && recipient == recipient' && mint == mint'
              && amount == amount' && proofNonce == proofNonce'
    ensures SourceMessage(signer, recipient, mint, amount, proofNonce) != Payload(solMint, c)
  {
    PayloadSize(solMint, c);
    if SourceMessage(signer, recipient, mint, amount, proofNonce)
       == SourceMessage(signer', recipient', mint', amount', proofNonce') {
      NumbersInjective(signer + recipient + mint, signer' + recipient' + mint', amount, amount', proofNonce,
                       proofNonce');
      LastFieldInjective(signer + recipient, signer' + recipient', mint, mint');
      LastFieldInjective(signer, signer', recipient, recipient');
    }
  }

  /** The bytes guardians sign, field by field at their places. */
  lemma PayloadLayout(solMint: Pubkey, c: Claim)
    ensures var p := Payload(solMint, c);
            && p[0..32] == c.sender && p[32..64] == c.recipient
            && match c
               case TokenClaim(_, _, sourceMint, mint, amount, nonce, txId, gas) =>
                 && |p| == 216
                 && p[64..96] == sourceMint && p[96..128] == mint
                 && p[128..136] == Be64(amount) && p[136..144] == Be64(nonce)
                 && p[144..208] == txId && p[208..216] == Be64(gas)
               case SolClaim(_, _, amount, nonce, txId) =>
                 && |p| == 176
                 && p[64..96] == solMint
                 && p[96..104] == Be64(amount) && p[104..112] == Be64(nonce)
                 && p[112..176] == txId
  {
    hide Be64;
    var head := c.sender + c.recipient;
    Append(c.sender, c.recipient);
    match c
    case TokenClaim(_, _, sourceMint, mint, amount, nonce, txId, gas) =>
      Append(head, sourceMint);
      Append(head + sourceMint, mint);
      Append(head + sourceMint + mint, Be64(amount));
      Append(head + sourceMint + mint + Be64(amount), Be64(nonce));
      Append(head + sourceMint + mint + Be64(amount) + Be64(nonce), txId);
      Append(head + sourceMint + mint + Be64(amount) + Be64(nonce) + txId, Be64(gas));
      assert head[0..32] == c.sender;
    case SolClaim(_, _, amount, nonce, txId) =>
      Append(head, solMint);
      Append(head + solMint, Be64(amount));
      Append(head + solMint + Be64(amount), Be64(nonce));
      Append(head + solMint + Be64(amount) + Be64(nonce), txId);
      assert head[0..32] == c.sender;
  }

  /** The bytes of a source proof, likewise. */
  lemma SourceMessageLayout(signer: Pubkey, recipient: Pubkey, mint: Pubkey, amount: u64, proofNonce: u64)
    ensures var m := SourceMessage(signer, recipient, mint, amount, proofNonce);
            && |m| == 112
            && m[0..32] == signer && m[32..64] == recipient && m[64..96] == mint
            && m[96..104] == Be64(amount) && m[104..112] == Be64(proofNonce)
  {
    hide Be64;
    Append(signer, recipient);
    Append(signer + recipient, mint);
    Append(signer + recipient + mint, Be64(amount));
    Append(signer + recipient + mint + Be64(amount), Be64(proofNonce));
    assert (signer + recipient)[0..32] == signer;
  }

  /** The script's token message is the handler's payload without the mint on the handler's own chain. */
  lemma ScriptTokenMessageLacksMint(solMint: Pubkey, c: Claim)
    requires c.TokenClaim?
    ensures var p := Payload(solMint, c);
            |p| == 216 && p[..96] + p[128..]
                          == ScriptTokenMessage(c.sender, c.recipient, c.sourceMint, c.amount, c.nonce, c.txId, c.gas)
  {
    var fields := [c.sender, c.recipient, c.sourceMint, Be64(c.amount), Be64(c.nonce), c.txId];
    hide Be64;
    FlattenSix(c.sender, c.recipient, c.sourceMint, Be64(c.amount), Be64(c.nonce), c.txId);
    FlattenAppend(fields, Be64(c.gas));
    assert fields + [Be64(c.gas)]
        == [c.sender, c.recipient, c.sourceMint, Be64(c.amount), Be64(c.nonce), c.txId, Be64(c.gas)];
  }
}
