/** The Ed25519 instruction data: the scripts' two encoders and the program's decoder. */
module Ed25519Codec {
  import opened Types
  import opened Encoding

  datatype Bundle = Bundle(pubkey: Pubkey, signature: Bytes64, msg: Bytes32)

  /** One entry of the offset table. The instruction indexes are read but never used. */
  datatype Offsets = Offsets(signature: u16, signatureIx: u16, pubkey: u16, pubkeyIx: u16,
                             message: u16, messageSize: u16, messageIx: u16)

  /** An instruction as the instructions sysvar shows it. */
  datatype Ed25519Ix = Ed25519Ix(isEd25519Program: bool, accounts: nat, data: Bytes)

  // ---------------------------------------------------------------- decoder

  function DecodeOffsets(data: Bytes, at: nat): Offsets
    requires at + OFFSETS_SIZE <= |data|
  {
    Offsets(FromLe16(data, at), FromLe16(data, at + 2), FromLe16(data, at + 4), FromLe16(data, at + 6),
            FromLe16(data, at + 8), FromLe16(data, at + 10), FromLe16(data, at + 12))
  }

  /** Whether the table that `data[0]` announces fits in the data. */
  predicate TableFits(data: Bytes) {
    |data| > 0 && OFFSETS_SIZE * data[0] + OFFSETS_START <= |data|
  }

  function Entry(data: Bytes, i: nat): Offsets
    requires TableFits(data) && i < data[0]
  {
    DecodeOffsets(data, OFFSETS_START + OFFSETS_SIZE * i)
  }

  function IterSignatureOffsets(data: Bytes): (r: Result<seq<Offsets>>) {
    if TableFits(data) then
      Ok(seq(data[0] as nat, i requires 0 <= i < data[0] => Entry(data, i)))
    else
      Err(InvalidEd25519Data)
  }

  /** `data.get(at..at + size)`. */
  function Get(data: Bytes, at: nat, size: nat): Result<Bytes> {
    if at + size <= |data| then Ok(data[at..at + size]) else Err(InvalidEd25519Data)
  }

  /** The conversion of a message slice to a fixed-size array panics on any other size. */
  function LoadOne(data: Bytes, o: Offsets): Result<Bundle> {
    var signature :- Get(data, o.signature, SIGNATURE_SIZE);
    var pubkey :- Get(data, o.pubkey, PUBKEY_SIZE);
    var msg :- Get(data, o.message, o.messageSize);
    if |msg| != MESSAGE_SIZE then Err(Panicked)
    else Ok(Bundle(pubkey, signature, msg))
  }

  function LoadAll(data: Bytes, offsets: seq<Offsets>): Result<seq<Bundle>> {
    if offsets == [] then Ok([])
    else
      var first :- LoadOne(data, offsets[0]);
      var rest :- LoadAll(data, offsets[1..]);
      Ok([first] + rest)
  }

  function LoadedSignatures(data: Bytes): Result<seq<Bundle>> {
    var offsets :- IterSignatureOffsets(data);
    LoadAll(data, offsets)
  }

  method LoadSignatures(data: Bytes) returns (r: Result<seq<Bundle>>)
    ensures r == LoadedSignatures(data)
  {
    var signatures: seq<Bundle> := [];
    var offsets :- IterSignatureOffsets(data);
    assert offsets[0..] == offsets;
    assert forall rest: seq<Bundle> :: signatures + rest == rest;
    for i := 0 to |offsets|
      invariant LoadAll(data, offsets) ==
                match LoadAll(data, offsets[i..])
                case Ok(rest) => Ok(signatures + rest)
                case Err(e) => Err(e)
    {
      var o := offsets[i];
      assert offsets[i..][0] == o && offsets[i..][1..] == offsets[i + 1..];
      var signature :- Get(data, o.signature, SIGNATURE_SIZE);
      var pubkey :- Get(data, o.pubkey, PUBKEY_SIZE);
      var msg :- Get(data, o.message, o.messageSize);
      if |msg| != MESSAGE_SIZE {
        return Err(Panicked);
      }
      var loaded := Bundle(pubkey, signature, msg);
      assert forall rest: seq<Bundle> :: signatures + ([loaded] + rest) == signatures + [loaded] + rest;
      signatures := signatures + [loaded];
    }
    assert offsets[|offsets|..] == [];
    assert signatures + [] == signatures;
    r := Ok(signatures);
  }

  predicate InBounds(data: Bytes, o: Offsets) {
    && o.signature + SIGNATURE_SIZE <= |data|
    && o.pubkey + PUBKEY_SIZE <= |data|
    && o.message + o.messageSize <= |data|
    && o.messageSize == MESSAGE_SIZE
  }

  function Slices(data: Bytes, o: Offsets): Bundle
    requires InBounds(data, o)
  {
    Bundle(data[o.pubkey..o.pubkey + PUBKEY_SIZE], data[o.signature..o.signature + SIGNATURE_SIZE],
           data[o.message..o.message + MESSAGE_SIZE])
  }

  predicate Decodable(data: Bytes) {
    && TableFits(data)
    && forall i :: 0 <= i < data[0] ==> InBounds(data, Entry(data, i))
  }

  lemma {:induction false} LoadAllExact(data: Bytes, offsets: seq<Offsets>)
    ensures LoadAll(data, offsets).Ok? <==> forall i :: 0 <= i < |offsets| ==> InBounds(data, offsets[i])
    ensures LoadAll(data, offsets).Ok? ==> |LoadAll(data, offsets).value| == |offsets|
    ensures LoadAll(data, offsets).Ok? ==> forall i :: 0 <= i < |offsets| ==>
              InBounds(data, offsets[i]) && LoadAll(data, offsets).value[i] == Slices(data, offsets[i])
  {
    if offsets != [] {
      var rest := offsets[1..];
      LoadAllExact(data, rest);
      assert LoadOne(data, offsets[0]).Ok? <==> InBounds(data, offsets[0]);
      assert offsets == [offsets[0]] + rest;
      assert forall i :: 0 < i < |offsets| ==> offsets[i] == rest[i - 1];
    }
  }

  /** On arbitrary bytes the decoder succeeds exactly when the table fits and every slice it names is
      in bounds with a 32-byte message; it then returns `data[0]` bundles, each made of those slices. */
  lemma DecoderExact(data: Bytes)
    ensures LoadedSignatures(data).Ok? <==> Decodable(data)
    ensures LoadedSignatures(data).Ok? ==>
              && |LoadedSignatures(data).value| == data[0]
              && forall i :: 0 <= i < data[0] ==>
                   LoadedSignatures(data).value[i] == Slices(data, Entry(data, i))
  {
    if TableFits(data) {
      var offsets := IterSignatureOffsets(data).value;
      LoadAllExact(data, offsets);
      assert forall i :: 0 <= i < data[0] ==> offsets[i] == Entry(data, i);
    }
  }

  /** The signature list pairs off with the signers, on one message. */
  predicate Matches(sigs: seq<Bundle>, signers: seq<Pubkey>, message: Digest) {
    && |sigs| == |signers|
    && forall i :: 0 <= i < |sigs| ==> sigs[i].pubkey == signers[i] && sigs[i].msg == message
  }

  /** The error of the first bundle, in order, that does not match. */
  function FirstMismatch(sigs: seq<Bundle>, signers: seq<Pubkey>, message: Digest): Result<()>
    requires |sigs| == |signers|
  {
    if sigs == [] then Ok(())
    else if sigs[0].pubkey != signers[0] then Err(InvalidGuardianSignaturePubKey)
    else if sigs[0].msg != message then Err(InvalidGuardianSignatureMessage)
    else FirstMismatch(sigs[1..], signers[1..], message)
  }

  function Ed25519IxVerdict(ix: Ed25519Ix, signers: seq<Pubkey>, message: Digest): Result<()> {
    if !ix.isEd25519Program then Err(InvalidEd25519ProgramId)
    else if ix.accounts != 0 then Err(InvalidEd25519Accounts)
    else if |ix.data| <= 1 then Err(InvalidEd25519Data)
    else
      var sigs :- LoadedSignatures(ix.data);
      if |sigs| != |signers| then Err(InvalidGuardianSigCount)
      else FirstMismatch(sigs, signers, message)
  }

  method VerifyEd25519Ix(ix: Ed25519Ix, signers: seq<Pubkey>, message: Digest) returns (r: Result<()>)
    ensures r == Ed25519IxVerdict(ix, signers, message)
  {
    if !ix.isEd25519Program {
      return Err(InvalidEd25519ProgramId);
    }
    if ix.accounts != 0 {
      return Err(InvalidEd25519Accounts);
    }
    if |ix.data| <= 1 {
      return Err(InvalidEd25519Data);
    }
    var loaded := LoadSignatures(ix.data);
    var sigs :- loaded;
    if |sigs| != |signers| {
      return Err(InvalidGuardianSigCount);
    }
    for id := 0 to |sigs|
      invariant FirstMismatch(sigs, signers, message) == FirstMismatch(sigs[id..], signers[id..], message)
    {
      assert sigs[id..][1..] == sigs[id + 1..] && signers[id..][1..] == signers[id + 1..];
      if sigs[id].pubkey != signers[id] {
        return Err(InvalidGuardianSignaturePubKey);
      }
      if sigs[id].msg != message {
        return Err(InvalidGuardianSignatureMessage);
      }
    }
    r := Ok(());
  }

  lemma {:induction false} NoMismatch(sigs: seq<Bundle>, signers: seq<Pubkey>, message: Digest)
    requires |sigs| == |signers|
    ensures FirstMismatch(sigs, signers, message).Ok? <==> Matches(sigs, signers, message)
  {
    if sigs != [] {
      NoMismatch(sigs[1..], signers[1..], message);
      assert Matches(sigs, signers, message) ==> Matches(sigs[1..], signers[1..], message);
      assert forall i :: 0 < i < |sigs| ==> sigs[i] == sigs[1..][i - 1] && signers[i] == signers[1..][i - 1];
    }
  }

  /** Acceptance, on any instruction: data that decodes to bundles that match the signers position by position. */
  lemma VerifierExact(ix: Ed25519Ix, signers: seq<Pubkey>, message: Digest)
    ensures Ed25519IxVerdict(ix, signers, message).Ok? <==>
              && ix.isEd25519Program && ix.accounts == 0 && |ix.data| > 1
              && LoadedSignatures(ix.data).Ok?
              && Matches(LoadedSignatures(ix.data).value, signers, message)
  {
    DecoderExact(ix.data);
    if LoadedSignatures(ix.data).Ok? && |LoadedSignatures(ix.data).value| == |signers| {
      NoMismatch(LoadedSignatures(ix.data).value, signers, message);
    }
  }

  // --------------------------------------------------------------- encoders

  /** An offset entry before the layout checks that each number fits in 16 bits. */
  datatype RawOffsets = RawOffsets(signature: nat, signatureIx: nat, pubkey: nat, pubkeyIx: nat,
                                   message: nat, messageSize: nat, messageIx: nat)
  {
    predicate Fits() {
      && signature < 0x1_0000 && signatureIx < 0x1_0000 && pubkey < 0x1_0000 && pubkeyIx < 0x1_0000
      && message < 0x1_0000 && messageSize < 0x1_0000 && messageIx < 0x1_0000
    }

    function Bytes(): (b: Types.Bytes)
      requires Fits()
      ensures |b| == OFFSETS_SIZE
    {
      Le16(signature) + Le16(signatureIx) + Le16(pubkey) + Le16(pubkeyIx)
      + Le16(message) + Le16(messageSize) + Le16(messageIx)
    }
  }

  function PackedEntry(n: nat, index: nat, i: nat): RawOffsets {
    var start := OFFSETS_SIZE * n + OFFSETS_START;
    var pubkey := start + MESSAGE_SIZE + 96 * i;
    RawOffsets(pubkey + PUBKEY_SIZE, index, pubkey, index, start, MESSAGE_SIZE, index)
  }

  function UnpackedEntry(n: nat, index: nat, i: nat): RawOffsets {
    var start := OFFSETS_SIZE * n + OFFSETS_START + 128 * i;
    RawOffsets(start + PUBKEY_SIZE, index, start, index, start + PUBKEY_SIZE + SIGNATURE_SIZE, MESSAGE_SIZE, index)
  }

  function PackedChunk(s: Bundle): Bytes {
    s.pubkey + s.signature
  }

  function UnpackedChunk(s: Bundle): Bytes {
    s.pubkey + s.signature + s.msg
  }

  function PackedChunks(sigs: seq<Bundle>): (c: seq<Bytes>)
    ensures |c| == |sigs| && forall i :: 0 <= i < |c| ==> c[i] == PackedChunk(sigs[i])
  {
    seq(|sigs|, i requires 0 <= i < |sigs| => PackedChunk(sigs[i]))
  }

  function UnpackedChunks(sigs: seq<Bundle>): (c: seq<Bytes>)
    ensures |c| == |sigs| && forall i :: 0 <= i < |c| ==> c[i] == UnpackedChunk(sigs[i])
  {
    seq(|sigs|, i requires 0 <= i < |sigs| => UnpackedChunk(sigs[i]))
  }

  function EntryChunks(entries: seq<RawOffsets>): (c: seq<Bytes>)
    requires forall i :: 0 <= i < |entries| ==> entries[i].Fits()
    ensures |c| == |entries| && forall i :: 0 <= i < |c| ==> c[i] == entries[i].Bytes()
  {
    seq(|entries|, i requires 0 <= i < |entries| => entries[i].Bytes())
  }

  /** The count byte, its padding, and the table. */
  function Header(entries: seq<RawOffsets>): (b: Bytes)
    requires |entries| < 0x100
    requires forall i :: 0 <= i < |entries| ==> entries[i].Fits()
  {
    [|entries|, 0] + Flatten(EntryChunks(entries))
  }

  /** Writes a table with the scripts' second loop. The layout throws on a number over 16 bits,
      and the count byte throws on more than 255 signatures. */
  method WriteHeader(entries: seq<RawOffsets>) returns (r: Result<Bytes>)
    ensures r.Ok? <==> |entries| < 0x100 && forall i :: 0 <= i < |entries| ==> entries[i].Fits()
    ensures r.Ok? ==> r.value == Header(entries)
  {
    if |entries| >= 0x100 {
      return Err(Overflow);
    }
    var instData: Bytes := [|entries|, 0];
    for i := 0 to |entries|
      invariant forall j :: 0 <= j < i ==> entries[j].Fits()
      invariant instData == [|entries|, 0] + Flatten(EntryChunks(entries[..i]))
    {
      if !entries[i].Fits() {
        return Err(Overflow);
      }
      ghost var chunks := EntryChunks(entries[..i + 1]);
      assert chunks[..i] == EntryChunks(entries[..i]) && chunks[i] == entries[i].Bytes();
      instData := instData + entries[i].Bytes();
    }
    assert entries[..|entries|] == entries;
    r := Ok(instData);
  }

  function PackedEntries(n: nat, index: nat): (e: seq<RawOffsets>)
    ensures |e| == n && forall i :: 0 <= i < n ==> e[i] == PackedEntry(n, index, i)
  {
    seq(n, i requires 0 <= i < n => PackedEntry(n, index, i))
  }

  function UnpackedEntries(n: nat, index: nat): (e: seq<RawOffsets>)
    ensures |e| == n && forall i :: 0 <= i < n ==> e[i] == UnpackedEntry(n, index, i)
  {
    seq(n, i requires 0 <= i < n => UnpackedEntry(n, index, i))
  }

  function PackedData(sigs: seq<Bundle>, index: u16): Bytes
    requires 0 < |sigs| < 0x100
  {
    Header(PackedEntries(|sigs|, index)) + sigs[0].msg + Flatten(PackedChunks(sigs))
  }

  function UnpackedData(sigs: seq<Bundle>, index: u16): Bytes
    requires |sigs| < 0x100
  {
    Header(UnpackedEntries(|sigs|, index)) + Flatten(UnpackedChunks(sigs))
  }

  method MakeEd25519InstDataPacked(sigs: seq<Bundle>, instructionIndex: nat) returns (r: Result<Bytes>)
    ensures r.Ok? <==> 0 < |sigs| < 0x100 && instructionIndex < 0x1_0000
    ensures r.Ok? ==> r.value == PackedData(sigs, instructionIndex)
  {
    if sigs == [] {
      return Err(Panicked);
    }
    var dataStart := |sigs| * OFFSETS_SIZE + OFFSETS_START;
    var dataStartAfterMsg := dataStart + |sigs[0].msg|;
    var entries: seq<RawOffsets> := [];
    var buffer: Bytes := [];
    for i := 0 to |sigs|
      invariant |buffer| == 96 * i
      invariant buffer == Flatten(PackedChunks(sigs[..i]))
      invariant entries == PackedEntries(|sigs|, instructionIndex)[..i]
    {
      var sig := sigs[i];
      var pubkeyOffset := dataStartAfterMsg + |buffer|;
      var signatureOffset := pubkeyOffset + PUBKEY_SIZE;
      entries := entries + [RawOffsets(signatureOffset, instructionIndex, pubkeyOffset, instructionIndex,
                                       dataStart, |sig.msg|, instructionIndex)];
      assert PackedChunks(sigs[..i + 1])[..i] == PackedChunks(sigs[..i]);
      assert buffer + sig.pubkey + sig.signature == buffer + PackedChunk(sig);
      buffer := buffer + sig.pubkey + sig.signature;
    }
    assert sigs[..|sigs|] == sigs;
    assert entries == PackedEntries(|sigs|, instructionIndex);
    assert entries[0].signatureIx == instructionIndex;
    var instData :- WriteHeader(entries);
    instData := instData + sigs[0].msg;
    instData := instData + buffer;
    r := Ok(instData);
  }

  method MakeEd25519InstData(sigs: seq<Bundle>, instructionIndex: nat) returns (r: Result<Bytes>)
    ensures r.Ok? <==> |sigs| < 0x100 && (sigs != [] ==> instructionIndex < 0x1_0000)
    ensures r.Ok? && sigs != [] ==> r.value == UnpackedData(sigs, instructionIndex)
    ensures sigs == [] ==> r == Ok([0, 0])
  {
    var dataStart := |sigs| * OFFSETS_SIZE + OFFSETS_START;
    var entries: seq<RawOffsets> := [];
    var buffer: Bytes := [];
    for i := 0 to |sigs|
      invariant |buffer| == 128 * i
      invariant buffer == Flatten(UnpackedChunks(sigs[..i]))
      invariant entries == UnpackedEntries(|sigs|, instructionIndex)[..i]
    {
      var sig := sigs[i];
      var pubkeyOffset := dataStart + |buffer|;
      var signatureOffset := pubkeyOffset + PUBKEY_SIZE;
      var messageOffset := signatureOffset + SIGNATURE_SIZE;
      entries := entries + [RawOffsets(signatureOffset, instructionIndex, pubkeyOffset, instructionIndex,
                                       messageOffset, |sig.msg|, instructionIndex)];
      assert UnpackedChunks(sigs[..i + 1])[..i] == UnpackedChunks(sigs[..i]);
      assert buffer + sig.pubkey + sig.signature + sig.msg == buffer + UnpackedChunk(sig);
      buffer := buffer + sig.pubkey + sig.signature + sig.msg;
    }
    assert sigs[..|sigs|] == sigs;
    assert entries == UnpackedEntries(|sigs|, instructionIndex);
    assert sigs != [] ==> entries[0].signatureIx == instructionIndex;
    var instData :- WriteHeader(entries);
    instData := instData + buffer;
    assert sigs == [] ==> instData == [0, 0];
    r := Ok(instData);
  }

  // ------------------------------------------------------------- round trip

  lemma HeaderDecodes(entries: seq<RawOffsets>, tail: Bytes, i: nat)
    requires |entries| < 0x100 && i < |entries|
    requires forall j :: 0 <= j < |entries| ==> entries[j].Fits()
    ensures |Header(entries)| == OFFSETS_SIZE * |entries| + OFFSETS_START
    ensures TableFits(Header(entries) + tail)
    ensures (Header(entries) + tail)[0] == |entries|
    ensures var e := entries[i];
            Entry(Header(entries) + tail, i)
            == Offsets(e.signature, e.signatureIx, e.pubkey, e.pubkeyIx, e.message, e.messageSize, e.messageIx)
  {
    var chunks := EntryChunks(entries);
    var data := Header(entries) + tail;
    FlattenSlice(chunks, OFFSETS_SIZE, i);
    var at := OFFSETS_START + OFFSETS_SIZE * i;
    assert data[at..at + OFFSETS_SIZE] == chunks[i] by {
      assert Header(entries)[2..] == Flatten(chunks);
      assert data[at..at + OFFSETS_SIZE] == Flatten(chunks)[OFFSETS_SIZE * i..OFFSETS_SIZE * i + OFFSETS_SIZE];
    }
    EntryBytesDecode(entries[i], data, at);
  }

  lemma EntryBytesDecode(e: RawOffsets, data: Bytes, at: nat)
    requires e.Fits() && at + OFFSETS_SIZE <= |data|
    requires data[at..at + OFFSETS_SIZE] == e.Bytes()
    ensures DecodeOffsets(data, at)
            == Offsets(e.signature, e.signatureIx, e.pubkey, e.pubkeyIx, e.message, e.messageSize, e.messageIx)
  {
  }

  /** A window of the last part of some data is a window of that part. */
  lemma TailWindow(front: Bytes, part: Bytes, at: nat, size: nat)
    requires at + size <= |part|
    ensures |front + part| == |front| + |part|
    ensures (front + part)[|front| + at..|front| + at + size] == part[at..at + size]
  {
  }

  /** A window of a window. */
  lemma SubWindow(data: Bytes, at: nat, size: nat, from: nat, upto: nat)
    requires at + size <= |data| && from <= upto <= size
    ensures data[at + from..at + upto] == data[at..at + size][from..upto]
  {
    var window := data[at..at + size];
    forall k | 0 <= k < upto - from
      ensures data[at + from..at + upto][k] == window[from..upto][k]
    {
      assert window[from + k] == data[at + from + k];
    }
  }

  /** Where the packed encoder puts its table. */
  lemma PackedTable(sigs: seq<Bundle>, index: u16, i: nat)
    requires 0 < |sigs| < 0x100 && i < |sigs|
    ensures var data, e := PackedData(sigs, index), PackedEntry(|sigs|, index, i);
            && |Header(PackedEntries(|sigs|, index))| == OFFSETS_SIZE * |sigs| + OFFSETS_START
            && TableFits(data) && data[0] == |sigs|
            && Entry(data, i) == Offsets(e.signature, index, e.pubkey, index, e.message, MESSAGE_SIZE, index)
  {
    hide TableFits, Entry;
    var entries, chunks := PackedEntries(|sigs|, index), PackedChunks(sigs);
    HeaderDecodes(entries, sigs[0].msg + Flatten(chunks), i);
    assert PackedData(sigs, index) == Header(entries) + (sigs[0].msg + Flatten(chunks));
  }

  /** Where it puts the message and bundle `i`. */
  lemma PackedLayout(sigs: seq<Bundle>, index: u16, i: nat)
    requires 0 < |sigs| < 0x100 && i < |sigs|
    ensures var data := PackedData(sigs, index);
            var start := OFFSETS_SIZE * |sigs| + OFFSETS_START;
            && |data| == 34 + 110 * |sigs|
            && data[start..start + MESSAGE_SIZE] == sigs[0].msg
            && data[start + MESSAGE_SIZE + 96 * i..start + MESSAGE_SIZE + 96 * i + 96] == PackedChunk(sigs[i])
  {
    hide TableFits, Entry, Header, Flatten;
    var header, chunks := Header(PackedEntries(|sigs|, index)), PackedChunks(sigs);
    PackedTable(sigs, index, i);
    FlattenSlice(chunks, 96, i);
    TailWindow(header + sigs[0].msg, Flatten(chunks), 96 * i, 96);
  }

  lemma HalvesOfPackedChunk(data: Bytes, at: nat, s: Bundle)
    requires at + 96 <= |data| && data[at..at + 96] == PackedChunk(s)
    ensures data[at..at + PUBKEY_SIZE] == s.pubkey
    ensures data[at + PUBKEY_SIZE..at + PUBKEY_SIZE + SIGNATURE_SIZE] == s.signature
  {
    SubWindow(data, at, 96, 0, PUBKEY_SIZE);
    SubWindow(data, at, 96, PUBKEY_SIZE, 96);
  }

  /** Entry `i` of packed data points at bundle `i`, with the shared message in place of its own. */
  lemma PackedSlices(sigs: seq<Bundle>, index: u16, i: nat)
    requires 0 < |sigs| < 0x100 && i < |sigs|
    ensures var data := PackedData(sigs, index);
            && |data| == 34 + 110 * |sigs| < 0x1_0000
            && TableFits(data) && data[0] == |sigs|
            && InBounds(data, Entry(data, i))
            && Slices(data, Entry(data, i)) == Bundle(sigs[i].pubkey, sigs[i].signature, sigs[0].msg)
  {
    hide PackedData, TableFits, Entry, PackedChunk;
    PackedTable(sigs, index, i);
    PackedLayout(sigs, index, i);
    HalvesOfPackedChunk(PackedData(sigs, index), OFFSETS_SIZE * |sigs| + OFFSETS_START + MESSAGE_SIZE + 96 * i,
                        sigs[i]);
  }

  /** What packed data always decodes to: the bundles in order, all carrying the first one's message. */
  lemma PackedDecodes(sigs: seq<Bundle>, index: u16)
    requires 0 < |sigs| < 0x100
    ensures LoadedSignatures(PackedData(sigs, index))
            == Ok(seq(|sigs|, i requires 0 <= i < |sigs| => Bundle(sigs[i].pubkey, sigs[i].signature, sigs[0].msg)))
  {
    var expected := seq(|sigs|, i requires 0 <= i < |sigs| => Bundle(sigs[i].pubkey, sigs[i].signature, sigs[0].msg));
    var data := PackedData(sigs, index);
    forall i | 0 <= i < |sigs|
      ensures TableFits(data) && data[0] == |sigs| && InBounds(data, Entry(data, i))
      ensures Slices(data, Entry(data, i)) == Bundle(sigs[i].pubkey, sigs[i].signature, sigs[0].msg)
    {
      PackedSlices(sigs, index, i);
    }
    PackedSlices(sigs, index, 0);
    DecoderExact(data);
    assert LoadedSignatures(data).value == expected;
  }

  predicate OneMessage(sigs: seq<Bundle>) {
    forall i :: 0 <= i < |sigs| ==> sigs[i].msg == sigs[0].msg
  }

  /** Packed data decodes to the original list exactly when the signatures share one message. */
  lemma PackedRoundTrip(sigs: seq<Bundle>, index: u16)
    requires 0 < |sigs| < 0x100
    ensures LoadedSignatures(PackedData(sigs, index)) == Ok(sigs) <==> OneMessage(sigs)
    ensures |PackedData(sigs, index)| == 34 + 110 * |sigs| < 0x1_0000
  {
    PackedSlices(sigs, index, 0);
    PackedDecodes(sigs, index);
    var decoded := LoadedSignatures(PackedData(sigs, index)).value;
    assert forall i :: 0 <= i < |sigs| ==> decoded[i].msg == sigs[0].msg;
    if OneMessage(sigs) {
      assert decoded == sigs;
    }
  }

  lemma UnpackedTable(sigs: seq<Bundle>, index: u16, i: nat)
    requires |sigs| < 0x100 && i < |sigs|
    ensures var data, e := UnpackedData(sigs, index), UnpackedEntry(|sigs|, index, i);
            && |Header(UnpackedEntries(|sigs|, index))| == OFFSETS_SIZE * |sigs| + OFFSETS_START
            && TableFits(data) && data[0] == |sigs|
            && Entry(data, i) == Offsets(e.signature, index, e.pubkey, index, e.message, MESSAGE_SIZE, index)
  {
    hide TableFits, Entry;
    HeaderDecodes(UnpackedEntries(|sigs|, index), Flatten(UnpackedChunks(sigs)), i);
  }

  lemma UnpackedLayout(sigs: seq<Bundle>, index: u16, i: nat)
    requires |sigs| < 0x100 && i < |sigs|
    ensures var data := UnpackedData(sigs, index);
            var at := OFFSETS_SIZE * |sigs| + OFFSETS_START + 128 * i;
            && |data| == 2 + 142 * |sigs|
            && at + 128 <= |data| && data[at..at + 128] == UnpackedChunk(sigs[i])
  {
    hide TableFits, Entry, Header, Flatten;
    var header, chunks := Header(UnpackedEntries(|sigs|, index)), UnpackedChunks(sigs);
    UnpackedTable(sigs, index, i);
    FlattenSlice(chunks, 128, i);
    TailWindow(header, Flatten(chunks), 128 * i, 128);
  }

  lemma PartsOfUnpackedChunk(data: Bytes, at: nat, s: Bundle)
    requires at + 128 <= |data| && data[at..at + 128] == UnpackedChunk(s)
    ensures data[at..at + 32] == s.pubkey
    ensures data[at + 32..at + 96] == s.signature
    ensures data[at + 96..at + 128] == s.msg
  {
    SubWindow(data, at, 128, 0, 32);
    SubWindow(data, at, 128, 32, 96);
    SubWindow(data, at, 128, 96, 128);
  }

  lemma UnpackedSlices(sigs: seq<Bundle>, index: u16, i: nat)
    requires |sigs| < 0x100 && i < |sigs|
    ensures var data := UnpackedData(sigs, index);
            && |data| == 2 + 142 * |sigs| < 0x1_0000
            && TableFits(data) && data[0] == |sigs|
            && InBounds(data, Entry(data, i))
            && Slices(data, Entry(data, i)) == sigs[i]
  {
    hide UnpackedData, TableFits, Entry, UnpackedChunk;
    UnpackedTable(sigs, index, i);
    UnpackedLayout(sigs, index, i);
    PartsOfUnpackedChunk(UnpackedData(sigs, index), OFFSETS_SIZE * |sigs| + OFFSETS_START + 128 * i, sigs[i]);
  }

  /** The unpacked encoder gives every list back, the empty one included, whatever the messages. */
  lemma UnpackedRoundTrip(sigs: seq<Bundle>, index: u16)
    requires |sigs| < 0x100
    ensures LoadedSignatures(UnpackedData(sigs, index)) == Ok(sigs)
    ensures |UnpackedData(sigs, index)| == 2 + 142 * |sigs| < 0x1_0000
  {
    var data := UnpackedData(sigs, index);
    forall i | 0 <= i < |sigs|
      ensures |data| == 2 + 142 * |sigs|
      ensures TableFits(data) && data[0] == |sigs| && InBounds(data, Entry(data, i))
      ensures Slices(data, Entry(data, i)) == sigs[i]
    {
      UnpackedSlices(sigs, index, i);
    }
    assert sigs == [] ==> data == [0, 0];
    DecoderExact(data);
    assert LoadedSignatures(data).value == sigs;
  }

  // ---------------------------------------------------------- byte by byte

  function Word(low: int, high: int): int {
    low + 256 * high
  }

  /** The table by value: fourteen bytes an entry after the first two, each number with its low byte first. */
  lemma EntryBytes(data: Bytes, i: nat)
    requires TableFits(data) && i < data[0]
    ensures var at, o := 2 + 14 * i, Entry(data, i);
            && at + 14 <= |data|
            && o.signature == Word(data[at], data[at + 1]) && o.signatureIx == Word(data[at + 2], data[at + 3])
            && o.pubkey == Word(data[at + 4], data[at + 5]) && o.pubkeyIx == Word(data[at + 6], data[at + 7])
            && o.message == Word(data[at + 8], data[at + 9]) && o.messageSize == Word(data[at + 10], data[at + 11])
            && o.messageIx == Word(data[at + 12], data[at + 13])
  {
  }

  lemma HeaderStart(entries: seq<RawOffsets>, tail: Bytes)
    requires |entries| < 0x100 && forall i :: 0 <= i < |entries| ==> entries[i].Fits()
    ensures |Header(entries)| >= 2 && (Header(entries) + tail)[0] == |entries| && (Header(entries) + tail)[1] == 0
  {
  }

  lemma PackedStart(sigs: seq<Bundle>, index: u16)
    requires 0 < |sigs| < 0x100
    ensures var data := PackedData(sigs, index); |data| >= 2 && data[0] == |sigs| && data[1] == 0
  {
    hide Header, Flatten;
    var tail := sigs[0].msg + Flatten(PackedChunks(sigs));
    HeaderStart(PackedEntries(|sigs|, index), tail);
    assert PackedData(sigs, index) == Header(PackedEntries(|sigs|, index)) + tail;
  }

  lemma UnpackedStart(sigs: seq<Bundle>, index: u16)
    requires |sigs| < 0x100
    ensures var data := UnpackedData(sigs, index); |data| >= 2 && data[0] == |sigs| && data[1] == 0
  {
    hide Header, Flatten;
    HeaderStart(UnpackedEntries(|sigs|, index), Flatten(UnpackedChunks(sigs)));
  }

  /** What the packed encoder writes: the count, a zero, the table, the message, then key and signature of each. */
  lemma PackedBytes(sigs: seq<Bundle>, index: u16, i: nat)
    requires 0 < |sigs| < 0x100 && i < |sigs|
    ensures var data, body := PackedData(sigs, index), 2 + 14 * |sigs|;
            var at := body + 32 + 96 * i;
            && |data| == 34 + 110 * |sigs|
            && data[0] == |sigs| && data[1] == 0
            && data[body..body + 32] == sigs[0].msg
            && data[at..at + 32] == sigs[i].pubkey && data[at + 32..at + 96] == sigs[i].signature
            && TableFits(data)
            && Entry(data, i) == Offsets(at + 32, index, at, index, body, 32, index)
  {
    hide PackedData, TableFits, Entry, PackedChunk;
    PackedStart(sigs, index);
    PackedTable(sigs, index, i);
    PackedLayout(sigs, index, i);
    var at := OFFSETS_SIZE * |sigs| + OFFSETS_START + MESSAGE_SIZE + 96 * i;
    HalvesOfPackedChunk(PackedData(sigs, index), at, sigs[i]);
  }

  /** What the unpacked encoder writes: the same header, then key, signature and message of each. */
  lemma UnpackedBytes(sigs: seq<Bundle>, index: u16, i: nat)
    requires |sigs| < 0x100 && i < |sigs|
    ensures var data, at := UnpackedData(sigs, index), 2 + 14 * |sigs| + 128 * i;
            && |data| == 2 + 142 * |sigs|
            && data[0] == |sigs| && data[1] == 0
            && data[at..at + 32] == sigs[i].pubkey && data[at + 32..at + 96] == sigs[i].signature
            && data[at + 96..at + 128] == sigs[i].msg
            && TableFits(data)
            && Entry(data, i) == Offsets(at + 32, index, at, index, at + 96, 32, index)
  {
    hide UnpackedData, TableFits, Entry, UnpackedChunk;
    UnpackedStart(sigs, index);
    UnpackedTable(sigs, index, i);
    UnpackedLayout(sigs, index, i);
    PartsOfUnpackedChunk(UnpackedData(sigs, index), OFFSETS_SIZE * |sigs| + OFFSETS_START + 128 * i, sigs[i]);
  }
}
