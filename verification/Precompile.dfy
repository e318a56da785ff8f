/** The Ed25519 program, as far as the bridge relies on it: which bytes it checks. */
module Precompile {
  import opened Types
  import opened Ed25519Codec

  /** Ed25519 verification (RFC 8032, section 5.1.7), as an oracle on public key, signature and message. */
  type Oracle = (Pubkey, Bytes64, Bytes) -> bool

  /** An index field with this value means the instruction's own data. */
  const OWN_DATA: u16 := 0xFFFF

  /** An index field names the instruction's own data or that of another instruction of the transaction. */
  predicate Names(others: seq<Bytes>, index: u16) {
    index == OWN_DATA || index < |others|
  }

  function Source(own: Bytes, others: seq<Bytes>, index: u16): Bytes
    requires Names(others, index)
  {
    if index == OWN_DATA then own else others[index]
  }

  /** One table entry passes: every slice is read where its index field says, and the signature verifies. */
  predicate EntryPasses(valid: Oracle, own: Bytes, others: seq<Bytes>, o: Offsets) {
    && Names(others, o.signatureIx) && Names(others, o.pubkeyIx) && Names(others, o.messageIx)
    && var s, p, m :=
         Source(own, others, o.signatureIx), Source(own, others, o.pubkeyIx), Source(own, others, o.messageIx);
    && o.signature + SIGNATURE_SIZE <= |s|
    && o.pubkey + PUBKEY_SIZE <= |p|
    && o.message + o.messageSize <= |m|
    && valid(p[o.pubkey..o.pubkey + PUBKEY_SIZE], s[o.signature..o.signature + SIGNATURE_SIZE],
             m[o.message..o.message + o.messageSize])
  }

  predicate ProgramPasses(valid: Oracle, own: Bytes, others: seq<Bytes>) {
    TableFits(own) && forall i :: 0 <= i < own[0] ==> EntryPasses(valid, own, others, Entry(own, i))
  }

  /** All three index fields are the scripts' 0xFFFF. */
  predicate OwnEntry(o: Offsets) {
    o.signatureIx == OWN_DATA && o.pubkeyIx == OWN_DATA && o.messageIx == OWN_DATA
  }

  predicate OwnFields(data: Bytes) {
    TableFits(data) ==> forall i :: 0 <= i < data[0] ==> OwnEntry(Entry(data, i))
  }

  /** Some entry with the scripts' index fields names the same slices as entry `i`. */
  predicate OwnNames(data: Bytes, i: nat)
    requires Decodable(data) && i < data[0]
  {
    exists j :: 0 <= j < data[0] && OwnEntry(Entry(data, j))
                && Slices(data, Entry(data, j)) == Slices(data, Entry(data, i))
  }

  predicate OwnFieldsCover(data: Bytes)
    requires Decodable(data)
  {
    forall i :: 0 <= i < data[0] ==> OwnNames(data, i)
  }

  predicate AllValid(valid: Oracle, sigs: seq<Bundle>) {
    forall i :: 0 <= i < |sigs| ==> valid(sigs[i].pubkey, sigs[i].signature, sigs[i].msg)
  }

  lemma OwnEntryPasses(valid: Oracle, data: Bytes, others: seq<Bytes>, o: Offsets)
    requires OwnEntry(o) && InBounds(data, o)
    ensures var b := Slices(data, o); EntryPasses(valid, data, others, o) <==> valid(b.pubkey, b.signature, b.msg)
  {
  }

  /** Then the program checked the very bundles the bridge decodes. */
  lemma DecodedAreValid(valid: Oracle, data: Bytes, others: seq<Bytes>)
    requires ProgramPasses(valid, data, others) && Decodable(data) && OwnFieldsCover(data)
    ensures LoadedSignatures(data).Ok? && AllValid(valid, LoadedSignatures(data).value)
  {
    hide EntryPasses, InBounds, Slices, Entry, LoadedSignatures;
    DecoderExact(data);
    var sigs := LoadedSignatures(data).value;
    forall i | 0 <= i < |sigs|
      ensures valid(sigs[i].pubkey, sigs[i].signature, sigs[i].msg)
    {
      assert OwnNames(data, i);
      var j :| 0 <= j < data[0] && OwnEntry(Entry(data, j))
               && Slices(data, Entry(data, j)) == Slices(data, Entry(data, i));
      OwnEntryPasses(valid, data, others, Entry(data, j));
    }
  }

  lemma OwnFieldsDoCover(data: Bytes)
    requires Decodable(data) && OwnFields(data)
    ensures OwnFieldsCover(data)
  {
    hide Slices, Entry;
    forall i | 0 <= i < data[0]
      ensures OwnNames(data, i)
    {
      assert OwnEntry(Entry(data, i));
    }
  }

  // ------------------------------------------------ the exact condition

  /** Everything verifies but one bundle. */
  ghost function AllBut(b: Bundle): Oracle {
    (p: Pubkey, s: Bytes64, m: Bytes) => !(p == b.pubkey && s == b.signature && m == b.msg)
  }

  /** Other instructions, all made of one byte. */
  function Filled(x: byte): seq<Bytes> {
    seq(0xFFFF, i => seq(0x2_0000, j => x))
  }

  lemma FilledReads(x: byte, index: u16, at: u16, size: nat)
    requires index != OWN_DATA && 0 < size <= 0x1_0000
    ensures var data := Filled(x)[index];
            at + size <= |data| && |data[at..at + size]| == size && data[at..at + size][0] == x
  {
  }

  /** An entry that reads elsewhere reads something else than the bundle there, an own one something else here. */
  lemma FilledPasses(data: Bytes, o: Offsets, b: Bundle, x: byte)
    requires InBounds(data, o) && x != b.pubkey[0] && x != b.signature[0] && x != b.msg[0]
    requires OwnEntry(o) ==> Slices(data, o) != b
    ensures EntryPasses(AllBut(b), data, Filled(x), o)
  {
    hide Filled;
    assert |Filled(x)| == 0xFFFF by { FilledSize(x); }
    if o.signatureIx != OWN_DATA {
      FilledReads(x, o.signatureIx, o.signature, SIGNATURE_SIZE);
    }
    if o.pubkeyIx != OWN_DATA {
      FilledReads(x, o.pubkeyIx, o.pubkey, PUBKEY_SIZE);
    }
    if o.messageIx != OWN_DATA {
      FilledReads(x, o.messageIx, o.message, MESSAGE_SIZE);
    }
  }

  lemma FilledSize(x: byte)
    ensures |Filled(x)| == 0xFFFF
  {
  }

  /** Passing the program vouches for the decoded bundles, whatever verifies and whatever else the transaction
      holds. */
  ghost predicate PassingVouches(data: Bytes) {
    forall valid: Oracle, others: seq<Bytes> :: ProgramPasses(valid, data, others) && LoadedSignatures(data).Ok? ==>
      AllValid(valid, LoadedSignatures(data).value)
  }

  /** It does exactly when entries with the scripts' index fields name everything that is decoded. */
  lemma PassingVouchesExactly(data: Bytes)
    requires Decodable(data)
    ensures PassingVouches(data) <==> OwnFieldsCover(data)
  {
    hide EntryPasses, InBounds, Slices, Entry, LoadedSignatures;
    DecoderExact(data);
    if OwnFieldsCover(data) {
      forall valid: Oracle, others: seq<Bytes> | ProgramPasses(valid, data, others)
        ensures AllValid(valid, LoadedSignatures(data).value)
      {
        DecodedAreValid(valid, data, others);
      }
    } else {
      var i :| 0 <= i < data[0] && !OwnNames(data, i);
      var b := Slices(data, Entry(data, i));
      var x: byte :| x in {0, 1, 2, 3} && x != b.pubkey[0] && x != b.signature[0] && x != b.msg[0];
      forall j | 0 <= j < data[0]
        ensures EntryPasses(AllBut(b), data, Filled(x), Entry(data, j))
      {
        FilledPasses(data, Entry(data, j), b, x);
      }
      assert ProgramPasses(AllBut(b), data, Filled(x));
      assert LoadedSignatures(data).value[i] == b;
    }
  }

  // ----------------------------------------------- the scripts' encoder

  /** What the packed encoder writes for valid signatures of one message passes. */
  lemma PackedPasses(valid: Oracle, sigs: seq<Bundle>, others: seq<Bytes>)
    requires 0 < |sigs| < 0x100 && OneMessage(sigs) && AllValid(valid, sigs)
    ensures OwnFields(PackedData(sigs, OWN_DATA)) && ProgramPasses(valid, PackedData(sigs, OWN_DATA), others)
  {
    hide PackedData, TableFits, Entry;
    var data := PackedData(sigs, OWN_DATA);
    PackedTable(sigs, OWN_DATA, 0);
    forall i | 0 <= i < |sigs|
      ensures EntryPasses(valid, data, others, Entry(data, i))
      ensures Entry(data, i).signatureIx == Entry(data, i).pubkeyIx == Entry(data, i).messageIx == OWN_DATA
    {
      PackedTable(sigs, OWN_DATA, i);
      PackedSlices(sigs, OWN_DATA, i);
    }
  }

  /** An entry passes on another instruction's bytes if it would be in bounds there and what it names is valid. */
  lemma PassesElsewhere(valid: Oracle, own: Bytes, others: seq<Bytes>, o: Offsets, e: Offsets)
    requires o.signatureIx == o.pubkeyIx == o.messageIx < |others| && o.messageIx != OWN_DATA
    requires o.signature == e.signature && o.pubkey == e.pubkey
    requires o.message == e.message && o.messageSize == e.messageSize
    requires var data := others[o.messageIx];
             InBounds(data, e) && valid(Slices(data, e).pubkey, Slices(data, e).signature, Slices(data, e).msg)
    ensures EntryPasses(valid, own, others, o)
  {
  }

  /** With other index fields it need not: the program checks another instruction's bytes at the same places,
      and the bridge still decodes this one's. So acceptance rests on the index fields being 0xFFFF. */
  lemma OtherFieldsCheckOtherBytes(valid: Oracle, sigs: seq<Bundle>, checked: seq<Bundle>, others: seq<Bytes>,
                                   k: u16, j: u16)
    requires 0 < |sigs| == |checked| < 0x100 && OneMessage(sigs) && OneMessage(checked)
    requires k < |others| && k != OWN_DATA && others[k] == PackedData(checked, j) && AllValid(valid, checked)
    ensures ProgramPasses(valid, PackedData(sigs, k), others)
    ensures LoadedSignatures(PackedData(sigs, k)) == Ok(sigs)
  {
    hide PackedData, TableFits, Entry, LoadedSignatures, InBounds, Slices, EntryPasses;
    var data := PackedData(sigs, k);
    PackedRoundTrip(sigs, k);
    PackedTable(sigs, k, 0);
    forall i | 0 <= i < |sigs|
      ensures EntryPasses(valid, data, others, Entry(data, i))
    {
      PackedTable(sigs, k, i);
      PackedTable(checked, j, i);
      PackedSlices(checked, j, i);
      PassesElsewhere(valid, data, others, Entry(data, i), Entry(others[k], i));
    }
  }
}
