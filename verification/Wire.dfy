/** The binary frame format, the hot pair notification payload and the hot pair connection IDs. */
module Wire {
  import opened Link
  import opened Pieces

  type Bytes = seq<Byte>

  const U16 := 0x1_0000
  const U32 := 0x1_0000_0000

  // ---------------------------------------------------------------- big-endian integers

  /** The low 16 bits of `n`; a negative number is taken as its two's complement. */
  function PutU16(n: int): (b: Bytes)
    ensures |b| == 2
  {
    [n / 256 % 256, n % 256]
  }

  function GetU16(b: Bytes): nat
    requires |b| == 2
  {
    256 * (b[0] as int) + b[1]
  }

  /** The low 32 bits of `n`, high half first. */
  function PutU32(n: int): (b: Bytes)
    ensures |b| == 4
  {
    PutU16(n / U16) + PutU16(n)
  }

  function GetU32(b: Bytes): nat
    requires |b| == 4
  {
    U16 * GetU16(b[..2]) + GetU16(b[2..])
  }

  lemma {:induction false} GetPutU16(n: int)
    ensures GetU16(PutU16(n)) == n % U16
  {
  }

  lemma {:induction false} PutGetU16(b: Bytes)
    requires |b| == 2
    ensures GetU16(b) < U16 && PutU16(GetU16(b)) == b
  {
  }

  lemma {:induction false} PutU16Wraps(n: int, h: int)
    ensures PutU16(n + U16 * h) == PutU16(n)
  {
    assert (n + U16 * h) / 256 == n / 256 + 256 * h;
  }

  lemma {:induction false} GetPutU32(n: int)
    ensures GetU32(PutU32(n)) == n % U32
  {
    var b := PutU32(n);
    assert b[..2] == PutU16(n / U16) && b[2..] == PutU16(n);
    GetPutU16(n / U16);
    GetPutU16(n);
  }

  lemma {:induction false} PutGetU32(b: Bytes)
    requires |b| == 4
    ensures GetU32(b) < U32 && PutU32(GetU32(b)) == b
  {
    PutGetU16(b[..2]);
    PutGetU16(b[2..]);
    var h, l := GetU16(b[..2]), GetU16(b[2..]);
    assert (U16 * h + l) / U16 == h;
    PutU16Wraps(l, h);
    assert b == b[..2] + b[2..];
  }

  // ---------------------------------------------------------------- frames

  const HEADER := 8

  datatype Frame = Frame(kind: Byte, id: Bytes, meta: Bytes, payload: Bytes)

  datatype Error = FrameTooShort | BadLength

  datatype Result<+T> = Ok(value: T) | Err(error: Error)

  /** A connection ID is cut to 255 bytes; the other two lengths wrap around. */
  function EncodeMessage(f: Frame): Bytes {
    var id := if |f.id| > 255 then f.id[..255] else f.id;
    Header(f.kind, |id|, |f.meta|, |f.payload|) + id + f.meta + f.payload
  }

  function Header(kind: Byte, idLen: nat, metaLen: nat, payloadLen: nat): (h: Bytes)
    requires idLen <= 255
    ensures |h| == HEADER
  {
    [kind, idLen] + PutU16(metaLen) + PutU32(payloadLen)
  }

  function DecodeMessage(b: Bytes): Result<Frame> {
    if |b| < HEADER then Err(FrameTooShort)
    else
      var idEnd := HEADER + b[1];
      var metaEnd := idEnd + GetU16(b[2..4]);
      var total := metaEnd + GetU32(b[4..8]);
      if total > |b| then Err(BadLength)
      else Ok(Frame(b[0], b[HEADER..idEnd], b[idEnd..metaEnd], b[metaEnd..total]))
  }

  /** What the three length fields can express. */
  predicate Fits(f: Frame) {
    |f.id| <= 255 && |f.meta| < U16 && |f.payload| < U32
  }

  lemma {:induction false} HeaderFields(kind: Byte, idLen: nat, metaLen: nat, payloadLen: nat)
    requires idLen <= 255 && metaLen < U16 && payloadLen < U32
    ensures var h := Header(kind, idLen, metaLen, payloadLen);
            h[0] == kind && h[1] == idLen && GetU16(h[2..4]) == metaLen && GetU32(h[4..8]) == payloadLen
  {
    var h := Header(kind, idLen, metaLen, payloadLen);
    assert h[2..4] == PutU16(metaLen);
    assert h[4..8] == PutU32(payloadLen);
    GetPutU16(metaLen);
    GetPutU32(payloadLen);
  }

  /** Header fields of any byte string that starts with an encoding of a frame that fits. */
  lemma {:induction false} HeaderReads(f: Frame, b: Bytes)
    requires Fits(f) && EncodeMessage(f) <= b
    ensures |b| >= HEADER && b[0] == f.kind && b[1] == |f.id|
    ensures GetU16(b[2..4]) == |f.meta| && GetU32(b[4..8]) == |f.payload|
  {
    var h := Header(f.kind, |f.id|, |f.meta|, |f.payload|);
    HeaderFields(f.kind, |f.id|, |f.meta|, |f.payload|);
    assert EncodeMessage(f)[..HEADER] == h;
    assert b[..HEADER] == h;
    assert b[2..4] == b[..HEADER][2..4];
    assert b[4..8] == b[..HEADER][4..8];
  }

  lemma {:induction false} DecodesPrefix(f: Frame, b: Bytes)
    requires Fits(f) && EncodeMessage(f) <= b
    ensures DecodeMessage(b) == Ok(f)
  {
    HeaderReads(f, b);
    var h := Header(f.kind, |f.id|, |f.meta|, |f.payload|);
    var e := EncodeMessage(f);
    assert e == h + f.id + f.meta + f.payload;
    var i := HEADER + |f.id|;
    var j := i + |f.meta|;
    assert b[HEADER..i] == e[HEADER..i] == f.id;
    assert b[i..j] == e[i..j] == f.meta;
    assert b[j..|e|] == e[j..] == f.payload;
  }

  lemma {:induction false} HeaderOf(b: Bytes)
    requires |b| >= HEADER
    ensures GetU16(b[2..4]) < U16 && GetU32(b[4..8]) < U32
    ensures Header(b[0], b[1], GetU16(b[2..4]), GetU32(b[4..8])) == b[..HEADER]
  {
    PutGetU16(b[2..4]);
    PutGetU32(b[4..8]);
    assert b[..HEADER] == [b[0], b[1]] + b[2..4] + b[4..8];
  }

  lemma {:induction false} DecodedFits(b: Bytes)
    requires DecodeMessage(b).Ok?
    ensures Fits(DecodeMessage(b).value) && EncodeMessage(DecodeMessage(b).value) <= b
  {
    var f := DecodeMessage(b).value;
    HeaderOf(b);
    var i := HEADER + |f.id|;
    var j := i + |f.meta|;
    var k := j + |f.payload|;
    FourParts(b, HEADER, i, j, k);
    assert EncodeMessage(f) == b[..HEADER] + b[HEADER..i] + b[i..j] + b[j..k];
  }

  /** Decoding accepts exactly the byte strings that start with an encoding, and says which. */
  lemma {:induction false} DecodesIff(b: Bytes, f: Frame)
    ensures DecodeMessage(b) == Ok(f) <==> Fits(f) && EncodeMessage(f) <= b
  {
    if Fits(f) && EncodeMessage(f) <= b {
      DecodesPrefix(f, b);
    }
    if DecodeMessage(b) == Ok(f) {
      DecodedFits(b);
    }
  }

  /** A frame survives the wire exactly when its parts fit their length fields. */
  lemma {:induction false} RoundTripIff(f: Frame)
    ensures DecodeMessage(EncodeMessage(f)) == Ok(f) <==> Fits(f)
  {
    DecodesIff(EncodeMessage(f), f);
  }

  /**
    Where every byte of a frame stands: kind, ID length, two bytes of meta length, four of payload length, most
    significant first, then the ID cut to 255 bytes, the meta and the payload.
  */
  lemma {:induction false} FrameLayout(f: Frame)
    ensures var b := EncodeMessage(f); var m, n := |f.meta|, |f.payload|; var i := if |f.id| <= 255 then |f.id| else 255;
            && |b| == 8 + i + m + n
            && b[..8] == [f.kind, i, m / 256 % 256, m % 256, n / 0x100_0000 % 256, n / 0x1_0000 % 256, n / 256 % 256, n % 256]
            && b[8..8 + i] == f.id[..i] && b[8 + i..8 + i + m] == f.meta && b[8 + i + m..] == f.payload
  {
    var m, n := |f.meta|, |f.payload|;
    var id := if |f.id| > 255 then f.id[..255] else f.id;
    FourBytes(n);
    var h := Header(f.kind, |id|, m, n);
    assert h == [f.kind, |id|, m / 256 % 256, m % 256, n / 0x100_0000 % 256, n / 0x1_0000 % 256, n / 256 % 256, n % 256];
    var b := EncodeMessage(f);
    assert b == h + id + f.meta + f.payload && |id| == if |f.id| <= 255 then |f.id| else 255;
    Sections(h, id, f.meta, f.payload);
  }

  lemma {:induction false} Sections(h: Bytes, i: Bytes, m: Bytes, p: Bytes)
    ensures var b := h + i + m + p; var j, k := |h| + |i|, |h| + |i| + |m|;
            |b| == k + |p| && b[..|h|] == h && b[|h|..j] == i && b[j..k] == m && b[k..] == p
  {
  }

  lemma {:induction false} FourBytes(n: int)
    ensures PutU32(n) == [n / 0x100_0000 % 256, n / 0x1_0000 % 256, n / 256 % 256, n % 256]
  {
    assert n / U16 / 256 == n / 0x100_0000;
  }

  /** A longer ID arrives as its first 255 bytes. */
  lemma {:induction false} LongIdIsCut(f: Frame)
    requires |f.id| > 255 && |f.meta| < U16 && |f.payload| < U32
    ensures DecodeMessage(EncodeMessage(f)) == Ok(f.(id := f.id[..255]))
  {
    var cut := f.(id := f.id[..255]);
    assert EncodeMessage(f) == EncodeMessage(cut);
    RoundTripIff(cut);
  }

  // ---------------------------------------------------------------- hot pair notifications

  datatype PairInfo = PairInfo(key: Bytes, chA: int, chB: int)

  /** The bytes of a record besides its key: one for the key length, four for each channel. */
  const RECORD_FIXED := 9

  predicate Encodable(e: PairInfo) {
    0 < |e.key| <= 255
  }

  /** The record as the other end will see it. */
  function OnWire(e: PairInfo): PairInfo {
    e.(chA := e.chA % U32, chB := e.chB % U32)
  }

  predicate Exact(e: PairInfo) {
    Encodable(e) && 0 <= e.chA < U32 && 0 <= e.chB < U32
  }

  function Record(e: PairInfo): (b: Bytes)
    requires Encodable(e)
    ensures |b| == RECORD_FIXED + |e.key|
  {
    [|e.key|] + e.key + PutU32(e.chA) + PutU32(e.chB)
  }

  function EncodeNotify(es: seq<PairInfo>): Bytes {
    if es == [] then []
    else (if Encodable(es[0]) then Record(es[0]) else []) + EncodeNotify(es[1..])
  }

  /** The records an encoding carries: those with a key of 1 to 255 bytes. */
  function Kept(es: seq<PairInfo>): seq<PairInfo> {
    if es == [] then []
    else (if Encodable(es[0]) then [OnWire(es[0])] else []) + Kept(es[1..])
  }

  /** A whole record stands at the front of `b`. */
  predicate Whole(b: Bytes) {
    |b| >= RECORD_FIXED && b[0] != 0 && RECORD_FIXED + b[0] <= |b|
  }

  function First(b: Bytes): (e: PairInfo)
    requires Whole(b)
    ensures |e.key| == b[0]
  {
    var k := b[0];
    PairInfo(b[1..1 + k], GetU32(b[1 + k..5 + k]), GetU32(b[5 + k..9 + k]))
  }

  function DecodeNotify(b: Bytes): seq<PairInfo>
    decreases |b|
  {
    if !Whole(b) then [] else [First(b)] + DecodeNotify(b[RECORD_FIXED + b[0]..])
  }

  /** The bytes of a record that is exact: key length, key, and the two channels, most significant byte first. */
  lemma {:induction false} RecordLayout(e: PairInfo)
    requires Exact(e)
    ensures Record(e) == [|e.key|] + e.key
              + [e.chA / 0x100_0000, e.chA / 0x1_0000 % 256, e.chA / 256 % 256, e.chA % 256]
              + [e.chB / 0x100_0000, e.chB / 0x1_0000 % 256, e.chB / 256 % 256, e.chB % 256]
  {
    FourBytes(e.chA);
    FourBytes(e.chB);
  }

  lemma {:induction false} FirstOfRecord(e: PairInfo, rest: Bytes)
    requires Encodable(e)
    ensures var b := Record(e) + rest;
            Whole(b) && First(b) == OnWire(e) && b[RECORD_FIXED + b[0]..] == rest
  {
    var b := Record(e) + rest;
    var k := |e.key|;
    assert b[0] == k;
    assert b[1..1 + k] == e.key;
    assert b[1 + k..5 + k] == PutU32(e.chA);
    assert b[5 + k..9 + k] == PutU32(e.chB);
    GetPutU32(e.chA);
    GetPutU32(e.chB);
  }

  lemma {:induction false} RecordOfFirst(b: Bytes)
    requires Whole(b)
    ensures Exact(First(b)) && Record(First(b)) == b[..RECORD_FIXED + b[0]]
  {
    var k := b[0];
    PutGetU32(b[1 + k..5 + k]);
    PutGetU32(b[5 + k..9 + k]);
    assert b[..9 + k] == [k] + b[1..1 + k] + b[1 + k..5 + k] + b[5 + k..9 + k];
  }

  lemma {:induction false} DecodeAfterRecord(e: PairInfo, rest: Bytes)
    requires Encodable(e)
    ensures DecodeNotify(Record(e) + rest) == [OnWire(e)] + DecodeNotify(rest)
  {
    FirstOfRecord(e, rest);
  }

  /** Decoding is a homomorphism after an encoding. */
  lemma {:induction false} DecodeAfterEncoding(es: seq<PairInfo>, b: Bytes)
    ensures DecodeNotify(EncodeNotify(es) + b) == Kept(es) + DecodeNotify(b)
  {
    if es == [] {
      assert EncodeNotify(es) + b == b;
      assert Kept(es) + DecodeNotify(b) == DecodeNotify(b);
    } else {
      DecodeAfterEncoding(es[1..], b);
      KeepHead(es, b, DecodeNotify(b));
    }
  }

  lemma {:induction false} KeepHead(es: seq<PairInfo>, b: Bytes, tail: seq<PairInfo>)
    requires es != [] && DecodeNotify(EncodeNotify(es[1..]) + b) == Kept(es[1..]) + tail
    ensures DecodeNotify(EncodeNotify(es) + b) == Kept(es) + tail
  {
    DecodeHead(es, b);
    Regroup(if Encodable(es[0]) then [OnWire(es[0])] else [], Kept(es[1..]), tail);
  }

  lemma {:induction false} DecodeHead(es: seq<PairInfo>, b: Bytes)
    requires es != []
    ensures DecodeNotify(EncodeNotify(es) + b) ==
            (if Encodable(es[0]) then [OnWire(es[0])] else []) + DecodeNotify(EncodeNotify(es[1..]) + b)
  {
    var rest := EncodeNotify(es[1..]) + b;
    if Encodable(es[0]) {
      assert EncodeNotify(es) + b == Record(es[0]) + rest;
      DecodeAfterRecord(es[0], rest);
    } else {
      assert EncodeNotify(es) + b == rest;
      assert [] + DecodeNotify(rest) == DecodeNotify(rest);
    }
  }

  /** What an encoding decodes to; records that fit come back unchanged. */
  lemma {:induction false} NotifyRoundTrip(es: seq<PairInfo>)
    ensures DecodeNotify(EncodeNotify(es)) == Kept(es)
    ensures Kept(es) == es <==> forall e :: e in es ==> Exact(e)
  {
    DecodeAfterEncoding(es, []);
    assert EncodeNotify(es) + [] == EncodeNotify(es);
    KeptIsSame(es);
  }

  lemma {:induction false} KeptIsSame(es: seq<PairInfo>)
    ensures |Kept(es)| <= |es|
    ensures Kept(es) == es <==> forall e :: e in es ==> Exact(e)
  {
    if es != [] {
      KeptIsSame(es[1..]);
      assert es == [es[0]] + es[1..];
      if Encodable(es[0]) {
        assert Kept(es)[0] == OnWire(es[0]) && Kept(es)[1..] == Kept(es[1..]);
        if Exact(es[0]) {
          assert OnWire(es[0]) == es[0];
        }
      } else {
        assert |Kept(es)| < |es|;
        assert es[0] in es && !Exact(es[0]);
      }
    }
  }

  /** A record is carried exactly if its key has 1 to 255 bytes; its channels arrive modulo 2^32. */
  lemma {:induction false} OneRecordArrives(e: PairInfo)
    ensures DecodeNotify(EncodeNotify([e])) ==
            if 1 <= |e.key| <= 255 then [PairInfo(e.key, e.chA % 0x1_0000_0000, e.chB % 0x1_0000_0000)] else []
  {
    NotifyRoundTrip([e]);
    assert [e][1..] == [];
  }

  ghost predicate AllExact(rs: seq<PairInfo>) {
    forall r :: r in rs ==> Exact(r)
  }

  /** The decoded records are exact, and their encoding stands at the front of the payload. */
  lemma {:induction false} DecodedIsPrefix(b: Bytes)
    ensures AllExact(DecodeNotify(b)) && EncodeNotify(DecodeNotify(b)) <= b
    decreases |b|
  {
    if Whole(b) {
      RecordOfFirst(b);
      var n := RECORD_FIXED + b[0];
      var rest := b[n..];
      DecodedIsPrefix(rest);
      var rs := DecodeNotify(b);
      assert rs[0] == First(b) && rs[1..] == DecodeNotify(rest);
      assert EncodeNotify(rs) == b[..n] + EncodeNotify(rs[1..]);
      assert b == b[..n] + rest;
    }
  }

  /**
    Decoding any payload, truncated or malformed, yields the longest list of records whose encoding the
    payload starts with: every such list is a prefix of the result.
  */
  lemma {:induction false} DecodesLongest(b: Bytes, rs: seq<PairInfo>)
    requires AllExact(rs)
    ensures EncodeNotify(rs) <= b <==> rs <= DecodeNotify(b)
  {
    var all := DecodeNotify(b);
    if EncodeNotify(rs) <= b {
      KeptIsSame(rs);
      var rest := b[|EncodeNotify(rs)|..];
      assert b == EncodeNotify(rs) + rest;
      DecodeAfterEncoding(rs, rest);
      assert all == rs + DecodeNotify(rest);
    }
    if rs <= all {
      DecodedIsPrefix(b);
      EncodePrefix(rs, all);
    }
  }

  lemma {:induction false} EncodePrefix(es: seq<PairInfo>, all: seq<PairInfo>)
    requires es <= all
    ensures EncodeNotify(es) <= EncodeNotify(all)
  {
    assert all == es + all[|es|..];
    EncodeAppend(es, all[|es|..]);
  }

  lemma {:induction false} EncodeAppend(es: seq<PairInfo>, fs: seq<PairInfo>)
    ensures EncodeNotify(es + fs) == EncodeNotify(es) + EncodeNotify(fs)
  {
    if es == [] {
      assert es + fs == fs;
    } else {
      assert (es + fs)[0] == es[0] && (es + fs)[1..] == es[1..] + fs;
      EncodeAppend(es[1..], fs);
    }
  }

  /** Cutting a payload short keeps exactly the records that lie wholly inside what is left. */
  lemma {:induction false} CutKeepsWholeRecords(b: Bytes, n: nat, rs: seq<PairInfo>)
    requires n <= |b| && rs <= DecodeNotify(b)
    ensures rs <= DecodeNotify(b[..n]) <==> |EncodeNotify(rs)| <= n
    ensures DecodeNotify(b[..n]) <= DecodeNotify(b)
  {
    DecodedIsPrefix(b);
    assert AllExact(rs);
    DecodesLongest(b, rs);
    DecodesLongest(b[..n], rs);
    var cut := DecodeNotify(b[..n]);
    DecodedIsPrefix(b[..n]);
    DecodesLongest(b, cut);
  }

  // ---------------------------------------------------------------- the loops

  method EncodeHotPairNotify(entries: seq<PairInfo>) returns (buf: Bytes)
    ensures buf == EncodeNotify(entries)
  {
    buf := [];
    for i := 0 to |entries|
      invariant buf + EncodeNotify(entries[i..]) == EncodeNotify(entries)
    {
      var e := entries[i];
      assert entries[i..][1..] == entries[i + 1..];
      if |e.key| == 0 || |e.key| > 255 {
        continue;
      }
      ghost var before := buf;
      buf := buf + [|e.key|];
      buf := buf + e.key;
      buf := buf + PutU32(e.chA);
      buf := buf + PutU32(e.chB);
      assert buf == before + Record(e);
    }
  }

  /** A whole record of key length `k` stands at the offset. */
  predicate WholeAt(payload: Bytes, off: nat, k: nat) {
    off < |payload| && payload[off] == k != 0 && off + RECORD_FIXED + k <= |payload|
  }

  /** The record at an offset, read field by field. */
  method ReadRecord(payload: Bytes, off: nat, k: nat) returns (e: PairInfo)
    requires WholeAt(payload, off, k)
    ensures e == First(payload[off..])
  {
    var key := payload[off + 1..off + 1 + k];
    var chA := GetU32(payload[off + 1 + k..off + 5 + k]);
    var chB := GetU32(payload[off + 5 + k..off + 9 + k]);
    e := PairInfo(key, chA, chB);
    ghost var rest := payload[off..];
    assert rest[1..1 + k] == key;
    assert rest[1 + k..5 + k] == payload[off + 1 + k..off + 5 + k];
    assert rest[5 + k..9 + k] == payload[off + 5 + k..off + 9 + k];
  }

  /** Everything before the offset has been decoded into `out`. */
  ghost predicate Upto(payload: Bytes, off: nat, out: seq<PairInfo>) {
    off <= |payload| && out + DecodeNotify(payload[off..]) == DecodeNotify(payload)
  }

  lemma {:induction false} StartAt(payload: Bytes)
    ensures Upto(payload, 0, [])
  {
    assert payload[0..] == payload;
  }

  lemma {:induction false} NextAt(payload: Bytes, off: nat, k: nat, out: seq<PairInfo>, e: PairInfo)
    requires Upto(payload, off, out) && WholeAt(payload, off, k) && e == First(payload[off..])
    ensures Upto(payload, off + RECORD_FIXED + k, out + [e])
  {
    var rest := payload[off..];
    assert rest[RECORD_FIXED + k..] == payload[off + RECORD_FIXED + k..];
    Regroup(out, [e], DecodeNotify(payload[off + RECORD_FIXED + k..]));
  }

  /** No whole record at an offset: nothing more is decoded. */
  lemma {:induction false} NoneAt(payload: Bytes, off: nat, out: seq<PairInfo>)
    requires Upto(payload, off, out)
    requires off + RECORD_FIXED > |payload| || payload[off] == 0 || off + RECORD_FIXED + payload[off] > |payload|
    ensures out == DecodeNotify(payload)
  {
    assert DecodeNotify(payload[off..]) == [];
  }

  method DecodeHotPairNotify(payload: Bytes) returns (out: seq<PairInfo>)
    ensures out == DecodeNotify(payload)
  {
    out := [];
    var off := 0;
    StartAt(payload);
    while off < |payload|
      invariant Upto(payload, off, out)
    {
      if off + RECORD_FIXED > |payload| {
        break;
      }
      var keyLen := payload[off];
      if keyLen == 0 || off + RECORD_FIXED + keyLen > |payload| {
        break;
      }
      var e := ReadRecord(payload, off, keyLen);
      NextAt(payload, off, keyLen, out, e);
      out := out + [e];
      off := off + RECORD_FIXED + keyLen;
    }
    NoneAt(payload, off, out);
  }

  // ---------------------------------------------------------------- hot pair connection IDs

  const DOT: Byte := 46

  /** "prebind-" */
  const KEY_PREFIX: Bytes := [112, 114, 101, 98, 105, 110, 100, 45]

  function HotPairConnID(key: Bytes, suffix: Bytes): Bytes {
    if key == [] || suffix == [] then [] else key + [DOT] + suffix
  }

  /** The position of the first dot, or the length when there is none. */
  function FirstDot(id: Bytes): (i: nat)
    ensures i <= |id| && DOT !in id[..i] && (i < |id| ==> id[i] == DOT)
  {
    if id == [] || id[0] == DOT then 0
    else
      var i := FirstDot(id[1..]);
      assert id[..i + 1] == [id[0]] + id[1..][..i];
      i + 1
  }

  function SplitHotPairConnID(id: Bytes): Option<(Bytes, Bytes)> {
    var i := FirstDot(id);
    if i == |id| || i == 0 || i == |id| - 1 then None
    else if !(KEY_PREFIX <= id[..i]) then None
    else Some((id[..i], id[i + 1..]))
  }

  predicate IsKey(key: Bytes) {
    KEY_PREFIX <= key && DOT !in key
  }

  /** Splitting undoes joining exactly on dot-free prebind keys and non-empty suffixes, dots in the suffix or not. */
  lemma {:induction false} SplitOfJoinIff(key: Bytes, suffix: Bytes)
    ensures SplitHotPairConnID(HotPairConnID(key, suffix)) == Some((key, suffix)) <==> IsKey(key) && suffix != []
  {
    var id := HotPairConnID(key, suffix);
    if IsKey(key) && suffix != [] {
      var i := FirstDot(id);
      assert id[|key|] == DOT;
      assert id[..i] == key && id[i + 1..] == suffix;
    }
  }

  /** Joining undoes splitting: an ID splits into a key and a suffix exactly when it is their join. */
  lemma {:induction false} JoinOfSplitIff(id: Bytes, key: Bytes, suffix: Bytes)
    ensures SplitHotPairConnID(id) == Some((key, suffix)) <==>
            IsKey(key) && suffix != [] && id == HotPairConnID(key, suffix)
    ensures IsKey(key) && suffix != [] ==> HotPairConnID(key, suffix) == key + [46] + suffix
  {
    if IsKey(key) && suffix != [] && id == HotPairConnID(key, suffix) {
      SplitOfJoinIff(key, suffix);
    }
    if SplitHotPairConnID(id) == Some((key, suffix)) {
      var i := FirstDot(id);
      assert id == id[..i] + [DOT] + id[i + 1..];
    }
  }
}
