/**
 * The BER reader and DER writer of certutil/pkcs7/ber.go (ITU-T X.690, sections 8.1 and 10.1).
 *
 * `Read` and `Encode` say what the two halves mean; the methods below them are the
 * loops of the program and are proved to compute exactly these functions.
 */
module Ber {
  import opened Bytes

  /** `asn1Primitive` and `asn1Structured`. */
  datatype Obj =
    | Primitive(tag: seq<byte>, length: nat, content: seq<byte>)
    | Structured(tag: seq<byte>, children: seq<Obj>)

  datatype Error =
    | EmptyInput
    | LengthTooLong
    | LengthNegative
    | LengthLeadingZero
    | LengthBeyondData
    | IndefinitePrimitive
    | InvalidFormat
    | IndexOutOfRange   // the run-time panic of an index past the end of the input

  datatype Result<+T> = Ok(value: T) | Err(error: Error)

  datatype Parsed = Parsed(obj: Obj, end: nat)

  /** A decoded length: the definite form, or the indefinite form of section 8.1.3.6. */
  datatype Length = Definite(n: nat) | Indefinite

  datatype LengthAt = LengthAt(length: Length, next: nat)

  const INT32_LIMIT := 0x8000_0000
  const INT64_LIMIT := 0x8000_0000_0000_0000

  predicate IsConstructed(b: byte) { b / 0x20 % 2 == 1 }

  predicate IsLongTag(b: byte) { b % 0x20 == 0x1F }

  // ------------------------------------------------------------------ reader

  /** The end of the continuation bytes of a multi-byte tag starting at `i`. */
  function ReadTagTail(ber: seq<byte>, i: nat): (r: Result<nat>)
    ensures r.Ok? ==> i < r.value <= |ber|
    decreases |ber| - i
  {
    if i >= |ber| then Err(IndexOutOfRange)
    else if ber[i] >= 0x80 then ReadTagTail(ber, i + 1)
    else Ok(i + 1)
  }

  function ReadTag(ber: seq<byte>, start: nat): (r: Result<nat>)
    ensures r.Ok? ==> start < r.value <= |ber|
  {
    if start >= |ber| then Err(IndexOutOfRange)
    else if IsLongTag(ber[start]) then ReadTagTail(ber, start + 1)
    else Ok(start + 1)
  }

  /** The big-endian value of a string of bytes. */
  function BigEndian(s: seq<byte>): (r: nat)
  {
    if s == [] then 0 else BigEndian(s[..|s| - 1]) * 256 + s[|s| - 1]
  }

  function ReadLength(ber: seq<byte>, i: nat): (r: Result<LengthAt>)
    ensures r.Ok? ==> i < r.value.next <= |ber|
  {
    if i >= |ber| then Err(IndexOutOfRange)
    else if ber[i] < 0x80 then Ok(LengthAt(Definite(ber[i]), i + 1))
    else if ber[i] == 0x80 then Ok(LengthAt(Indefinite, i + 1))
    else
      var k := ber[i] - 0x80;
      if k > 4 then Err(LengthTooLong)
      else if i + 1 >= |ber| then Err(IndexOutOfRange)
      else if k == 4 && ber[i + 1] > 0x7F then Err(LengthNegative)
      else if ber[i + 1] == 0 then Err(LengthLeadingZero)
      else if i + 1 + k > |ber| then Err(IndexOutOfRange)
      else Ok(LengthAt(Definite(BigEndian(ber[i + 1..i + 1 + k])), i + 1 + k))
  }

  /** The end-of-contents octets stand at `i`. */
  function AtTermination(ber: seq<byte>, i: nat): (r: Result<bool>)
    ensures r.Ok? ==> i + 2 <= |ber|
  {
    if |ber| - i < 2 then Err(InvalidFormat)
    else Ok(ber[i] == 0 && ber[i + 1] == 0)
  }

  /**
   * The object that starts at `start`, and the offset behind it: always past `start` and
   * inside the input, although a child may overrun the end of its parent.
   */
  function Read(ber: seq<byte>, start: nat): (r: Result<Parsed>)
    ensures r.Ok? ==> start + 2 <= r.value.end <= |ber|
    decreases |ber| - start, 0
  {
    match ReadTag(ber, start)
    case Err(e) => Err(e)
    case Ok(tagEnd) =>
      match ReadLength(ber, tagEnd)
      case Err(e) => Err(e)
      case Ok(LengthAt(Definite(n), next)) =>
        if next + n > |ber| then Err(LengthBeyondData)
        else if !IsConstructed(ber[start]) then
          Ok(Parsed(Primitive(ber[start..tagEnd], n, ber[next..next + n]), next + n))
        else (
          match ReadUntil(ber, next, next + n)
          case Err(e) => Err(e)
          case Ok(children) => Ok(Parsed(Structured(ber[start..tagEnd], children), next + n)))
      case Ok(LengthAt(Indefinite, next)) =>
        if !IsConstructed(ber[start]) then Err(IndefinitePrimitive)
        else
          match ReadTerminated(ber, next)
          case Err(e) => Err(e)
          case Ok((children, last)) => Ok(Parsed(Structured(ber[start..tagEnd], children), last + 2))
  }

  /** The children of a definite-length object: read while the offset is before `contentEnd`. */
  function ReadUntil(ber: seq<byte>, i: nat, contentEnd: nat): (r: Result<seq<Obj>>)
    decreases |ber| - i, 1
  {
    if i >= contentEnd then Ok([])
    else
      match Read(ber, i)
      case Err(e) => Err(e)
      case Ok(p) =>
        match ReadUntil(ber, p.end, contentEnd)
        case Err(e) => Err(e)
        case Ok(rest) => Ok([p.obj] + rest)
  }

  /** The children of an indefinite-length object, and the offset of its end-of-contents octets. */
  function ReadTerminated(ber: seq<byte>, i: nat): (r: Result<(seq<Obj>, nat)>)
    ensures r.Ok? ==> i < r.value.1 && r.value.1 + 2 <= |ber|
    decreases |ber| - i, 1
  {
    match Read(ber, i)
    case Err(e) => Err(e)
    case Ok(p) =>
      match AtTermination(ber, p.end)
      case Err(e) => Err(e)
      case Ok(true) => Ok(([p.obj], p.end))
      case Ok(false) =>
        match ReadTerminated(ber, p.end)
        case Err(e) => Err(e)
        case Ok((rest, last)) => Ok(([p.obj] + rest, last))
  }

  // ------------------------------------------------------------------ writer

  function LengthLength(n: nat): (r: nat)
    ensures r >= 1
  {
    if n > 255 then 1 + LengthLength(n / 256) else 1
  }

  /** The `k` low-order bytes of `n`, most significant first. */
  function LowBytes(n: nat, k: nat): (r: seq<byte>)
    ensures |r| == k
  {
    if k == 0 then [] else LowBytes(n / 256, k - 1) + [n % 256]
  }

  function EncodeLength(n: nat): (r: seq<byte>)
    ensures |r| >= 1
  {
    if n < 0x80 then [n] else [0x80 + LengthLength(n) % 0x80] + LowBytes(n, LengthLength(n))
  }

  function Encode(o: Obj): (r: seq<byte>)
    ensures |r| > |o.tag|
    decreases o, 0
  {
    match o
    case Primitive(tag, length, content) => tag + EncodeLength(length) + content
    case Structured(tag, children) =>
      var inner := EncodeAll(children);
      tag + EncodeLength(|inner|) + inner
  }

  function EncodeAll(os: seq<Obj>): (r: seq<byte>)
    decreases os, 1
  {
    if os == [] then [] else Encode(os[0]) + EncodeAll(os[1..])
  }

  function Ber2Der(ber: seq<byte>): (r: Result<seq<byte>>)
  {
    if ber == [] then Err(EmptyInput)
    else
      match Read(ber, 0)
      case Err(e) => Err(e)
      case Ok(p) => Ok(Encode(p.obj))
  }

  // --------------------------------------------------- trees the reader can build

  /** One identifier: a single byte, or a leading byte and its base-128 continuation. */
  predicate WellFormedTag(tag: seq<byte>, constructed: bool)
  {
    && |tag| >= 1
    && IsConstructed(tag[0]) == constructed
    && if IsLongTag(tag[0])
       then |tag| >= 2 && tag[|tag| - 1] < 0x80 && forall i :: 1 <= i < |tag| - 1 ==> tag[i] >= 0x80
       else |tag| == 1
  }

  predicate WellFormed(o: Obj)
    decreases o
  {
    match o
    case Primitive(tag, length, content) => WellFormedTag(tag, false) && length == |content|
    case Structured(tag, children) => WellFormedTag(tag, true) && forall c :: c in children ==> WellFormed(c)
  }

  /** The contents octets of the encoding of an object. */
  function Contents(o: Obj): (r: seq<byte>)
  {
    match o
    case Primitive(_, _, content) => content
    case Structured(_, children) => EncodeAll(children)
  }

  // ------------------------------------------------------------------ lengths

  lemma {:induction false} BigEndianLowBytes(n: nat, k: nat)
    requires LengthLength(n) <= k
    ensures BigEndian(LowBytes(n, k)) == n
    decreases k
  {
    if k == 1 {
      assert LowBytes(n, 1) == [n];
      assert BigEndian([n]) == BigEndian([]) * 256 + n;
    } else {
      var s := LowBytes(n, k);
      assert s[..k - 1] == LowBytes(n / 256, k - 1);
      if n > 255 {
        BigEndianLowBytes(n / 256, k - 1);
      } else {
        BigEndianLowBytes(0, k - 1);
      }
    }
  }

  /** The leading byte of a minimal encoding is not zero, and is `n` shifted down. */
  lemma {:induction false} LeadingByte(n: nat)
    ensures LengthLength(n) == 1 ==> LowBytes(n, 1) == [n]
    ensures n > 255 ==> LowBytes(n, LengthLength(n))[0] == LowBytes(n / 256, LengthLength(n / 256))[0]
    ensures n > 0 ==> LowBytes(n, LengthLength(n))[0] > 0
    decreases n
  {
    if n > 255 {
      LeadingByte(n / 256);
    } else {
      assert LowBytes(n, 1) == [n];
    }
  }

  lemma LengthLengthBounds(n: nat)
    ensures n < 0x100 <==> LengthLength(n) <= 1
    ensures n < 0x1_0000 <==> LengthLength(n) <= 2
    ensures n < 0x100_0000 <==> LengthLength(n) <= 3
    ensures n < 0x1_0000_0000 <==> LengthLength(n) <= 4
    ensures n < INT64_LIMIT ==> LengthLength(n) <= 8
  {
    var n1 := n / 0x100;
    var n2 := n1 / 0x100;
    var n3 := n2 / 0x100;
    var n4 := n3 / 0x100;
    var n5 := n4 / 0x100;
    var n6 := n5 / 0x100;
    var n7 := n6 / 0x100;
    assert LengthLength(n) == if n > 255 then 1 + LengthLength(n1) else 1;
    assert LengthLength(n1) == if n1 > 255 then 1 + LengthLength(n2) else 1;
    assert LengthLength(n2) == if n2 > 255 then 1 + LengthLength(n3) else 1;
    assert LengthLength(n3) == if n3 > 255 then 1 + LengthLength(n4) else 1;
    assert LengthLength(n4) == if n4 > 255 then 1 + LengthLength(n5) else 1;
    assert LengthLength(n5) == if n5 > 255 then 1 + LengthLength(n6) else 1;
    assert LengthLength(n6) == if n6 > 255 then 1 + LengthLength(n7) else 1;
  }

  /** `e` stands in `ber` at offset `i`. */
  predicate At(ber: seq<byte>, i: nat, e: seq<byte>)
  {
    i + |e| <= |ber| && ber[i..i + |e|] == e
  }

  lemma AtParts(ber: seq<byte>, i: nat, a: seq<byte>, b: seq<byte>)
    requires At(ber, i, a + b)
    ensures At(ber, i, a) && At(ber, i + |a|, b)
  {
    var e := ber[i..i + |a + b|];
    assert ber[i..i + |a|] == e[..|a|];
    assert ber[i + |a|..i + |a| + |b|] == e[|a|..];
  }

  lemma AtByte(ber: seq<byte>, i: nat, e: seq<byte>, k: nat)
    requires At(ber, i, e) && k < |e|
    ensures ber[i + k] == e[k]
  {
    assert ber[i..i + |e|][k] == ber[i + k];
  }

  lemma TopByte(n: nat)
    requires LengthLength(n) == 4
    ensures LowBytes(n, 4)[0] == n / 0x100_0000
  {
    LengthLengthBounds(n);
    LeadingByte(n);
    LeadingByte(n / 256);
    LeadingByte(n / 256 / 256);
    LeadingByte(n / 256 / 256 / 256);
    LengthLengthBounds(n / 256 / 256 / 256);
  }

  /** A written length is read back exactly when it is below 2^31. */
  lemma ReadEncodedLength(ber: seq<byte>, i: nat, n: nat)
    requires At(ber, i, EncodeLength(n)) && n < INT64_LIMIT
    ensures ReadLength(ber, i) ==
            if n < INT32_LIMIT then Ok(LengthAt(Definite(n), i + |EncodeLength(n)|))
            else if n < U32_LIMIT then Err(LengthNegative)
            else Err(LengthTooLong)
  {
    hide LowBytes, LengthLength, BigEndian;
    var e := EncodeLength(n);
    var k := LengthLength(n);
    LengthLengthBounds(n);
    AtByte(ber, i, e, 0);
    if n >= 0x80 {
      var low := LowBytes(n, k);
      assert e == [0x80 + k] + low;
      AtByte(ber, i, e, 1);
      assert e[1] == low[0];
      LeadingByte(n);
      if k <= 4 {
        AtParts(ber, i, [0x80 + k], low);
        BigEndianLowBytes(n, k);
        if k == 4 {
          TopByte(n);
        }
      }
    }
  }

  lemma {:induction false} ReadTagTailAt(ber: seq<byte>, i: nat, end: nat)
    requires i < end <= |ber| && ber[end - 1] < 0x80
    requires forall j :: i <= j < end - 1 ==> ber[j] >= 0x80
    ensures ReadTagTail(ber, i) == Ok(end)
    decreases end - i
  {
    if i < end - 1 {
      ReadTagTailAt(ber, i + 1, end);
    }
  }

  lemma ReadTagAt(ber: seq<byte>, i: nat, tag: seq<byte>, constructed: bool)
    requires At(ber, i, tag) && WellFormedTag(tag, constructed)
    ensures ReadTag(ber, i) == Ok(i + |tag|)
  {
    AtByte(ber, i, tag, 0);
    if IsLongTag(tag[0]) {
      AtByte(ber, i, tag, |tag| - 1);
      forall j | i + 1 <= j < i + |tag| - 1
        ensures ber[j] >= 0x80
      {
        AtByte(ber, i, tag, j - i);
      }
      ReadTagTailAt(ber, i + 1, i + |tag|);
    }
  }

  // ------------------------------------------------------------------ round trip

  /** The identifier, length and contents octets of `o` stand in `ber` one after the other. */
  predicate Stands(ber: seq<byte>, start: nat, o: Obj, lengthAt: nat, contentAt: nat)
  {
    && lengthAt == start + |o.tag|
    && At(ber, start, o.tag)
    && contentAt == lengthAt + |EncodeLength(|Contents(o)|)|
    && At(ber, lengthAt, EncodeLength(|Contents(o)|))
    && At(ber, contentAt, Contents(o))
  }

  lemma EncodingParts(ber: seq<byte>, start: nat, o: Obj) returns (lengthAt: nat, contentAt: nat)
    requires WellFormed(o) && At(ber, start, Encode(o))
    ensures Stands(ber, start, o, lengthAt, contentAt)
    ensures contentAt + |Contents(o)| == start + |Encode(o)|
  {
    hide EncodeLength, EncodeAll, WellFormedTag;
    var len := EncodeLength(|Contents(o)|);
    lengthAt, contentAt := start + |o.tag|, start + |o.tag| + |len|;
    assert Encode(o) == (o.tag + len) + Contents(o);
    AtParts(ber, start, o.tag + len, Contents(o));
    AtParts(ber, start, o.tag, len);
  }

  /** What reading the first bytes of an encoding yields: its own tag and length, or a refused length. */
  lemma ReadHeaderAt(ber: seq<byte>, start: nat, o: Obj, lengthAt: nat, contentAt: nat)
    requires WellFormed(o) && |Contents(o)| < INT64_LIMIT && Stands(ber, start, o, lengthAt, contentAt)
    ensures ReadTag(ber, start) == Ok(lengthAt)
    ensures ber[start..lengthAt] == o.tag && start < |ber| && IsConstructed(ber[start]) == o.Structured?
    ensures contentAt + |Contents(o)| <= |ber| && ber[contentAt..contentAt + |Contents(o)|] == Contents(o)
    ensures ReadLength(ber, lengthAt) ==
            if |Contents(o)| < INT32_LIMIT then Ok(LengthAt(Definite(|Contents(o)|), contentAt))
            else if |Contents(o)| < U32_LIMIT then Err(LengthNegative) else Err(LengthTooLong)
  {
    hide EncodeLength, EncodeAll, ReadTag, ReadLength;
    AtByte(ber, start, o.tag, 0);
    ReadTagAt(ber, start, o.tag, o.Structured?);
    ReadEncodedLength(ber, lengthAt, |Contents(o)|);
  }

  /** Reading the DER encoding of a tree, wherever it stands, gives the tree back and stops at its end. */
  lemma {:induction false} ReadEncoded(ber: seq<byte>, start: nat, o: Obj)
    requires WellFormed(o) && |Contents(o)| < INT32_LIMIT && At(ber, start, Encode(o))
    ensures Read(ber, start) == Ok(Parsed(o, start + |Encode(o)|))
  {
    hide Read, At;
    var lengthAt, contentAt := EncodingParts(ber, start, o);
    ReadStanding(ber, start, o, lengthAt, contentAt);
  }

  lemma {:induction false} ReadStanding(ber: seq<byte>, start: nat, o: Obj, lengthAt: nat, contentAt: nat)
    requires WellFormed(o) && |Contents(o)| < INT32_LIMIT && Stands(ber, start, o, lengthAt, contentAt)
    ensures Read(ber, start) == Ok(Parsed(o, contentAt + |Contents(o)|))
    decreases o, 0
  {
    hide Read, At, EncodeLength, EncodeAll;
    ReadHeaderAt(ber, start, o, lengthAt, contentAt);
    ReadDefinite(ber, start, lengthAt, |Contents(o)|, contentAt);
    if o.Structured? {
      ReadAllEncoded(ber, contentAt, o.children);
    }
  }

  lemma {:induction false} ReadAllEncoded(ber: seq<byte>, i: nat, os: seq<Obj>)
    requires (forall o :: o in os ==> WellFormed(o)) && |EncodeAll(os)| < INT32_LIMIT
    requires At(ber, i, EncodeAll(os))
    ensures ReadUntil(ber, i, i + |EncodeAll(os)|) == Ok(os)
    decreases os, 1
  {
    hide Read, At, EncodeLength, Encode, ReadUntil;
    if os == [] {
      ReadUntilEnd(ber, i);
    } else {
      var first, rest := Encode(os[0]), EncodeAll(os[1..]);
      AtParts(ber, i, first, rest);
      var lengthAt, contentAt := EncodingParts(ber, i, os[0]);
      ReadStanding(ber, i, os[0], lengthAt, contentAt);
      ReadAllEncoded(ber, i + |first|, os[1..]);
      ReadUntilStep(ber, i, i + |first| + |rest|, Parsed(os[0], i + |first|), os[1..]);
      assert [os[0]] + os[1..] == os;
    }
  }

  lemma ReadUntilEnd(ber: seq<byte>, i: nat)
    ensures ReadUntil(ber, i, i) == Ok([])
  {
  }

  lemma ReadUntilStep(ber: seq<byte>, i: nat, contentEnd: nat, p: Parsed, rest: seq<Obj>)
    requires i < contentEnd && Read(ber, i) == Ok(p) && ReadUntil(ber, p.end, contentEnd) == Ok(rest)
    ensures ReadUntil(ber, i, contentEnd) == Ok([p.obj] + rest)
  {
  }

  /** One unfolding of `Read` behind a definite length. */
  lemma ReadDefinite(ber: seq<byte>, start: nat, tagEnd: nat, n: nat, next: nat)
    requires ReadTag(ber, start) == Ok(tagEnd)
    requires ReadLength(ber, tagEnd) == Ok(LengthAt(Definite(n), next)) && next + n <= |ber|
    ensures !IsConstructed(ber[start]) ==>
              Read(ber, start) == Ok(Parsed(Primitive(ber[start..tagEnd], n, ber[next..next + n]), next + n))
    ensures IsConstructed(ber[start]) && ReadUntil(ber, next, next + n).Ok? ==>
              Read(ber, start) ==
              Ok(Parsed(Structured(ber[start..tagEnd], ReadUntil(ber, next, next + n).value), next + n))
  {
    hide ReadTag, ReadLength, ReadUntil, ReadTerminated;
  }

  lemma {:induction false} ReadTagTailShape(ber: seq<byte>, i: nat)
    requires ReadTagTail(ber, i).Ok?
    ensures var end := ReadTagTail(ber, i).value;
            ber[end - 1] < 0x80 && forall j :: i <= j < end - 1 ==> ber[j] >= 0x80
    decreases |ber| - i
  {
    if ber[i] >= 0x80 {
      ReadTagTailShape(ber, i + 1);
    }
  }

  lemma ReadTagShape(ber: seq<byte>, start: nat)
    requires ReadTag(ber, start).Ok?
    ensures WellFormedTag(ber[start..ReadTag(ber, start).value], IsConstructed(ber[start]))
  {
    if IsLongTag(ber[start]) {
      ReadTagTailShape(ber, start + 1);
    }
  }

  /** Every tree that the reader returns is well formed. */
  lemma {:induction false} ReadWellFormed(ber: seq<byte>, start: nat)
    requires Read(ber, start).Ok?
    ensures WellFormed(Read(ber, start).value.obj)
    decreases |ber| - start, 0
  {
    ReadTagShape(ber, start);
    var tagEnd := ReadTag(ber, start).value;
    if IsConstructed(ber[start]) {
      match ReadLength(ber, tagEnd).value
      case LengthAt(Definite(n), next) => ReadUntilWellFormed(ber, next, next + n);
      case LengthAt(Indefinite, next) => ReadTerminatedWellFormed(ber, next);
    }
  }

  lemma {:induction false} ReadUntilWellFormed(ber: seq<byte>, i: nat, contentEnd: nat)
    requires ReadUntil(ber, i, contentEnd).Ok?
    ensures forall o :: o in ReadUntil(ber, i, contentEnd).value ==> WellFormed(o)
    decreases |ber| - i, 1
  {
    if i < contentEnd {
      ReadWellFormed(ber, i);
      ReadUntilWellFormed(ber, Read(ber, i).value.end, contentEnd);
    }
  }

  lemma {:induction false} ReadTerminatedWellFormed(ber: seq<byte>, i: nat)
    requires ReadTerminated(ber, i).Ok?
    ensures forall o :: o in ReadTerminated(ber, i).value.0 ==> WellFormed(o)
    decreases |ber| - i, 1
  {
    ReadWellFormed(ber, i);
    var end := Read(ber, i).value.end;
    if AtTermination(ber, end) == Ok(false) {
      ReadTerminatedWellFormed(ber, end);
    }
  }

  /**
   * Transcoding is idempotent on an accepted input exactly when the contents of the outermost
   * object stay below 2^31 bytes. The bound on `der` is the range of the program's `int`.
   */
  lemma Ber2DerIdempotent(ber: seq<byte>, der: seq<byte>)
    requires Ber2Der(ber) == Ok(der) && |der| < INT64_LIMIT
    ensures Ber2Der(der) == Ok(der) <==> |Contents(Read(ber, 0).value.obj)| < INT32_LIMIT
  {
    var o := Read(ber, 0).value.obj;
    ReadWellFormed(ber, 0);
    assert At(der, 0, Encode(o));
    assert |Contents(o)| <= |Encode(o)|;
    if |Contents(o)| < INT32_LIMIT {
      ReadEncoded(der, 0, o);
    } else {
      var lengthAt, contentAt := EncodingParts(der, 0, o);
      ReadHeaderAt(der, 0, o, lengthAt, contentAt);
    }
  }

  /** An octet string, and an input of indefinite length that holds it twice. */
  function OctetString(x: seq<byte>): (o: Obj)
  {
    Primitive([0x04], |x|, x)
  }

  function Twice(x: seq<byte>): (ber: seq<byte>)
  {
    [0x30, 0x80] + Encode(OctetString(x)) + Encode(OctetString(x)) + [0, 0]
  }

  lemma TwiceIsRead(x: seq<byte>)
    requires |x| < INT32_LIMIT
    ensures var o := OctetString(x);
            Read(Twice(x), 0) == Ok(Parsed(Structured([0x30], [o, o]), |Twice(x)|))
  {
    hide Encode, EncodeLength, Read, ReadTerminated;
    var o, ber := OctetString(x), Twice(x);
    var e := Encode(o);
    OctetStringStarts(x);
    ReadEncoded(ber, 2, o);
    ReadEncoded(ber, 2 + |e|, o);
    assert ber[2 + |e|] == e[0] == 0x04;
    TerminatedEnd(ber, 2 + |e|, Parsed(o, 2 + 2 * |e|));
    TerminatedStep(ber, 2, Parsed(o, 2 + |e|), [o], 2 + 2 * |e|);
    assert [o] + [o] == [o, o];
    ReadIndefinite(ber, [o, o], 2 + 2 * |e|);
  }

  lemma OctetStringStarts(x: seq<byte>)
    ensures Encode(OctetString(x)) == [0x04] + EncodeLength(|x|) + x
  {
  }

  lemma TerminatedEnd(ber: seq<byte>, i: nat, p: Parsed)
    requires Read(ber, i) == Ok(p) && AtTermination(ber, p.end) == Ok(true)
    ensures ReadTerminated(ber, i) == Ok(([p.obj], p.end))
  {
    hide Read;
  }

  lemma TerminatedStep(ber: seq<byte>, i: nat, p: Parsed, rest: seq<Obj>, last: nat)
    requires Read(ber, i) == Ok(p) && AtTermination(ber, p.end) == Ok(false)
    requires ReadTerminated(ber, p.end) == Ok((rest, last))
    ensures ReadTerminated(ber, i) == Ok(([p.obj] + rest, last))
  {
    hide Read;
  }

  lemma ReadIndefinite(ber: seq<byte>, children: seq<Obj>, last: nat)
    requires |ber| >= 2 && ber[0] == 0x30 && ber[1] == 0x80 && ReadTerminated(ber, 2) == Ok((children, last))
    ensures Read(ber, 0) == Ok(Parsed(Structured([0x30], children), last + 2))
  {
    hide ReadTerminated;
    assert ber[0..1] == [0x30];
  }

  /**
   * The other side of the condition is inhabited: two octet strings of 2^30 bytes each, or more, are accepted with
   * indefinite length, and the result cannot be transcoded again.
   */
  lemma TwiceIsNotIdempotent(x: seq<byte>)
    requires INT32_LIMIT / 2 <= |x| < INT32_LIMIT
    ensures Ber2Der(Twice(x)).Ok? && Ber2Der(Ber2Der(Twice(x)).value).Err?
  {
    hide Read, EncodeLength;
    TwiceIsRead(x);
    OctetStringStarts(x);
    ShortLength(|x|);
    var o := OctetString(x);
    var whole := Structured([0x30], [o, o]);
    var e, der := Encode(o), Encode(whole);
    TwoEncoded(o);
    ReadWellFormed(Twice(x), 0);
    assert At(der, 0, der);
    var lengthAt, contentAt := EncodingParts(der, 0, whole);
    ReadHeaderAt(der, 0, whole, lengthAt, contentAt);
    ReadFails(der, lengthAt);
  }

  lemma ShortLength(n: nat)
    requires n < U32_LIMIT
    ensures |EncodeLength(n)| <= 5
  {
    LengthLengthBounds(n);
  }

  lemma TwoEncoded(o: Obj)
    ensures EncodeAll([o, o]) == Encode(o) + Encode(o)
  {
    hide Encode;
    assert [o, o][1..] == [o] && [o][1..] == [];
    assert EncodeAll([o]) == Encode(o) + [];
  }

  lemma ReadFails(der: seq<byte>, lengthAt: nat)
    requires ReadTag(der, 0) == Ok(lengthAt) && ReadLength(der, lengthAt).Err?
    ensures Read(der, 0) == Err(ReadLength(der, lengthAt).error)
  {
    hide ReadTag, ReadLength;
  }

  // ------------------------------------------------------------------ the program

  /** The identifier octets, as the first part of `readObject` skips them. */
  method ReadIdentifier(ber: seq<byte>, start: nat) returns (r: Result<nat>)
    ensures r == ReadTag(ber, start)
  {
    var offset := start;
    if offset >= |ber| {
      return Err(IndexOutOfRange);
    }
    var b := ber[offset];
    offset := offset + 1;
    if b % 0x20 == 0x1F {
      while offset < |ber| && ber[offset] >= 0x80
        invariant start < offset <= |ber|
        invariant ReadTagTail(ber, start + 1) == ReadTagTail(ber, offset)
      {
        offset := offset + 1;
      }
      if offset >= |ber| {
        return Err(IndexOutOfRange);
      }
      offset := offset + 1;
    }
    return Ok(offset);
  }

  /** The length octets, as the second part of `readObject` reads them. */
  method ReadLengthOctets(ber: seq<byte>, start: nat) returns (r: Result<LengthAt>)
    ensures r == ReadLength(ber, start)
  {
    var offset := start;
    if offset >= |ber| {
      return Err(IndexOutOfRange);
    }
    var l := ber[offset];
    offset := offset + 1;
    var length := 0;
    var indefinite := false;
    if l > 0x80 {
      var numberOfBytes := l - 0x80;
      if numberOfBytes > 4 {
        return Err(LengthTooLong);
      }
      if offset >= |ber| {
        return Err(IndexOutOfRange);
      }
      if numberOfBytes == 4 && ber[offset] > 0x7F {
        return Err(LengthNegative);
      }
      if ber[offset] == 0 {
        return Err(LengthLeadingZero);
      }
      for i := 0 to numberOfBytes
        invariant offset == start + 1 + i <= |ber|
        invariant length == BigEndian(ber[start + 1..offset])
      {
        if offset >= |ber| {
          return Err(IndexOutOfRange);
        }
        assert ber[start + 1..offset + 1][..i] == ber[start + 1..offset];
        var digit: int := ber[offset];
        length := length * 256 + digit;
        offset := offset + 1;
      }
    } else if l == 0x80 {
      indefinite := true;
    } else {
      length := l;
    }
    return Ok(LengthAt(if indefinite then Indefinite else Definite(length), offset));
  }

  method ReadObject(ber: seq<byte>, start: nat) returns (r: Result<Parsed>)
    ensures r == Read(ber, start)
    decreases |ber| - start, 1
  {
    var tag := ReadIdentifier(ber, start);
    if tag.Err? {
      return Err(tag.error);
    }
    var tagEnd := tag.value;
    var len := ReadLengthOctets(ber, tagEnd);
    if len.Err? {
      return Err(len.error);
    }
    var offset := len.value.next;
    var indefinite := len.value.length.Indefinite?;
    var length := if indefinite then 0 else len.value.length.n;
    var contentEnd := offset + length;
    if contentEnd > |ber| {
      return Err(LengthBeyondData);
    }
    var constructed := ber[start] / 0x20 % 2 == 1;
    if indefinite && !constructed {
      return Err(IndefinitePrimitive);
    }
    if !constructed {
      return Ok(Parsed(Primitive(ber[start..tagEnd], length, ber[offset..contentEnd]), contentEnd));
    }
    var children := ReadChildren(ber, offset, contentEnd, indefinite);
    if children.Err? {
      return Err(children.error);
    }
    if indefinite {
      contentEnd := children.value.1 + 2;
    }
    return Ok(Parsed(Structured(ber[start..tagEnd], children.value.0), contentEnd));
  }

  /** The loop of `readObject` over the children of a constructed object. */
  method ReadChildren(ber: seq<byte>, start: nat, contentEnd: nat, indefinite: bool)
      returns (r: Result<(seq<Obj>, nat)>)
    requires start <= |ber|
    ensures indefinite ==> r == ReadTerminated(ber, start)
    ensures !indefinite ==> match ReadUntil(ber, start, contentEnd)
                            case Err(e) => r == Err(e)
                            case Ok(os) => r.Ok? && r.value.0 == os
    decreases |ber| - start, 2
  {
    hide Read;
    var offset := start;
    var children: seq<Obj> := [];
    var terminated := false;
    assert forall rest: seq<Obj> :: [] + rest == rest;
    while (offset < contentEnd || indefinite) && !terminated
      invariant start <= offset <= |ber|
      invariant terminated ==> indefinite && ReadTerminated(ber, start) == Ok((children, offset))
      invariant !indefinite ==>
        ReadUntil(ber, start, contentEnd) == Prepend(children, ReadUntil(ber, offset, contentEnd))
      invariant indefinite && !terminated ==>
        ReadTerminated(ber, start) == PrependTo(children, ReadTerminated(ber, offset))
      decreases |ber| - offset, !terminated
    {
      var child := ReadObject(ber, offset);
      if child.Err? {
        return Err(child.error);
      }
      assert forall rest: seq<Obj> :: children + ([child.value.obj] + rest) == children + [child.value.obj] + rest;
      children := children + [child.value.obj];
      offset := child.value.end;
      if indefinite {
        if |ber| - offset < 2 {
          return Err(InvalidFormat);
        }
        terminated := ber[offset] == 0 && ber[offset + 1] == 0;
      }
    }
    assert children + [] == children;
    return Ok((children, offset));
  }

  ghost function Prepend(os: seq<Obj>, r: Result<seq<Obj>>): (s: Result<seq<Obj>>)
  {
    match r
    case Err(e) => Err(e)
    case Ok(rest) => Ok(os + rest)
  }

  ghost function PrependTo(os: seq<Obj>, r: Result<(seq<Obj>, nat)>): (s: Result<(seq<Obj>, nat)>)
  {
    match r
    case Err(e) => Err(e)
    case Ok((rest, last)) => Ok((os + rest, last))
  }

  /** The output buffer of the encoders (`bytes.Buffer`). */
  class Buffer {
    var data: seq<byte>

    constructor ()
      ensures data == []
    {
      data := [];
    }

    method Write(p: seq<byte>)
      modifies this
      ensures data == old(data) + p
    {
      data := data + p;
    }
  }

  method LengthLengthOf(n: nat) returns (numBytes: nat)
    ensures numBytes == LengthLength(n)
  {
    numBytes := 1;
    var i := n;
    while i > 255
      invariant numBytes + LengthLength(i) - 1 == LengthLength(n)
    {
      numBytes := numBytes + 1;
      i := i / 256;
    }
  }

  /** `n >> (8 * k)`. */
  function ShiftBytes(n: nat, k: nat): (r: nat)
    decreases k
  {
    if k == 0 then n else ShiftBytes(n / 256, k - 1)
  }

  /** Splitting off the leading byte instead of the trailing one. */
  lemma {:induction false} LowBytesLeading(n: nat, k: nat)
    requires k > 0
    ensures LowBytes(n, k) == [ShiftBytes(n, k - 1) % 256] + LowBytes(n, k - 1)
    decreases k
  {
    if k > 1 {
      LowBytesLeading(n / 256, k - 1);
    }
  }

  method MarshalLongLength(out: Buffer, n: nat)
    modifies out
    ensures out.data == old(out.data) + LowBytes(n, LengthLength(n))
  {
    var k := LengthLengthOf(n);
    ghost var total := k;
    while k > 0
      invariant out.data + LowBytes(n, k) == old(out.data) + LowBytes(n, total)
    {
      LowBytesLeading(n, k);
      out.Write([ShiftBytes(n, k - 1) % 256]);
      k := k - 1;
    }
  }

  method WriteLength(out: Buffer, n: nat)
    modifies out
    ensures out.data == old(out.data) + EncodeLength(n)
  {
    hide LengthLength, LowBytes;
    if n >= 0x80 {
      var l := LengthLengthOf(n);
      var first := [0x80 + l % 0x80];
      out.Write(first);
      MarshalLongLength(out, n);
      assert out.data == old(out.data) + (first + LowBytes(n, l));
    } else {
      out.Write([n]);
    }
  }

  lemma {:induction false} EncodeAllSnoc(os: seq<Obj>, i: nat)
    requires i < |os|
    ensures EncodeAll(os[..i + 1]) == EncodeAll(os[..i]) + Encode(os[i])
  {
    if i == 0 {
      assert os[..1] == [os[0]];
    } else {
      assert os[..i + 1][1..] == os[1..][..i];
      assert os[..i][1..] == os[1..][..i - 1];
      EncodeAllSnoc(os[1..], i - 1);
    }
  }

  method EncodeTo(o: Obj, out: Buffer)
    modifies out
    ensures out.data == old(out.data) + Encode(o)
    decreases o
  {
    match o
    case Primitive(tag, length, content) =>
      out.Write(tag);
      WriteLength(out, length);
      out.Write(content);
    case Structured(tag, children) =>
      var inner := new Buffer();
      for i := 0 to |children|
        invariant inner != out && out.data == old(out.data)
        invariant inner.data == EncodeAll(children[..i])
      {
        EncodeTo(children[i], inner);
        EncodeAllSnoc(children, i);
      }
      assert children[..|children|] == children;
      out.Write(tag);
      WriteLength(out, |inner.data|);
      out.Write(inner.data);
  }

  method Transcode(ber: seq<byte>) returns (r: Result<seq<byte>>)
    ensures r == Ber2Der(ber)
  {
    if |ber| == 0 {
      return Err(EmptyInput);
    }
    var out := new Buffer();
    var p := ReadObject(ber, 0);
    if p.Err? {
      return Err(p.error);
    }
    EncodeTo(p.value.obj, out);
    assert [] + Encode(p.value.obj) == Encode(p.value.obj);
    r := Ok(out.data);
  }
}
