/**
 * Everything that may stand in the input of the BER reader (ITU-T X.690, section 8.1): for each object the definite
 * form, with any length octets that the reader accepts, or the indefinite form with end-of-contents octets. The
 * reader accepts exactly these forms, and returns the tree behind them.
 */
module BerForms {
  import opened Bytes
  import opened Ber

  /** How an object is written: a primitive one, a constructed one of definite length, one of indefinite length. */
  datatype Form =
    | Whole(tag: seq<byte>, length: seq<byte>, content: seq<byte>)
    | Sized(tag: seq<byte>, length: seq<byte>, children: seq<Form>)
    | Open(tag: seq<byte>, children: seq<Form>)

  const END_OF_CONTENTS := Whole([0], [0], [])

  function Write(f: Form): (r: seq<byte>)
    decreases f, 0
  {
    match f
    case Whole(tag, length, content) => tag + length + content
    case Sized(tag, length, children) => tag + length + WriteAll(children)
    case Open(tag, children) => tag + [0x80] + WriteAll(children) + [0, 0]
  }

  function WriteAll(fs: seq<Form>): (r: seq<byte>)
    decreases fs, 1
  {
    if fs == [] then [] else Write(fs[0]) + WriteAll(fs[1..])
  }

  /** The tree behind a form: tags and contents stay, the way of writing is forgotten. */
  function Tree(f: Form): (o: Obj)
    decreases f, 0
  {
    match f
    case Whole(tag, _, content) => Primitive(tag, |content|, content)
    case Sized(tag, _, children) => Structured(tag, Trees(children))
    case Open(tag, children) => Structured(tag, Trees(children))
  }

  function Trees(fs: seq<Form>): (os: seq<Obj>)
    decreases fs, 1
  {
    if fs == [] then [] else [Tree(fs[0])] + Trees(fs[1..])
  }

  /** The short form, or one to four digits of which the first is not zero; four digits must stay below 2^31. */
  predicate LengthOctets(s: seq<byte>, n: nat)
  {
    || (n < 0x80 && s == [n])
    || (&& 2 <= |s| <= 5 && s[0] == 0x80 + |s| - 1 && s[1] != 0 && (|s| == 5 ==> s[1] < 0x80)
        && BigEndian(s[1..]) == n)
  }

  /**
   * The forms of the standard, but for one thing: the reader looks for end-of-contents octets only behind a child, so
   * an object of indefinite length has at least one child, which may look like them.
   */
  predicate Proper(f: Form)
    decreases f, 0
  {
    match f
    case Whole(tag, length, content) => WellFormedTag(tag, false) && LengthOctets(length, |content|)
    case Sized(tag, length, children) =>
      && WellFormedTag(tag, true) && LengthOctets(length, |WriteAll(children)|)
      && forall c :: c in children ==> Proper(c)
    case Open(tag, children) =>
      && WellFormedTag(tag, true) && children != [] && (forall c :: c in children ==> Proper(c))
      && END_OF_CONTENTS !in children[1..]
  }

  // ------------------------------------------------------------------ tags and lengths

  lemma EmptyIsRefused()
    ensures Ber2Der([]) == Err(EmptyInput)
  {
  }

  /** The sixth bit of a tag says that the object has children. */
  lemma ConstructedIff(b: byte)
    ensures IsConstructed(b) <==> 0x20 <= b < 0x40 || 0x60 <= b < 0x80 || 0xA0 <= b < 0xC0 || 0xE0 <= b
  {
  }

  /** The end of a tag: one byte, or if its five low bits are set up to the first following byte below 0x80. */
  lemma TagReadIff(ber: seq<byte>, start: nat, next: nat)
    ensures ReadTag(ber, start) == Ok(next) <==>
              && start < next <= |ber|
              && if ber[start] in {0x1F, 0x3F, 0x5F, 0x7F, 0x9F, 0xBF, 0xDF, 0xFF}
                 then start + 2 <= next && ber[next - 1] < 0x80 && forall j :: start < j < next - 1 ==> ber[j] >= 0x80
                 else next == start + 1
  {
    if start < |ber| {
      TailReadIff(ber, start + 1, next);
    }
  }

  lemma {:induction false} TailReadIff(ber: seq<byte>, i: nat, next: nat)
    ensures ReadTagTail(ber, i) == Ok(next) <==>
              i < next <= |ber| && ber[next - 1] < 0x80 && forall j :: i <= j < next - 1 ==> ber[j] >= 0x80
    decreases |ber| - i
  {
    if i < |ber| && ber[i] >= 0x80 {
      TailReadIff(ber, i + 1, next);
    }
  }

  /** Exactly these octets are read as a definite length. */
  lemma LengthReadIff(ber: seq<byte>, i: nat, n: nat, next: nat)
    ensures ReadLength(ber, i) == Ok(LengthAt(Definite(n), next)) <==>
              i < next <= |ber| && LengthOctets(ber[i..next], n)
  {
    hide BigEndian;
    if i < next <= |ber| {
      var s := ber[i..next];
      assert s[1..] == ber[i + 1..next];
      assert |s| >= 2 ==> s[1] == ber[i + 1];
    }
    if i < |ber| && 0x80 < ber[i] <= 0x84 && i + 1 + (ber[i] - 0x80) <= |ber| {
      var s := ber[i..i + 1 + (ber[i] - 0x80)];
      assert s[1..] == ber[i + 1..i + 1 + (ber[i] - 0x80)];
      assert s[1] == ber[i + 1];
    }
  }

  lemma IndefiniteReadIff(ber: seq<byte>, i: nat, next: nat)
    ensures ReadLength(ber, i) == Ok(LengthAt(Indefinite, next)) <==> i < |ber| && next == i + 1 && ber[i] == 0x80
  {
    hide BigEndian;
  }

  /** Lengths that are refused, with the reason. */
  lemma LengthRefused(ber: seq<byte>, i: nat)
    requires i + 1 < |ber| && ber[i] > 0x80
    ensures ReadLength(ber, i) == Err(LengthTooLong) <==> ber[i] > 0x84
    ensures ReadLength(ber, i) == Err(LengthNegative) <==> ber[i] == 0x84 && ber[i + 1] >= 0x80
    ensures ReadLength(ber, i) == Err(LengthLeadingZero) <==> ber[i] <= 0x84 && ber[i + 1] == 0
  {
    hide BigEndian;
  }

  // ------------------------------------------------------------------ every form is read

  lemma {:induction false} ReadWritten(ber: seq<byte>, start: nat, f: Form)
    requires Proper(f) && At(ber, start, Write(f))
    ensures Read(ber, start) == Ok(Parsed(Tree(f), start + |Write(f)|))
    decreases f, 0
  {
    hide Read, LengthOctets, WellFormedTag, At, ReadUntil, ReadTerminated, WriteAll, ReadTag, ReadLength;
    match f
    case Whole(tag, length, content) =>
      ReadWhole(ber, start, tag, length, content);
    case Sized(tag, length, children) =>
      var at := SizedHeader(ber, start, tag, length, children);
      ReadAllWritten(ber, at, children);
      ReadDefinite(ber, start, start + |tag|, |WriteAll(children)|, at);
    case Open(tag, children) =>
      var at := OpenHeader(ber, start, tag, children);
      ReadOpenWritten(ber, at, children);
      ReadOpen(ber, start, start + |tag|, at);
  }

  lemma OpenHeader(ber: seq<byte>, start: nat, tag: seq<byte>, children: seq<Form>) returns (at: nat)
    requires WellFormedTag(tag, true) && At(ber, start, Write(Open(tag, children)))
    ensures ReadTag(ber, start) == Ok(start + |tag|) && start < |ber| && start + |tag| <= |ber|
    ensures ber[start..start + |tag|] == tag && IsConstructed(ber[start])
    ensures ReadLength(ber, start + |tag|) == Ok(LengthAt(Indefinite, at)) && at == start + |tag| + 1
    ensures At(ber, at, WriteAll(children) + [0, 0])
  {
    hide At, WellFormedTag, WriteAll, ReadTag, ReadLength;
    assert Write(Open(tag, children)) == tag + [0x80] + (WriteAll(children) + [0, 0]);
    at := Header(ber, start, tag, [0x80], WriteAll(children) + [0, 0], true);
    OneByteAt(ber, start + |tag|, 0x80);
    IndefiniteReadIff(ber, start + |tag|, at);
  }

  lemma SizedHeader(ber: seq<byte>, start: nat, tag: seq<byte>, length: seq<byte>, children: seq<Form>)
      returns (at: nat)
    requires WellFormedTag(tag, true) && LengthOctets(length, |WriteAll(children)|)
    requires At(ber, start, Write(Sized(tag, length, children)))
    ensures ReadTag(ber, start) == Ok(start + |tag|) && start < |ber| && start + |tag| <= |ber|
    ensures ber[start..start + |tag|] == tag && IsConstructed(ber[start])
    ensures ReadLength(ber, start + |tag|) == Ok(LengthAt(Definite(|WriteAll(children)|), at))
    ensures at == start + |tag| + |length| && at + |WriteAll(children)| <= |ber| && At(ber, at, WriteAll(children))
  {
    hide At, WellFormedTag, WriteAll, ReadTag, ReadLength, LengthOctets;
    SomeOctets(length, |WriteAll(children)|);
    at := Header(ber, start, tag, length, WriteAll(children), true);
    LengthReadIff(ber, start + |tag|, |WriteAll(children)|, at);
  }

  lemma SomeOctets(s: seq<byte>, n: nat)
    requires LengthOctets(s, n)
    ensures s != []
  {
  }

  lemma ReadWhole(ber: seq<byte>, start: nat, tag: seq<byte>, length: seq<byte>, content: seq<byte>)
    requires WellFormedTag(tag, false) && LengthOctets(length, |content|) && At(ber, start, tag + length + content)
    ensures Read(ber, start)
            == Ok(Parsed(Primitive(tag, |content|, content), start + |tag| + |length| + |content|))
  {
    hide Read, LengthOctets, WellFormedTag, At;
    SomeOctets(length, |content|);
    var at := Header(ber, start, tag, length, content, false);
    LengthReadIff(ber, start + |tag|, |content|, at);
    ReadDefinite(ber, start, start + |tag|, |content|, at);
  }

  /** Tag, length octets and what follows them stand one behind the other. */
  lemma Header(ber: seq<byte>, start: nat, tag: seq<byte>, length: seq<byte>, rest: seq<byte>, constructed: bool)
      returns (at: nat)
    requires WellFormedTag(tag, constructed) && length != [] && At(ber, start, tag + length + rest)
    ensures at == start + |tag| + |length| && at + |rest| <= |ber|
    ensures ReadTag(ber, start) == Ok(start + |tag|) && start < start + |tag| < at
    ensures ber[start..start + |tag|] == tag && IsConstructed(ber[start]) == constructed
    ensures At(ber, start + |tag|, length) && ber[start + |tag|..at] == length
    ensures At(ber, at, rest) && ber[at..at + |rest|] == rest
  {
    at := start + |tag| + |length|;
    AtParts(ber, start, tag + length, rest);
    AtParts(ber, start, tag, length);
    AtByte(ber, start, tag, 0);
    ReadTagAt(ber, start, tag, constructed);
  }

  lemma OneByteAt(ber: seq<byte>, i: nat, b: byte)
    requires At(ber, i, [b])
    ensures i < |ber| && ber[i] == b
  {
    AtByte(ber, i, [b], 0);
  }

  /** One unfolding of `Read` behind an indefinite length. */
  lemma ReadOpen(ber: seq<byte>, start: nat, tagEnd: nat, next: nat)
    requires ReadTag(ber, start) == Ok(tagEnd) && ReadLength(ber, tagEnd) == Ok(LengthAt(Indefinite, next))
    requires IsConstructed(ber[start])
    ensures Read(ber, start) == match ReadTerminated(ber, next)
                                case Err(e) => Err(e)
                                case Ok((children, last)) =>
                                  Ok(Parsed(Structured(ber[start..tagEnd], children), last + 2))
  {
    hide ReadTag, ReadLength, ReadUntil, ReadTerminated;
  }

  lemma {:induction false} ReadAllWritten(ber: seq<byte>, i: nat, fs: seq<Form>)
    requires (forall f :: f in fs ==> Proper(f)) && At(ber, i, WriteAll(fs))
    ensures ReadUntil(ber, i, i + |WriteAll(fs)|) == Ok(Trees(fs))
    decreases fs, 1
  {
    hide Read, At, ReadUntil, Proper, Write, Tree;
    if fs == [] {
      ReadUntilEnd(ber, i);
    } else {
      var first, rest := Write(fs[0]), WriteAll(fs[1..]);
      AtParts(ber, i, first, rest);
      ReadWritten(ber, i, fs[0]);
      ReadAllWritten(ber, i + |first|, fs[1..]);
      ReadUntilStep(ber, i, i + |first| + |rest|, Parsed(Tree(fs[0]), i + |first|), Trees(fs[1..]));
    }
  }

  lemma {:induction false} ReadOpenWritten(ber: seq<byte>, i: nat, fs: seq<Form>)
    requires fs != [] && (forall f :: f in fs ==> Proper(f)) && END_OF_CONTENTS !in fs[1..]
    requires At(ber, i, WriteAll(fs) + [0, 0])
    ensures ReadTerminated(ber, i) == Ok((Trees(fs), i + |WriteAll(fs)|))
    decreases fs, 1
  {
    hide Read, At, ReadTerminated, Proper, Write, Tree;
    var first, later := Write(fs[0]), fs[1..];
    var behind := WriteAll(later) + [0, 0];
    assert WriteAll(fs) + [0, 0] == first + behind;
    AtParts(ber, i, first, behind);
    ReadWritten(ber, i, fs[0]);
    var p := Parsed(Tree(fs[0]), i + |first|);
    TerminationAt(ber, p.end, later);
    if later == [] {
      TerminatedEnd(ber, i, p);
      assert Trees(fs) == [p.obj];
    } else {
      ReadOpenWritten(ber, p.end, later);
      TerminatedStep(ber, i, p, Trees(later), i + |first| + |WriteAll(later)|);
    }
  }

  /** Behind a child the reader takes the end of the contents for what it is. */
  lemma TerminationAt(ber: seq<byte>, end: nat, later: seq<Form>)
    requires (forall f :: f in later ==> Proper(f)) && END_OF_CONTENTS !in later
    requires At(ber, end, WriteAll(later) + [0, 0])
    ensures AtTermination(ber, end) == Ok(later == [])
    ensures later != [] ==> END_OF_CONTENTS !in later[1..]
  {
    hide Proper, Write;
    var behind := WriteAll(later) + [0, 0];
    AtByte(ber, end, behind, 0);
    AtByte(ber, end, behind, 1);
    if later != [] {
      TerminationIff(later[0]);
      assert behind[0] == Write(later[0])[0] && behind[1] == Write(later[0])[1];
      assert later == [later[0]] + later[1..];
    }
  }

  /** Only the end-of-contents octets look like them. */
  lemma TerminationIff(f: Form)
    requires Proper(f)
    ensures |Write(f)| >= 2 && (Write(f)[0] == 0 && Write(f)[1] == 0 <==> f == END_OF_CONTENTS)
  {
    hide BigEndian;
    match f
    case Whole(tag, length, content) =>
      assert Write(f)[0] == tag[0];
      if tag[0] == 0 {
        assert Write(f)[1] == length[0];
        if length[0] == 0 {
          assert tag == [0] && length == [0] && content == [];
        }
      }
    case Sized(tag, length, children) =>
      assert Write(f)[0] == tag[0];
    case Open(tag, children) =>
      assert Write(f)[0] == tag[0];
  }

  /** What stands in front of the input is transcoded as its tree says, whatever its form and whatever follows. */
  lemma TranscodesForms(f: Form, behind: seq<byte>)
    requires Proper(f)
    ensures Ber2Der(Write(f) + behind) == Ok(Encode(Tree(f)))
  {
    hide Read, Encode, Proper, Write, Tree;
    TerminationIff(f);
    assert At(Write(f) + behind, 0, Write(f));
    ReadWritten(Write(f) + behind, 0, f);
  }

  // ------------------------------------------------------------------ nothing else is read

  /** No child reaches beyond the end of an object of definite length that holds it. */
  ghost predicate Tight(ber: seq<byte>, start: nat)
    requires Read(ber, start).Ok?
    decreases |ber| - start, 0
  {
    IsConstructed(ber[start]) ==>
      match ReadLength(ber, ReadTag(ber, start).value).value
      case LengthAt(Definite(n), next) => TightUntil(ber, next, next + n)
      case LengthAt(Indefinite, next) => TightTerminated(ber, next)
  }

  ghost predicate TightUntil(ber: seq<byte>, i: nat, contentEnd: nat)
    requires ReadUntil(ber, i, contentEnd).Ok?
    decreases |ber| - i, 1
  {
    if i >= contentEnd then i == contentEnd
    else Tight(ber, i) && TightUntil(ber, Read(ber, i).value.end, contentEnd)
  }

  ghost predicate TightTerminated(ber: seq<byte>, i: nat)
    requires ReadTerminated(ber, i).Ok?
    decreases |ber| - i, 1
  {
    var end := Read(ber, i).value.end;
    Tight(ber, i) && (AtTermination(ber, end) == Ok(false) ==> TightTerminated(ber, end))
  }

  lemma {:induction false} ReadIsForm(ber: seq<byte>, start: nat) returns (f: Form)
    requires Read(ber, start).Ok? && Tight(ber, start)
    ensures Proper(f) && At(ber, start, Write(f))
    ensures Read(ber, start) == Ok(Parsed(Tree(f), start + |Write(f)|))
    decreases |ber| - start, 0
  {
    hide ReadUntil, ReadTerminated, TightUntil, TightTerminated, LengthOctets, WellFormedTag, ReadLength, ReadTag, At;
    ReadTagShape(ber, start);
    var tagEnd := ReadTag(ber, start).value;
    var tag := ber[start..tagEnd];
    var at := ReadLength(ber, tagEnd).value.next;
    match ReadLength(ber, tagEnd).value.length
    case Definite(n) =>
      LengthReadIff(ber, tagEnd, n, at);
      var length := ber[tagEnd..at];
      Joined(ber, start, tagEnd, at, at + n);
      if IsConstructed(ber[start]) {
        var fs := UntilIsForms(ber, at, at + n);
        f := Sized(tag, length, fs);
      } else {
        f := Whole(tag, length, ber[at..at + n]);
      }
    case Indefinite =>
      IndefiniteReadIff(ber, tagEnd, at);
      var fs := TerminatedIsForms(ber, at);
      f := Open(tag, fs);
      var inner := WriteAll(fs) + [0, 0];
      AtIs(ber, at, inner);
      Joined(ber, start, tagEnd, at, at + |inner|);
      assert ber[tagEnd..at] == [0x80];
      assert Write(f) == tag + [0x80] + inner;
  }

  lemma AtIs(ber: seq<byte>, i: nat, e: seq<byte>)
    ensures At(ber, i, e) <==> i + |e| <= |ber| && ber[i..i + |e|] == e
  {
  }

  lemma Joined(ber: seq<byte>, a: nat, b: nat, c: nat, d: nat)
    requires a <= b <= c <= d <= |ber|
    ensures At(ber, a, ber[a..b] + ber[b..c] + ber[c..d])
    ensures |ber[a..b] + ber[b..c] + ber[c..d]| == d - a
  {
    assert ber[a..d] == ber[a..b] + ber[b..c] + ber[c..d];
  }

  lemma {:induction false} UntilIsForms(ber: seq<byte>, i: nat, contentEnd: nat) returns (fs: seq<Form>)
    requires ReadUntil(ber, i, contentEnd).Ok? && TightUntil(ber, i, contentEnd) && contentEnd <= |ber|
    ensures i <= contentEnd && ber[i..contentEnd] == WriteAll(fs)
    ensures (forall f :: f in fs ==> Proper(f)) && ReadUntil(ber, i, contentEnd) == Ok(Trees(fs))
    decreases |ber| - i, 1
  {
    hide Read, Tight, Proper, Write, Tree;
    if i == contentEnd {
      fs := [];
    } else {
      var f := ReadIsForm(ber, i);
      var end := i + |Write(f)|;
      var later := UntilIsForms(ber, end, contentEnd);
      fs := [f] + later;
      assert fs[1..] == later;
      assert ber[i..contentEnd] == ber[i..end] + ber[end..contentEnd];
    }
  }

  lemma {:induction false} TerminatedIsForms(ber: seq<byte>, i: nat) returns (fs: seq<Form>)
    requires ReadTerminated(ber, i).Ok? && TightTerminated(ber, i)
    ensures fs != [] && (forall f :: f in fs ==> Proper(f)) && END_OF_CONTENTS !in fs[1..]
    ensures At(ber, i, WriteAll(fs) + [0, 0])
    ensures ReadTerminated(ber, i) == Ok((Trees(fs), i + |WriteAll(fs)|))
    decreases |ber| - i, 1
  {
    hide Read, Tight, Proper, Write, Tree, At;
    var f := ReadIsForm(ber, i);
    var end := i + |Write(f)|;
    if AtTermination(ber, end) == Ok(true) {
      fs := [f];
      OneForm(f);
      AtIs(ber, end, [0, 0]);
      assert ber[end..end + 2] == [0, 0];
      AtJoin(ber, i, Write(f), [0, 0]);
    } else {
      var later := TerminatedIsForms(ber, end);
      fs := [f] + later;
      assert fs[1..] == later;
      var behind := WriteAll(later) + [0, 0];
      NotTermination(ber, end, later);
      assert WriteAll(fs) + [0, 0] == Write(f) + behind;
      AtJoin(ber, i, Write(f), behind);
    }
  }

  lemma AtJoin(ber: seq<byte>, i: nat, a: seq<byte>, b: seq<byte>)
    requires At(ber, i, a) && At(ber, i + |a|, b)
    ensures At(ber, i, a + b)
  {
    assert ber[i..i + |a + b|] == ber[i..i + |a|] + ber[i + |a|..i + |a| + |b|];
  }

  lemma NotTermination(ber: seq<byte>, end: nat, later: seq<Form>)
    requires later != [] && (forall f :: f in later ==> Proper(f)) && END_OF_CONTENTS !in later[1..]
    requires At(ber, end, WriteAll(later) + [0, 0]) && AtTermination(ber, end) == Ok(false)
    ensures END_OF_CONTENTS !in later
  {
    hide Proper, Write;
    TerminationIff(later[0]);
    var behind := WriteAll(later) + [0, 0];
    AtByte(ber, end, behind, 0);
    AtByte(ber, end, behind, 1);
    assert behind[0] == Write(later[0])[0] && behind[1] == Write(later[0])[1];
    assert later == [later[0]] + later[1..];
  }

  lemma OneForm(f: Form)
    ensures WriteAll([f]) == Write(f) && Trees([f]) == [Tree(f)]
  {
    hide Write, Tree;
    assert [f][1..] == [];
  }

  lemma {:induction false} WrittenIsTight(ber: seq<byte>, start: nat, f: Form)
    requires Proper(f) && At(ber, start, Write(f)) && Read(ber, start).Ok?
    ensures Tight(ber, start)
    decreases f, 0
  {
    hide Read, LengthOctets, WellFormedTag, At, ReadUntil, ReadTerminated, WriteAll, TightUntil, TightTerminated;
    hide ReadTag, ReadLength;
    match f
    case Whole(tag, length, content) =>
      SomeOctets(length, |content|);
      var at := Header(ber, start, tag, length, content, false);
    case Sized(tag, length, children) =>
      var at := SizedHeader(ber, start, tag, length, children);
      AllWrittenIsTight(ber, at, children);
    case Open(tag, children) =>
      var at := OpenHeader(ber, start, tag, children);
      OpenWrittenIsTight(ber, at, children);
  }

  lemma {:induction false} AllWrittenIsTight(ber: seq<byte>, i: nat, fs: seq<Form>)
    requires (forall f :: f in fs ==> Proper(f)) && At(ber, i, WriteAll(fs))
    ensures ReadUntil(ber, i, i + |WriteAll(fs)|).Ok? && TightUntil(ber, i, i + |WriteAll(fs)|)
    decreases fs, 1
  {
    hide Read, At, ReadUntil, Proper, Write, Tree, Tight;
    ReadAllWritten(ber, i, fs);
    if fs != [] {
      var first, rest := Write(fs[0]), WriteAll(fs[1..]);
      AtParts(ber, i, first, rest);
      ReadWritten(ber, i, fs[0]);
      WrittenIsTight(ber, i, fs[0]);
      AllWrittenIsTight(ber, i + |first|, fs[1..]);
    }
  }

  lemma {:induction false} OpenWrittenIsTight(ber: seq<byte>, i: nat, fs: seq<Form>)
    requires fs != [] && (forall f :: f in fs ==> Proper(f)) && END_OF_CONTENTS !in fs[1..]
    requires At(ber, i, WriteAll(fs) + [0, 0])
    ensures ReadTerminated(ber, i).Ok? && TightTerminated(ber, i)
    decreases fs, 1
  {
    hide Read, At, ReadTerminated, Proper, Write, Tree, Tight;
    ReadOpenWritten(ber, i, fs);
    var first, later := Write(fs[0]), fs[1..];
    var behind := WriteAll(later) + [0, 0];
    assert WriteAll(fs) + [0, 0] == first + behind;
    AtParts(ber, i, first, behind);
    ReadWritten(ber, i, fs[0]);
    WrittenIsTight(ber, i, fs[0]);
    TerminationAt(ber, i + |first|, later);
    if later != [] {
      OpenWrittenIsTight(ber, i + |first|, later);
    }
  }

  /**
   * The reader accepts, without a child that overruns its parent, exactly what is written in one of the forms, and
   * returns the tree behind the form and the offset behind its last octet.
   */
  lemma ReadIff(ber: seq<byte>, start: nat, p: Parsed)
    ensures (Read(ber, start) == Ok(p) && Tight(ber, start)) <==>
              exists f :: Proper(f) && At(ber, start, Write(f)) && p == Parsed(Tree(f), start + |Write(f)|)
  {
    hide Read, Proper, Write, Tree, At, Tight;
    if Read(ber, start) == Ok(p) && Tight(ber, start) {
      var f := ReadIsForm(ber, start);
    }
    if f :| Proper(f) && At(ber, start, Write(f)) && p == Parsed(Tree(f), start + |Write(f)|) {
      ReadWritten(ber, start, f);
      WrittenIsTight(ber, start, f);
    }
  }

  /** A child that overruns its parent is accepted all the same, and gives the parent more octets than it had. */
  lemma OverrunIsAccepted()
    ensures var ber := [0x30, 0x03, 0x04, 0x02, 0x41, 0x42];
            && Read(ber, 0) == Ok(Parsed(Structured([0x30], [Primitive([0x04], 2, [0x41, 0x42])]), 5))
            && !Tight(ber, 0)
            && Ber2Der(ber) == Ok([0x30, 0x04, 0x04, 0x02, 0x41, 0x42])
  {
    hide Read, Tight, Encode;
    var ber: seq<byte> := [0x30, 0x03, 0x04, 0x02, 0x41, 0x42];
    Overrun(ber);
    ShortOctetString();
  }

  lemma Overrun(ber: seq<byte>)
    requires ber == [0x30, 0x03, 0x04, 0x02, 0x41, 0x42]
    ensures Read(ber, 0) == Ok(Parsed(Structured([0x30], [Primitive([0x04], 2, [0x41, 0x42])]), 5)) && !Tight(ber, 0)
  {
    hide Read;
    var f := Whole([0x04], [0x02], [0x41, 0x42]);
    var o := Primitive([0x04], 2, [0x41, 0x42]);
    assert ber[2..6] == Write(f) && Tree(f) == o;
    ReadWritten(ber, 2, f);
    assert ReadUntil(ber, 6, 5) == Ok([]);
    ReadUntilStep(ber, 2, 5, Parsed(o, 6), []);
    assert [o] + [] == [o];
    ReadDefinite(ber, 0, 1, 3, 2);
    assert ber[0..1] == [0x30];
    assert !TightUntil(ber, 6, 5);
  }

  lemma ShortOctetString()
    ensures var o := Primitive([0x04], 2, [0x41, 0x42]);
            Encode(Structured([0x30], [o])) == [0x30, 0x04, 0x04, 0x02, 0x41, 0x42]
  {
    var o := Primitive([0x04], 2, [0x41, 0x42]);
    assert Encode(o) == [0x04, 0x02, 0x41, 0x42];
    assert [o][1..] == [] && EncodeAll([]) == [];
    assert EncodeAll([o]) == Encode(o) + EncodeAll([o][1..]);
    assert EncodeAll([o]) == [0x04, 0x02, 0x41, 0x42];
  }
}
