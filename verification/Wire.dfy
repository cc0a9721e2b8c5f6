/** The encoding held against RFC 4506 and the union of proto.x from outside: what the bytes are worth,
    and one message of each type written out. */
module Wire {
  import opened Proto

  /** The value of four bytes, the most significant first (section 4.2). */
  function Value(b: seq<Byte>): int
    requires |b| >= 4
  {
    b[0] as int * 0x100_0000 + b[1] as int * 0x1_0000 + b[2] as int * 0x100 + b[3] as int
  }

  lemma WordIsBigEndian(w: Word, rest: seq<Byte>)
    ensures Value(PutWord(w, rest)) == w
  {
  }

  /** Four bytes of that value are the encoding. */
  lemma WordIs(w: Word, b: seq<Byte>, rest: seq<Byte>)
    requires |b| == 4 && Value(b) == w
    ensures PutWord(w, rest) == b + rest
  {
    assert w / 0x100_0000 == b[0] && w / 0x1_0000 == b[0] as int * 0x100 + b[1] as int;
    assert w / 0x100 == b[0] as int * 0x1_0000 + b[1] as int * 0x100 + b[2] as int;
    assert b == [b[0], b[1], b[2], b[3]];
  }

  /** Signed integers are in two's complement (section 4.1). */
  lemma IntIsTwosComplement(i: Int32, rest: seq<Byte>)
    ensures var v := Value(PutInt(i, rest)); i == if v < 0x8000_0000 then v else v - 0x1_0000_0000
  {
    hide PutWord, Value;
    WordIsBigEndian(if i < 0 then i + LIMIT32 else i, rest);
  }

  /** A string is its length, its bytes, and the fewest zero bytes that make a multiple of four
      (section 4.11). */
  lemma TextOnTheWire(t: Text, rest: seq<Byte>)
    requires |t| < LIMIT32
    ensures var b, pad := PutText(t, rest), Padding(|t|);
      && Value(b) == |t| && |b| == 4 + |t| + pad + |rest|
      && pad < 4 && (|t| + pad) % 4 == 0
      && b[4..4 + |t|] == t && b[4 + |t| + pad..] == rest
      && forall i :: 4 + |t| <= i < 4 + |t| + pad ==> b[i] == 0
  {
    hide PutWord;
    var b, tail := PutText(t, rest), t + (Zeros(Padding(|t|)) + rest);
    WordIsBigEndian(|t|, tail);
    assert b[4..] == tail;
    forall i | 0 <= i < |tail|
      ensures b[4 + i] == tail[i]
    {
      assert b[4..][i] == tail[i];
    }
    assert b[4 + |t| + Padding(|t|)..] == b[4..][|t| + Padding(|t|)..];
  }

  // ---------------------------------------------------------------- one of each

  const A: Byte := 0x61
  const B: Byte := 0x62

  /** A message is its type and then its arm. */
  lemma ArmBehindTag(m: Message, tag: seq<Byte>, arm: seq<Byte>)
    requires Sendable(m) && |tag| == 4 && Value(tag) == Tag(m) && PutArm(m, []) == arm
    ensures Encode(m) == tag + arm
  {
    hide PutArm, Tag, PutWord, Sendable;
    WordIs(Tag(m), tag, arm);
  }

  lemma TwoWords(v: Word, a: seq<Byte>, w: Word, b: seq<Byte>, rest: seq<Byte>)
    requires |a| == |b| == 4 && Value(a) == v && Value(b) == w
    ensures PutWord(v, PutWord(w, rest)) == a + b + rest
  {
    hide PutWord, Value;
    WordIs(w, b, rest);
    WordIs(v, a, b + rest);
  }

  lemma ShortText(t: Text, length: seq<Byte>, zeros: seq<Byte>, rest: seq<Byte>)
    requires |t| < LIMIT32 && |length| == 4 && Value(length) == |t| && zeros == Zeros(Padding(|t|))
    ensures PutText(t, rest) == length + t + zeros + rest
  {
    hide PutWord, Value;
    WordIs(|t|, length, t + (zeros + rest));
  }

  lemma SetupBytes()
    ensures Encode(Setup(0, 5, [KvPair([A], [B, B, B, B])])) ==
      [0, 0, 0, 1] + ([0, 0, 0, 0] + [0, 0, 0, 5] + ([0, 0, 0, 1] +
        ([0, 0, 0, 1] + [A] + [0, 0, 0] + ([0, 0, 0, 4] + [B, B, B, B] + [] + []))))
  {
    hide PutWord, PutText;
    var p := KvPair([A], [B, B, B, B]);
    var value := [0, 0, 0, 4] + [B, B, B, B] + [] + [];
    var pair := [0, 0, 0, 1] + [A] + [0, 0, 0] + value;
    ShortText(p.value, [0, 0, 0, 4], [], []);
    ShortText(p.key, [0, 0, 0, 1], [0, 0, 0], value);
    assert [p][1..] == [] && PutPairs([], []) == [];
    assert PutPairs([p], []) == pair;
    WordIs(1, [0, 0, 0, 1], pair);
    TwoWords(0, [0, 0, 0, 0], 5, [0, 0, 0, 5], [0, 0, 0, 1] + pair);
    ArmBehindTag(Setup(0, 5, [p]), [0, 0, 0, 1], [0, 0, 0, 0] + [0, 0, 0, 5] + ([0, 0, 0, 1] + pair));
  }

  lemma ReadyBytes()
    ensures Encode(Ready(Rectangle(Range(0, 1919), Range(-1, 1079)))) ==
      [0, 0, 0, 2] + ([0, 0, 0, 0] + [0, 0, 7, 0x7f] + ([0xff, 0xff, 0xff, 0xff] + [0, 0, 4, 0x37] + []))
  {
    hide PutWord;
    var y := [0xff, 0xff, 0xff, 0xff] + [0, 0, 4, 0x37] + [];
    TwoWords(0xffff_ffff, [0xff, 0xff, 0xff, 0xff], 1079, [0, 0, 4, 0x37], []);
    TwoWords(0, [0, 0, 0, 0], 1919, [0, 0, 7, 0x7f], y);
    ArmBehindTag(Ready(Rectangle(Range(0, 1919), Range(-1, 1079))), [0, 0, 0, 2], [0, 0, 0, 0] + [0, 0, 7, 0x7f] + y);
  }

  lemma MotionBytes()
    ensures Encode(MoveRel(2, -3)) == [0, 0, 0, 3] + ([0, 0, 0, 2] + [0xff, 0xff, 0xff, 0xfd] + [])
    ensures Encode(MoveAbs(Point(256, 1))) == [0, 0, 0, 4] + ([0, 0, 1, 0] + [0, 0, 0, 1] + [])
    ensures Encode(MousePos(Point(1, 256))) == [0, 0, 0, 5] + ([0, 0, 0, 1] + [0, 0, 1, 0] + [])
  {
    hide PutWord;
    TwoWords(2, [0, 0, 0, 2], 0xffff_fffd, [0xff, 0xff, 0xff, 0xfd], []);
    ArmBehindTag(MoveRel(2, -3), [0, 0, 0, 3], [0, 0, 0, 2] + [0xff, 0xff, 0xff, 0xfd] + []);
    TwoWords(256, [0, 0, 1, 0], 1, [0, 0, 0, 1], []);
    ArmBehindTag(MoveAbs(Point(256, 1)), [0, 0, 0, 4], [0, 0, 1, 0] + [0, 0, 0, 1] + []);
    TwoWords(1, [0, 0, 0, 1], 256, [0, 0, 1, 0], []);
    ArmBehindTag(MousePos(Point(1, 256)), [0, 0, 0, 5], [0, 0, 0, 1] + [0, 0, 1, 0] + []);
  }

  lemma InputBytes()
    ensures Encode(ClickEvent(3, PRESS)) == [0, 0, 0, 6] + ([0, 0, 0, 3] + [0, 0, 0, 1] + [])
    ensures Encode(KeyEvent(0x0102_0304, RELEASE)) == [0, 0, 0, 7] + ([1, 2, 3, 4] + [0, 0, 0, 2] + [])
  {
    hide PutWord;
    TwoWords(3, [0, 0, 0, 3], 1, [0, 0, 0, 1], []);
    ArmBehindTag(ClickEvent(3, PRESS), [0, 0, 0, 6], [0, 0, 0, 3] + [0, 0, 0, 1] + []);
    TwoWords(0x0102_0304, [1, 2, 3, 4], 2, [0, 0, 0, 2], []);
    ArmBehindTag(KeyEvent(0x0102_0304, RELEASE), [0, 0, 0, 7], [1, 2, 3, 4] + [0, 0, 0, 2] + []);
  }

  lemma ClipboardBytes()
    ensures Encode(GetClipboard) == [0, 0, 0, 8] + []
    ensures Encode(SetClipboard([A, B])) == [0, 0, 0, 9] + ([0, 0, 0, 2] + [A, B] + [0, 0] + [])
    ensures Encode(LogMsg([B, A, B])) == [0, 0, 0, 10] + ([0, 0, 0, 3] + [B, A, B] + [0] + [])
  {
    hide PutWord, PutText;
    ArmBehindTag(GetClipboard, [0, 0, 0, 8], []);
    ShortText([A, B], [0, 0, 0, 2], [0, 0], []);
    ArmBehindTag(SetClipboard([A, B]), [0, 0, 0, 9], [0, 0, 0, 2] + [A, B] + [0, 0] + []);
    ShortText([B, A, B], [0, 0, 0, 3], [0], []);
    ArmBehindTag(LogMsg([B, A, B]), [0, 0, 0, 10], [0, 0, 0, 3] + [B, A, B] + [0] + []);
  }

  lemma SettingBytes()
    ensures Encode(SetBrightness(0x3f80_0000)) == [0, 0, 0, 11] + ([0x3f, 0x80, 0, 0] + [])
    ensures Encode(SetLogLevel(4)) == [0, 0, 0, 12] + ([0, 0, 0, 4] + [])
  {
    hide PutWord;
    WordIs(0x3f80_0000, [0x3f, 0x80, 0, 0], []);
    ArmBehindTag(SetBrightness(0x3f80_0000), [0, 0, 0, 11], [0x3f, 0x80, 0, 0] + []);
    WordIs(4, [0, 0, 0, 4], []);
    ArmBehindTag(SetLogLevel(4), [0, 0, 0, 12], [0, 0, 0, 4] + []);
  }
}
