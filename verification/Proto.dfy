/** The messages of the wire protocol and their XDR encoding (RFC 4506).

    Encoders are written "onto" the bytes that follow: `PutWord(w, rest)` is the encoding of `w`
    with `rest` behind it.  Every decoder is then the exact inverse of its encoder, whatever
    follows, which is what a length-free stream of encodings needs. */
module Proto {
  type Byte = b: int | 0 <= b < 256
  type Word = w: int | 0 <= w < 0x1_0000_0000
  type Int32 = i: int | -0x8000_0000 <= i < 0x8000_0000

  /** C strings and clipboard contents, as the bytes that travel. */
  type Text = seq<Byte>

  datatype Point = Point(x: Int32, y: Int32)
  datatype Range = Range(min: Int32, max: Int32)
  datatype Rectangle = Rectangle(x: Range, y: Range)
  datatype KvPair = KvPair(key: Text, value: Text)

  /** One constructor per arm of the `msgbody` union.  Floats are opaque 32-bit words. */
  datatype Message =
    | Setup(version: Word, loglevel: Word, params: seq<KvPair>)
    | Ready(screen: Rectangle)
    | MoveRel(dx: Int32, dy: Int32)
    | MoveAbs(target: Point)
    | MousePos(pos: Point)
    | ClickEvent(button: Word, clickPr: Word)
    | KeyEvent(keycode: Word, keyPr: Word)
    | GetClipboard
    | SetClipboard(text: Text)
    | LogMsg(line: Text)
    | SetBrightness(brightness: Word)
    | SetLogLevel(level: Word)

  const PRESS: Word := 1
  const RELEASE: Word := 2
  const PROT_VERSION: Word := 0
  const LIMIT32: int := 0x1_0000_0000

  /** Lengths are words on the wire, so nothing longer can be said. */
  predicate Sendable(m: Message) {
    match m
    case Setup(_, _, params) => |params| < LIMIT32 && SendablePairs(params)
    case SetClipboard(text) => |text| < LIMIT32
    case LogMsg(line) => |line| < LIMIT32
    case _ => true
  }

  predicate SendablePair(p: KvPair) {
    |p.key| < LIMIT32 && |p.value| < LIMIT32
  }

  predicate SendablePairs(ps: seq<KvPair>) {
    forall i :: 0 <= i < |ps| ==> SendablePair(ps[i])
  }

  // ---------------------------------------------------------------- encoding

  function PutWord(w: Word, rest: seq<Byte>): (b: seq<Byte>)
    ensures |b| == 4 + |rest| && b[4..] == rest
  {
    [w / 0x100_0000, w / 0x1_0000 % 0x100, w / 0x100 % 0x100, w % 0x100] + rest
  }

  /** Two's complement. */
  function PutInt(i: Int32, rest: seq<Byte>): seq<Byte> {
    PutWord(if i < 0 then i + LIMIT32 else i, rest)
  }

  /** Bytes that round a length up to a multiple of four. */
  function Padding(n: nat): nat {
    (4 - n % 4) % 4
  }

  function Zeros(n: nat): (z: seq<Byte>)
    ensures |z| == n
  {
    seq(n, _ => 0)
  }

  function PutText(t: Text, rest: seq<Byte>): (b: seq<Byte>)
    requires |t| < LIMIT32
    ensures |b| == 4 + |t| + Padding(|t|) + |rest|
  {
    PutWord(|t|, t + (Zeros(Padding(|t|)) + rest))
  }

  function PutPairs(ps: seq<KvPair>, rest: seq<Byte>): seq<Byte>
    requires SendablePairs(ps)
  {
    if ps == [] then rest
    else PutText(ps[0].key, PutText(ps[0].value, PutPairs(ps[1..], rest)))
  }

  function PutPoint(p: Point, rest: seq<Byte>): seq<Byte> {
    PutInt(p.x, PutInt(p.y, rest))
  }

  function PutRange(r: Range, rest: seq<Byte>): seq<Byte> {
    PutInt(r.min, PutInt(r.max, rest))
  }

  /** The discriminant of each union arm. */
  function Tag(m: Message): Word {
    match m
    case Setup(_, _, _) => 1
    case Ready(_) => 2
    case MoveRel(_, _) => 3
    case MoveAbs(_) => 4
    case MousePos(_) => 5
    case ClickEvent(_, _) => 6
    case KeyEvent(_, _) => 7
    case GetClipboard => 8
    case SetClipboard(_) => 9
    case LogMsg(_) => 10
    case SetBrightness(_) => 11
    case SetLogLevel(_) => 12
  }

  function PutArm(m: Message, rest: seq<Byte>): seq<Byte>
    requires Sendable(m)
  {
    match m
    case Setup(v, l, ps) => PutWord(v, PutWord(l, PutWord(|ps|, PutPairs(ps, rest))))
    case Ready(s) => PutRange(s.x, PutRange(s.y, rest))
    case MoveRel(dx, dy) => PutInt(dx, PutInt(dy, rest))
    case MoveAbs(p) => PutPoint(p, rest)
    case MousePos(p) => PutPoint(p, rest)
    case ClickEvent(b, pr) => PutWord(b, PutWord(pr, rest))
    case KeyEvent(k, pr) => PutWord(k, PutWord(pr, rest))
    case GetClipboard => rest
    case SetClipboard(t) => PutText(t, rest)
    case LogMsg(t) => PutText(t, rest)
    case SetBrightness(f) => PutWord(f, rest)
    case SetLogLevel(l) => PutWord(l, rest)
  }

  function PutBody(m: Message, rest: seq<Byte>): seq<Byte>
    requires Sendable(m)
  {
    PutWord(Tag(m), PutArm(m, rest))
  }

  /** The XDR body of a message. */
  function Encode(m: Message): seq<Byte>
    requires Sendable(m)
  {
    PutBody(m, [])
  }

  // ---------------------------------------------------------------- decoding

  datatype Parse<+T> = Bad | Got(value: T, rest: seq<Byte>) {
    predicate IsFailure() { Bad? }
    function PropagateFailure<U>(): Parse<U> requires Bad? { Bad }
    function Extract(): (T, seq<Byte>) requires Got? { (value, rest) }
  }

  function GetWord(b: seq<Byte>): (g: Parse<Word>)
    ensures g.Got? <==> |b| >= 4
    ensures g.Got? ==> |b| == 4 + |g.rest|
  {
    if |b| < 4 then Bad
    else Got(b[0] as int * 0x100_0000 + b[1] as int * 0x1_0000 + b[2] as int * 0x100 + b[3], b[4..])
  }

  function GetInt(b: seq<Byte>): Parse<Int32> {
    var (w, r) :- GetWord(b);
    Got(if w < 0x8000_0000 then w else w - LIMIT32, r)
  }

  /** The padding is skipped, not inspected. */
  function GetText(b: seq<Byte>): (g: Parse<Text>)
    ensures g.Got? ==> |g.value| < LIMIT32 && |b| == 4 + |g.value| + Padding(|g.value|) + |g.rest|
  {
    var (n, r) :- GetWord(b);
    if |r| < n + Padding(n) then Bad else Got(r[..n], r[n + Padding(n)..])
  }

  function GetPairs(n: nat, b: seq<Byte>): Parse<seq<KvPair>> {
    if n == 0 then Got([], b)
    else
      var (k, b1) :- GetText(b);
      var (v, b2) :- GetText(b1);
      var (ps, b3) :- GetPairs(n - 1, b2);
      Got([KvPair(k, v)] + ps, b3)
  }

  function GetPoint(b: seq<Byte>): Parse<Point> {
    var (x, b1) :- GetInt(b);
    var (y, b2) :- GetInt(b1);
    Got(Point(x, y), b2)
  }

  function GetRange(b: seq<Byte>): Parse<Range> {
    var (lo, b1) :- GetInt(b);
    var (hi, b2) :- GetInt(b1);
    Got(Range(lo, hi), b2)
  }

  /** An unknown discriminant has no arm, so decoding fails. */
  function GetArm(tag: Word, b: seq<Byte>): Parse<Message> {
    if tag == 1 then
      var (v, b1) :- GetWord(b);
      var (l, b2) :- GetWord(b1);
      var (n, b3) :- GetWord(b2);
      var (ps, b4) :- GetPairs(n, b3);
      Got(Setup(v, l, ps), b4)
    else if tag == 2 then
      var (x, b1) :- GetRange(b);
      var (y, b2) :- GetRange(b1);
      Got(Ready(Rectangle(x, y)), b2)
    else if tag == 3 then
      var (p, b1) :- GetPoint(b);
      Got(MoveRel(p.x, p.y), b1)
    else if tag == 4 then
      var (p, b1) :- GetPoint(b);
      Got(MoveAbs(p), b1)
    else if tag == 5 then
      var (p, b1) :- GetPoint(b);
      Got(MousePos(p), b1)
    else if tag == 6 then
      var (x, b1) :- GetWord(b);
      var (pr, b2) :- GetWord(b1);
      Got(ClickEvent(x, pr), b2)
    else if tag == 7 then
      var (k, b1) :- GetWord(b);
      var (pr, b2) :- GetWord(b1);
      Got(KeyEvent(k, pr), b2)
    else if tag == 8 then Got(GetClipboard, b)
    else if tag == 9 then
      var (t, b1) :- GetText(b);
      Got(SetClipboard(t), b1)
    else if tag == 10 then
      var (t, b1) :- GetText(b);
      Got(LogMsg(t), b1)
    else if tag == 11 then
      var (f, b1) :- GetWord(b);
      Got(SetBrightness(f), b1)
    else if tag == 12 then
      var (l, b1) :- GetWord(b);
      Got(SetLogLevel(l), b1)
    else Bad
  }

  function GetBody(b: seq<Byte>): Parse<Message> {
    var (tag, b1) :- GetWord(b);
    GetArm(tag, b1)
  }

  // ---------------------------------------------------------------- round trip

  lemma WordRoundTrip(w: Word, rest: seq<Byte>)
    ensures GetWord(PutWord(w, rest)) == Got(w, rest)
  {
  }

  lemma IntRoundTrip(i: Int32, rest: seq<Byte>)
    ensures GetInt(PutInt(i, rest)) == Got(i, rest)
  {
    WordRoundTrip(if i < 0 then i + LIMIT32 else i, rest);
  }

  lemma TextRoundTrip(t: Text, rest: seq<Byte>)
    requires |t| < LIMIT32
    ensures GetText(PutText(t, rest)) == Got(t, rest)
  {
    var pad := Zeros(Padding(|t|));
    var r := t + (pad + rest);
    WordRoundTrip(|t|, r);
    assert r[..|t|] == t;
    assert r[|t| + Padding(|t|)..] == rest;
  }

  lemma PointRoundTrip(p: Point, rest: seq<Byte>)
    ensures GetPoint(PutPoint(p, rest)) == Got(p, rest)
  {
    IntRoundTrip(p.x, PutInt(p.y, rest));
    IntRoundTrip(p.y, rest);
  }

  lemma RangeRoundTrip(r: Range, rest: seq<Byte>)
    ensures GetRange(PutRange(r, rest)) == Got(r, rest)
  {
    IntRoundTrip(r.min, PutInt(r.max, rest));
    IntRoundTrip(r.max, rest);
  }

  lemma {:induction false} PairsRoundTrip(ps: seq<KvPair>, rest: seq<Byte>)
    requires SendablePairs(ps)
    ensures GetPairs(|ps|, PutPairs(ps, rest)) == Got(ps, rest)
  {
    if ps != [] {
      var tail := PutPairs(ps[1..], rest);
      TextRoundTrip(ps[0].key, PutText(ps[0].value, tail));
      TextRoundTrip(ps[0].value, tail);
      PairsRoundTrip(ps[1..], rest);
      assert [KvPair(ps[0].key, ps[0].value)] + ps[1..] == ps;
    }
  }

  lemma SetupRoundTrip(m: Message, rest: seq<Byte>)
    requires Sendable(m) && m.Setup?
    ensures GetArm(1, PutArm(m, rest)) == Got(m, rest)
  {
    var b3 := PutPairs(m.params, rest);
    var b2 := PutWord(|m.params|, b3);
    WordRoundTrip(m.version, PutWord(m.loglevel, b2));
    WordRoundTrip(m.loglevel, b2);
    WordRoundTrip(|m.params|, b3);
    PairsRoundTrip(m.params, rest);
  }

  lemma ArmRoundTrip(m: Message, rest: seq<Byte>)
    requires Sendable(m)
    ensures GetArm(Tag(m), PutArm(m, rest)) == Got(m, rest)
  {
    hide PutWord, GetWord, PutText, GetText, PutPairs, GetPairs, PutInt, GetInt;
    match m
    case Setup(_, _, _) => SetupRoundTrip(m, rest);
    case Ready(s) =>
      RangeRoundTrip(s.x, PutRange(s.y, rest));
      RangeRoundTrip(s.y, rest);
    case MoveRel(dx, dy) => PointRoundTrip(Point(dx, dy), rest);
    case MoveAbs(p) => PointRoundTrip(p, rest);
    case MousePos(p) => PointRoundTrip(p, rest);
    case ClickEvent(b, pr) =>
      WordRoundTrip(b, PutWord(pr, rest));
      WordRoundTrip(pr, rest);
    case KeyEvent(k, pr) =>
      WordRoundTrip(k, PutWord(pr, rest));
      WordRoundTrip(pr, rest);
    case GetClipboard =>
    case SetClipboard(t) => TextRoundTrip(t, rest);
    case LogMsg(t) => TextRoundTrip(t, rest);
    case SetBrightness(f) => WordRoundTrip(f, rest);
    case SetLogLevel(l) => WordRoundTrip(l, rest);
  }

  /** Every message of every type survives encoding, whatever bytes follow it. */
  lemma BodyRoundTrip(m: Message, rest: seq<Byte>)
    requires Sendable(m)
    ensures GetBody(PutBody(m, rest)) == Got(m, rest)
  {
    WordRoundTrip(Tag(m), PutArm(m, rest));
    ArmRoundTrip(m, rest);
  }

  // ---------------------------------------------------------------- shape

  lemma TextAppends(t: Text, rest: seq<Byte>)
    requires |t| < LIMIT32
    ensures PutText(t, rest) == PutText(t, []) + rest
    ensures |PutText(t, [])| % 4 == 0
  {
    hide PutWord;
    var z := Zeros(Padding(|t|));
    WordAppends(|t|, t + (z + rest));
    WordAppends(|t|, t + (z + []));
    assert t + (z + rest) == (t + (z + [])) + rest;
  }

  lemma WordAppends(w: Word, rest: seq<Byte>)
    ensures PutWord(w, rest) == PutWord(w, []) + rest
  {
  }

  lemma TwoWordsAppend(v: Word, w: Word, rest: seq<Byte>)
    ensures PutWord(v, PutWord(w, rest)) == PutWord(v, PutWord(w, [])) + rest
  {
    hide PutWord;
    WordAppends(w, rest);
    WordAppends(v, PutWord(w, []));
    WordAppends(v, PutWord(w, rest));
  }

  lemma PointAppends(p: Point, rest: seq<Byte>)
    ensures PutPoint(p, rest) == PutPoint(p, []) + rest && |PutPoint(p, [])| == 8
  {
    hide PutWord;
    TwoWordsAppend(if p.x < 0 then p.x + LIMIT32 else p.x, if p.y < 0 then p.y + LIMIT32 else p.y, rest);
  }

  lemma ScreenAppends(s: Rectangle, rest: seq<Byte>)
    ensures PutRange(s.x, PutRange(s.y, rest)) == PutRange(s.x, PutRange(s.y, [])) + rest
    ensures |PutRange(s.x, PutRange(s.y, []))| == 16
  {
    hide PutPoint;
    var x, y := Point(s.x.min, s.x.max), Point(s.y.min, s.y.max);
    RangeIsPoint(s.x, PutRange(s.y, rest));
    RangeIsPoint(s.x, PutRange(s.y, []));
    RangeIsPoint(s.y, rest);
    RangeIsPoint(s.y, []);
    hide *;
    PointAppends(y, rest);
    PointAppends(x, PutPoint(y, rest));
    PointAppends(x, PutPoint(y, []));
  }

  lemma RangeIsPoint(r: Range, rest: seq<Byte>)
    ensures PutRange(r, rest) == PutPoint(Point(r.min, r.max), rest)
  {
  }

  lemma SetupAppends(m: Message, rest: seq<Byte>)
    requires Sendable(m) && m.Setup?
    ensures PutArm(m, rest) == PutArm(m, []) + rest
    ensures |PutArm(m, [])| % 4 == 0
  {
    hide PutWord, PutPairs;
    var ps, n: Word := m.params, |m.params|;
    PairsAppend(ps, rest);
    WordAppends(n, PutPairs(ps, []));
    WordAppends(n, PutPairs(ps, rest));
    TwoWordsAppend(m.version, m.loglevel, PutWord(n, PutPairs(ps, [])));
    TwoWordsAppend(m.version, m.loglevel, PutWord(n, PutPairs(ps, rest)));
  }

  lemma PairsTail(ps: seq<KvPair>)
    requires SendablePairs(ps) && ps != []
    ensures SendablePair(ps[0]) && SendablePairs(ps[1..])
  {
  }

  lemma TwoTextsAppend(k: Text, v: Text, rest: seq<Byte>)
    requires |k| < LIMIT32 && |v| < LIMIT32
    ensures PutText(k, PutText(v, rest)) == PutText(k, PutText(v, [])) + rest
    ensures |PutText(k, PutText(v, []))| % 4 == 0
  {
    hide PutText;
    TextAppends(v, rest);
    TextAppends(k, PutText(v, []));
    TextAppends(k, PutText(v, rest));
  }

  lemma PairsStep(ps: seq<KvPair>, rest: seq<Byte>)
    requires SendablePairs(ps) && ps != []
    ensures PutPairs(ps, rest) == PutText(ps[0].key, PutText(ps[0].value, [])) + PutPairs(ps[1..], rest)
    ensures |PutText(ps[0].key, PutText(ps[0].value, []))| % 4 == 0
  {
    hide PutText;
    TwoTextsAppend(ps[0].key, ps[0].value, PutPairs(ps[1..], rest));
  }

  lemma {:induction false} PairsAppend(ps: seq<KvPair>, rest: seq<Byte>)
    requires SendablePairs(ps)
    ensures PutPairs(ps, rest) == PutPairs(ps, []) + rest
    ensures |PutPairs(ps, [])| % 4 == 0
  {
    hide PutText, SendablePairs;
    if ps != [] {
      PairsTail(ps);
      PairsAppend(ps[1..], rest);
      var head, tail := PutText(ps[0].key, PutText(ps[0].value, [])), PutPairs(ps[1..], []);
      PairsStep(ps, rest);
      PairsStep(ps, []);
      hide *;
      assert head + (tail + rest) == (head + tail) + rest;
    }
  }

  lemma MoveRelAppends(m: Message, rest: seq<Byte>)
    requires m.MoveRel?
    ensures PutArm(m, rest) == PutArm(m, []) + rest
    ensures |PutArm(m, [])| % 4 == 0
  {
    PointAppends(Point(m.dx, m.dy), rest);
  }

  lemma ArmAppends(m: Message, rest: seq<Byte>)
    requires Sendable(m)
    ensures PutArm(m, rest) == PutArm(m, []) + rest
    ensures |PutArm(m, [])| % 4 == 0
  {
    hide PutWord, PutText, PutPairs, PutPoint, PutRange;
    match m
    case Setup(_, _, _) => SetupAppends(m, rest);
    case Ready(s) => ScreenAppends(s, rest);
    case MoveRel(dx, dy) => MoveRelAppends(m, rest);
    case MoveAbs(p) => PointAppends(p, rest);
    case MousePos(p) => PointAppends(p, rest);
    case ClickEvent(b, pr) => TwoWordsAppend(b, pr, rest);
    case KeyEvent(k, pr) => TwoWordsAppend(k, pr, rest);
    case GetClipboard =>
    case SetClipboard(t) => TextAppends(t, rest);
    case LogMsg(t) => TextAppends(t, rest);
    case SetBrightness(f) => WordAppends(f, rest);
    case SetLogLevel(l) => WordAppends(l, rest);
  }

  /** Encoding onto a tail is encoding and then the tail; a body is a whole number of words,
      and is never empty. */
  lemma BodyAppends(m: Message, rest: seq<Byte>)
    requires Sendable(m)
    ensures PutBody(m, rest) == Encode(m) + rest
    ensures |Encode(m)| % 4 == 0 && |Encode(m)| >= 4
  {
    hide PutWord, PutArm;
    ArmAppends(m, rest);
    WordAppends(Tag(m), PutArm(m, []));
    WordAppends(Tag(m), PutArm(m, rest));
  }

  /** No encoding is a proper prefix of another, and different messages encode differently. */
  lemma PrefixFree(m: Message, n: Message)
    requires Sendable(m) && Sendable(n)
    requires Encode(m) <= Encode(n)
    ensures m == n
  {
    hide PutBody, GetBody, Sendable;
    var rest := Encode(n)[|Encode(m)|..];
    BodyAppends(m, rest);
    BodyRoundTrip(m, rest);
    BodyRoundTrip(n, []);
    assert Encode(m) + rest == Encode(n);
  }

  // ---------------------------------------------------------------- what a decoder accepts

  lemma {:induction false} PairsConsumed(n: nat, b: seq<Byte>)
    requires GetPairs(n, b).Got?
    ensures var g := GetPairs(n, b);
      && |g.value| == n && SendablePairs(g.value)
      && |b| == |PutPairs(g.value, [])| + |g.rest|
  {
    hide PutText, GetText;
    if n > 0 {
      var k := GetText(b);
      var v := GetText(k.rest);
      PairsConsumed(n - 1, v.rest);
      var ps := GetPairs(n - 1, v.rest).value;
      assert GetPairs(n, b).value == [KvPair(k.value, v.value)] + ps;
      assert GetPairs(n, b).value[1..] == ps;
    }
  }

  lemma SetupConsumed(b: seq<Byte>)
    requires GetArm(1, b).Got?
    ensures Sendable(GetArm(1, b).value) && Tag(GetArm(1, b).value) == 1
    ensures |b| == |PutArm(GetArm(1, b).value, [])| + |GetArm(1, b).rest|
  {
    hide PutWord, GetWord, PutPairs, GetPairs;
    var n := GetWord(GetWord(GetWord(b).rest).rest);
    PairsConsumed(n.value, n.rest);
  }

  lemma PointConsumed(b: seq<Byte>)
    ensures GetPoint(b).Got? ==> |b| == 8 + |GetPoint(b).rest|
    ensures GetRange(b).Got? ==> |b| == 8 + |GetRange(b).rest|
  {
    hide GetWord;
  }

  lemma PointLength(p: Point, r: Range, rest: seq<Byte>)
    ensures |PutPoint(p, rest)| == |PutRange(r, rest)| == 8 + |rest|
  {
    hide PutWord;
  }

  lemma MotionConsumed(tag: Word, b: seq<Byte>)
    requires GetArm(tag, b).Got? && 2 <= tag <= 5
    ensures Sendable(GetArm(tag, b).value) && Tag(GetArm(tag, b).value) == tag
    ensures |b| == |PutArm(GetArm(tag, b).value, [])| + |GetArm(tag, b).rest|
  {
    hide PutWord, GetWord;
    PointConsumed(b);
    if tag == 2 {
      hide GetPoint, GetRange, PutPoint, PutRange;
      PointConsumed(GetRange(b).rest);
      var s := GetArm(tag, b).value.screen;
      PointLength(Point(0, 0), s.y, []);
      PointLength(Point(0, 0), s.x, PutRange(s.y, []));
    }
  }

  lemma ArmConsumed(tag: Word, b: seq<Byte>)
    requires GetArm(tag, b).Got?
    ensures Sendable(GetArm(tag, b).value) && Tag(GetArm(tag, b).value) == tag
    ensures |b| == |PutArm(GetArm(tag, b).value, [])| + |GetArm(tag, b).rest|
  {
    hide PutWord, GetWord, PutText, GetText, PutPairs, GetPairs, PutPoint, GetPoint, GetRange, PutRange;
    if tag == 1 {
      SetupConsumed(b);
    } else if 2 <= tag <= 5 {
      MotionConsumed(tag, b);
    }
  }

  /** Conversely, whatever bytes a decoder accepts, it yields a message that can be sent, and it
      consumes exactly as many bytes as that message's own encoding has. */
  lemma AcceptedIsSendable(b: seq<Byte>)
    requires GetBody(b).Got?
    ensures Sendable(GetBody(b).value)
    ensures |b| == |Encode(GetBody(b).value)| + |GetBody(b).rest|
  {
    hide PutWord, GetWord, GetArm, PutArm, Sendable;
    var t := GetWord(b);
    ArmConsumed(t.value, t.rest);
  }
}
