/** The pairing link: printed by the desktop, read back by the desktop and by the phone. */
module PairingLink {
  import opened Prelude
  import Naming

  type Host(==) = nat

  const DEFAULT_TCP_PORT: nat := 45821

  /** The desktop handles text as its UTF-8 bytes, the phone as its UTF-16 units. */
  type unit = u: int | 0 <= u < 0x1_0000

  type Units = seq<unit>

  /**
   * Text, Base64, addresses and the digits of other scripts are left to libraries. `joins` says whether the
   * phone's conversion to US-ASCII turns a surrogate pair into one question mark or two.
   */
  datatype Codecs = Codecs(
    utf8: string -> Bytes,
    lossy: Bytes -> string,
    encodeKey: Bytes -> Bytes,
    decodeKey: Bytes -> Option<Bytes>,
    printHost: Host -> Bytes,
    parseHost: Bytes -> Option<Host>,
    phoneText: Bytes -> Units,
    phoneKey: Units -> Option<Bytes>,
    phoneDigit: unit -> Option<nat>,
    joins: bool)
  {
    ghost predicate Lawful() {
      && (forall s :: lossy(utf8(s)) == s && phoneText(utf8(s)) == Utf16(s))
      && (forall k :: decodeKey(encodeKey(k)) == Some(k) && Clean(encodeKey(k)))
      && (forall k :: phoneKey(Widened(encodeKey(k))) == Some(k))
      && (forall h: Host :: parseHost(printHost(h)) == Some(h) && Clean(printHost(h)) && !Blank(Widened(printHost(h))))
      && DigitsLawful()
    }

    /** Digits are hexadecimal, and in ASCII the usual ones. */
    ghost predicate DigitsLawful() {
      forall u: unit :: (phoneDigit(u).Some? ==> phoneDigit(u).value < 16) && (u < 128 ==> phoneDigit(u) == HexValue(u))
    }
  }

  // ---- characters ------------------------------------------------------------------------

  /** One unit for a character of the basic plane, a surrogate pair for any other. */
  function Utf16Char(c: char): (u: Units)
    ensures 1 <= |u| <= 2
  {
    var n := c as int;
    if n < 0x1_0000 then [n] else [0xd800 + (n - 0x1_0000) / 0x400, 0xdc00 + (n - 0x1_0000) % 0x400]
  }

  function Utf16(s: string): (u: Units)
    ensures |u| >= |s|
  {
    if s == "" then [] else Utf16Char(s[0]) + Utf16(s[1..])
  }

  function Widened(b: Bytes): (u: Units)
    ensures |u| == |b| && forall i :: 0 <= i < |b| ==> u[i] == b[i]
  {
    seq(|b|, i requires 0 <= i < |b| => b[i])
  }

  predicate HighSurrogate(u: unit) {
    0xd800 <= u < 0xdc00
  }

  predicate LowSurrogate(u: unit) {
    0xdc00 <= u < 0xe000
  }

  /** The phone's conversion to US-ASCII: what does not fit becomes a question mark. */
  function AsciiOf(s: Units, joins: bool): (b: Bytes)
    ensures |b| <= |s|
  {
    if s == [] then []
    else if s[0] < 128 then [s[0]] + AsciiOf(s[1..], joins)
    else if joins && |s| > 1 && HighSurrogate(s[0]) && LowSurrogate(s[1]) then [0x3f] + AsciiOf(s[2..], joins)
    else [0x3f] + AsciiOf(s[1..], joins)
  }

  lemma {:induction false} AsciiIsItself(b: Bytes, joins: bool)
    requires IsAscii(b)
    ensures AsciiOf(Widened(b), joins) == b
  {
    if b != [] {
      AsciiIsItself(b[1..], joins);
      assert Widened(b)[1..] == Widened(b[1..]);
      assert b == [b[0]] + b[1..];
    }
  }

  // ---- bytes ----------------------------------------------------------------------------

  const PERCENT: byte := 0x25
  const AMPERSAND: byte := 0x26
  const EQUALS: byte := 0x3d
  const PLUS: byte := 0x2b
  const MINUS: byte := 0x2d

  /** Free of the separators of the query. */
  predicate Unsplit(b: Bytes) {
    AMPERSAND !in b && EQUALS !in b
  }

  predicate IsAscii(b: Bytes) {
    forall i :: 0 <= i < |b| ==> b[i] < 128
  }

  predicate Clean(b: Bytes) {
    Unsplit(b) && IsAscii(b)
  }

  /** White space as the phone's runtime counts it. */
  predicate White(u: unit) {
    || 9 <= u <= 13 || 28 <= u <= 32 || u == 0xa0 || u == 0x1680 || 0x2000 <= u <= 0x200a
    || u in {0x2028, 0x2029, 0x202f, 0x205f, 0x3000}
  }

  predicate Blank(s: Units) {
    forall i :: 0 <= i < |s| ==> White(s[i])
  }

  predicate IsDigit(b: unit) {
    0x30 <= b <= 0x39
  }

  predicate Unreserved(b: byte) {
    IsDigit(b) || 0x41 <= b <= 0x5a || 0x61 <= b <= 0x7a || b in {0x2d, 0x5f, 0x2e, 0x7e}
  }

  /** A byte in the middle of a UTF-8 character. */
  predicate Continuation(b: byte) {
    0x80 <= b < 0xc0
  }

  function HexDigit(n: nat): byte
    requires n < 16
  {
    if n < 10 then 0x30 + n else 0x37 + n
  }

  function HexValue(b: unit): (v: Option<nat>)
    ensures v.Some? ==> v.value < 16
  {
    if IsDigit(b) then Some(b - 0x30)
    else if 0x41 <= b <= 0x46 then Some(b - 0x37)
    else if 0x61 <= b <= 0x66 then Some(b - 0x57)
    else None
  }

  // ---- percent encoding -------------------------------------------------------------------

  function EscapedByte(b: byte): Bytes {
    if Unreserved(b) then [b] else [PERCENT, HexDigit(b / 16), HexDigit(b % 16)]
  }

  function Escaped(b: Bytes): Bytes {
    if b == [] then [] else EscapedByte(b[0]) + Escaped(b[1..])
  }

  /** Two hexadecimal digits, or a sign and one, as the desktop's integer parser reads them. */
  function DesktopHex(x: byte, y: byte): Option<byte> {
    if x == PLUS && HexValue(y).Some? then Some(HexValue(y).value)
    else if HexValue(x).Some? && HexValue(y).Some? then Some(HexValue(x).value * 16 + HexValue(y).value)
    else None
  }

  /** As the phone's parser reads them: a minus sign is a number too, of which the low byte is kept. */
  function PhoneHex(c: Codecs, x: unit, y: unit): Option<byte> {
    var high, low := c.phoneDigit(x), c.phoneDigit(y);
    if low.None? then None
    else if x == PLUS then Some(low.value % 256)
    else if x == MINUS then Some((256 - low.value % 256) % 256)
    else if high.Some? then Some((high.value * 16 + low.value) % 256)
    else None
  }

  /** `None` when the desktop slices its text inside a character, which panics. */
  function DesktopUnescaped(b: Bytes): Option<Bytes>
    decreases |b|
  {
    if b == [] then Some([])
    else if b[0] == PERCENT && |b| > 2 && |b| > 3 && Continuation(b[3]) then None
    else if b[0] == PERCENT && |b| > 2 && DesktopHex(b[1], b[2]).Some? then
      match DesktopUnescaped(b[3..])
      case Some(rest) => Some([DesktopHex(b[1], b[2]).value] + rest)
      case None => None
    else
      match DesktopUnescaped(b[1..])
      case Some(rest) => Some([b[0]] + rest)
      case None => None
  }

  /** The loop reads percent signs in the ASCII bytes and digits in the text, at the same index. */
  function PhoneUnescapedFrom(c: Codecs, s: Units, b: Bytes, i: nat): Bytes
    requires i <= |b| <= |s|
    decreases |b| - i
  {
    if i == |b| then []
    else if b[i] == PERCENT && i + 2 < |b| && PhoneHex(c, s[i + 1], s[i + 2]).Some? then
      [PhoneHex(c, s[i + 1], s[i + 2]).value] + PhoneUnescapedFrom(c, s, b, i + 3)
    else [b[i]] + PhoneUnescapedFrom(c, s, b, i + 1)
  }

  function PhoneUnescaped(c: Codecs, s: Units): Bytes {
    PhoneUnescapedFrom(c, s, AsciiOf(s, c.joins), 0)
  }

  /** A percent sign stands two bytes in front of the middle of a character. */
  predicate CutsCharacter(b: Bytes) {
    exists i :: 0 <= i < |b| - 3 && b[i] == PERCENT && Continuation(b[i + 3])
  }

  lemma CutsLater(b: Bytes, n: nat)
    requires n <= |b| && (forall i :: 0 <= i < n && i < |b| - 3 ==> b[i] != PERCENT || !Continuation(b[i + 3]))
    ensures CutsCharacter(b) <==> CutsCharacter(b[n..])
  {
    if CutsCharacter(b) {
      var i :| 0 <= i < |b| - 3 && b[i] == PERCENT && Continuation(b[i + 3]);
      assert b[n..][i - n] == PERCENT && Continuation(b[n..][i - n + 3]);
    }
    if CutsCharacter(b[n..]) {
      var i :| 0 <= i < |b[n..]| - 3 && b[n..][i] == PERCENT && Continuation(b[n..][i + 3]);
      assert b[n + i] == PERCENT && Continuation(b[n + i + 3]);
    }
  }

  /** The desktop panics exactly on text that puts a percent sign two bytes before a continuation byte. */
  lemma {:induction false} DesktopPanicsExactly(b: Bytes)
    ensures DesktopUnescaped(b).None? <==> CutsCharacter(b)
    decreases |b|
  {
    if b == [] {
    } else if b[0] == PERCENT && |b| > 3 && Continuation(b[3]) {
      assert CutsCharacter(b);
    } else if b[0] == PERCENT && |b| > 2 && DesktopHex(b[1], b[2]).Some? {
      CutsLater(b, 3);
      DesktopPanicsExactly(b[3..]);
    } else {
      CutsLater(b, 1);
      DesktopPanicsExactly(b[1..]);
    }
  }

  lemma EscapedNothing()
    ensures Escaped([]) == []
  {
  }

  lemma EscapedStep(s: Bytes, i: nat)
    requires i < |s|
    ensures Escaped(s[i..]) == EscapedByte(s[i]) + Escaped(s[i + 1..])
  {
    assert s[i..][1..] == s[i + 1..];
  }

  method UrlEscape(s: Bytes) returns (out: Bytes)
    ensures out == Escaped(s)
  {
    hide Escaped;
    EscapedNothing();
    out := [];
    assert s[0..] == s;
    for i := 0 to |s|
      invariant out + Escaped(s[i..]) == Escaped(s)
    {
      var b := s[i];
      EscapedStep(s, i);
      if Unreserved(b) {
        out := out + [b];
      } else {
        out := out + [PERCENT, HexDigit(b / 16), HexDigit(b % 16)];
      }
    }
    assert s[|s|..] == [];
  }

  lemma UnescapedNothing()
    ensures DesktopUnescaped([]) == Some([])
  {
  }

  lemma DesktopStep(b: Bytes, i: nat)
    requires i < |b| && DesktopUnescaped(b[i..]).Some?
    ensures if b[i] == PERCENT && i + 2 < |b| && DesktopHex(b[i + 1], b[i + 2]).Some? then
        && DesktopUnescaped(b[i + 3..]).Some?
        && DesktopUnescaped(b[i..]).value == [DesktopHex(b[i + 1], b[i + 2]).value] + DesktopUnescaped(b[i + 3..]).value
      else
        && DesktopUnescaped(b[i + 1..]).Some?
        && DesktopUnescaped(b[i..]).value == [b[i]] + DesktopUnescaped(b[i + 1..]).value
  {
    hide DesktopHex;
    var rest := b[i..];
    assert rest[1..] == b[i + 1..];
    assert |rest| > 2 ==> rest[3..] == b[i + 3..];
  }

  /** The desktop's loop, on text whose `%` signs never stand two bytes in front of a split character. */
  method UrlUnescape(b: Bytes) returns (out: Bytes)
    requires !CutsCharacter(b)
    ensures DesktopUnescaped(b) == Some(out)
  {
    DesktopPanicsExactly(b);
    hide CutsCharacter;
    hide DesktopUnescaped, DesktopHex;
    UnescapedNothing();
    out := [];
    assert b[0..] == b;
    var i := 0;
    while i < |b|
      invariant 0 <= i <= |b| && DesktopUnescaped(b[i..]).Some?
      invariant out + DesktopUnescaped(b[i..]).value == DesktopUnescaped(b).value
      decreases |b| - i
    {
      DesktopStep(b, i);
      if b[i] == PERCENT && i + 2 < |b| && DesktopHex(b[i + 1], b[i + 2]).Some? {
        out := out + [DesktopHex(b[i + 1], b[i + 2]).value];
        i := i + 3;
      } else {
        out := out + [b[i]];
        i := i + 1;
      }
    }
    assert b[i..] == [];
    assert out + [] == out;
  }

  lemma PhoneEnd(c: Codecs, s: Units, b: Bytes)
    requires |b| <= |s|
    ensures PhoneUnescapedFrom(c, s, b, |b|) == []
  {
  }

  lemma PhoneStep(c: Codecs, s: Units, b: Bytes, i: nat)
    requires i < |b| <= |s|
    ensures PhoneUnescapedFrom(c, s, b, i) ==
      if b[i] == PERCENT && i + 2 < |b| && PhoneHex(c, s[i + 1], s[i + 2]).Some? then
        [PhoneHex(c, s[i + 1], s[i + 2]).value] + PhoneUnescapedFrom(c, s, b, i + 3)
      else [b[i]] + PhoneUnescapedFrom(c, s, b, i + 1)
  {
  }

  method PhoneUnescape(c: Codecs, s: Units) returns (out: Bytes)
    ensures out == PhoneUnescaped(c, s)
  {
    hide PhoneHex, AsciiOf, PhoneUnescapedFrom;
    out := [];
    var b := AsciiOf(s, c.joins);
    assert PhoneUnescapedFrom(c, s, b, |b|) == [] by { PhoneEnd(c, s, b); }
    var i := 0;
    while i < |b|
      invariant 0 <= i <= |b| <= |s| && out + PhoneUnescapedFrom(c, s, b, i) == PhoneUnescapedFrom(c, s, b, 0)
      decreases |b| - i
    {
      PhoneStep(c, s, b, i);
      if b[i] == PERCENT && i + 2 < |b| && PhoneHex(c, s[i + 1], s[i + 2]).Some? {
        out := out + [PhoneHex(c, s[i + 1], s[i + 2]).value];
        i := i + 3;
      } else {
        out := out + [b[i]];
        i := i + 1;
      }
    }
  }

  lemma HexRoundTrip(b: byte)
    ensures DesktopHex(HexDigit(b / 16), HexDigit(b % 16)) == Some(b)
  {
  }

  lemma PhoneHexRoundTrip(c: Codecs, b: byte)
    requires c.DigitsLawful()
    ensures PhoneHex(c, HexDigit(b / 16), HexDigit(b % 16)) == Some(b)
  {
    assert HexValue(HexDigit(b / 16)) == Some(b / 16) && HexValue(HexDigit(b % 16)) == Some(b % 16);
  }

  lemma {:induction false} EscapedIsPlain(b: Bytes)
    ensures Unsplit(Escaped(b)) && IsAscii(Escaped(b))
  {
    if b != [] {
      EscapedIsPlain(b[1..]);
      var e := EscapedByte(b[0]);
      assert IsAscii(e) && Unsplit(e);
    }
  }

  /** The desktop recovers any bytes from their escaped form. */
  lemma {:induction false} UnescapeInvertsEscape(b: Bytes)
    ensures DesktopUnescaped(Escaped(b)) == Some(b)
  {
    if b != [] {
      UnescapeInvertsEscape(b[1..]);
      EscapedIsPlain(b[1..]);
      var rest, e := Escaped(b[1..]), EscapedByte(b[0]);
      HexRoundTrip(b[0]);
      if Unreserved(b[0]) {
        assert (e + rest)[1..] == rest;
      } else {
        assert (e + rest)[3..] == rest;
      }
      assert b == [b[0]] + b[1..];
    }
  }

  lemma PhoneReadsPlain(c: Codecs, e: Bytes, i: nat)
    requires i < |e| && e[i] != PERCENT
    ensures PhoneUnescapedFrom(c, Widened(e), e, i) == [e[i]] + PhoneUnescapedFrom(c, Widened(e), e, i + 1)
  {
    hide PhoneUnescapedFrom, PhoneHex;
    PhoneStep(c, Widened(e), e, i);
  }

  lemma PhoneReadsEscape(c: Codecs, e: Bytes, i: nat, x: byte)
    requires c.DigitsLawful() && i + 2 < |e|
    requires e[i] == PERCENT && e[i + 1] == HexDigit(x / 16) && e[i + 2] == HexDigit(x % 16)
    ensures PhoneUnescapedFrom(c, Widened(e), e, i) == [x] + PhoneUnescapedFrom(c, Widened(e), e, i + 3)
  {
    hide PhoneUnescapedFrom, PhoneHex, HexDigit, Codecs.DigitsLawful;
    PhoneStep(c, Widened(e), e, i);
    PhoneHexRoundTrip(c, x);
  }

  lemma {:induction false} PhoneUnescapesRest(c: Codecs, e: Bytes, i: nat, b: Bytes)
    requires c.DigitsLawful() && i <= |e| && e[i..] == Escaped(b)
    ensures PhoneUnescapedFrom(c, Widened(e), e, i) == b
    decreases |b|
  {
    hide Codecs.DigitsLawful, PhoneUnescapedFrom, Widened, HexDigit, Unreserved;
    if b == [] {
      PhoneEnd(c, Widened(e), e);
    } else {
      var one, rest := EscapedByte(b[0]), Escaped(b[1..]);
      assert e[i..] == one + rest;
      assert e[i + |one|..] == e[i..][|one|..] == rest;
      assert e[i] == e[i..][0] == one[0];
      if Unreserved(b[0]) {
        UnreservedIsNoPercent(b[0]);
        PhoneReadsPlain(c, e, i);
      } else {
        assert e[i + 1] == e[i..][1] == one[1] && e[i + 2] == e[i..][2] == one[2];
        PhoneReadsEscape(c, e, i, b[0]);
      }
      PhoneUnescapesRest(c, e, i + |one|, b[1..]);
      assert b == [b[0]] + b[1..];
    }
  }

  lemma UnreservedIsNoPercent(b: byte)
    requires Unreserved(b)
    ensures b != PERCENT
  {
  }

  /** The phone recovers any bytes from their escaped form. */
  lemma PhoneInvertsEscape(c: Codecs, b: Bytes)
    requires c.DigitsLawful()
    ensures PhoneUnescaped(c, Widened(Escaped(b))) == b
  {
    hide PhoneUnescapedFrom, Escaped;
    EscapedIsPlain(b);
    AsciiIsItself(Escaped(b), c.joins);
    PhoneUnescapesRest(c, Escaped(b), 0, b);
  }

  lemma AsciiNeverPanics(b: Bytes)
    requires IsAscii(b)
    ensures DesktopUnescaped(b).Some?
  {
    DesktopPanicsExactly(b);
  }

  /** A percent sign followed by the euro sign makes the desktop panic. */
  lemma PercentEuroPanics()
    ensures DesktopUnescaped([PERCENT, 0xe2, 0x82, 0xac]) == None
  {
    DesktopPanicsExactly([PERCENT, 0xe2, 0x82, 0xac]);
  }

  // ---- numbers and names --------------------------------------------------------------------

  function Decimal(n: nat): (b: Bytes)
    ensures b != [] && Clean(b) && forall i :: 0 <= i < |b| ==> IsDigit(b[i])
  {
    (if n < 10 then [] else Decimal(n / 10)) + [0x30 + n % 10]
  }

  function ParseDigits(b: Bytes): Option<nat>
    decreases |b|
  {
    if b == [] || !IsDigit(b[|b| - 1]) then None
    else if |b| == 1 then Some(b[0] - 0x30)
    else match ParseDigits(b[..|b| - 1])
      case None => None
      case Some(n) => Some(10 * n + (b[|b| - 1] - 0x30))
  }

  lemma {:induction false} ParseInvertsDecimal(n: nat)
    ensures ParseDigits(Decimal(n)) == Some(n)
  {
    var b := Decimal(n);
    if n >= 10 {
      ParseInvertsDecimal(n / 10);
      assert b[..|b| - 1] == Decimal(n / 10);
    }
  }

  /** `u16::parse`: an optional plus sign and digits, up to 65535. */
  function DesktopPort(b: Bytes): Option<nat> {
    var n := ParseDigits(if b != [] && b[0] == PLUS then b[1..] else b);
    if n.Some? && n.value <= 65535 then n else None
  }

  function PhoneDigits(c: Codecs, s: Units): Option<nat>
    decreases |s|
  {
    if s == [] then None else
      var d := c.phoneDigit(s[|s| - 1]);
      if d.None? || d.value >= 10 then None
      else if |s| == 1 then d
      else match PhoneDigits(c, s[..|s| - 1])
        case None => None
        case Some(n) => Some(10 * n + d.value)
  }

  lemma {:induction false} PhoneReadsDecimal(c: Codecs, n: nat)
    requires c.DigitsLawful()
    ensures PhoneDigits(c, Widened(Decimal(n))) == Some(n)
  {
    var b := Decimal(n);
    assert HexValue(b[|b| - 1]) == Some(n % 10);
    if n >= 10 {
      PhoneReadsDecimal(c, n / 10);
      assert Widened(b)[..|b| - 1] == Widened(Decimal(n / 10));
    }
  }

  /** `toIntOrNull`: either sign, within 32 bits. */
  function PhoneInt(c: Codecs, s: Units): Option<int> {
    var signed := s != [] && (s[0] == PLUS || s[0] == MINUS);
    match PhoneDigits(c, if signed then s[1..] else s)
    case None => None
    case Some(n) =>
      var digits: int := n;
      var value := if signed && s[0] == MINUS then -digits else digits;
      if -0x8000_0000 <= value < 0x8000_0000 then Some(value) else None
  }

  function DesktopShown(c: char): char {
    if c in {'\r', '\n', '\0'} then ' ' else c
  }

  /** Limits the characters of a name. */
  function DesktopClamped(s: string, max: nat): string {
    var shown := seq(|s|, i requires 0 <= i < |s| => DesktopShown(s[i]));
    if |shown| <= max then shown else shown[..max] + "\U{2026}"
  }

  predicate IsoControl(u: unit) {
    u < 0x20 || 0x7f <= u < 0xa0
  }

  function PhoneShown(u: unit): unit {
    if IsoControl(u) then 0x20 else u
  }

  /** Limits the UTF-16 units of a name, even in the middle of a surrogate pair. */
  function PhoneClamped(s: Units, max: nat): Units {
    var shown := seq(|s|, i requires 0 <= i < |s| => PhoneShown(s[i]));
    if |shown| <= max then shown else shown[..max] + [0x2026]
  }

  /** A name both platforms show in full. */
  predicate Presentable(name: string) {
    |Utf16(name)| <= 64 && forall i :: 0 <= i < |name| ==> !Naming.IsControl(name[i])
  }

  lemma {:induction false} NoControlUnits(s: string)
    requires forall i :: 0 <= i < |s| ==> !Naming.IsControl(s[i])
    ensures forall i :: 0 <= i < |Utf16(s)| ==> !IsoControl(Utf16(s)[i])
  {
    if s != "" {
      NoControlUnits(s[1..]);
    }
  }

  lemma PresentableIsKept(name: string)
    requires Presentable(name)
    ensures DesktopClamped(name, 64) == name && PhoneClamped(Utf16(name), 64) == Utf16(name)
  {
    NoControlUnits(name);
  }

  // ---- the query ------------------------------------------------------------------------------

  function Split<T(==)>(s: seq<T>, at: T): (r: seq<seq<T>>)
    ensures r != []
  {
    if s == [] then [[]] else
      var r := Split(s[1..], at);
      if s[0] == at then [[]] + r else [[s[0]] + r[0]] + r[1..]
  }

  lemma {:induction false} SplitFirst(a: Bytes, rest: Bytes)
    requires AMPERSAND !in a
    ensures Split(a + [AMPERSAND] + rest, AMPERSAND) == [a] + Split(rest, AMPERSAND)
  {
    var whole := a + [AMPERSAND] + rest;
    if a == [] {
      assert whole[1..] == rest;
    } else {
      assert whole[1..] == a[1..] + [AMPERSAND] + rest;
      SplitFirst(a[1..], rest);
      assert a == [a[0]] + a[1..];
    }
  }

  lemma {:induction false} SplitLast(a: Bytes)
    requires AMPERSAND !in a
    ensures Split(a, AMPERSAND) == [a]
  {
    if a != [] {
      SplitLast(a[1..]);
      assert a == [a[0]] + a[1..];
    }
  }

  function IndexOf<T(==)>(s: seq<T>, x: T): (i: nat)
    ensures i <= |s| && (i < |s| ==> s[i] == x)
  {
    if s == [] || s[0] == x then 0 else 1 + IndexOf(s[1..], x)
  }

  function KeyOf<T(==)>(kv: seq<T>, eq: T): seq<T> {
    kv[..IndexOf(kv, eq)]
  }

  function ValueOf<T(==)>(kv: seq<T>, eq: T): seq<T> {
    var i := IndexOf(kv, eq);
    if i < |kv| then kv[i + 1..] else []
  }

  lemma {:induction false} IndexBehind(k: Bytes, v: Bytes)
    requires EQUALS !in k
    ensures IndexOf(k + [EQUALS] + v, EQUALS) == |k|
  {
    if k != [] {
      assert (k + [EQUALS] + v)[1..] == k[1..] + [EQUALS] + v;
      IndexBehind(k[1..], v);
    }
  }

  lemma KeyAndValue(k: Bytes, v: Bytes)
    requires EQUALS !in k
    ensures KeyOf(k + [EQUALS] + v, EQUALS) == k && ValueOf(k + [EQUALS] + v, EQUALS) == v
  {
    IndexBehind(k, v);
  }

  // The phone's query, cut in units, is the desktop's, cut in bytes.

  const AMPERSAND16: unit := AMPERSAND
  const EQUALS16: unit := EQUALS

  lemma {:induction false} SplitWidens(b: Bytes)
    ensures var r, w := Split(b, AMPERSAND), Split(Widened(b), AMPERSAND16);
            |w| == |r| && forall i :: 0 <= i < |r| ==> w[i] == Widened(r[i])
  {
    if b != [] {
      SplitWidens(b[1..]);
      assert Widened(b)[1..] == Widened(b[1..]);
      var r, w := Split(b[1..], AMPERSAND), Split(Widened(b[1..]), AMPERSAND16);
      assert Widened([b[0]] + r[0]) == [Widened(b)[0]] + w[0];
    }
  }

  lemma {:induction false} IndexWidens(b: Bytes)
    ensures IndexOf(Widened(b), EQUALS16) == IndexOf(b, EQUALS)
  {
    if b != [] && b[0] != EQUALS {
      assert Widened(b)[1..] == Widened(b[1..]);
      IndexWidens(b[1..]);
    }
  }

  lemma KeyAndValueWiden(k: Bytes, v: Bytes)
    requires EQUALS !in k
    ensures KeyOf(Widened(k + [EQUALS] + v), EQUALS16) == Widened(k) && ValueOf(Widened(k + [EQUALS] + v), EQUALS16) == Widened(v)
  {
    IndexWidens(k + [EQUALS] + v);
    IndexBehind(k, v);
  }

  const PREFIX: Bytes := Ascii("syncmob://pair?")
  const V: Bytes := Ascii("v")
  const PK: Bytes := Ascii("pk")
  const HOST: Bytes := Ascii("host")
  const PORT: Bytes := Ascii("port")
  const NAME: Bytes := Ascii("name")

  lemma KeysDiffer()
    ensures V != PK && V != HOST && V != PORT && V != NAME && PK != HOST && PK != PORT && PK != NAME
    ensures HOST != PORT && HOST != NAME && PORT != NAME
    ensures Clean(V) && Clean(PK) && Clean(HOST) && Clean(PORT) && Clean(NAME)
  {
    assert HOST[0] == 'h' as int && PORT[0] == 'p' as int && NAME[0] == 'n' as int && PK[0] == 'p' as int && V[0] == 'v' as int;
  }

  function Field(k: Bytes, v: Bytes): Bytes {
    k + [EQUALS] + v
  }

  /** The link the desktop shows. */
  function Printed(c: Codecs, key: Bytes, port: nat, host: Host, name: string): Bytes {
    PREFIX
    + (Field(V, Ascii("1")) + [AMPERSAND]
    + (Field(PK, c.encodeKey(key)) + [AMPERSAND]
    + (Field(PORT, Decimal(port)) + [AMPERSAND]
    + (Field(HOST, c.printHost(host)) + [AMPERSAND]
    + Field(NAME, Escaped(c.utf8(name)))))))
  }

  // ---- the desktop's parser --------------------------------------------------------------------

  datatype Target<H, N> = Target(publicKey: Bytes, host: H, port: nat, name: N)

  datatype LinkError = NotALink | BadKey | BadKeyLength | NoHost | Panic

  datatype Found = Found(pk: Option<Bytes>, host: Option<Host>, port: Option<nat>, name: string)

  /** One field; a later one replaces an earlier one of the same key. `None` is a panic. */
  function DesktopField(c: Codecs, f: Found, kv: Bytes): Option<Found> {
    var k, v := KeyOf(kv, EQUALS), ValueOf(kv, EQUALS);
    if k == PK then Some(f.(pk := c.decodeKey(v)))
    else if k == HOST then Some(f.(host := c.parseHost(v)))
    else if k == PORT then Some(f.(port := DesktopPort(v)))
    else if k == NAME then
      match DesktopUnescaped(v)
      case None => None
      case Some(b) => Some(f.(name := DesktopClamped(c.lossy(b), 64)))
    else Some(f)
  }

  function DesktopFields(c: Codecs, f: Found, kvs: seq<Bytes>): Option<Found>
    decreases |kvs|
  {
    if kvs == [] then Some(f) else
      match DesktopField(c, f, kvs[0])
      case None => None
      case Some(g) => DesktopFields(c, g, kvs[1..])
  }

  function DesktopTarget(f: Found): Result<Target<Host, string>, LinkError> {
    if f.pk.None? then Err(BadKey)
    else if |f.pk.value| != 32 then Err(BadKeyLength)
    else if f.host.None? then Err(NoHost)
    else Ok(Target(f.pk.value, f.host.value,
                   if f.port.Some? && f.port.value > 0 then f.port.value else DEFAULT_TCP_PORT, f.name))
  }

  function DesktopParsed(c: Codecs, uri: Bytes): Result<Target<Host, string>, LinkError> {
    if !(PREFIX <= uri) then Err(NotALink)
    else match DesktopFields(c, Found(None, None, None, ""), Split(uri[|PREFIX|..], AMPERSAND))
      case None => Err(Panic)
      case Some(f) => DesktopTarget(f)
  }

  method ParsePairingUri(c: Codecs, uri: Bytes) returns (r: Result<Target<Host, string>, LinkError>)
    ensures r == DesktopParsed(c, uri)
  {
    if !(PREFIX <= uri) {
      return Err(NotALink);
    }
    var fields := Split(uri[|PREFIX|..], AMPERSAND);
    var pk, host, port, name := None, None, None, "";
    ghost var start := Found(None, None, None, "");
    for i := 0 to |fields|
      invariant DesktopFields(c, start, fields) == DesktopFields(c, Found(pk, host, port, name), fields[i..])
    {
      var k, v := KeyOf(fields[i], EQUALS), ValueOf(fields[i], EQUALS);
      assert fields[i..][1..] == fields[i + 1..];
      if k == PK {
        pk := c.decodeKey(v);
      } else if k == HOST {
        host := c.parseHost(v);
      } else if k == PORT {
        port := DesktopPort(v);
      } else if k == NAME {
        DesktopPanicsExactly(v);
        if CutsCharacter(v) {
          return Err(Panic);
        }
        var text := UrlUnescape(v);
        name := DesktopClamped(c.lossy(text), 64);
      }
    }
    if pk.None? {
      return Err(BadKey);
    }
    if |pk.value| != 32 {
      return Err(BadKeyLength);
    }
    if host.None? {
      return Err(NoHost);
    }
    if port.None? || port.value == 0 {
      port := Some(DEFAULT_TCP_PORT);
    }
    r := Ok(Target(pk.value, host.value, port.value, name));
  }

  lemma {:induction false} FieldsPanic(c: Codecs, f: Found, kvs: seq<Bytes>)
    ensures DesktopFields(c, f, kvs).None? <==>
      exists i :: 0 <= i < |kvs| && KeyOf(kvs[i], EQUALS) == NAME && CutsCharacter(ValueOf(kvs[i], EQUALS))
    decreases |kvs|
  {
    hide KeyOf, ValueOf, CutsCharacter, DesktopUnescaped, DesktopClamped, DesktopPort;
    if kvs != [] {
      KeysDiffer();
      DesktopPanicsExactly(ValueOf(kvs[0], EQUALS));
      match DesktopField(c, f, kvs[0])
      case None =>
      case Some(g) =>
        FieldsPanic(c, g, kvs[1..]);
        assert forall i :: 0 < i < |kvs| ==> kvs[i] == kvs[1..][i - 1];
    }
  }

  /** A link makes the desktop panic exactly when the value of a name field does. */
  lemma LinkPanicsExactly(c: Codecs, uri: Bytes)
    ensures DesktopParsed(c, uri) == Err(Panic) <==>
      && PREFIX <= uri
      && var kvs := Split(uri[|PREFIX|..], AMPERSAND);
         exists i :: 0 <= i < |kvs| && KeyOf(kvs[i], EQUALS) == NAME && CutsCharacter(ValueOf(kvs[i], EQUALS))
  {
    hide KeyOf, ValueOf, CutsCharacter, DesktopFields, Split;
    if PREFIX <= uri {
      FieldsPanic(c, Found(None, None, None, ""), Split(uri[|PREFIX|..], AMPERSAND));
    }
  }

  // ---- the phone's parser ------------------------------------------------------------------------

  datatype PhoneFound = PhoneFound(pk: Option<Bytes>, host: Option<Units>, port: int, name: Units)

  function PhoneField(c: Codecs, f: PhoneFound, kv: Units): PhoneFound {
    var k, v := KeyOf(kv, EQUALS16), ValueOf(kv, EQUALS16);
    if k == Widened(PK) then f.(pk := c.phoneKey(v))
    else if k == Widened(HOST) then f.(host := Some(v))
    else if k == Widened(PORT) then f.(port := if PhoneInt(c, v).Some? then PhoneInt(c, v).value else f.port)
    else if k == Widened(NAME) then f.(name := PhoneClamped(c.phoneText(PhoneUnescaped(c, v)), 64))
    else f
  }

  function PhoneFields(c: Codecs, f: PhoneFound, kvs: seq<Units>): PhoneFound
    decreases |kvs|
  {
    if kvs == [] then f else PhoneFields(c, PhoneField(c, f, kvs[0]), kvs[1..])
  }

  function PhoneTarget(f: PhoneFound): Option<Target<Units, Units>> {
    if f.pk.None? || |f.pk.value| != 32 then None
    else if f.host.None? || Blank(f.host.value) || f.port <= 0 || f.port > 65535 then None
    else Some(Target(f.pk.value, f.host.value, f.port, f.name))
  }

  function PhoneParsed(c: Codecs, uri: Units): Option<Target<Units, Units>> {
    if !(Widened(PREFIX) <= uri) then None
    else PhoneTarget(PhoneFields(c, PhoneFound(None, None, DEFAULT_TCP_PORT, []), Split(uri[|PREFIX|..], AMPERSAND16)))
  }

  method PhoneParse(c: Codecs, uri: Units) returns (r: Option<Target<Units, Units>>)
    ensures r == PhoneParsed(c, uri)
  {
    hide Widened, PhoneUnescaped, PhoneClamped, PhoneInt;
    if !(Widened(PREFIX) <= uri) {
      return None;
    }
    var fields := Split(uri[|PREFIX|..], AMPERSAND16);
    var pk: Option<Bytes>, host: Option<Units>, port: int, name: Units := None, None, DEFAULT_TCP_PORT, [];
    ghost var start := PhoneFound(None, None, DEFAULT_TCP_PORT, []);
    for i := 0 to |fields|
      invariant PhoneFields(c, start, fields) == PhoneFields(c, PhoneFound(pk, host, port, name), fields[i..])
    {
      var k, v := KeyOf(fields[i], EQUALS16), ValueOf(fields[i], EQUALS16);
      assert fields[i..][1..] == fields[i + 1..];
      if k == Widened(PK) {
        pk := c.phoneKey(v);
      } else if k == Widened(HOST) {
        host := Some(v);
      } else if k == Widened(PORT) {
        if PhoneInt(c, v).Some? {
          port := PhoneInt(c, v).value;
        }
      } else if k == Widened(NAME) {
        var text := PhoneUnescape(c, v);
        name := PhoneClamped(c.phoneText(text), 64);
      }
    }
    if pk.None? {
      return None;
    }
    if |pk.value| != 32 {
      return None;
    }
    if host.None? || Blank(host.value) || port <= 0 || port > 65535 {
      return None;
    }
    r := Some(Target(pk.value, host.value, port, name));
  }

  // ---- what the phone and the desktop read from a printed link ----------------------------------------

  lemma FiveSplit(v: Bytes, k: Bytes, p: Bytes, h: Bytes, e: Bytes)
    requires AMPERSAND !in v && AMPERSAND !in k && AMPERSAND !in p && AMPERSAND !in h && AMPERSAND !in e
    ensures Split(v + [AMPERSAND] + (k + [AMPERSAND] + (p + [AMPERSAND] + (h + [AMPERSAND] + e))), AMPERSAND) == [v, k, p, h, e]
  {
    hide Split;
    var h', p', k' := h + [AMPERSAND] + e, p + [AMPERSAND] + (h + [AMPERSAND] + e),
                      k + [AMPERSAND] + (p + [AMPERSAND] + (h + [AMPERSAND] + e));
    SplitLast(e);
    SplitFirst(h, e);
    SplitFirst(p, h');
    SplitFirst(k, p');
    SplitFirst(v, k');
  }

  lemma PrintedFields(c: Codecs, key: Bytes, port: nat, host: Host, name: string)
    requires c.Lawful()
    ensures var uri := Printed(c, key, port, host, name);
            && PREFIX <= uri
            && Split(uri[|PREFIX|..], AMPERSAND) == [Field(V, Ascii("1")), Field(PK, c.encodeKey(key)), Field(PORT, Decimal(port)),
                                                     Field(HOST, c.printHost(host)), Field(NAME, Escaped(c.utf8(name)))]
  {
    KeysDiffer();
    EscapedIsPlain(c.utf8(name));
    assert Clean(c.encodeKey(key)) && Clean(c.printHost(host));
    hide Split, Decimal, Escaped, IsAscii, Ascii, Codecs.Lawful;
    assert Ascii("1") == [0x31];
    FiveSplit(Field(V, Ascii("1")), Field(PK, c.encodeKey(key)), Field(PORT, Decimal(port)),
              Field(HOST, c.printHost(host)), Field(NAME, Escaped(c.utf8(name))));
  }

  lemma DesktopReadsPort(port: nat)
    requires 1 <= port <= 65535
    ensures DesktopPort(Decimal(port)) == Some(port)
  {
    hide Decimal, ParseDigits;
    ParseInvertsDecimal(port);
    DigitsAreUnsigned(port);
  }

  lemma DesktopReadsName(c: Codecs, name: string)
    requires c.Lawful()
    ensures var b := DesktopUnescaped(Escaped(c.utf8(name)));
            b.Some? && c.lossy(b.value) == name
  {
    hide DesktopUnescaped, Escaped, Clean;
    UnescapeInvertsEscape(c.utf8(name));
  }

  /** The desktop's reading of each field it printed. */
  lemma DesktopReads(c: Codecs, f: Found, key: Bytes, port: nat, host: Host, name: string)
    requires c.Lawful() && 1 <= port <= 65535
    ensures DesktopField(c, f, Field(V, Ascii("1"))) == Some(f)
    ensures DesktopField(c, f, Field(PK, c.encodeKey(key))) == Some(f.(pk := Some(key)))
    ensures DesktopField(c, f, Field(PORT, Decimal(port))) == Some(f.(port := Some(port)))
    ensures DesktopField(c, f, Field(HOST, c.printHost(host))) == Some(f.(host := Some(host)))
    ensures DesktopField(c, f, Field(NAME, Escaped(c.utf8(name)))) == Some(f.(name := DesktopClamped(name, 64)))
  {
    KeysDiffer();
    KeyAndValue(V, Ascii("1"));
    KeyAndValue(PK, c.encodeKey(key));
    KeyAndValue(PORT, Decimal(port));
    KeyAndValue(HOST, c.printHost(host));
    KeyAndValue(NAME, Escaped(c.utf8(name)));
    DesktopReadsPort(port);
    DesktopReadsName(c, name);
    assert c.decodeKey(c.encodeKey(key)) == Some(key) && c.parseHost(c.printHost(host)) == Some(host);
    hide KeyOf, ValueOf, Decimal, DesktopUnescaped, Escaped, DesktopPort, Clean, DesktopClamped, Codecs.Lawful;
  }

  lemma DigitsAreUnsigned(port: nat)
    ensures Decimal(port)[0] != PLUS && Decimal(port)[0] != MINUS
  {
    assert IsDigit(Decimal(port)[0]);
  }

  lemma PhoneReadsPort(c: Codecs, port: nat)
    requires c.DigitsLawful() && 1 <= port <= 65535
    ensures PhoneInt(c, Widened(Decimal(port))) == Some(port)
  {
    hide Decimal, PhoneDigits;
    PhoneReadsDecimal(c, port);
    DigitsAreUnsigned(port);
  }

  lemma PhoneReadsName(c: Codecs, name: string)
    requires c.Lawful()
    ensures c.phoneText(PhoneUnescaped(c, Widened(Escaped(c.utf8(name))))) == Utf16(name)
  {
    hide PhoneUnescaped, Escaped, Clean, Codecs.DigitsLawful;
    PhoneInvertsEscape(c, c.utf8(name));
  }

  lemma WideKeysDiffer()
    ensures Widened(PK) != Widened(V) && Widened(HOST) != Widened(V) && Widened(PORT) != Widened(V) && Widened(NAME) != Widened(V)
    ensures Widened(PK) != Widened(HOST) && Widened(PK) != Widened(PORT) && Widened(PK) != Widened(NAME)
    ensures Widened(HOST) != Widened(PORT) && Widened(HOST) != Widened(NAME) && Widened(PORT) != Widened(NAME)
  {
    assert HOST[0] == 'h' as int && PORT[0] == 'p' as int && NAME[0] == 'n' as int && PK[0] == 'p' as int && V[0] == 'v' as int;
    assert |PK| == 2 && |PORT| == 4;
  }

  lemma PhoneReads(c: Codecs, f: PhoneFound, key: Bytes, port: nat, host: Host, name: string)
    requires c.Lawful() && 1 <= port <= 65535
    ensures PhoneField(c, f, Widened(Field(V, Ascii("1")))) == f
    ensures PhoneField(c, f, Widened(Field(PK, c.encodeKey(key)))) == f.(pk := Some(key))
    ensures PhoneField(c, f, Widened(Field(PORT, Decimal(port)))) == f.(port := port)
    ensures PhoneField(c, f, Widened(Field(HOST, c.printHost(host)))) == f.(host := Some(Widened(c.printHost(host))))
    ensures PhoneField(c, f, Widened(Field(NAME, Escaped(c.utf8(name))))) == f.(name := PhoneClamped(Utf16(name), 64))
  {
    KeysDiffer();
    WideKeysDiffer();
    KeyAndValueWiden(V, Ascii("1"));
    KeyAndValueWiden(PK, c.encodeKey(key));
    KeyAndValueWiden(PORT, Decimal(port));
    KeyAndValueWiden(HOST, c.printHost(host));
    KeyAndValueWiden(NAME, Escaped(c.utf8(name)));
    PhoneReadsPort(c, port);
    PhoneReadsName(c, name);
    assert c.phoneKey(Widened(c.encodeKey(key))) == Some(key);
    hide KeyOf, ValueOf, Decimal, PhoneUnescaped, Escaped, PhoneInt, Clean, PhoneClamped, Codecs.Lawful, Widened;
  }

  lemma FiveFields(c: Codecs, f: Found, v: seq<Bytes>)
    requires |v| == 5
    ensures DesktopFields(c, f, v)
         == var after3 := DesktopFieldOf(c, DesktopFieldOf(c, DesktopField(c, f, v[0]), v[1]), v[2]);
            DesktopFieldOf(c, DesktopFieldOf(c, after3, v[3]), v[4])
  {
    hide DesktopField;
    assert v[1..][1..] == v[2..] && v[2..][1..] == v[3..] && v[3..][1..] == v[4..] && v[4..][1..] == [];
    assert forall h :: DesktopFields(c, h, v[4..]) == DesktopField(c, h, v[4]);
    assert forall h :: DesktopFields(c, h, v[3..]) == DesktopFieldOf(c, DesktopField(c, h, v[3]), v[4]);
    assert forall h ::
      DesktopFields(c, h, v[2..]) == DesktopFieldOf(c, DesktopFieldOf(c, DesktopField(c, h, v[2]), v[3]), v[4]);
    assert forall h ::
      DesktopFields(c, h, v[1..]) == DesktopFieldOf(c, DesktopFieldOf(c, DesktopFieldOf(c, DesktopField(c, h, v[1]), v[2]), v[3]), v[4]);
  }

  lemma FivePhoneFields(c: Codecs, g: PhoneFound, v: seq<Units>)
    requires |v| == 5
    ensures PhoneFields(c, g, v) == PhoneField(c, PhoneField(c, PhoneField(c, PhoneField(c, PhoneField(c, g, v[0]), v[1]), v[2]), v[3]), v[4])
  {
    hide PhoneField;
    assert v[1..][1..] == v[2..] && v[2..][1..] == v[3..] && v[3..][1..] == v[4..] && v[4..][1..] == [];
    assert forall h :: PhoneFields(c, h, v[4..]) == PhoneField(c, h, v[4]);
    assert forall h :: PhoneFields(c, h, v[3..]) == PhoneFields(c, PhoneField(c, h, v[3]), v[4..]);
    assert forall h :: PhoneFields(c, h, v[2..]) == PhoneFields(c, PhoneField(c, h, v[2]), v[3..]);
    assert forall h :: PhoneFields(c, h, v[1..]) == PhoneFields(c, PhoneField(c, h, v[1]), v[2..]);
  }

  function DesktopFieldOf(c: Codecs, f: Option<Found>, kv: Bytes): Option<Found> {
    if f.None? then None else DesktopField(c, f.value, kv)
  }

  lemma DesktopReadsLink(c: Codecs, key: Bytes, port: nat, host: Host, name: string)
    requires c.Lawful() && |key| == 32 && 1 <= port <= 65535
    ensures DesktopParsed(c, Printed(c, key, port, host, name)) == Ok(Target(key, host, port, DesktopClamped(name, 64)))
  {
    PrintedFields(c, key, port, host, name);
    var v := Split(Printed(c, key, port, host, name)[|PREFIX|..], AMPERSAND);
    var f0 := Found(None, None, None, "");
    FiveFields(c, f0, v);
    hide DesktopField, Split, Printed, Codecs.Lawful, DesktopClamped, Field, DesktopFields;
    var f1 := f0.(pk := Some(key));
    var f2 := f1.(port := Some(port));
    var f3 := f2.(host := Some(host));
    DesktopReads(c, f0, key, port, host, name);
    DesktopReads(c, f1, key, port, host, name);
    DesktopReads(c, f2, key, port, host, name);
    DesktopReads(c, f3, key, port, host, name);
  }

  lemma WidePrefix(uri: Bytes)
    requires PREFIX <= uri
    ensures Widened(PREFIX) <= Widened(uri) && Widened(uri)[|PREFIX|..] == Widened(uri[|PREFIX|..])
  {
    hide Ascii;
  }

  lemma PhoneReadsLink(c: Codecs, key: Bytes, port: nat, host: Host, name: string)
    requires c.Lawful() && |key| == 32 && 1 <= port <= 65535
    ensures PhoneParsed(c, Widened(Printed(c, key, port, host, name)))
         == Some(Target(key, Widened(c.printHost(host)), port, PhoneClamped(Utf16(name), 64)))
  {
    var uri := Printed(c, key, port, host, name);
    PrintedFields(c, key, port, host, name);
    SplitWidens(uri[|PREFIX|..]);
    WidePrefix(uri);
    var v := Split(Widened(uri)[|PREFIX|..], AMPERSAND16);
    var g0 := PhoneFound(None, None, DEFAULT_TCP_PORT, []);
    FivePhoneFields(c, g0, v);
    assert !Blank(Widened(c.printHost(host)));
    hide PhoneField, Split, Printed, Codecs.Lawful, PhoneClamped, Blank, Field, PhoneFields, Widened, Ascii, Utf16;
    var g1 := g0.(pk := Some(key));
    var g2 := g1.(port := port);
    var g3 := g2.(host := Some(Widened(c.printHost(host))));
    PhoneReads(c, g0, key, port, host, name);
    PhoneReads(c, g1, key, port, host, name);
    PhoneReads(c, g2, key, port, host, name);
    PhoneReads(c, g3, key, port, host, name);
  }

  /**
   * Both parsers recover key, host and port of every printed link, and the name up to what each
   * platform shows of it.
   */
  lemma EveryLinkIsRead(c: Codecs, key: Bytes, port: nat, host: Host, name: string)
    requires c.Lawful() && |key| == 32 && 1 <= port <= 65535
    ensures var uri := Printed(c, key, port, host, name);
            && DesktopParsed(c, uri) == Ok(Target(key, host, port, DesktopClamped(name, 64)))
            && PhoneParsed(c, Widened(uri)) == Some(Target(key, Widened(c.printHost(host)), port, PhoneClamped(Utf16(name), 64)))
  {
    hide *;
    DesktopReadsLink(c, key, port, host, name);
    PhoneReadsLink(c, key, port, host, name);
  }

  /** A name without control characters and of at most 64 units comes back whole on both platforms. */
  lemma LinkRoundTrip(c: Codecs, key: Bytes, port: nat, host: Host, name: string)
    requires c.Lawful() && |key| == 32 && 1 <= port <= 65535 && Presentable(name)
    ensures var uri := Printed(c, key, port, host, name);
            && DesktopParsed(c, uri) == Ok(Target(key, host, port, name))
            && PhoneParsed(c, Widened(uri)) == Some(Target(key, Widened(c.printHost(host)), port, Utf16(name)))
  {
    hide Presentable, Printed, DesktopParsed, PhoneParsed, DesktopClamped, PhoneClamped;
    EveryLinkIsRead(c, key, port, host, name);
    PresentableIsKept(name);
  }

  // ---- any link at all ---------------------------------------------------------------------------------

  /** Whatever the text, a link is read only with the prefix, a 32-byte key and a usable port. */
  lemma ReadLinksAreSound(c: Codecs, uri: Bytes, text: Units)
    ensures DesktopParsed(c, uri).Ok? ==>
              PREFIX <= uri && |DesktopParsed(c, uri).value.publicKey| == 32 && 1 <= DesktopParsed(c, uri).value.port <= 65535
    ensures PhoneParsed(c, text).Some? ==>
              && Widened(PREFIX) <= text && |PhoneParsed(c, text).value.publicKey| == 32
              && 1 <= PhoneParsed(c, text).value.port <= 65535 && !Blank(PhoneParsed(c, text).value.host)
  {
    if PREFIX <= uri {
      PortsFit(c, Found(None, None, None, ""), Split(uri[|PREFIX|..], AMPERSAND));
    }
  }

  lemma {:induction false} PortsFit(c: Codecs, f: Found, kvs: seq<Bytes>)
    requires f.port.Some? ==> f.port.value <= 65535
    ensures var g := DesktopFields(c, f, kvs); g.Some? && g.value.port.Some? ==> g.value.port.value <= 65535
    decreases |kvs|
  {
    hide KeyOf, ValueOf, DesktopUnescaped, DesktopClamped, ParseDigits;
    if kvs != [] && DesktopField(c, f, kvs[0]).Some? {
      PortsFit(c, DesktopField(c, f, kvs[0]).value, kvs[1..]);
    }
  }

  /** A link of a key and an address alone: the port is 45821 and the name empty, on both platforms. */
  function Bare(c: Codecs, key: Bytes, host: Host): Bytes {
    PREFIX + (Field(PK, c.encodeKey(key)) + [AMPERSAND] + Field(HOST, c.printHost(host)))
  }

  lemma BareFields(c: Codecs, key: Bytes, host: Host)
    requires c.Lawful()
    ensures var uri := Bare(c, key, host);
            && PREFIX <= uri && uri[|PREFIX|..] == Field(PK, c.encodeKey(key)) + [AMPERSAND] + Field(HOST, c.printHost(host))
            && Split(uri[|PREFIX|..], AMPERSAND) == [Field(PK, c.encodeKey(key)), Field(HOST, c.printHost(host))]
  {
    KeysDiffer();
    assert Clean(c.encodeKey(key)) && Clean(c.printHost(host));
    hide Split, IsAscii, Ascii, Codecs.Lawful;
    SplitFirst(Field(PK, c.encodeKey(key)), Field(HOST, c.printHost(host)));
    SplitLast(Field(HOST, c.printHost(host)));
  }

  lemma BareLinkHasDefaults(c: Codecs, key: Bytes, host: Host)
    requires c.Lawful() && |key| == 32
    ensures DesktopParsed(c, Bare(c, key, host)) == Ok(Target(key, host, 45821, ""))
    ensures PhoneParsed(c, Widened(Bare(c, key, host))) == Some(Target(key, Widened(c.printHost(host)), 45821, []))
  {
    BareFields(c, key, host);
    var uri := Bare(c, key, host);
    var v := Split(uri[|PREFIX|..], AMPERSAND);
    SplitWidens(uri[|PREFIX|..]);
    WidePrefix(uri);
    var w := Split(Widened(uri)[|PREFIX|..], AMPERSAND16);
    var f, g := Found(None, None, None, ""), PhoneFound(None, None, DEFAULT_TCP_PORT, []);
    DesktopReads(c, f, key, 1, host, "");
    DesktopReads(c, f.(pk := Some(key)), key, 1, host, "");
    PhoneReads(c, g, key, 1, host, "");
    PhoneReads(c, g.(pk := Some(key)), key, 1, host, "");
    assert !Blank(Widened(c.printHost(host)));
    hide DesktopField, PhoneField, Split, Bare, Codecs.Lawful, Blank, Field, Widened, Ascii;
    TwoFields(c, f, g, v, w);
  }

  lemma TwoFields(c: Codecs, f: Found, g: PhoneFound, v: seq<Bytes>, w: seq<Units>)
    requires |v| == |w| == 2
    ensures DesktopFields(c, f, v) == DesktopFieldOf(c, DesktopField(c, f, v[0]), v[1])
    ensures PhoneFields(c, g, w) == PhoneField(c, PhoneField(c, g, w[0]), w[1])
  {
    hide DesktopField, PhoneField;
    assert |v[1..]| == 1 && |w[1..]| == 1;
    assert forall h :: DesktopFields(c, h, v[1..]) == DesktopField(c, h, v[1]);
    assert forall h :: PhoneFields(c, h, w[1..]) == PhoneField(c, h, w[1]);
  }

  // ---- the codec laws can be met -----------------------------------------------------------------------

  /** Any bytes as letters, two for each. */
  function Letters(b: Bytes): (r: Bytes)
    ensures Clean(r) && |r| == 2 * |b| && forall i :: 0 <= i < |r| ==> 0x41 <= r[i] < 0x51
  {
    if b == [] then [] else [0x41 + b[0] / 16, 0x41 + b[0] % 16] + Letters(b[1..])
  }

  function Unlettered(r: Units): Bytes {
    if |r| < 2 then [] else
      var high: int, low: int := r[0], r[1];
      [((high - 0x41) * 16 + low - 0x41) % 256] + Unlettered(r[2..])
  }

  lemma UnletteredPair(b: byte, rest: Units)
    ensures Unlettered([0x41 + b / 16, 0x41 + b % 16] + rest) == [b] + Unlettered(rest)
  {
    var r: Units := [0x41 + b / 16, 0x41 + b % 16] + rest;
    assert r[2..] == rest;
  }

  lemma {:induction false} LettersRoundTrip(b: Bytes)
    ensures Unlettered(Widened(Letters(b))) == b
  {
    if b != [] {
      hide Unlettered;
      LettersRoundTrip(b[1..]);
      UnletteredPair(b[0], Widened(Letters(b[1..])));
      assert Widened(Letters(b)) == [0x41 + b[0] / 16, 0x41 + b[0] % 16] + Widened(Letters(b[1..]));
      assert b == [b[0]] + b[1..];
    }
  }

  /** Any text, four bytes a character. */
  function Wide(s: string): Bytes {
    if s == "" then [] else BigEndian(s[0] as int, 4) + Wide(s[1..])
  }

  predicate IsScalar(n: nat) {
    n < 0xd800 || 0xe000 <= n < 0x11_0000
  }

  function Narrow(b: Bytes): string
    decreases |b|
  {
    if |b| < 4 then "" else
      var n := FromBigEndian(b[..4]);
      [if IsScalar(n) then n as char else ' '] + Narrow(b[4..])
  }

  lemma NarrowOne(c: char, rest: Bytes)
    ensures Narrow(BigEndian(c as int, 4) + rest) == [c] + Narrow(rest)
  {
    Pow256Values();
    var n := c as int;
    BigEndianRoundTrip(n, 4);
    hide BigEndian, FromBigEndian;
    var b := BigEndian(n, 4) + rest;
    assert b[..4] == BigEndian(n, 4) && b[4..] == rest;
  }

  lemma {:induction false} WideRoundTrip(s: string)
    ensures Narrow(Wide(s)) == s
  {
    if s != "" {
      hide Narrow, BigEndian;
      WideRoundTrip(s[1..]);
      NarrowOne(s[0], Wide(s[1..]));
    }
  }

  function ToyCodecs(joins: bool): Codecs {
    Codecs(Wide, Narrow, Letters, b => Some(Unlettered(Widened(b))), h => Decimal(h), ParseDigits,
           b => Utf16(Narrow(b)), u => Some(Unlettered(u)), HexValue, joins)
  }

  lemma CodecLawsAreSatisfiable(joins: bool)
    ensures ToyCodecs(joins).Lawful()
  {
    forall s: string ensures Narrow(Wide(s)) == s { WideRoundTrip(s); }
    forall k: Bytes ensures Unlettered(Widened(Letters(k))) == k { LettersRoundTrip(k); }
    forall h: Host ensures ParseDigits(Decimal(h)) == Some(h) && !Blank(Widened(Decimal(h))) {
      ParseInvertsDecimal(h);
      assert IsDigit(Decimal(h)[0]);
      assert !White(Widened(Decimal(h))[0]);
    }
  }
}
