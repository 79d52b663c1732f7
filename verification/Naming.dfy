/** File names: sanitising what a peer offers and choosing a free name to publish under. */
module Naming {
  import opened Prelude

  const MAX_NAME_LEN: nat := 120

  const ILLEGAL: set<char> := {'<', '>', ':', '"', '/', '\\', '|', '?', '*'}

  const RESERVED: set<string> := {
    "CON", "PRN", "AUX", "NUL",
    "COM1", "COM2", "COM3", "COM4", "COM5", "COM6", "COM7", "COM8", "COM9",
    "LPT1", "LPT2", "LPT3", "LPT4", "LPT5", "LPT6", "LPT7", "LPT8", "LPT9"
  }

  const FALLBACK: string := "received_file"

  // ---- characters --------------------------------------------------------------

  predicate IsControl(c: char) {
    c as int < 0x20 || 0x7f <= c as int < 0xa0
  }

  predicate IsSpace(c: char) {
    var n := c as int;
    9 <= n <= 13 || n == 0x20 || n == 0x85 || n == 0xa0 || n == 0x1680 || 0x2000 <= n <= 0x200a
    || n == 0x2028 || n == 0x2029 || n == 0x202f || n == 0x205f || n == 0x3000
  }

  predicate Kept(c: char) {
    !IsControl(c) && c !in ILLEGAL
  }

  function UpperChar(c: char): char {
    if 'a' <= c <= 'z' then (c as int - 32) as char else c
  }

  function Upper(s: string): (r: string)
    ensures |r| == |s|
  {
    seq(|s|, i requires 0 <= i < |s| => UpperChar(s[i]))
  }

  /** Bytes of one character in UTF-8. */
  function Width(c: char): (w: nat)
    ensures 1 <= w <= 4
  {
    var n := c as int;
    if n < 0x80 then 1 else if n < 0x800 then 2 else if n < 0x1_0000 then 3 else 4
  }

  function ByteLen(s: string): (n: nat)
    ensures n >= |s|
  {
    if s == "" then 0 else Width(s[0]) + ByteLen(s[1..])
  }

  lemma {:induction false} ByteLenOfConcat(a: string, b: string)
    ensures ByteLen(a + b) == ByteLen(a) + ByteLen(b)
  {
    if a == "" {
      assert a + b == b;
    } else {
      assert (a + b)[1..] == a[1..] + b;
      ByteLenOfConcat(a[1..], b);
    }
  }

  // ---- cleaning -----------------------------------------------------------------

  /** The part after the last path separator. */
  function LastComponent(s: string): string {
    if s == "" || s[|s| - 1] in {'/', '\\'} then ""
    else LastComponent(s[..|s| - 1]) + [s[|s| - 1]]
  }

  function TrimStart(s: string): string {
    if s != "" && IsSpace(s[0]) then TrimStart(s[1..]) else s
  }

  function TrimEnd(s: string): string {
    if s != "" && IsSpace(s[|s| - 1]) then TrimEnd(s[..|s| - 1]) else s
  }

  function Filtered(s: string): (r: string)
    ensures forall c :: c in r ==> c in s && Kept(c)
  {
    if s == "" then "" else (if Kept(s[0]) then [s[0]] else "") + Filtered(s[1..])
  }

  predicate EndsBadly(s: string) {
    s != "" && s[|s| - 1] in {'.', ' '}
  }

  function WithoutBadEnd(s: string): (r: string)
    ensures r <= s && !EndsBadly(r)
  {
    if EndsBadly(s) then WithoutBadEnd(s[..|s| - 1]) else s
  }

  /** Steps 1 to 3: one component, no forbidden characters, no trailing dots or spaces. */
  function Cleaned(raw: string): string {
    TrimStart(WithoutBadEnd(Filtered(TrimStart(TrimEnd(LastComponent(raw))))))
  }

  /** Everything before the first dot. */
  function Stem(s: string): (r: string)
    ensures r <= s
  {
    if s == "" || s[0] == '.' then "" else [s[0]] + Stem(s[1..])
  }

  predicate Reserved(s: string) {
    Upper(Stem(s)) in RESERVED
  }

  // ---- clamping ------------------------------------------------------------------

  function LastDot(s: string): (i: Option<nat>)
    ensures i.Some? ==> i.value < |s| && s[i.value] == '.'
    ensures i.None? ==> '.' !in s
  {
    if s == "" then None
    else if s[|s| - 1] == '.' then Some(|s| - 1)
    else LastDot(s[..|s| - 1])
  }

  /** Where the extension starts, if it is worth keeping when the name is cut. */
  function ExtensionStart(s: string, longest: nat): (i: nat)
    ensures i <= |s|
    ensures i < |s| ==> s[i] == '.' && i > 0 && ByteLen(s[i..]) <= longest
  {
    match LastDot(s)
    case Some(i) => if i > 0 && ByteLen(s[i..]) <= longest then i else |s|
    case None => |s|
  }

  /** How many leading characters fit into `budget` bytes. */
  function Fitting(s: string, budget: nat): (k: nat)
    ensures k <= |s| && ByteLen(s[..k]) <= budget
    ensures k < |s| ==> ByteLen(s[..k + 1]) > budget
  {
    if s == "" || Width(s[0]) > budget then
      assert s != "" ==> s[..1] == [s[0]];
      0
    else
      var k := Fitting(s[1..], budget - Width(s[0]));
      assert s[..k + 1][1..] == s[1..][..k];
      assert k + 1 < |s| ==> s[..k + 2][1..] == s[1..][..k + 1];
      1 + k
  }

  function Truncated(name: string, max: nat): string {
    if ByteLen(name) <= max then name else
      var e := ExtensionStart(name, 16);
      var ext := ByteLen(name[e..]);
      var k := Fitting(name[..e], if ext <= max then max - ext else 0);
      if k == 0 then FALLBACK else name[..k] + name[e..]
  }

  function Sanitized(raw: string): string {
    var cleaned := Cleaned(raw);
    if cleaned == "" || cleaned == "." || cleaned == ".." then FALLBACK
    else if Reserved(cleaned) then "_" + cleaned
    else Truncated(cleaned, MAX_NAME_LEN)
  }

  // ---- the code ------------------------------------------------------------------

  /** Is byte offset `n` between two characters of `s`? */
  predicate IsBoundary(s: string, n: nat) {
    n == 0 || (s != "" && n >= Width(s[0]) && IsBoundary(s[1..], n - Width(s[0])))
  }

  /** The characters in front of byte offset `n`. */
  function UpTo(s: string, n: nat): (r: string)
    requires IsBoundary(s, n)
    ensures r <= s && ByteLen(r) == n && (r == "" <==> n == 0)
  {
    if n == 0 then "" else [s[0]] + UpTo(s[1..], n - Width(s[0]))
  }

  /** The largest boundary within the budget is where the fitting prefix ends. */
  lemma {:induction false} BoundaryIsFitting(s: string, cut: nat, budget: nat)
    requires IsBoundary(s, cut) && cut <= budget
    requires forall n: nat :: cut < n <= budget && n <= ByteLen(s) ==> !IsBoundary(s, n)
    ensures UpTo(s, cut) == s[..Fitting(s, budget)]
  {
    if s != "" && Width(s[0]) <= budget {
      hide Width;
      var w := Width(s[0]);
      assert IsBoundary(s, w) by {
        assert IsBoundary(s[1..], 0);
      }
      forall n: nat | cut - w < n <= budget - w && n <= ByteLen(s[1..])
        ensures !IsBoundary(s[1..], n)
      {
        assert !IsBoundary(s, n + w);
      }
      BoundaryIsFitting(s[1..], cut - w, budget - w);
      assert s[..Fitting(s, budget)] == [s[0]] + s[1..][..Fitting(s[1..], budget - w)];
    }
  }

  lemma {:induction false} WholeIsBoundary(s: string)
    ensures IsBoundary(s, 0) && IsBoundary(s, ByteLen(s))
  {
    if s != "" {
      WholeIsBoundary(s[1..]);
    }
  }

  method TruncateKeepingExtension(name: string, max: nat) returns (r: string)
    ensures r == Truncated(name, max)
  {
    hide ExtensionStart, Fitting, IsBoundary, ByteLen, UpTo;
    if ByteLen(name) <= max {
      return name;
    }
    var e := ExtensionStart(name, 16);
    var stem, ext := name[..e], name[e..];
    var budget := if ByteLen(ext) <= max then max - ByteLen(ext) else 0;
    var cut := if budget <= ByteLen(stem) then budget else ByteLen(stem);
    WholeIsBoundary(stem);
    while cut > 0 && !IsBoundary(stem, cut)
      invariant 0 <= cut <= budget
      invariant forall n: nat :: cut < n <= budget && n <= ByteLen(stem) ==> !IsBoundary(stem, n)
    {
      cut := cut - 1;
    }
    BoundaryIsFitting(stem, cut, budget);
    var k := Fitting(stem, budget);
    assert stem[..k] == name[..k];
    if cut == 0 {
      return FALLBACK;
    }
    r := UpTo(stem, cut) + ext;
  }

  method SanitizeFilename(raw: string) returns (r: string)
    ensures r == Sanitized(raw)
  {
    var cleaned := Filtered(TrimStart(TrimEnd(LastComponent(raw))));
    ghost var filtered := cleaned;
    while EndsBadly(cleaned)
      invariant WithoutBadEnd(cleaned) == WithoutBadEnd(filtered)
      decreases |cleaned|
    {
      cleaned := cleaned[..|cleaned| - 1];
    }
    cleaned := TrimStart(cleaned);
    if cleaned == "" || cleaned == "." || cleaned == ".." {
      return FALLBACK;
    }
    if Upper(Stem(cleaned)) in RESERVED {
      return "_" + cleaned;
    }
    r := TruncateKeepingExtension(cleaned, MAX_NAME_LEN);
  }

  // ---- what sanitising promises ------------------------------------------------------

  lemma {:induction false} TrimStartIsSuffix(s: string)
    ensures exists i :: 0 <= i <= |s| && TrimStart(s) == s[i..]
  {
    if s != "" && IsSpace(s[0]) {
      TrimStartIsSuffix(s[1..]);
      var i :| 0 <= i <= |s| - 1 && TrimStart(s[1..]) == s[1..][i..];
      assert TrimStart(s) == s[i + 1..];
    } else {
      assert s == s[0..];
    }
  }

  lemma CleanedIsClean(raw: string)
    ensures forall c :: c in Cleaned(raw) ==> Kept(c)
    ensures !EndsBadly(Cleaned(raw))
  {
    hide Kept, Filtered, WithoutBadEnd, TrimStart, TrimEnd, LastComponent;
    var filtered := Filtered(TrimStart(TrimEnd(LastComponent(raw))));
    var s := WithoutBadEnd(filtered);
    TrimStartIsSuffix(s);
    var i :| 0 <= i <= |s| && TrimStart(s) == s[i..];
    assert forall c :: c in s[i..] ==> c in s && c in filtered;
  }

  lemma LowerIsKept(c: char)
    requires c == '_' || 'a' <= c <= 'z'
    ensures Kept(c)
  {
  }

  lemma PlainIsKept()
    ensures Kept('_') && Component(FALLBACK)
  {
    hide Kept;
    LowerIsKept('_');
    assert |FALLBACK| == 13;
    forall c | c in FALLBACK
      ensures Kept(c)
    {
      LowerIsKept(c);
    }
  }

  /** A usable directory entry: one component, none of the special ones. */
  predicate Component(s: string) {
    s != "" && s != "." && s != ".." && forall c :: c in s ==> Kept(c)
  }

  lemma TruncatedIsComponent(s: string)
    requires Component(s)
    ensures Component(Truncated(s, MAX_NAME_LEN))
  {
    hide Kept, Fitting, ExtensionStart, ByteLen;
    if ByteLen(s) > MAX_NAME_LEN {
      CutKeepsPrefix(s);
      var e := ExtensionStart(s, 16);
      var k := Fitting(s[..e], MAX_NAME_LEN - ByteLen(s[e..]));
      var cut := s[..k] + s[e..];
      assert |cut| > 2 && forall c :: c in cut ==> c in s;
    }
  }

  lemma EscapedIsComponent(s: string)
    requires Component(s)
    ensures Component("_" + s)
  {
    PlainIsKept();
    hide Kept;
    assert ("_" + s)[0] == '_' && forall c :: c in "_" + s ==> c == '_' || c in s;
  }

  /** The name is a single path component that no file system treats specially. */
  lemma SanitizedIsOneComponent(raw: string)
    ensures Component(Sanitized(raw))
  {
    hide Kept, Reserved, Cleaned, Truncated;
    PlainIsKept();
    CleanedIsClean(raw);
    var s := Cleaned(raw);
    if Component(s) {
      TruncatedIsComponent(s);
      EscapedIsComponent(s);
    }
  }

  /** A cut at 104 bytes or later keeps more than 25 characters. */
  lemma LongCutIsLong(s: string, budget: nat)
    requires ByteLen(s) > budget >= 104
    ensures 26 <= Fitting(s, budget) < |s|
  {
    assert s[..|s|] == s;
    WidthBound(s[..Fitting(s, budget) + 1]);
  }

  lemma {:induction false} WidthBound(s: string)
    ensures ByteLen(s) <= 4 * |s|
  {
    if s != "" {
      WidthBound(s[1..]);
    }
  }

  lemma ReservedIsShort(s: string)
    requires Reserved(s)
    ensures 0 < |Stem(s)| <= 4 && Stem(s)[0] != '_'
  {
    assert Upper(Stem(s))[0] == UpperChar(Stem(s)[0]);
  }

  lemma {:induction false} StemSkips(s: string, k: nat)
    requires k <= |s| && forall i :: 0 <= i < k ==> s[i] != '.'
    ensures |Stem(s)| >= k
  {
    if k > 0 {
      StemSkips(s[1..], k - 1);
    }
  }

  /** A short stem is seen in the first few characters. */
  lemma {:induction false} StemOfPrefix(r: string, s: string, k: nat)
    requires k <= |r| && k <= |s| && r[..k] == s[..k] && |Stem(r)| < k
    ensures Stem(s) == Stem(r)
  {
    assert r[0] == r[..k][0] == s[..k][0] == s[0];
    if r[0] != '.' {
      assert r[1..][..k - 1] == r[..k][1..] == s[..k][1..] == s[1..][..k - 1];
      StemOfPrefix(r[1..], s[1..], k - 1);
    }
  }

  /** Cutting a long name keeps its first 26 characters. */
  lemma CutKeepsPrefix(s: string)
    requires ByteLen(s) > MAX_NAME_LEN
    ensures var e := ExtensionStart(s, 16);
            var k := Fitting(s[..e], MAX_NAME_LEN - ByteLen(s[e..]));
            26 <= k < e && Truncated(s, MAX_NAME_LEN) == s[..k] + s[e..]
  {
    var e := ExtensionStart(s, 16);
    assert s == s[..e] + s[e..];
    ByteLenOfConcat(s[..e], s[e..]);
    LongCutIsLong(s[..e], MAX_NAME_LEN - ByteLen(s[e..]));
  }

  lemma EscapedIsNotReserved(s: string)
    ensures !Reserved("_" + s)
  {
    if Reserved("_" + s) {
      ReservedIsShort("_" + s);
    }
  }

  lemma FallbackIsNotReserved()
    ensures !Reserved(FALLBACK)
  {
    hide Reserved, Stem;
    StemSkips(FALLBACK, 5);
    if Reserved(FALLBACK) {
      ReservedIsShort(FALLBACK);
    }
  }

  lemma CutIsNotReserved(s: string)
    requires ByteLen(s) > MAX_NAME_LEN && !Reserved(s)
    ensures !Reserved(Truncated(s, MAX_NAME_LEN))
  {
    hide Stem, ByteLen, Fitting, ExtensionStart, Truncated, Upper;
    var r := Truncated(s, MAX_NAME_LEN);
    CutKeepsPrefix(s);
    if Reserved(r) {
      ReservedIsShort(r);
      StemOfPrefix(r, s, 5);
    }
  }

  /** The name never collides with a device. */
  lemma SanitizedIsNotReserved(raw: string)
    ensures !Reserved(Sanitized(raw))
  {
    hide Reserved, Cleaned, Truncated;
    var s := Cleaned(raw);
    FallbackIsNotReserved();
    EscapedIsNotReserved(s);
    if ByteLen(s) <= MAX_NAME_LEN {
      TruncatedIsSame(s);
    } else if !Reserved(s) {
      CutIsNotReserved(s);
    }
  }

  lemma TruncatedFits(s: string)
    requires ByteLen(s) > MAX_NAME_LEN
    ensures ByteLen(Truncated(s, MAX_NAME_LEN)) <= MAX_NAME_LEN
  {
    CutKeepsPrefix(s);
    hide ByteLen, Truncated;
    var e := ExtensionStart(s, 16);
    var k := Fitting(s[..e], MAX_NAME_LEN - ByteLen(s[e..]));
    assert s[..e][..k] == s[..k];
    ByteLenOfConcat(s[..k], s[e..]);
  }

  /** The length limit holds except behind the reserved-name branch, which does not cut. */
  lemma SanitizedLength(raw: string)
    ensures ByteLen(Sanitized(raw)) <= MAX_NAME_LEN
       <==> !(Reserved(Cleaned(raw)) && ByteLen(Cleaned(raw)) >= MAX_NAME_LEN)
  {
    hide Reserved, Cleaned, ByteLen, Truncated;
    PlainLengths();
    EmptyStemIsNotReserved("");
    EmptyStemIsNotReserved(".");
    EmptyStemIsNotReserved("..");
    var s := Cleaned(raw);
    ByteLenOfConcat("_", s);
    if ByteLen(s) > MAX_NAME_LEN {
      TruncatedFits(s);
    } else {
      TruncatedIsSame(s);
    }
  }

  lemma PlainLengths()
    ensures ByteLen("_") == 1 && ByteLen(".") == 1 && ByteLen("..") == 2 && ByteLen(FALLBACK) == 13
    ensures ByteLen("") == 0
  {
    hide ByteLen, Width;
    AsciiByteLen("");
    AsciiByteLen("_");
    AsciiByteLen(".");
    AsciiByteLen("..");
    AsciiByteLen(FALLBACK);
  }

  lemma EmptyStemIsNotReserved(s: string)
    requires s == "" || s[0] == '.'
    ensures !Reserved(s)
  {
    if Reserved(s) {
      ReservedIsShort(s);
    }
  }

  lemma {:induction false} AsciiByteLen(s: string)
    requires forall i :: 0 <= i < |s| ==> s[i] as int < 0x80
    ensures ByteLen(s) == |s|
  {
    if s != "" {
      AsciiByteLen(s[1..]);
    }
  }

  lemma TruncatedIsSame(s: string)
    requires ByteLen(s) <= MAX_NAME_LEN
    ensures Truncated(s, MAX_NAME_LEN) == s
  {
  }

  /** Is `raw` cut in front of no extension, right behind a dot or a space? */
  predicate CutBehindDotOrSpace(raw: string) {
    var s := Cleaned(raw);
    && ByteLen(s) > MAX_NAME_LEN
    && !Reserved(s)
    && ExtensionStart(s, 16) == |s|
    && EndsBadly(s[..Fitting(s, MAX_NAME_LEN)])
  }

  lemma TruncatedEnd(s: string)
    requires ByteLen(s) > MAX_NAME_LEN && !EndsBadly(s)
    ensures EndsBadly(Truncated(s, MAX_NAME_LEN))
       <==> ExtensionStart(s, 16) == |s| && EndsBadly(s[..Fitting(s, MAX_NAME_LEN)])
  {
    hide Truncated, ByteLen, Fitting, ExtensionStart;
    PlainLengths();
    CutKeepsPrefix(s);
    var e := ExtensionStart(s, 16);
    var k := Fitting(s[..e], MAX_NAME_LEN - ByteLen(s[e..]));
    var cut := s[..k] + s[e..];
    if e < |s| {
      assert cut[|cut| - 1] == s[|s| - 1];
    } else {
      assert s[..e] == s && s[e..] == "" && cut == s[..k];
    }
  }

  lemma EscapedEnd(s: string)
    requires s != ""
    ensures EndsBadly("_" + s) == EndsBadly(s)
  {
  }

  /** The name ends in a dot or space exactly when the final cut makes it so. */
  lemma SanitizedEnd(raw: string)
    ensures EndsBadly(Sanitized(raw)) <==> CutBehindDotOrSpace(raw)
  {
    CleanedIsClean(raw);
    assert !EndsBadly(FALLBACK);
    hide Cleaned, Reserved, Truncated, ByteLen, Fitting, ExtensionStart, EndsBadly;
    var s := Cleaned(raw);
    WidthBound(s);
    if s != "" {
      EscapedEnd(s);
    }
    if ByteLen(s) <= MAX_NAME_LEN {
      TruncatedIsSame(s);
    } else {
      TruncatedEnd(s);
    }
  }

  // ---- what sanitising keeps ---------------------------------------------------------------

  predicate Separator(c: char) {
    c == '/' || c == '\\'
  }

  /** Whatever stands in front of the last separator does not matter. */
  lemma {:induction false} OnlyTheLastComponentCounts(dir: string, sep: char, base: string)
    requires Separator(sep) && forall i :: 0 <= i < |base| ==> !Separator(base[i])
    ensures LastComponent(dir + [sep] + base) == base && LastComponent(base) == base
    decreases |base|
  {
    var whole := dir + [sep] + base;
    if base == "" {
      assert whole == dir + [sep] && whole[|whole| - 1] == sep;
    } else {
      var n := |base| - 1;
      OnlyTheLastComponentCounts(dir, sep, base[..n]);
      assert whole[..|whole| - 1] == dir + [sep] + base[..n] && whole[|whole| - 1] == base[n];
      assert base == base[..n] + [base[n]];
    }
  }

  lemma {:induction false} KeptIsUnfiltered(s: string)
    requires forall i :: 0 <= i < |s| ==> Kept(s[i])
    ensures Filtered(s) == s
  {
    if s != "" {
      hide Kept;
      KeptIsUnfiltered(s[1..]);
      assert s == [s[0]] + s[1..];
    }
  }

  lemma {:induction false} FilteredInParts(a: string, b: string)
    ensures Filtered(a + b) == Filtered(a) + Filtered(b)
  {
    hide Kept;
    if a == "" {
      assert a + b == b;
    } else {
      assert (a + b)[1..] == a[1..] + b;
      FilteredInParts(a[1..], b);
    }
  }

  /** Filtering drops exactly the forbidden characters. */
  lemma FilteringDropsOne(a: string, c: char, b: string)
    ensures Filtered(a + [c] + b) == if Kept(c) then Filtered(a) + [c] + Filtered(b) else Filtered(a) + Filtered(b)
  {
    hide Filtered, Kept;
    FilteredInParts(a + [c], b);
    FilteredInParts(a, [c]);
    OneFiltered(c);
    assert Filtered(a) + "" == Filtered(a);
  }

  lemma OneFiltered(c: char)
    ensures Filtered([c]) == if Kept(c) then [c] else ""
  {
    hide Kept;
    assert [c][1..] == "" && Filtered("") == "";
  }

  predicate AllSpace(s: string) {
    forall i :: 0 <= i < |s| ==> IsSpace(s[i])
  }

  lemma {:induction false} TrimmedStart(spaces: string, s: string)
    requires AllSpace(spaces) && (s == "" || !IsSpace(s[0]))
    ensures TrimStart(spaces + s) == s
  {
    hide IsSpace;
    if spaces == "" {
      assert spaces + s == s;
    } else {
      assert (spaces + s)[1..] == spaces[1..] + s;
      TrimmedStart(spaces[1..], s);
    }
  }

  lemma {:induction false} TrimmedEnd(s: string, spaces: string)
    requires AllSpace(spaces) && (s == "" || !IsSpace(s[|s| - 1]))
    ensures TrimEnd(s + spaces) == s
    decreases |spaces|
  {
    hide IsSpace;
    if spaces == "" {
      assert s + spaces == s;
    } else {
      var n := |spaces| - 1;
      assert (s + spaces)[..|s| + n] == s + spaces[..n];
      TrimmedEnd(s, spaces[..n]);
    }
  }

  lemma {:induction false} BadEndRemoved(s: string, tail: string)
    requires !EndsBadly(s) && forall i :: 0 <= i < |tail| ==> tail[i] in {'.', ' '}
    ensures WithoutBadEnd(s + tail) == s
    decreases |tail|
  {
    if tail == "" {
      assert s + tail == s;
    } else {
      var n := |tail| - 1;
      assert (s + tail)[|s| + n] == tail[n];
      assert (s + tail)[..|s| + n] == s + tail[..n];
      BadEndRemoved(s, tail[..n]);
    }
  }

  /** One component without spaces around it or a dot behind it. */
  predicate CleanName(s: string) {
    Component(s) && !IsSpace(s[0]) && !IsSpace(s[|s| - 1]) && s[|s| - 1] != '.'
  }

  /** A name every file system takes as it is. */
  predicate SafeName(s: string) {
    CleanName(s) && !Reserved(s) && ByteLen(s) <= 120
  }

  lemma CleanNameChars(s: string)
    requires CleanName(s)
    ensures forall i :: 0 <= i < |s| ==> Kept(s[i]) && !Separator(s[i])
    ensures !EndsBadly(s) && s != ""
  {
    forall i | 0 <= i < |s|
      ensures Kept(s[i]) && !Separator(s[i])
    {
      assert s[i] in s;
    }
  }

  /**
   * A safe name survives untouched, from whatever path it is offered under and with whatever spaces around it
   * and dots behind it.
   */
  lemma SafeNameSurvives(dir: string, sep: char, lead: string, name: string, dots: string, trail: string)
    requires SafeName(name) && Separator(sep) && AllSpace(lead) && AllSpace(trail)
    requires forall i :: 0 <= i < |dots| ==> dots[i] == '.'
    requires forall i :: 0 <= i < |lead + trail| ==> !Separator((lead + trail)[i])
    ensures Sanitized(dir + [sep] + (lead + (name + dots) + trail)) == name
    ensures Sanitized(name) == name
  {
    hide Cleaned, Reserved, Truncated, ByteLen, Kept, IsSpace;
    SafeNameIsShort(name);
    SurvivesCleaning(dir, sep, lead, name, dots, trail);
    CleaningKeeps(name);
  }

  lemma SafeNameIsShort(name: string)
    requires SafeName(name)
    ensures Truncated(name, MAX_NAME_LEN) == name && !Reserved(name) && Component(name)
  {
    hide Kept, IsSpace, Reserved;
    TruncatedIsSame(name);
  }

  lemma SameComponentSameName(raw: string, other: string)
    requires LastComponent(raw) == LastComponent(other)
    ensures Cleaned(raw) == Cleaned(other) && Sanitized(raw) == Sanitized(other)
  {
  }

  lemma SurvivesCleaning(dir: string, sep: char, lead: string, name: string, dots: string, trail: string)
    requires CleanName(name) && Separator(sep) && AllSpace(lead) && AllSpace(trail)
    requires forall i :: 0 <= i < |dots| ==> dots[i] == '.'
    requires forall i :: 0 <= i < |lead + trail| ==> !Separator((lead + trail)[i])
    ensures Cleaned(dir + [sep] + (lead + (name + dots) + trail)) == name
  {
    CleanNameChars(name);
    DotIsPlain();
    assert !IsSpace(name[0]) && !IsSpace(name[|name| - 1]);
    hide Kept, IsSpace, Reserved, ByteLen, LastComponent, TrimStart, TrimEnd, Filtered, WithoutBadEnd, CleanName;
    var core := name + dots;
    var base := lead + core + trail;
    forall i | 0 <= i < |base|
      ensures !Separator(base[i])
    {
      if i < |lead| {
        assert base[i] == (lead + trail)[i];
      } else if i < |lead| + |core| {
        assert base[i] == core[i - |lead|];
      } else {
        assert base[i] == (lead + trail)[i - |core|];
      }
    }
    OnlyTheLastComponentCounts(dir, sep, base);
    assert core[|core| - 1] == if dots == "" then name[|name| - 1] else '.';
    assert base == (lead + core) + trail;
    assert (lead + core)[|lead + core| - 1] == core[|core| - 1];
    TrimmedEnd(lead + core, trail);
    assert core[0] == name[0];
    TrimmedStart(lead, core);
    KeptIsUnfiltered(core);
    BadEndRemoved(name, dots);
    assert "" + name == name;
    TrimmedStart("", name);
  }

  lemma DotIsPlain()
    ensures Kept('.') && !IsSpace('.') && !Separator('.')
  {
  }

  /** A clean name comes out of cleaning as it went in. */
  lemma CleaningKeeps(s: string)
    requires CleanName(s)
    ensures Cleaned(s) == s
  {
    SurvivesCleaning("", '/', "", s, "", "");
    CleanNameChars(s);
    hide CleanName, Cleaned, LastComponent;
    assert "" + (s + "") + "" == s;
    OnlyTheLastComponentCounts("", '/', s);
    SameComponentSameName("" + ['/'] + s, s);
  }

  /** A reserved stem is set apart by one character, and nothing else changes. */
  lemma ReservedNameIsMarked(s: string)
    requires CleanName(s) && Reserved(s)
    ensures Sanitized(s) == "_" + s
  {
    hide Cleaned, Reserved, Kept, IsSpace;
    CleaningKeeps(s);
  }

  lemma {:induction false} CleaningAddsNothing(s: string)
    ensures forall c :: c in LastComponent(s) ==> c in s
    ensures forall c :: c in TrimEnd(s) ==> c in s
    ensures forall c :: c in TrimStart(s) ==> c in s
  {
    hide IsSpace;
    if s != "" {
      var n := |s| - 1;
      assert s == s[..n] + [s[n]] && s == [s[0]] + s[1..];
      CleaningAddsNothing(s[..n]);
      CleaningAddsNothing(s[1..]);
    }
  }

  /** What cleaning leaves ends in a usable character of the name. */
  lemma CleanedEnd(raw: string)
    ensures Cleaned(raw) != "" ==> exists c :: c in raw && Kept(c) && c !in {'.', ' '}
  {
    hide Kept, IsSpace, LastComponent, TrimEnd, Filtered, WithoutBadEnd;
    var base := LastComponent(raw);
    CleaningAddsNothing(raw);
    CleaningAddsNothing(base);
    CleaningAddsNothing(TrimEnd(base));
    var filtered := Filtered(TrimStart(TrimEnd(base)));
    var s := WithoutBadEnd(filtered);
    if s != "" {
      var last := s[|s| - 1];
      assert s[|s| - 1] == filtered[|s| - 1] && last in filtered;
      assert last in raw && Kept(last);
    }
  }

  /** A name with nothing usable in it is replaced by one fixed name. */
  lemma NothingUsableFallsBack(raw: string)
    requires forall c :: c in raw && Kept(c) ==> c in {'.', ' '}
    ensures Sanitized(raw) == "received_file"
  {
    hide Cleaned, Kept, Reserved;
    CleanedEnd(raw);
  }

  /**
   * A long name is cut to at most 120 bytes: its longest fitting beginning, with the extension if that is at
   * most 16 bytes long.
   */
  lemma LongNameIsCut(s: string) returns (k: nat, e: nat)
    requires ByteLen(s) > 120
    ensures k <= e <= |s| && Truncated(s, 120) == s[..k] + s[e..]
    ensures ByteLen(s[..k] + s[e..]) <= 120 && (k < e ==> ByteLen(s[..k + 1] + s[e..]) > 120)
    ensures e < |s| ==> e > 0 && s[e] == '.' && '.' !in s[e + 1..] && ByteLen(s[e..]) <= 16
    ensures e == |s| ==> '.' !in s || ByteLen(s[LastDot(s).value..]) > 16 || LastDot(s) == Some(0)
  {
    CutKeepsPrefix(s);
    LastDotIsLast(s);
    hide ByteLen, Truncated, LastDot;
    e := ExtensionStart(s, 16);
    k := Fitting(s[..e], 120 - ByteLen(s[e..]));
    CutFits(s, e, k);
  }

  lemma CutFits(s: string, e: nat, k: nat)
    requires k <= e <= |s| && ByteLen(s[e..]) <= 120 && k == Fitting(s[..e], 120 - ByteLen(s[e..]))
    ensures ByteLen(s[..k] + s[e..]) <= 120 && (k < e ==> ByteLen(s[..k + 1] + s[e..]) > 120)
  {
    hide ByteLen;
    assert s[..e][..k] == s[..k];
    ByteLenOfConcat(s[..k], s[e..]);
    if k < e {
      assert s[..e][..k + 1] == s[..k + 1];
      ByteLenOfConcat(s[..k + 1], s[e..]);
    }
    hide Fitting;
  }

  lemma {:induction false} LastDotIsLast(s: string)
    ensures LastDot(s).Some? ==> '.' !in s[LastDot(s).value + 1..]
  {
    if s != "" && s[|s| - 1] != '.' {
      LastDotIsLast(s[..|s| - 1]);
      if LastDot(s).Some? {
        var i := LastDot(s).value;
        assert s[i + 1..] == s[..|s| - 1][i + 1..] + [s[|s| - 1]];
      }
    }
  }

  // ---- where the promises fail ---------------------------------------------------------

  predicate PlainChar(c: char) {
    'a' <= c <= 'z' || 'A' <= c <= 'Z' || c == '.'
  }

  lemma PlainCharIsKept(c: char)
    requires PlainChar(c)
    ensures Kept(c) && !IsSpace(c) && c !in {'/', '\\'} && c != ' '
  {
  }

  lemma {:induction false} PlainIsUnfiltered(s: string)
    requires forall c :: c in s ==> PlainChar(c)
    ensures Filtered(s) == s
  {
    if s != "" {
      hide PlainChar, Kept;
      PlainCharIsKept(s[0]);
      PlainIsUnfiltered(s[1..]);
    }
  }

  lemma {:induction false} PlainIsOneComponent(s: string)
    requires forall c :: c in s ==> PlainChar(c)
    ensures LastComponent(s) == s
    decreases |s|
  {
    if s != "" {
      hide PlainChar, Kept;
      PlainCharIsKept(s[|s| - 1]);
      PlainIsOneComponent(s[..|s| - 1]);
    }
  }

  lemma PlainIsClean(s: string)
    requires s != "" && s[|s| - 1] != '.' && forall c :: c in s ==> PlainChar(c)
    ensures Cleaned(s) == s
  {
    hide PlainChar, Kept, IsSpace, LastComponent, Filtered;
    PlainIsUnfiltered(s);
    PlainIsOneComponent(s);
    PlainCharIsKept(s[0]);
    PlainCharIsKept(s[|s| - 1]);
  }

  function Run(c: char, n: nat): (s: string)
    ensures |s| == n && forall i :: 0 <= i < n ==> s[i] == c
  {
    seq(n, _ => c)
  }

  /** `CON.` and 120 letters come out 125 bytes long. */
  lemma ReservedNameIsNotCut()
    ensures ByteLen(Sanitized("CON." + Run('x', 120))) > MAX_NAME_LEN
  {
    var s := "CON." + Run('x', 120);
    PlainIsClean(s);
    AsciiByteLen(s);
    StemSkips(s, 3);
    assert Stem(s) == "CON" by {
      StemStops(s, 3);
    }
    assert Upper("CON") == "CON";
    hide ByteLen, Cleaned, Stem, Sanitized;
    SanitizedLength(s);
  }

  lemma {:induction false} StemStops(s: string, k: nat)
    requires k < |s| && s[k] == '.' && forall i :: 0 <= i < k ==> s[i] != '.'
    ensures Stem(s) == s[..k]
  {
    if k > 0 {
      StemStops(s[1..], k - 1);
      assert s[..k] == [s[0]] + s[1..][..k - 1];
    }
  }

  /** 119 letters, a dot and 20 letters come out ending in the dot. */
  lemma CutCanExposeDot()
    ensures EndsBadly(Sanitized(Run('x', 119) + "." + Run('y', 20)))
  {
    var s := Run('x', 119) + "." + Run('y', 20);
    PlainIsClean(s);
    AsciiByteLen(s);
    LastDotIs(s, 119);
    AsciiByteLen(s[119..]);
    assert ExtensionStart(s, 16) == |s|;
    var k := Fitting(s, MAX_NAME_LEN);
    AsciiByteLen(s[..k]);
    AsciiByteLen(s[..k + 1]);
    hide ByteLen, Cleaned, Sanitized, Fitting;
    StemSkips(s, 5);
    assert !Reserved(s) by {
      if Reserved(s) {
        ReservedIsShort(s);
      }
    }
    assert k == 120 && s[..k][119] == '.';
    SanitizedEnd(s);
  }

  lemma {:induction false} LastDotIs(s: string, k: nat)
    requires k < |s| && s[k] == '.' && forall i :: k < i < |s| ==> s[i] != '.'
    ensures LastDot(s) == Some(k)
    decreases |s|
  {
    if k < |s| - 1 {
      LastDotIs(s[..|s| - 1], k);
    }
  }

  // ---- a free name in the download directory ---------------------------------------------

  const ATTEMPTS: nat := 10_000

  function Decimal(n: nat): (s: string)
    ensures s != ""
  {
    (if n < 10 then "" else Decimal(n / 10)) + [('0' as int + n % 10) as char]
  }

  lemma {:induction false} DecimalInjective(m: nat, n: nat)
    requires Decimal(m) == Decimal(n)
    ensures m == n
  {
    var s, t := Decimal(m), Decimal(n);
    assert s[|s| - 1] == t[|t| - 1];
    assert s[..|s| - 1] == t[..|t| - 1];
    assert s[..|s| - 1] == if m < 10 then "" else Decimal(m / 10);
    assert t[..|t| - 1] == if n < 10 then "" else Decimal(n / 10);
    if m >= 10 && n >= 10 {
      DecimalInjective(m / 10, n / 10);
    }
  }

  /** The extension of any length, found the same way as for cutting. */
  function SplitAt(name: string): (i: nat)
    ensures i <= |name|
  {
    match LastDot(name)
    case Some(i) => if i > 0 then i else |name|
    case None => |name|
  }

  function Candidate(name: string, n: nat): string {
    if n == 0 then name else
      name[..SplitAt(name)] + " (" + Decimal(n) + ")" + name[SplitAt(name)..]
  }

  function LastResort(name: string, pid: nat): string {
    name[..SplitAt(name)] + "." + Decimal(pid) + "." + name[SplitAt(name)..]
  }

  function FirstFree(entries: set<string>, name: string, n: nat): (r: Option<string>)
    ensures r.Some? ==> r.value !in entries
    ensures r.None? <==> forall k :: n <= k < ATTEMPTS ==> Candidate(name, k) in entries
    decreases ATTEMPTS - n
  {
    if n >= ATTEMPTS then None
    else if Candidate(name, n) !in entries then Some(Candidate(name, n))
    else FirstFree(entries, name, n + 1)
  }

  function UniqueName(entries: set<string>, name: string, pid: nat): string {
    match FirstFree(entries, name, 0)
    case Some(free) => free
    case None => LastResort(name, pid)
  }

  method UniquePath(entries: set<string>, name: string, pid: nat) returns (r: string)
    ensures r == UniqueName(entries, name, pid)
  {
    if Candidate(name, 0) !in entries {
      return name;
    }
    var i := SplitAt(name);
    var stem, ext := name[..i], name[i..];
    for n := 1 to ATTEMPTS
      invariant FirstFree(entries, name, 0) == FirstFree(entries, name, n)
    {
      var candidate := stem + " (" + Decimal(n) + ")" + ext;
      if candidate !in entries {
        return candidate;
      }
    }
    r := stem + "." + Decimal(pid) + "." + ext;
  }

  lemma CandidatesDiffer(name: string, m: nat, n: nat)
    requires m < n
    ensures Candidate(name, m) != Candidate(name, n)
  {
    var i := SplitAt(name);
    var c, d := Candidate(name, m), Candidate(name, n);
    if m == 0 {
      assert |d| > |name|;
    } else if c == d {
      var dm, dn := Decimal(m), Decimal(n);
      assert |dm| == |dn|;
      assert c[i + 2..i + 2 + |dm|] == dm;
      assert d[i + 2..i + 2 + |dn|] == dn;
      DecimalInjective(m, n);
    }
  }

  function Candidates(name: string): (s: seq<string>)
    ensures |s| == ATTEMPTS
  {
    seq(ATTEMPTS, n requires 0 <= n < ATTEMPTS => Candidate(name, n))
  }

  /** The number a candidate name carries. */
  function ReadDecimal(s: string): nat
    requires forall i :: 0 <= i < |s| ==> '0' <= s[i] <= '9'
  {
    if s == "" then 0 else 10 * ReadDecimal(s[..|s| - 1]) + (s[|s| - 1] as int - '0' as int)
  }

  lemma {:induction false} DecimalReads(n: nat)
    ensures (forall i :: 0 <= i < |Decimal(n)| ==> '0' <= Decimal(n)[i] <= '9') && ReadDecimal(Decimal(n)) == n
    ensures |Decimal(n)| > 1 ==> Decimal(n)[0] != '0'
  {
    var s := Decimal(n);
    if n >= 10 {
      DecimalReads(n / 10);
      assert s[..|s| - 1] == Decimal(n / 10);
    } else {
      assert s[..|s| - 1] == "";
    }
  }

  /** The chosen name is the first free one of: the name itself, then "stem (1).ext" to "stem (9999).ext". */
  lemma UniqueNameIsFirstFree(entries: set<string>, stem: string, ext: string, pid: nat) returns (k: nat)
    requires stem != "" && (ext == "" ==> '.' !in stem[1..])
    requires ext != "" ==> ext[0] == '.' && '.' !in ext[1..]
    requires exists n: nat :: n < 10_000 && NumberedName(stem, ext, n) !in entries
    ensures k < 10_000 && UniqueName(entries, stem + ext, pid) == NumberedName(stem, ext, k)
    ensures NumberedName(stem, ext, k) !in entries && forall n :: 0 <= n < k ==> NumberedName(stem, ext, n) in entries
  {
    SplitsAtExtension(stem, ext);
    NumberedNamesAreCandidates(stem, ext);
    k := FirstFreeIsFirst(entries, stem + ext, 0);
  }

  function NumberedName(stem: string, ext: string, n: nat): string {
    if n == 0 then stem + ext else stem + " (" + Decimal(n) + ")" + ext
  }

  lemma NumberedNamesAreCandidates(stem: string, ext: string)
    requires SplitAt(stem + ext) == |stem|
    ensures forall n: nat :: NumberedName(stem, ext, n) == Candidate(stem + ext, n)
  {
    assert (stem + ext)[..|stem|] == stem && (stem + ext)[|stem|..] == ext;
  }

  lemma SplitsAtExtension(stem: string, ext: string)
    requires stem != "" && (ext == "" ==> '.' !in stem[1..])
    requires ext != "" ==> ext[0] == '.' && '.' !in ext[1..]
    ensures SplitAt(stem + ext) == |stem|
  {
    if ext == "" {
      assert stem + ext == stem;
      assert forall i :: 0 < i < |stem| ==> stem[i] == stem[1..][i - 1];
    } else {
      forall i | |stem| < i < |stem + ext|
        ensures (stem + ext)[i] != '.'
      {
        assert (stem + ext)[i] == ext[1..][i - |stem| - 1];
      }
      LastDotIs(stem + ext, |stem|);
    }
  }

  lemma {:induction false} FirstFreeIsFirst(entries: set<string>, name: string, n: nat) returns (k: nat)
    requires FirstFree(entries, name, n).Some?
    ensures n <= k < ATTEMPTS && FirstFree(entries, name, n) == Some(Candidate(name, k)) && Candidate(name, k) !in entries
    ensures forall j :: n <= j < k ==> Candidate(name, j) in entries
    decreases ATTEMPTS - n
  {
    k := n;
    if Candidate(name, n) in entries {
      k := FirstFreeIsFirst(entries, name, n + 1);
    }
  }

  /** The chosen name is taken exactly when all ten thousand candidates and the last resort are. */
  lemma UniqueNameIsTaken(entries: set<string>, name: string, pid: nat)
    ensures UniqueName(entries, name, pid) in entries
       <==> (forall n :: 0 <= n < ATTEMPTS ==> Candidate(name, n) in entries) && LastResort(name, pid) in entries
  {
  }

  /** A directory with fewer than ten thousand entries always has room for the name. */
  lemma UniqueNameIsFree(entries: set<string>, name: string, pid: nat)
    requires |entries| < ATTEMPTS
    ensures UniqueName(entries, name, pid) !in entries
  {
    if UniqueName(entries, name, pid) in entries {
      var s := Candidates(name);
      forall i, j | 0 <= i < j < |s| ensures s[i] != s[j] {
        CandidatesDiffer(name, i, j);
      }
      Pigeonhole(s, entries);
    }
  }

  lemma {:induction false} DecimalIsKept(n: nat)
    ensures forall c :: c in Decimal(n) ==> Kept(c)
  {
    if n >= 10 {
      DecimalIsKept(n / 10);
    }
  }

  lemma {:induction false} FirstFreeIsCandidate(entries: set<string>, name: string, n: nat) returns (k: nat)
    requires FirstFree(entries, name, n).Some?
    ensures FirstFree(entries, name, n).value == Candidate(name, k)
    decreases ATTEMPTS - n
  {
    k := n;
    if Candidate(name, n) in entries {
      k := FirstFreeIsCandidate(entries, name, n + 1);
    }
  }

  lemma CandidateIsOneComponent(name: string, n: nat)
    requires Component(name)
    ensures Component(Candidate(name, n))
  {
    DecimalIsKept(n);
    assert Kept(' ') && Kept('(') && Kept(')');
    hide Kept, Decimal;
    assert forall c :: c in " (" ==> c == ' ' || c == '(';
    assert forall c :: c in ")" ==> c == ')';
  }

  lemma LastResortIsOneComponent(name: string, pid: nat)
    requires Component(name)
    ensures Component(LastResort(name, pid))
  {
    DecimalIsKept(pid);
    assert Kept('.');
    hide Kept;
  }

  /** Whatever name is chosen for a sanitised offer, it is a direct child of the directory. */
  lemma UniqueNameIsOneComponent(entries: set<string>, raw: string, pid: nat)
    ensures Component(UniqueName(entries, Sanitized(raw), pid))
  {
    hide Sanitized, Candidate, LastResort, Kept, FirstFree;
    var name := Sanitized(raw);
    SanitizedIsOneComponent(raw);
    if FirstFree(entries, name, 0).Some? {
      var k := FirstFreeIsCandidate(entries, name, 0);
      CandidateIsOneComponent(name, k);
    } else {
      LastResortIsOneComponent(name, pid);
    }
  }

  /** Publishing under the chosen name adds one entry and changes no other. */
  lemma PublishingAddsOneEntry<T>(downloads: map<string, T>, name: string, pid: nat, content: T)
    requires |downloads| < ATTEMPTS
    ensures var after := downloads[UniqueName(downloads.Keys, name, pid) := content];
            && |after| == |downloads| + 1
            && forall n :: n in downloads ==> n in after && after[n] == downloads[n]
  {
    UniqueNameIsFree(downloads.Keys, name, pid);
    hide UniqueName;
    var n := UniqueName(downloads.Keys, name, pid);
    assert downloads[n := content].Keys == downloads.Keys + {n};
  }
}
