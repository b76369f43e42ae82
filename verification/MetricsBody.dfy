/** The request body recorded with an invocation is cut to 4096 bytes without splitting a
    character. Text is a sequence of bytes; valid text is UTF-8 as in section 4 of RFC 3629. */
module MetricsBody {
  newtype Byte = b: int | 0 <= b < 256

  const MAX_RECORDED_BODY_BYTES := 4096

  /** An ellipsis (three bytes) and "(truncated)". */
  const SUFFIX: seq<Byte> :=
    [0xE2, 0x80, 0xA6, 0x28, 0x74, 0x72, 0x75, 0x6E, 0x63, 0x61, 0x74, 0x65, 0x64, 0x29]

  /** The two top bits are not 10. */
  predicate RuneStart(b: Byte) {
    !(0x80 <= b < 0xC0)
  }

  /** The length announced by a first byte; zero if it cannot be one. */
  function LeadLength(b: Byte): nat {
    if b < 0x80 then 1
    else if 0xC2 <= b <= 0xDF then 2
    else if 0xE0 <= b <= 0xEF then 3
    else if 0xF0 <= b <= 0xF4 then 4
    else 0
  }

  /** The second byte's range depends on the first: no overlong forms, no surrogates, nothing
      above U+10FFFF. */
  predicate SecondFits(lead: Byte, second: Byte) {
    && !RuneStart(second)
    && (lead == 0xE0 ==> second >= 0xA0)
    && (lead == 0xED ==> second <= 0x9F)
    && (lead == 0xF0 ==> second >= 0x90)
    && (lead == 0xF4 ==> second <= 0x8F)
  }

  /** The bytes are one well-formed character. */
  predicate IsRune(c: seq<Byte>) {
    && |c| > 0 && |c| == LeadLength(c[0])
    && (|c| > 1 ==> SecondFits(c[0], c[1]))
    && (forall k | 2 <= k < |c| :: !RuneStart(c[k]))
  }

  predicate Valid(s: seq<Byte>)
    decreases |s|
  {
    s == [] ||
    (var n := LeadLength(s[0]); 0 < n <= |s| && IsRune(s[..n]) && Valid(s[n..]))
  }

  lemma {:induction false} ValidAppend(a: seq<Byte>, b: seq<Byte>)
    requires Valid(a) && Valid(b)
    ensures Valid(a + b)
    decreases |a|
  {
    if a == [] {
      assert a + b == b;
    } else {
      var n := LeadLength(a[0]);
      ValidAppend(a[n..], b);
      assert (a + b)[..n] == a[..n] && (a + b)[n..] == a[n..] + b;
    }
  }

  /** Valid text can be cut before any byte that starts a character ... */
  lemma {:induction false} CutAtStart(s: seq<Byte>, c: nat)
    requires Valid(s) && c < |s| && RuneStart(s[c])
    ensures Valid(s[..c]) && Valid(s[c..])
    decreases |s|
  {
    var n := LeadLength(s[0]);
    if c == 0 {
      assert s[c..] == s;
    } else if c < n {
      assert false; // only the first byte of a character starts one
    } else if c == n {
      assert s[..c][..n] == s[..n] && s[..c][n..] == [];
    } else {
      CutAtStart(s[n..], c - n);
      assert s[..c][..n] == s[..n] && s[..c][n..] == s[n..][..c - n];
      assert s[c..] == s[n..][c - n..];
    }
  }

  /** ... and nowhere else. */
  lemma {:induction false} CutOnlyAtStart(s: seq<Byte>, c: nat)
    requires Valid(s) && c < |s| && Valid(s[..c])
    ensures RuneStart(s[c])
    decreases |s|
  {
    if c > 0 {
      var n := LeadLength(s[0]);
      assert s[..c][n..] == s[n..][..c - n];
      CutOnlyAtStart(s[n..], c - n);
    }
  }

  /** A character starts at, or at most three bytes before, any position of valid text. */
  lemma {:induction false} StartIsNear(s: seq<Byte>, c: nat) returns (d: nat)
    requires Valid(s) && c < |s|
    ensures d <= c <= d + 3 && RuneStart(s[d])
    decreases |s|
  {
    var n := LeadLength(s[0]);
    if c < n {
      d := 0;
    } else {
      var e := StartIsNear(s[n..], c - n);
      d := n + e;
    }
  }

  lemma SuffixIsValid()
    ensures Valid(SUFFIX) && |SUFFIX| == 14
  {
    AsciiIsValid(SUFFIX[3..]);
    assert SUFFIX[..3] == [0xE2, 0x80, 0xA6];
  }

  lemma {:induction false} AsciiIsValid(s: seq<Byte>)
    requires forall k | 0 <= k < |s| :: s[k] < 0x80
    ensures Valid(s)
  {
    if s != [] {
      AsciiIsValid(s[1..]);
    }
  }

  /** The last place at or before the limit where a character starts, or the beginning. */
  ghost predicate IsCut(s: seq<Byte>, cut: nat) {
    && cut <= MAX_RECORDED_BODY_BYTES < |s|
    && (cut == 0 || RuneStart(s[cut]))
    && (forall k | cut < k <= MAX_RECORDED_BODY_BYTES :: !RuneStart(s[k]))
  }

  // Characters, as they are encoded.

  /** A Unicode scalar value: no surrogates. */
  predicate Scalar(cp: int) {
    0 <= cp <= 0x10FFFF && !(0xD800 <= cp <= 0xDFFF)
  }

  /** Section 3 of RFC 3629. */
  function Encode(cp: int): seq<Byte>
    requires Scalar(cp)
  {
    if cp < 0x80 then [cp as Byte]
    else if cp < 0x800 then [(0xC0 + cp / 64) as Byte, (0x80 + cp % 64) as Byte]
    else if cp < 0x10000 then
      [(0xE0 + cp / 4096) as Byte, (0x80 + cp / 64 % 64) as Byte, (0x80 + cp % 64) as Byte]
    else
      [(0xF0 + cp / 262144) as Byte, (0x80 + cp / 4096 % 64) as Byte, (0x80 + cp / 64 % 64) as Byte,
       (0x80 + cp % 64) as Byte]
  }

  lemma EncodedIsRune(cp: int)
    requires Scalar(cp)
    ensures IsRune(Encode(cp))
  {
  }

  /** The value a well-formed character stands for. */
  function Decode(c: seq<Byte>): int
    requires IsRune(c)
  {
    match |c|
    case 1 => c[0] as int
    case 2 => (c[0] as int - 0xC0) * 64 + (c[1] as int - 0x80)
    case 3 => (c[0] as int - 0xE0) * 4096 + (c[1] as int - 0x80) * 64 + (c[2] as int - 0x80)
    case _ =>
      (c[0] as int - 0xF0) * 262144 + (c[1] as int - 0x80) * 4096 + (c[2] as int - 0x80) * 64 + (c[3] as int - 0x80)
  }

  /** The byte sequences that count as characters are exactly the encodings of scalar values. */
  lemma RunesAreEncodings(c: seq<Byte>)
    ensures IsRune(c) <==> exists cp: int :: Scalar(cp) && Encode(cp) == c
  {
    if IsRune(c) {
      RuneIsEncoded(c);
    }
    forall cp: int | Scalar(cp) && Encode(cp) == c ensures IsRune(c) {
      EncodedIsRune(cp);
    }
  }

  lemma RuneIsEncoded(c: seq<Byte>)
    requires IsRune(c)
    ensures Scalar(Decode(c)) && Encode(Decode(c)) == c
  {
    var cp := Decode(c);
    if |c| == 2 {
      Digits(c[0] as int - 0xC0, c[1] as int - 0x80);
    } else if |c| == 3 {
      ThreeIsEncoded(c);
    } else if |c| == 4 {
      FourIsEncoded(c);
    }
  }

  lemma Digits(high: int, low: int)
    requires 0 <= low < 64
    ensures (high * 64 + low) / 64 == high && (high * 64 + low) % 64 == low
  {
  }

  lemma ThreeIsEncoded(c: seq<Byte>)
    requires IsRune(c) && |c| == 3
    ensures Scalar(Decode(c)) && Encode(Decode(c)) == c
  {
    var x, y, z := c[0] as int - 0xE0, c[1] as int - 0x80, c[2] as int - 0x80;
    assert 0 <= x < 16 && 0 <= y < 64 && 0 <= z < 64;
    Digits(x * 64 + y, z);
    Digits(x, y);
    var cp := Decode(c);
    assert cp == (x * 64 + y) * 64 + z;
    assert cp / 4096 == x;
  }

  lemma FourIsEncoded(c: seq<Byte>)
    requires IsRune(c) && |c| == 4
    ensures Scalar(Decode(c)) && Encode(Decode(c)) == c
  {
    var w, x, y, z := c[0] as int - 0xF0, c[1] as int - 0x80, c[2] as int - 0x80, c[3] as int - 0x80;
    assert !RuneStart(c[2]) && !RuneStart(c[3]);
    assert 0 <= w <= 4 && 0 <= x < 64 && 0 <= y < 64 && 0 <= z < 64;
    Digits((w * 64 + x) * 64 + y, z);
    Digits(w * 64 + x, y);
    Digits(w, x);
    var cp := Decode(c);
    assert cp == ((w * 64 + x) * 64 + y) * 64 + z;
    assert cp / 4096 == w * 64 + x && cp / 262144 == w;
  }

  /** The suffix is a horizontal ellipsis and, in ASCII, "(truncated)". */
  lemma SuffixSpelled()
    ensures |SUFFIX| == 14 && SUFFIX[..3] == Encode(0x2026)
    ensures forall k | 3 <= k < 14 :: SUFFIX[k] as int == "(truncated)"[k - 3] as int
  {
  }

  /** On valid text the cut moves back at most three bytes, and keeps the longest run of whole
      characters that fits. */
  lemma CutOfValid(s: seq<Byte>, cut: nat)
    requires Valid(s) && IsCut(s, cut)
    ensures 4093 <= cut <= 4096
    ensures Valid(s[..cut])
    ensures forall longer | cut < longer <= 4096 :: !Valid(s[..longer])
    ensures Valid(s[..cut] + SUFFIX)
  {
    var d := StartIsNear(s, MAX_RECORDED_BODY_BYTES);
    CutAtStart(s, cut);
    SuffixIsValid();
    ValidAppend(s[..cut], SUFFIX);
    forall longer | cut < longer <= MAX_RECORDED_BODY_BYTES
      ensures !Valid(s[..longer])
    {
      if Valid(s[..longer]) {
        CutOnlyAtStart(s, longer);
      }
    }
  }

  /** Any bytes at all may come in. */
  method TruncateBody(s: seq<Byte>) returns (r: seq<Byte>)
    ensures |s| <= 4096 ==> r == s
    ensures |s| > 4096 ==> exists cut: nat :: IsCut(s, cut) && r == s[..cut] + SUFFIX
    ensures |r| <= 4110
    ensures Valid(s) ==> Valid(r)
    ensures Valid(s) && |s| > 4096 ==> |r| >= 4107
  {
    if |s| <= MAX_RECORDED_BODY_BYTES {
      return s;
    }
    var cut: nat := MAX_RECORDED_BODY_BYTES;
    while cut > 0 && !RuneStart(s[cut])
      invariant cut <= MAX_RECORDED_BODY_BYTES
      invariant forall k | cut < k <= MAX_RECORDED_BODY_BYTES :: !RuneStart(s[k])
    {
      cut := cut - 1;
    }
    SuffixIsValid();
    ghost var valid := Valid(s);
    if valid {
      CutOfValid(s, cut);
    }
    assert IsCut(s, cut);
    r := s[..cut] + SUFFIX;
  }
}
