/**
 * The few java.lang.String operations the catalog domain relies on:
 * trim(), length(), toLowerCase() and hashCode(), over Dafny strings.
 * A Dafny char is a Unicode scalar value; a Java String stores UTF-16
 * code units, so length() and hashCode() are stated over that encoding.
 */
module JavaStrings {

  /** The values of a Java int. */
  type Int32 = x: int | -0x8000_0000 <= x < 0x8000_0000

  /** Java's int arithmetic keeps the low 32 bits, read as two's complement. */
  function Wrap32(x: int): (r: Int32)
    ensures (r - x) % 0x1_0000_0000 == 0
  {
    (x + 0x8000_0000) % 0x1_0000_0000 - 0x8000_0000
  }

  // ---------------------------------------------------------------- UTF-16

  /** The UTF-16 code units of one Unicode scalar value. */
  function Utf16Units(c: char): (u: seq<int>)
    ensures |u| == 1 <==> c as int < 0x1_0000
    ensures |u| == 1 ==> u[0] == c as int
    ensures |u| == 2 ==> 0xD800 <= u[0] < 0xDC00 && 0xDC00 <= u[1] < 0xE000
    ensures |u| == 2 ==> 0x1_0000 + (u[0] - 0xD800) * 0x400 + (u[1] - 0xDC00) == c as int
  {
    var n := c as int;
    if n < 0x1_0000 then [n]
    else [0xD800 + (n - 0x1_0000) / 0x400, 0xDC00 + (n - 0x1_0000) % 0x400]
  }

  /** The UTF-16 encoding of a string, as a Java String holds it. */
  function Utf16(s: string): (u: seq<int>)
    ensures |s| <= |u| <= 2 * |s|
    ensures forall k :: 0 <= k < |u| ==> 0 <= u[k] < 0x1_0000
  {
    if s == [] then [] else Utf16Units(s[0]) + Utf16(s[1..])
  }

  /** String.length(): the number of UTF-16 code units. */
  function Length(s: string): (n: nat)
    ensures |s| <= n <= 2 * |s|
  {
    |Utf16(s)|
  }

  /** No character needs a surrogate pair. */
  predicate InBasicPlane(s: string)
  {
    forall i :: 0 <= i < |s| ==> s[i] as int < 0x1_0000
  }

  /** Outside the supplementary planes, length() counts characters. */
  lemma {:induction false} BasicPlaneLength(s: string)
    requires InBasicPlane(s)
    ensures Length(s) == |s|
  {
    if s != [] {
      assert InBasicPlane(s[1..]) by {
        forall i | 0 <= i < |s[1..]| ensures s[1..][i] as int < 0x1_0000 {
          assert s[1..][i] == s[i + 1];
        }
      }
      BasicPlaneLength(s[1..]);
    }
  }

  // ---------------------------------------------------------------- trim()

  /** trim() removes every leading and trailing character at or below U+0020. */
  predicate IsTrimmed(c: char)
  {
    c <= ' '
  }

  /** Blank: trim() leaves nothing. */
  predicate IsBlank(s: string)
  {
    forall i :: 0 <= i < |s| ==> IsTrimmed(s[i])
  }

  /** How many characters trim() removes at the front. */
  function LeadingTrimmed(s: string): (k: nat)
    ensures k <= |s|
    ensures forall i :: 0 <= i < k ==> IsTrimmed(s[i])
    ensures k < |s| ==> !IsTrimmed(s[k])
  {
    if s != [] && IsTrimmed(s[0]) then 1 + LeadingTrimmed(s[1..]) else 0
  }

  /** How many characters trim() removes at the back, if any remain. */
  function TrailingTrimmed(s: string): (k: nat)
    ensures k <= |s|
    ensures forall i :: |s| - k <= i < |s| ==> IsTrimmed(s[i])
    ensures k < |s| ==> !IsTrimmed(s[|s| - 1 - k])
  {
    if s != [] && IsTrimmed(s[|s| - 1]) then 1 + TrailingTrimmed(s[..|s| - 1]) else 0
  }

  /** String.trim(). */
  function Trim(s: string): (r: string)
    ensures LeadingTrimmed(s) + |r| <= |s|
    ensures r == [] <==> IsBlank(s)
    ensures r != [] ==> !IsTrimmed(r[0]) && !IsTrimmed(r[|r| - 1])
    ensures forall i :: 0 <= i < |r| ==> r[i] == s[LeadingTrimmed(s) + i]
    ensures forall i :: 0 <= i < LeadingTrimmed(s) ==> IsTrimmed(s[i])
    ensures forall i :: LeadingTrimmed(s) + |r| <= i < |s| ==> IsTrimmed(s[i])
  {
    var front := LeadingTrimmed(s);
    if front == |s| then []
    else s[front..|s| - TrailingTrimmed(s)]
  }

  // ---------------------------------------------------------- toLowerCase()

  predicate IsUpperAscii(c: char)
  {
    'A' <= c <= 'Z'
  }

  /** Character.toLowerCase on the ASCII range. */
  function LowerChar(c: char): char
  {
    if IsUpperAscii(c) then (c as int + 32) as char else c
  }

  predicate IsLowercase(s: string)
  {
    forall i :: 0 <= i < |s| ==> !IsUpperAscii(s[i])
  }

  /** String.toLowerCase() on ASCII letters; every other character is kept. */
  function ToLower(s: string): (r: string)
    ensures |r| == |s|
    ensures IsLowercase(r)
    ensures forall i :: 0 <= i < |s| ==> r[i] == LowerChar(s[i])
  {
    if s == [] then [] else [LowerChar(s[0])] + ToLower(s[1..])
  }

  /** Lower-casing a lowercase string changes nothing. */
  lemma ToLowerKeepsLowercase(s: string)
    requires IsLowercase(s)
    ensures ToLower(s) == s
  {
  }

  /** Lower-casing is idempotent. */
  lemma ToLowerIdempotent(s: string)
    ensures ToLower(ToLower(s)) == ToLower(s)
  {
    ToLowerKeepsLowercase(ToLower(s));
  }

  // ------------------------------------------------------------- hashCode()

  /** String.hashCode(): h = 31 * h + unit over the UTF-16 units, in int arithmetic. */
  function UnitsHash(u: seq<int>): (h: Int32)
    ensures u == [] ==> h == 0
  {
    if u == [] then 0 else Wrap32(31 * UnitsHash(u[..|u| - 1]) + u[|u| - 1])
  }

  function StringHash(s: string): (h: Int32)
    ensures s == [] ==> h == 0
  {
    UnitsHash(Utf16(s))
  }

  /** Objects.hash(v) for one non-null argument: 31 * 1 + v.hashCode(). */
  function ObjectsHash(valueHash: Int32): (h: Int32)
    ensures (h - valueHash - 31) % 0x1_0000_0000 == 0
  {
    Wrap32(31 + valueHash)
  }
}
