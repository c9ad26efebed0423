/**
 * CastMemberID: the identifier value object of a cast member. It wraps a
 * non-null string; one factory takes the string as given, the other takes
 * a UUID and stores its text in lower case. Equality and hashing are by
 * the wrapped string.
 */
module CastMemberIdentity {
  import opened Wrappers
  import opened JavaStrings

  // ------------------------------------------------------------- UUID text

  predicate IsHexDigit(c: char)
  {
    '0' <= c <= '9' || 'a' <= c <= 'f' || 'A' <= c <= 'F'
  }

  /** The positions of the four hyphens in 8-4-4-4-12 UUID text. */
  predicate IsHyphenIndex(i: int)
  {
    i == 8 || i == 13 || i == 18 || i == 23
  }

  /** Canonical UUID text, hex digits in either case. */
  predicate IsUuidText(s: string)
  {
    |s| == 36 &&
    forall i :: 0 <= i < |s| ==> if IsHyphenIndex(i) then s[i] == '-' else IsHexDigit(s[i])
  }

  type UuidText = s: string | IsUuidText(s) witness "00000000-0000-0000-0000-000000000000"

  /**
   * A java.util.UUID, seen through the text its toString() renders. That
   * text is always lower case; the model admits either case so that what
   * from(UUID) stores does not rest on it, and FromUuidOfLowercaseText is
   * the case toString() actually produces.
   */
  datatype Uuid = Uuid(text: UuidText)

  /** What Objects.requireNonNull and a call on null throw. */
  datatype NullPointerException = NullPointerException

  /** Any Java object an identifier may be compared with. */
  datatype JavaObject =
    | Null
    | CastMemberIdObject(id: CastMemberID)
      /** An instance of any class other than CastMemberID (a CategoryID, say) wrapping a string. */
    | OtherObject(wrapped: string)

  datatype CastMemberID = CastMemberID(value: string)
  {
    /** getValue(): the wrapped string, which alone determines the identifier. */
    function GetValue(): (r: string)
      ensures CastMemberID(r) == this
    {
      value
    }

    /**
     * equals(Object): false for null and for any other class, otherwise a
     * comparison of the wrapped strings. The identity short-cut `this == o`
     * gives the same answer, since an object is value-equal to itself.
     */
    function Equals(o: JavaObject): (r: bool)
      ensures o == CastMemberIdObject(this) ==> r
      ensures o.Null? || o.OtherObject? ==> !r
    {
      match o
      case Null => false
      case OtherObject(_) => false
      case CastMemberIdObject(that) => GetValue() == that.GetValue()
    }

    /** hashCode(): Objects.hash over the wrapped string alone. */
    function HashCode(): (h: Int32)
      ensures (h - 31 - StringHash(GetValue())) % 0x1_0000_0000 == 0
    {
      ObjectsHash(StringHash(GetValue()))
    }
  }

  /** The private constructor: Objects.requireNonNull rejects null. */
  function New(value: Option<string>): (r: Result<CastMemberID, NullPointerException>)
    ensures r.Failure? <==> value.None?
    ensures r.Success? ==> r.value.GetValue() == value.value
  {
    match value
    case None => Failure(NullPointerException)
    case Some(v) => Success(CastMemberID(v))
  }

  /** from(String): the string is wrapped unchanged. */
  function FromString(anId: Option<string>): (r: Result<CastMemberID, NullPointerException>)
    ensures r.Failure? <==> anId.None?
    ensures r.Success? ==> r.value.GetValue() == anId.value
  {
    New(anId)
  }

  /** ToLower maps UUID text to UUID text. */
  lemma ToLowerKeepsUuidText(s: string)
    requires IsUuidText(s)
    ensures IsUuidText(ToLower(s))
  {
  }

  /** from(UUID): the UUID's text in lower case. */
  function FromUuid(anId: Uuid): (r: CastMemberID)
    ensures IsUuidText(r.GetValue()) && IsLowercase(r.GetValue())
    ensures ToLower(r.GetValue()) == ToLower(anId.text)
  {
    ToLowerKeepsUuidText(anId.text);
    ToLowerIdempotent(anId.text);
    var value := ToLower(anId.text);
    match New(Some(value))
    case Success(id) => id
  }

  /** unique(): from(UUID) applied to a fresh random UUID, supplied here by the caller. */
  function Unique(random: Uuid): (r: CastMemberID)
    ensures IsUuidText(r.GetValue()) && IsLowercase(r.GetValue())
  {
    FromUuid(random)
  }

  // ---------------------------------------------------------------- lemmas

  /** Every identifier holds a value: construction from null is the only failure. */
  lemma NullIsRejected()
    ensures FromString(None) == Failure(NullPointerException)
    ensures New(None) == Failure(NullPointerException)
  {
  }

  /** Reading the value of a UUID-built identifier and wrapping it again gives an equal identifier. */
  lemma UuidRoundTrip(u: Uuid)
    ensures FromString(Some(FromUuid(u).GetValue())) == Success(FromUuid(u))
    ensures FromUuid(u).Equals(CastMemberIdObject(FromString(Some(FromUuid(u).GetValue())).value))
  {
  }

  /** A UUID whose text is already lowercase is stored verbatim. */
  lemma FromUuidOfLowercaseText(u: Uuid)
    requires IsLowercase(u.text)
    ensures FromUuid(u).GetValue() == u.text
  {
    ToLowerKeepsLowercase(u.text);
  }

  /** Two UUIDs whose texts differ only in letter case give equal identifiers. */
  lemma FromUuidIgnoresCase(u: Uuid, v: Uuid)
    requires ToLower(u.text) == ToLower(v.text)
    ensures FromUuid(u).Equals(CastMemberIdObject(FromUuid(v)))
  {
  }

  lemma EqualsIffSameValue(a: CastMemberID, b: CastMemberID)
    ensures a.Equals(CastMemberIdObject(b)) <==> a.GetValue() == b.GetValue()
    ensures a.Equals(CastMemberIdObject(b)) <==> a == b
  {
  }

  lemma EqualsReflexive(a: CastMemberID)
    ensures a.Equals(CastMemberIdObject(a))
  {
  }

  lemma EqualsSymmetric(a: CastMemberID, b: CastMemberID)
    ensures a.Equals(CastMemberIdObject(b)) ==> b.Equals(CastMemberIdObject(a))
  {
  }

  lemma EqualsTransitive(a: CastMemberID, b: CastMemberID, c: CastMemberID)
    requires a.Equals(CastMemberIdObject(b)) && b.Equals(CastMemberIdObject(c))
    ensures a.Equals(CastMemberIdObject(c))
  {
  }

  /** Never equal to null, nor to another class's object wrapping the same string. */
  lemma NeverEqualsNullOrOtherClass(a: CastMemberID, wrapped: string)
    ensures !a.Equals(Null)
    ensures !a.Equals(OtherObject(wrapped))
    ensures !a.Equals(OtherObject(a.GetValue()))
  {
  }

  /** hashCode() is consistent with equals(). */
  lemma EqualIdsHaveEqualHashes(a: CastMemberID, b: CastMemberID)
    requires a.Equals(CastMemberIdObject(b))
    ensures a.HashCode() == b.HashCode()
  {
  }
}
