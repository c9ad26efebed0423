/**
 * The CastMember aggregate: a name, a type, an identifier and two
 * timestamps. Creation and update run the same ordered validation, which
 * collects error messages into a notification; any error aborts the call
 * with one aggregate failure carrying the whole list.
 */
module CastMembers {
  import opened Wrappers
  import opened JavaStrings
  import CastMemberIdentity

  datatype CastMemberType = Actor | Director

  /** One entry of a notification; message() is what callers read. */
  datatype Error = Error(message: string)

  const NameNullMessage: string := "'name' should not be null"
  const NameEmptyMessage: string := "'name' should not be empty"
  const NameLengthMessage: string := "'name' must be between 3 and 255 characters"
  const TypeNullMessage: string := "'type' should not be null"

  const NameMinLength: nat := 3
  const NameMaxLength: nat := 255

  /** The names an entity accepts: between 3 and 255 characters once trimmed. */
  predicate IsValidName(name: string)
  {
    NameMinLength <= Length(Trim(name)) <= NameMaxLength
  }

  /** A valid name is not blank and has at most 255 characters once trimmed. */
  lemma ValidNameIsNonBlankAndBounded(name: string)
    requires IsValidName(name)
    ensures !IsBlank(name)
    ensures |Trim(name)| <= NameMaxLength
  {
  }

  // ------------------------------------------------------------ validation

  /**
   * The name checks, in order: null, then blank, then length. Each of the
   * first two ends the name checks, so at most one name error is reported.
   */
  function NameErrors(name: Option<string>): (errors: seq<Error>)
    ensures |errors| <= 1
    ensures errors == [] <==> name.Some? && IsValidName(name.value)
  {
    match name
    case None => [Error(NameNullMessage)]
    case Some(s) =>
      if IsBlank(s) then [Error(NameEmptyMessage)]
      else if Length(Trim(s)) < NameMinLength || Length(Trim(s)) > NameMaxLength then [Error(NameLengthMessage)]
      else []
  }

  function TypeErrors(memberType: Option<CastMemberType>): (errors: seq<Error>)
    ensures errors == [] <==> memberType.Some?
    ensures errors != [] ==> errors == [Error(TypeNullMessage)]
  {
    if memberType.None? then [Error(TypeNullMessage)] else []
  }

  /** The notification one validation pass produces: the name's errors, then the type's. */
  function Validate(name: Option<string>, memberType: Option<CastMemberType>): (errors: seq<Error>)
    ensures errors == [] <==> name.Some? && IsValidName(name.value) && memberType.Some?
    ensures |errors| <= 2
    ensures memberType.Some? ==> errors == NameErrors(name)
    ensures name.Some? && IsValidName(name.value) ==> errors == TypeErrors(memberType)
  {
    NameErrors(name) + TypeErrors(memberType)
  }

  /** Values that pass validation are present, and the name is valid. */
  lemma AcceptedValuesAreValid(name: Option<string>, memberType: Option<CastMemberType>)
    requires Validate(name, memberType) == []
    ensures name.Some? && memberType.Some? && IsValidName(name.value)
  {
  }

  /** A null name is reported once, as null. */
  lemma NullNameReportsOneError(memberType: CastMemberType)
    ensures Validate(None, Some(memberType)) == [Error(NameNullMessage)]
  {
  }

  /** A blank name is reported once, as empty; its length is not also reported. */
  lemma BlankNameReportsOneError(name: string, memberType: CastMemberType)
    requires IsBlank(name)
    ensures Validate(Some(name), Some(memberType)) == [Error(NameEmptyMessage)]
  {
  }

  /** The single space of the tests is blank, although shorter than 3 characters. */
  lemma SingleSpaceReportsEmpty(memberType: CastMemberType)
    ensures Length(" ") < NameMinLength
    ensures Validate(Some(" "), Some(memberType)) == [Error(NameEmptyMessage)]
  {
    BlankNameReportsOneError(" ", memberType);
  }

  /** A name whose Java length exceeds 255 after trimming is reported once, as a length error. */
  lemma OverlongNameReportsOneError(name: string, memberType: CastMemberType)
    requires Length(Trim(name)) > NameMaxLength
    ensures Validate(Some(name), Some(memberType)) == [Error(NameLengthMessage)]
  {
  }

  /** A non-blank name under 3 characters after trimming is reported once, as a length error. */
  lemma ShortNameReportsOneError(name: string, memberType: CastMemberType)
    requires !IsBlank(name) && Length(Trim(name)) < NameMinLength
    ensures Validate(Some(name), Some(memberType)) == [Error(NameLengthMessage)]
  {
  }

  /** A valid name contributes nothing: a null type is then the only error. */
  lemma NullTypeReportsOneError(name: string)
    requires IsValidName(name)
    ensures Validate(Some(name), None) == [Error(TypeNullMessage)]
  {
  }

  /** A name made of basic-plane characters, not blank at either end, is valid exactly when it has 3 to 255 characters. */
  lemma {:induction false} PlainNameValidity(name: string)
    requires name != [] && !IsTrimmed(name[0]) && !IsTrimmed(name[|name| - 1])
    requires InBasicPlane(name)
    ensures Trim(name) == name
    ensures IsValidName(name) <==> NameMinLength <= |name| <= NameMaxLength
  {
    assert LeadingTrimmed(name) == 0;
    assert TrailingTrimmed(name) == 0;
    BasicPlaneLength(name);
  }

  /** "Vin Diesel", the name the tests create and update to, is valid. */
  lemma VinDieselIsValid()
    ensures IsValidName("Vin Diesel")
  {
    var vin := "Vin Diesel";
    assert InBasicPlane(vin) by {
      forall i | 0 <= i < |vin| ensures vin[i] as int < 0x1_0000 {
        assert vin[i] <= 'z';
      }
    }
    PlainNameValidity(vin);
  }

  /** "Braian", the name the update tests start from, is valid. */
  lemma BraianIsValid()
    ensures IsValidName("Braian")
  {
    var braian := "Braian";
    assert InBasicPlane(braian) by {
      forall i | 0 <= i < |braian| ensures braian[i] as int < 0x1_0000 {
        assert braian[i] <= 'z';
      }
    }
    PlainNameValidity(braian);
  }

  // ---------------------------------------------------------------- entity

  class CastMember {
    const id: CastMemberIdentity.CastMemberID
    var name: string
    var memberType: CastMemberType
    const createdAt: nat
    var updatedAt: nat

    /** A cast member is never observable with an invalid name or with time running backwards. */
    ghost predicate Valid()
      reads this
    {
      IsValidName(name) && createdAt <= updatedAt
    }

    /** Reached only through NewMember, once validation has passed. */
    constructor (id: CastMemberIdentity.CastMemberID, name: string, memberType: CastMemberType, now: nat)
      requires IsValidName(name)
      ensures Valid()
      ensures this.id == id && this.name == name && this.memberType == memberType
      ensures createdAt == now && updatedAt == now
    {
      this.id := id;
      this.name := name;
      this.memberType := memberType;
      this.createdAt := now;
      this.updatedAt := now;
    }

    /**
     * newMember(name, type): a fresh member with a unique identifier and
     * both timestamps at `now`, or the validation errors. `random` stands
     * for the UUID the generator draws.
     */
    static method NewMember(name: Option<string>, memberType: Option<CastMemberType>,
                            random: CastMemberIdentity.Uuid, now: nat)
      returns (r: Result<CastMember, seq<Error>>)
      ensures r.Failure? <==> Validate(name, memberType) != []
      ensures r.Failure? ==> r.error == Validate(name, memberType)
      ensures r.Success? ==> fresh(r.value) && r.value.Valid()
      ensures r.Success? ==> r.value.id == CastMemberIdentity.Unique(random)
      ensures r.Success? ==> Some(r.value.name) == name && Some(r.value.memberType) == memberType
      ensures r.Success? ==> r.value.createdAt == now && r.value.updatedAt == now
    {
      var id := CastMemberIdentity.Unique(random);
      var errors := Validate(name, memberType);
      if errors != [] {
        return Failure(errors);
      }
      var member := new CastMember(id, name.value, memberType.value, now);
      return Success(member);
    }

    /**
     * update(name, type): on success the member itself, with the new name
     * and type and updatedAt moved to `now`; otherwise the same errors that
     * creation reports for those values.
     */
    method Update(newName: Option<string>, newType: Option<CastMemberType>, now: nat)
      returns (r: Result<CastMember, seq<Error>>)
      requires Valid() && updatedAt < now
      modifies this
      ensures Valid()
      ensures r.Failure? <==> Validate(newName, newType) != []
      ensures r.Failure? ==> r.error == Validate(newName, newType)
      ensures r.Success? ==> r.value == this
      ensures r.Success? ==> Some(name) == newName && Some(memberType) == newType
      ensures r.Success? ==> updatedAt == now && old(updatedAt) < updatedAt
    {
      var errors := Validate(newName, newType);
      if errors != [] {
        return Failure(errors);
      }
      AcceptedValuesAreValid(newName, newType);
      Commit(newName.value, newType.value, now);
      return Success(this);
    }

    /** Replaces name and type, and stamps the update, once the values have passed validation. */
    method Commit(newName: string, newType: CastMemberType, now: nat)
      requires IsValidName(newName) && createdAt <= updatedAt < now
      modifies this
      ensures Valid()
      ensures name == newName && memberType == newType && updatedAt == now
    {
      name := newName;
      memberType := newType;
      updatedAt := now;
    }
  }

  /**
   * The update test: a member created as "Braian", a director, becomes
   * "Vin Diesel", an actor, keeping its identifier and creation time.
   */
  method UpdateScenario(random: CastMemberIdentity.Uuid, createdAt: nat, later: nat)
    returns (member: CastMember, wasUpdated: nat)
    requires createdAt < later
    ensures member.id == CastMemberIdentity.Unique(random) && member.createdAt == createdAt
    ensures member.name == "Vin Diesel" && member.memberType == Actor
    ensures wasUpdated == createdAt < member.updatedAt
  {
    VinDieselIsValid();
    BraianIsValid();
    var created := CastMember.NewMember(Some("Braian"), Some(Director), random, createdAt);
    member := created.value;
    wasUpdated := member.updatedAt;
    var updated := member.Update(Some("Vin Diesel"), Some(Actor), later);
    assert updated.Success?;
  }
}
