/** The claim types the FHIR server supports (ClaimType): their constant
    attributes and the lookup of a claim type from its lower-cased name. The JPA
    metamodel attributes, entity classes and transformer functions the constants
    carry are foreign objects and are represented by their names. */
module ClaimTypes {
  import opened Wrappers

  datatype ClaimType = PDE

  /** values(): the constants in declaration order. */
  function Values(): seq<ClaimType>
  {
    [PDE]
  }

  /** name(): the constant's identifier. */
  function Name(c: ClaimType): string
  {
    match c
    case PDE => "PDE"
  }

  predicate IsUpperAscii(ch: char) { 'A' <= ch <= 'Z' }

  /** toLowerCase on one character. The constant names are plain ASCII, for which
      this agrees with Java's case mapping. */
  function LowerChar(ch: char): (l: char)
    ensures !IsUpperAscii(l)
    ensures !IsUpperAscii(ch) ==> l == ch
    ensures IsUpperAscii(ch) ==> l as int == ch as int + 32
  {
    if IsUpperAscii(ch) then (ch as int - 'A' as int + 'a' as int) as char else ch
  }

  function ToLowerCase(s: string): (l: string)
    ensures |l| == |s|
    ensures forall i :: 0 <= i < |s| ==> l[i] == LowerChar(s[i])
  {
    seq(|s|, i requires 0 <= i < |s| => LowerChar(s[i]))
  }

  /** The lower-cased names of the given claim types, in order. */
  function LowerNames(cs: seq<ClaimType>): (names: seq<string>)
    ensures |names| == |cs|
    ensures forall i :: 0 <= i < |cs| ==> names[i] == ToLowerCase(Name(cs[i]))
  {
    seq(|cs|, i requires 0 <= i < |cs| => ToLowerCase(Name(cs[i])))
  }

  /** The position of the first name that equals the text exactly (the
      comparison itself is case-sensitive). */
  function FirstMatch(names: seq<string>, text: string): (r: Option<nat>)
    ensures r.Some? ==> r.value < |names| && names[r.value] == text
                        && forall k :: 0 <= k < r.value ==> names[k] != text
    ensures r.None? <==> forall j :: 0 <= j < |names| ==> names[j] != text
    decreases |names|
  {
    if names == [] then None
    else if names[0] == text then Some(0)
    else
      match FirstMatch(names[1..], text)
      case None => None
      case Some(j) => Some(j + 1)
  }

  /** The claim type whose lower-cased name is the text, if any: the first in
      declaration order. */
  function Parsed(claimTypeText: string): Option<ClaimType>
  {
    var values := Values();
    match FirstMatch(LowerNames(values), claimTypeText)
    case None => None
    case Some(i) => Some(values[i])
  }

  /** parse: the constants in order, returning the first whose lower-cased name
      equals the text. It never throws. */
  method Parse(claimTypeText: string) returns (r: Option<ClaimType>)
    ensures r == Parsed(claimTypeText)
  {
    var values := Values();
    ghost var names := LowerNames(values);
    for i := 0 to |values|
      invariant forall k :: 0 <= k < i ==> names[k] != claimTypeText
    {
      if ToLowerCase(Name(values[i])) == claimTypeText {
        assert FirstMatch(names, claimTypeText) == Some(i);
        return Some(values[i]);
      }
    }
    return None;
  }

  /** Every claim type is recovered from its lower-cased name. */
  lemma ParseLowerCasedName(c: ClaimType)
    ensures Parsed(ToLowerCase(Name(c))) == Some(c)
  {
    assert Values()[0] == PDE;
  }

  /** A parsed claim type's lower-cased name is exactly the text, and text that
      is no lower-cased name parses to nothing. */
  lemma ParseIsExact(text: string)
    ensures Parsed(text).Some? ==> ToLowerCase(Name(Parsed(text).value)) == text
    ensures Parsed(text).None? <==> forall c: ClaimType :: ToLowerCase(Name(c)) != text
  {
    if Parsed(text).None? {
      forall c: ClaimType ensures ToLowerCase(Name(c)) != text {
        assert Values()[0] == c;
      }
    }
  }

  /** Only the constant names are lower-cased: text holding any upper-case
      letter, such as the name itself, parses to nothing. */
  lemma ParseIsCaseSensitive(text: string, i: nat)
    requires i < |text| && IsUpperAscii(text[i])
    ensures Parsed(text) == None
  {
    ParseIsExact(text);
  }

  lemma ParseExamples()
    ensures Parsed("pde") == Some(PDE)
    ensures Parsed("PDE") == None
  {
    ParseLowerCasedName(PDE);
    assert ToLowerCase(Name(PDE)) == "pde";
    ParseIsCaseSensitive("PDE", 0);
  }

  // ------------------------------------------------------------ constant attributes

  /** The fields every constant holds, all final. */
  datatype ClaimTypeAttributes = ClaimTypeAttributes(
    entityClass: string,
    entityIdAttribute: string,
    entityBeneficiaryIdAttribute: string,
    transformer: string,
    entityLazyAttributes: seq<string>)

  /** The enum constructor: the first four arguments are kept as given; the lazy
      attributes (a varargs array, None for a null array) become an unmodifiable
      list of the same elements, or an empty list when the array is null. */
  function NewClaimType(entityClass: string, entityIdAttribute: string, entityBeneficiaryIdAttribute: string,
                        transformer: string, entityLazyAttributes: Option<seq<string>>): ClaimTypeAttributes
  {
    ClaimTypeAttributes(entityClass, entityIdAttribute, entityBeneficiaryIdAttribute, transformer,
                        match entityLazyAttributes case None => [] case Some(attributes) => attributes)
  }

  /** The arguments each constant is declared with; PDE passes no lazy attributes,
      which Java hands over as an empty varargs array. */
  function Attributes(c: ClaimType): ClaimTypeAttributes
  {
    match c
    case PDE => NewClaimType("PartDEvent", "PartDEvent_.eventId", "PartDEvent_.beneficiaryId",
                             "PartDEventTransformerV2::transform", Some([]))
  }

  function GetEntityClass(c: ClaimType): string { Attributes(c).entityClass }
  function GetEntityIdAttribute(c: ClaimType): string { Attributes(c).entityIdAttribute }
  function GetEntityBeneficiaryIdAttribute(c: ClaimType): string { Attributes(c).entityBeneficiaryIdAttribute }
  function GetTransformer(c: ClaimType): string { Attributes(c).transformer }
  function GetEntityLazyAttributes(c: ClaimType): seq<string> { Attributes(c).entityLazyAttributes }

  /** Each getter of a constructed constant returns its constructor argument, the
      lazy attributes defaulting to empty for a null array and otherwise keeping
      the array's elements in order. */
  lemma ConstructorArgumentsAreKept(entityClass: string, entityIdAttribute: string, entityBeneficiaryIdAttribute: string,
                                    transformer: string, entityLazyAttributes: Option<seq<string>>)
    ensures var a := NewClaimType(entityClass, entityIdAttribute, entityBeneficiaryIdAttribute, transformer, entityLazyAttributes);
      && a.entityClass == entityClass
      && a.entityIdAttribute == entityIdAttribute
      && a.entityBeneficiaryIdAttribute == entityBeneficiaryIdAttribute
      && a.transformer == transformer
      && (entityLazyAttributes.None? ==> a.entityLazyAttributes == [])
      && (entityLazyAttributes.Some? ==> a.entityLazyAttributes == entityLazyAttributes.value)
  {
  }

  /** PDE reports its Part D event entity and no lazily fetched attributes. */
  lemma PdeAttributes()
    ensures GetEntityClass(PDE) == "PartDEvent"
    ensures GetEntityIdAttribute(PDE) == "PartDEvent_.eventId"
    ensures GetEntityBeneficiaryIdAttribute(PDE) == "PartDEvent_.beneficiaryId"
    ensures GetTransformer(PDE) == "PartDEventTransformerV2::transform"
    ensures GetEntityLazyAttributes(PDE) == []
  {
  }
}
