/** The domain gender enum and its lenient parser (domain/model/Gender.java). */
module Genders {
  import opened Wrappers
  import opened JavaStrings

  datatype Gender = MALE | FEMALE | NON_BINARY | ALL

  /** `Enum.name()`. */
  function Name(g: Gender): string {
    match g
    case MALE => "MALE"
    case FEMALE => "FEMALE"
    case NON_BINARY => "NON_BINARY"
    case ALL => "ALL"
  }

  /** `Enum.valueOf`: the constant with exactly this name, if there is one (the source throws otherwise). */
  function ValueOf(name: string): (r: Option<Gender>)
    ensures r.Some? ==> Name(r.value) == name
  {
    if name == "MALE" then Some(MALE)
    else if name == "FEMALE" then Some(FEMALE)
    else if name == "NON_BINARY" then Some(NON_BINARY)
    else if name == "ALL" then Some(ALL)
    else None
  }

  /** `Gender.fromString`: null stays null, otherwise `valueOf` of the upper-cased text, with an unknown name read as null. */
  function FromString(s: Option<string>): Option<Gender> {
    match s
    case None => None
    case Some(text) => ValueOf(ToUpper(text))
  }

  lemma FromStringNull()
    ensures FromString(None) == None
  {
  }

  /** A string parses to `g` exactly when its upper-case form is `g`'s name. */
  lemma FromStringIff(s: string, g: Gender)
    ensures FromString(Some(s)) == Some(g) <==> ToUpper(s) == Name(g)
  {
  }

  /** Parsing cannot tell apart two spellings that differ only in case. */
  lemma FromStringIgnoresCase(a: string, b: string)
    requires EqualsIgnoreCase(a, b)
    ensures FromString(Some(a)) == FromString(Some(b))
  {
    EqualsIgnoreCaseIffSameUpper(a, b);
  }

  /** Every constant's name parses back to that constant. */
  lemma FromStringName(g: Gender)
    ensures FromString(Some(Name(g))) == Some(g)
  {
    var n := Name(g);
    assert ToUpper(n) == n by {
      forall i | 0 <= i < |n| ensures UpperChar(n[i]) == n[i] { }
    }
  }

  /** "OTHER", which the frontend offers, is not a backend gender and parses to null. */
  lemma FromStringOther()
    ensures FromString(Some("OTHER")) == None
  {
    assert ToUpper("OTHER") == "OTHER";
  }
}
