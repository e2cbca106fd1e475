/** The domain mood enum and its lenient parser (domain/model/Mood.java). */
module Moods {
  import opened Wrappers
  import opened JavaStrings

  datatype Mood = HAPPY | SAD | EXCITED | RELAXED | ANGRY | NEUTRAL

  /** `Enum.name()`. */
  function Name(m: Mood): string {
    match m
    case HAPPY => "HAPPY"
    case SAD => "SAD"
    case EXCITED => "EXCITED"
    case RELAXED => "RELAXED"
    case ANGRY => "ANGRY"
    case NEUTRAL => "NEUTRAL"
  }

  /** `Enum.valueOf`: the constant with exactly this name, if there is one (the source throws otherwise). */
  function ValueOf(name: string): (r: Option<Mood>)
    ensures r.Some? ==> Name(r.value) == name
  {
    if name == "HAPPY" then Some(HAPPY)
    else if name == "SAD" then Some(SAD)
    else if name == "EXCITED" then Some(EXCITED)
    else if name == "RELAXED" then Some(RELAXED)
    else if name == "ANGRY" then Some(ANGRY)
    else if name == "NEUTRAL" then Some(NEUTRAL)
    else None
  }

  /** `Mood.fromString`: null stays null, otherwise `valueOf` of the upper-cased text, with an unknown name read as null. */
  function FromString(s: Option<string>): Option<Mood> {
    match s
    case None => None
    case Some(text) => ValueOf(ToUpper(text))
  }

  lemma FromStringNull()
    ensures FromString(None) == None
  {
  }

  /** A string parses to `m` exactly when its upper-case form is `m`'s name. */
  lemma FromStringIff(s: string, m: Mood)
    ensures FromString(Some(s)) == Some(m) <==> ToUpper(s) == Name(m)
  {
  }

  /** Parsing cannot tell apart two spellings that differ only in case. */
  lemma FromStringIgnoresCase(a: string, b: string)
    requires EqualsIgnoreCase(a, b)
    ensures FromString(Some(a)) == FromString(Some(b))
  {
    EqualsIgnoreCaseIffSameUpper(a, b);
  }

  /** Every constant's name parses back to that constant. */
  lemma FromStringName(m: Mood)
    ensures FromString(Some(Name(m))) == Some(m)
  {
    var n := Name(m);
    assert ToUpper(n) == n by {
      forall i | 0 <= i < |n| ensures UpperChar(n[i]) == n[i] { }
    }
  }

  /** "STRESSED", one of the frontend's moods, is not a backend mood and parses to null. */
  lemma FromStringStressed()
    ensures FromString(Some("STRESSED")) == None
  {
    assert ToUpper("STRESSED") == "STRESSED";
  }
}
