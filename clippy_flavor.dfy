/** The strictness flavor shared by both wrappers: a closed three-variant
    enum with a declared default, a derived order and a lowercase rendering
    that doubles as its command-line token. */
module ClippyFlavor {
  import opened Wrappers

  /** Declaration order matters: the derived `Ord` ranks variants by it. */
  datatype Flavor = Pedantic | Development | Prototype

  /** The `#[default]` variant. */
  const DEFAULT: Flavor := Development

  /** Canonical lowercase rendering (`Display::fmt`). */
  function ToString(f: Flavor): (s: string)
  {
    match f
    case Pedantic => "pedantic"
    case Development => "development"
    case Prototype => "prototype"
  }

  /** The value parser for a flavor argument: exactly the three rendered
      tokens are accepted, case-sensitively; anything else is rejected. */
  function Parse(token: string): (r: Option<Flavor>)
    ensures r.Some? ==> ToString(r.value) == token
    ensures r.None? <==> forall f :: ToString(f) != token
  {
    if token == "pedantic" then Some(Pedantic)
    else if token == "development" then Some(Development)
    else if token == "prototype" then Some(Prototype)
    else None
  }

  /** The optional positional flavor argument: omitted means the default. */
  function ParseArg(arg: Option<string>): (r: Option<Flavor>)
    ensures arg.None? ==> r == Some(DEFAULT)
    ensures arg.Some? ==> (r.Some? <==> exists f :: ToString(f) == arg.value)
    ensures arg.Some? && r.Some? ==> ToString(r.value) == arg.value
  {
    match arg
    case None => Some(DEFAULT)
    case Some(token) => Parse(token)
  }

  /** Position of a variant in the declaration, which the derived order compares. */
  function Rank(f: Flavor): nat
  {
    match f
    case Pedantic => 0
    case Development => 1
    case Prototype => 2
  }

  /** The derived `<` on flavors. */
  predicate Less(a: Flavor, b: Flavor)
  {
    Rank(a) < Rank(b)
  }

  /** Every rendering is a non-empty run of lowercase letters. */
  lemma ToStringLowercase(f: Flavor)
    ensures |ToString(f)| > 0
    ensures forall i :: 0 <= i < |ToString(f)| ==> 'a' <= ToString(f)[i] <= 'z'
  {
  }

  lemma DefaultIsDevelopment()
    ensures DEFAULT == Development && ToString(DEFAULT) == "development"
  {
  }

  /** Rendering is injective: distinct variants give distinct tokens. */
  lemma ToStringInjective(a: Flavor, b: Flavor)
    ensures ToString(a) == ToString(b) <==> a == b
  {
  }

  /** Parsing the rendering of any variant gives that variant back. */
  lemma ParseToString(f: Flavor)
    ensures Parse(ToString(f)) == Some(f)
  {
  }

  /** Whatever parses renders back to the very token that was parsed. */
  lemma ToStringParse(token: string)
    ensures Parse(token).Some? ==> ToString(Parse(token).value) == token
    ensures Parse(token).None? ==>
              token != "pedantic" && token != "development" && token != "prototype"
  {
  }

  /** The derived order is the declaration order and is a strict total order. */
  lemma DeclarationOrder(a: Flavor, b: Flavor, c: Flavor)
    ensures Less(Pedantic, Development) && Less(Development, Prototype)
    ensures !Less(a, a)
    ensures Less(a, b) && Less(b, c) ==> Less(a, c)
    ensures a == b || Less(a, b) || Less(b, a)
  {
  }
}
