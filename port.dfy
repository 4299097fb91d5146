/**
  Port normalisation: a certificate record's `port` field arrives as raw
  JSON that may be a string holding an integer or a JSON number.
 */
module Port {
  import opened Results
  import opened Decimal

  /**
    An already-tokenised JSON value. A string carries its decoded text; a
    number carries its literal as written (`443`, `-1`, `4.5`, `1e3`).
   */
  datatype JsonValue =
    | JString(text: string)
    | JNumber(literal: string)
    | JBool(b: bool)
    | JNull
    | JArray(items: seq<JsonValue>)
    | JObject(members: seq<(string, JsonValue)>)

  datatype PortError =
    | NotAnInteger(text: string)         // strconv.Atoi's syntax error on the decoded string
    | Unparseable(raw: Option<JsonValue>) // "unable to parse port"

  /**
    Decoding a raw value into a Go `string`: succeeds on a JSON string, and on
    `null`, which leaves the string empty.
   */
  function DecodeString(raw: Option<JsonValue>): Option<string> {
    match raw
    case Some(JString(t)) => Some(t)
    case Some(JNull) => Some("")
    case _ => None
  }

  /**
    Decoding a raw value into a Go `int`: succeeds on a number whose literal is
    an integer, and on `null`, which leaves the int 0. `ParsePort` never gets
    here with `null`, since the string decoding has taken it already.
   */
  function DecodeInt(raw: Option<JsonValue>): Option<int> {
    match raw
    case Some(JNumber(lit)) => Atoi(lit)
    case Some(JNull) => Some(0)
    case _ => None
  }

  /**
    `parsePort`: the string decoding is tried first and, when it succeeds, its
    Atoi result is final; only otherwise is the integer decoding tried. `None`
    stands for an absent field (an empty raw message).
   */
  function ParsePort(raw: Option<JsonValue>): (r: Result<int, PortError>)
    ensures r.Ok? ==> raw.Some? && (raw.value.JString? || raw.value.JNumber?)
    ensures DecodeString(raw).Some? && r.Err? ==> r == Err(NotAnInteger(DecodeString(raw).value))
  {
    match DecodeString(raw)
    case Some(s) =>
      (match Atoi(s)
       case Some(n) => Ok(n)
       case None => Err(NotAnInteger(s)))
    case None =>
      (match DecodeInt(raw)
       case Some(n) => Ok(n)
       case None => Err(Unparseable(raw)))
  }

  /**
    A JSON string yields exactly what Atoi makes of its text: the integer it
    denotes, or an error when it is not an integer literal. A literal that
    fails is not given a second try as a number.
   */
  lemma ParsePortString(s: string)
    ensures IsIntegerLiteral(s) ==> ParsePort(Some(JString(s))) == Ok(LiteralValue(s))
    ensures !IsIntegerLiteral(s) ==> ParsePort(Some(JString(s))) == Err(NotAnInteger(s))
  {
    AtoiAccepts(s);
  }

  /** A quoted integer, as `"443"`, normalises to that integer. */
  lemma ParsePortQuoted(n: int)
    ensures ParsePort(Some(JString(FormatInt(n)))) == Ok(n)
  {
    AtoiFormatInt(n);
  }

  /** A native JSON integer, as `8443`, is returned unchanged. */
  lemma ParsePortNative(n: int)
    ensures ParsePort(Some(JNumber(FormatInt(n)))) == Ok(n)
  {
    AtoiFormatInt(n);
  }

  /** Any integer literal, canonical or not (such as `-0`), yields the integer it denotes. */
  lemma ParsePortNumberLiteral(lit: string)
    requires IsIntegerLiteral(lit)
    ensures ParsePort(Some(JNumber(lit))) == Ok(LiteralValue(lit))
  {
    AtoiAccepts(lit);
  }

  /** A number with a fraction or an exponent is an error. */
  lemma ParsePortNonInteger(lit: string, k: nat)
    requires k < |lit| && (lit[k] == '.' || lit[k] == 'e' || lit[k] == 'E')
    ensures ParsePort(Some(JNumber(lit))) == Err(Unparseable(Some(JNumber(lit))))
  {
    AtoiAccepts(lit);
    if 0 < k {
      assert lit[k] == lit[1..][k - 1];
    }
    assert !IsIntegerLiteral(lit);
  }

  /** Booleans, null, arrays, objects and an absent field are all errors. */
  lemma ParsePortOtherShapes(raw: Option<JsonValue>)
    requires raw.None? || !(raw.value.JString? || raw.value.JNumber?)
    ensures ParsePort(raw).Err?
  {
  }
}
