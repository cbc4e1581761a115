/**
  The part of the JSON object model the curve converters work with: a loaded
  JSON object is a sequence of named properties with distinct names, in
  insertion order, and each property holds a token.  Also the conversion of
  a token to a rational, and the exceptions a read may raise.
*/
module Json {
  import opened Wrappers

  /**
    A property value.  `RationalToken(r)` is the token written for the
    rational number `r`, and the only token that converts back to a rational;
    the others stand for strings, null and any other JSON value.
  */
  datatype Token =
    | RationalToken(r: real)
    | StringToken(s: string)
    | NullToken
    | OtherToken

  datatype Property = Property(name: string, value: Token)

  /** No two properties share a name. */
  predicate UniqueNames(props: seq<Property>) {
    forall i, j :: 0 <= i < j < |props| ==> props[i].name != props[j].name
  }

  /** A `JObject`: its properties in insertion order, with distinct names. */
  type JObject = props: seq<Property> | UniqueNames(props)

  /** The property names, in order. */
  function Names(props: seq<Property>): (names: seq<string>)
    ensures |names| == |props|
    ensures forall i :: 0 <= i < |props| ==> names[i] == props[i].name
  {
    if props == [] then [] else [props[0].name] + Names(props[1..])
  }

  /** `jo[name]`: the value of the property called `name`, or null when there is none. */
  function Get(props: seq<Property>, name: string): (r: Option<Token>)
    ensures r.None? <==> name !in Names(props)
    ensures r.Some? ==> Property(name, r.value) in props
  {
    if props == [] then None
    else if props[0].name == name then Some(props[0].value)
    else Get(props[1..], name)
  }

  /** `props` with `p` inserted at position `k`. */
  function Insert(props: seq<Property>, k: nat, p: Property): (r: seq<Property>)
    requires k <= |props|
    ensures |r| == |props| + 1 && r[k] == p
    ensures forall i :: 0 <= i < k ==> r[i] == props[i]
    ensures forall i :: k < i < |r| ==> r[i] == props[i - 1]
  {
    props[..k] + [p] + props[k..]
  }

  /** Inserting a property under a new name keeps the names distinct. */
  lemma InsertKeepsNamesUnique(props: seq<Property>, k: nat, p: Property)
    requires UniqueNames(props) && k <= |props| && p.name !in Names(props)
    ensures UniqueNames(Insert(props, k, p))
  {
    var extended := Insert(props, k, p);
    forall i, j | 0 <= i < j < |extended|
      ensures extended[i].name != extended[j].name
    {
      if i == k {
        assert Names(props)[j - 1] == props[j - 1].name;
      } else if j == k {
        assert Names(props)[i] == props[i].name;
      }
    }
  }

  /** Inserting a property with another name, anywhere, does not change what `jo[name]` finds. */
  lemma {:induction false} GetAfterInsert(props: seq<Property>, k: nat, p: Property, name: string)
    requires k <= |props| && p.name != name
    ensures Get(Insert(props, k, p), name) == Get(props, name)
    decreases k
  {
    var extended := Insert(props, k, p);
    if k == 0 {
      assert extended[1..] == props;
    } else {
      assert extended[1..] == Insert(props[1..], k - 1, p);
      GetAfterInsert(props[1..], k - 1, p, name);
    }
  }

  /** In an object with distinct names, `jo[name]` finds the value of the one property called `name`. */
  lemma GetFindsProperty(props: seq<Property>, i: nat)
    requires UniqueNames(props) && i < |props|
    ensures Get(props, props[i].name) == Some(props[i].value)
  {
  }

  /** What the converters raise. */
  datatype Exception =
    | ArgumentNullException(paramName: string)
    | NullReferenceException
    | InvalidCastException
    | JsonSerializationException

  /** `token.ToObject<Rational>()`: only a rational's own token converts back. */
  function ToRational(token: Token): (r: Result<real, Exception>)
    ensures r.Success? <==> token.RationalToken?
    ensures r.Success? ==> token == RationalToken(r.value)
    ensures r.Failure? ==> r.error == JsonSerializationException
  {
    match token
    case RationalToken(x) => Success(x)
    case _ => Failure(JsonSerializationException)
  }

  /**
    `jo[name]!.ToObject<Rational>()`: a missing property gives a null token,
    and calling a method on it raises a null reference exception.
  */
  function ReadRational(jo: JObject, name: string): (r: Result<real, Exception>)
    ensures r.Success? ==> Get(jo, name) == Some(RationalToken(r.value))
    ensures Get(jo, name).Some? && Get(jo, name).value.RationalToken? ==> r == Success(Get(jo, name).value.r)
    ensures name !in Names(jo) <==> r == Failure(NullReferenceException)
    ensures r.Failure? ==> r.error in {NullReferenceException, JsonSerializationException}
  {
    match Get(jo, name)
    case None => Failure(NullReferenceException)
    case Some(token) => ToRational(token)
  }
}
