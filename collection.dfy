/** The Collection facade and the `Gated` field: a JSON member that the Hub sends as
    either a boolean or a string. */
module CollectionApi {
  import opened Errors
  import opened Encoding
  import opened Http

  const UnsupportedPrefix := "unsupported type for Gated: "
  const CollectionsFailedPrefix := "failed to get collections: "

  /** The dynamic value a Gated field holds: nothing yet, a boolean or a string. */
  datatype GatedVal = Absent | B(b: bool) | S(s: string)

  /** json.Unmarshal of `data` into a bool: only a JSON boolean fits. */
  function AsBool(data: string, parse: Parser): Result<bool> {
    match parse(data)
    case Err(e) => Err(e)
    case Ok(JBool(b)) => Ok(b)
    case Ok(_) => Err(Plain("cannot unmarshal " + data + " into a bool"))
  }

  /** json.Unmarshal of `data` into a string: only a JSON string fits. */
  function AsString(data: string, parse: Parser): Result<string> {
    match parse(data)
    case Err(e) => Err(e)
    case Ok(JString(s)) => Ok(s)
    case Ok(_) => Err(Plain("cannot unmarshal " + data + " into a string"))
  }

  /** Gated's decoding of the raw member `data`: a boolean if it is one, else a string
      if it is one, else an error naming the raw text. It never yields "no value". */
  function DecodeGated(data: string, parse: Parser): (r: Result<GatedVal>)
    ensures r.Ok? ==> !r.value.Absent?
    ensures (r.Ok? && r.value.B?) <==> (parse(data).Ok? && parse(data).value.JBool?)
    ensures r.Ok? && r.value.B? ==> parse(data) == Ok(JBool(r.value.b))
    ensures (r.Ok? && r.value.S?) <==> (parse(data).Ok? && parse(data).value.JString?)
    ensures r.Ok? && r.value.S? ==> parse(data) == Ok(JString(r.value.s)) && AsBool(data, parse).Err?
    ensures r.Err? <==> (parse(data).Err? || !(parse(data).value.JBool? || parse(data).value.JString?))
    ensures r.Err? ==> r.error == Plain(UnsupportedPrefix + data)
  {
    match AsBool(data, parse)
    case Ok(b) => Ok(B(b))
    case Err(_) =>
      match AsString(data, parse)
      case Ok(s) => Ok(S(s))
      case Err(_) => Err(Plain(UnsupportedPrefix + data))
  }

  /** A Gated field: zero (no value) until a decode stores a boolean or a string. */
  class Gated {
    var val: GatedVal

    /** The zero value, as `var g Gated` declares it. */
    constructor ()
      ensures Value() == Absent
    {
      val := Absent;
    }

    /** The stored value, unconverted. */
    function Value(): (v: GatedVal)
      reads this
      ensures v == val
    {
      val
    }

    /** UnmarshalJSON: a successful decode replaces the stored value; a failed one leaves
        it as it was. */
    method UnmarshalJSON(data: string, parse: Parser) returns (err: Outcome)
      modifies this
      ensures DecodeGated(data, parse).Ok? ==> err == Pass && Value() == DecodeGated(data, parse).value
      ensures DecodeGated(data, parse).Err? ==> err == Fail(DecodeGated(data, parse).error) && Value() == old(Value())
    {
      var b := AsBool(data, parse);
      if b.Ok? {
        val := B(b.value);
        return Pass;
      }
      var s := AsString(data, parse);
      if s.Ok? {
        val := S(s.value);
        return Pass;
      }
      err := Fail(Plain(UnsupportedPrefix + data));
    }
  }

  /** The `gated` member of an enclosing object: missing, or present with its raw text. */
  datatype Member = Missing | Present(raw: string)

  /** Decoding the enclosing object: the field's decoder runs only for a member that is
      present; a missing member leaves the field at its zero value without an error. */
  function DecodeGatedMember(member: Member, parse: Parser): (r: Result<GatedVal>)
    ensures member.Missing? ==> r == Ok(Absent)
    ensures r == Ok(Absent) ==> member.Missing?
    ensures member.Present? ==> r == DecodeGated(member.raw, parse)
  {
    match member
    case Missing => Ok(Absent)
    case Present(raw) => DecodeGated(raw, parse)
  }

  /** The outcomes huggo's own tests expect, for any parser that reads their inputs
      the way encoding/json does. */
  lemma GatedExamples(parse: Parser)
    requires parse("true") == Ok(JBool(true)) && parse("false") == Ok(JBool(false))
    requires parse("\"gated\"") == Ok(JString("gated"))
    requires parse("69") == Ok(JNumber("69")) && parse("42") == Ok(JNumber("42"))
    requires parse("not JSON").Err?
    ensures DecodeGated("true", parse) == Ok(B(true))
    ensures DecodeGated("false", parse) == Ok(B(false))
    ensures DecodeGated("\"gated\"", parse) == Ok(S("gated"))
    ensures DecodeGated("69", parse).Err? && DecodeGated("not JSON", parse).Err?
    ensures DecodeGatedMember(Present("42"), parse).Err?
    ensures DecodeGatedMember(Missing, parse) == Ok(Absent)
  {
  }

  /** The Collection facade. */
  datatype Collection = Collection(httpClient: HttpClient)
  {
    /** GetCollections: GET /collections into an empty list; a failure comes back
        wrapped with %w, so errors.Is still finds the cause. */
    function GetCollections(decode: Decoder<seq<Dto>>): (r: Result<seq<Dto>>)
      ensures httpClient.Send(GET, "/collections", NoBody, [], decode).err.Pass? ==>
        r == Ok(httpClient.Send(GET, "/collections", NoBody, [], decode).out)
      ensures httpClient.Send(GET, "/collections", NoBody, [], decode).err.Fail? ==>
        var cause := httpClient.Send(GET, "/collections", NoBody, [], decode).err.error;
        && r == Err(Wrapped(CollectionsFailedPrefix + cause.text, cause))
        && r.error.Is(cause)
    {
      var rep := httpClient.Send(GET, "/collections", NoBody, [], decode);
      match rep.err
      case Pass => Ok(rep.out)
      case Fail(e) => Err(Wrapped(CollectionsFailedPrefix + e.text, e))
    }
  }
}
