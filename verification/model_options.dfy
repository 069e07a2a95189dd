/** The 25-entry switch vector passed to the model's initialisation. Every
    handler defaults it to 25 ones and rejects any length other than 25; the
    query-string handlers first decode a string value as JSON. */
module ModelOptions {
  import opened Outcomes
  import opened JsonValues

  /** Number of switches the model takes. */
  const OptionCount: nat := 25

  const LengthMessage: string := "options requires a length 25 array"

  /** `[1]*25`: every switch on. */
  function DefaultOptions(): (r: Value)
    ensures r.Arr? && |r.items| == OptionCount
    ensures forall i :: 0 <= i < |r.items| ==> r.items[i] == Num(1.0)
  {
    Arr(seq(OptionCount, _ => Num(1.0)))
  }

  /** `if len(options) != 25: raise ValueError(...)`. A value without a length
      makes `len` raise `TypeError`. The accepted value is passed on unchanged. */
  function CheckLength(options: Value): (r: Result<Value>)
    ensures r.Ok? <==> Len(options) == Some(OptionCount)
    ensures r.Ok? ==> r.value == options
    ensures Len(options).Some? && Len(options).value != OptionCount ==> r == Err(ValueError(LengthMessage))
    ensures Len(options).None? ==> r.Err? && r.error.TypeError?
  {
    match Len(options)
    case None => Err(TypeError("object has no len()"))
    case Some(n) => if n != OptionCount then Err(ValueError(LengthMessage)) else Ok(options)
  }

  /** The default vector passes the length check unchanged, so a request
      without options always reaches the model. */
  lemma DefaultOptionsAccepted()
    ensures CheckLength(DefaultOptions()) == Ok(DefaultOptions())
    ensures BulkOptions(None) == Ok(DefaultOptions())
  {
  }

  /** The bulk endpoint: `data.get("options", [1]*25)` with no decoding, so a
      string in the body is measured in characters. */
  function BulkOptions(given: Option<Value>): (r: Result<Value>)
    ensures given.None? ==> r == Ok(DefaultOptions())
    ensures given.Some? ==> (r.Ok? <==> Len(given.value) == Some(OptionCount))
    ensures given.Some? && r.Ok? ==> r.value == given.value
    ensures given.Some? ==> r == CheckLength(given.value)
  {
    var options := match given case Some(v) => v case None => DefaultOptions();
    CheckLength(options)
  }

  /** The surface and altitude endpoints: `params.get('options', [1]*25)`; a
      string is decoded with `json.loads` (given as `decode`, `None` for text
      it rejects) before the length check. */
  function QueryOptions(given: Option<Value>, decode: string -> Option<Value>): (r: Result<Value>)
    ensures given.None? ==> r == Ok(DefaultOptions())
    ensures given.Some? && given.value.Str? ==>
              (r.Ok? <==> (decode(given.value.s).Some? && Len(decode(given.value.s).value) == Some(OptionCount)))
    ensures given.Some? && given.value.Str? && decode(given.value.s).None? ==> r == Err(BadJson(given.value.s))
    ensures given.Some? && given.value.Str? && decode(given.value.s).Some? ==>
              r == CheckLength(decode(given.value.s).value)
    ensures given.Some? && given.value.Str? && r.Ok? ==> decode(given.value.s) == Some(r.value)
    ensures given.Some? && !given.value.Str? ==> r == CheckLength(given.value)
  {
    var options := match given case Some(v) => v case None => DefaultOptions();
    if options.Str? then
      var decoded :- Need(decode(options.s), BadJson(options.s));
      CheckLength(decoded)
    else
      CheckLength(options)
  }

  /** A JSON string that decodes to a value other than a string is treated
      exactly like that value given already decoded. */
  lemma DecodedStringActsAsValue(text: string, v: Value, decode: string -> Option<Value>)
    requires decode(text) == Some(v) && !v.Str?
    ensures QueryOptions(Some(Str(text)), decode) == QueryOptions(Some(v), decode)
  {
  }
}
