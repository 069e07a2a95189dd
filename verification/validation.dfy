/** `validate_event`: the checks the bulk endpoint applies to a decoded
    request body before anything is computed. Three checks run in a fixed
    order and the first violation aborts with a `ValueError`:
    required fields present and iterable, per-date arrays as long as the
    date list, and a cap on the number of grid points. */
module Validation {
  import opened Outcomes
  import opened JsonValues

  /** A decoded request body: a JSON object. */
  type Event = map<string, Value>

  /** The required fields, in the order they are checked. */
  const RequiredFields: seq<string> := ["dates", "lons", "lats", "alts", "f107s", "f107as", "aps"]

  /** The largest number of grid points one request may ask for. */
  const MaxSize: nat := 10000

  const LengthMessage: string := "Dates, F107, F107a, and Ap must be the same length."
  const TooManyMessage: string := "Too many calculations requested. The maximum number of points is 10000"

  function MissingMessage(field: string): string {
    field + " is required as input."
  }

  function NotIterableMessage(field: string): string {
    field + " must be an iterable."
  }

  /** Success or the error that rejected the request. */
  datatype Outcome = Pass | Fail(error: Error)

  /** The field passes the first check: present, and its value iterable. */
  predicate FieldOk(event: Event, field: string) {
    field in event && Iterable(event[field])
  }

  /** Every field before position `i` passed the first check. */
  predicate OkBefore(event: Event, fields: seq<string>, i: nat)
    requires i <= |fields|
  {
    forall j :: 0 <= j < i ==> FieldOk(event, fields[j])
  }

  /** The error reported for a field that fails the first check. */
  function FieldError(event: Event, field: string): Error {
    if field !in event then ValueError(MissingMessage(field))
    else ValueError(NotIterableMessage(field))
  }

  /** The first check, over a list of fields in order: the first field that is
      absent or not iterable is reported, and no later field is looked at. */
  function CheckFields(event: Event, fields: seq<string>): (r: Outcome)
    ensures r.Pass? <==> OkBefore(event, fields, |fields|)
    ensures forall i :: 0 <= i < |fields| && OkBefore(event, fields, i) && !FieldOk(event, fields[i]) ==>
              r == Fail(FieldError(event, fields[i]))
  {
    if fields == [] then Pass
    else if fields[0] !in event then Fail(ValueError(MissingMessage(fields[0])))
    else if !Iterable(event[fields[0]]) then Fail(ValueError(NotIterableMessage(fields[0])))
    else
      var rest := CheckFields(event, fields[1..]);
      assert forall i :: 1 <= i <= |fields| ==> (OkBefore(event, fields, i) <==> OkBefore(event, fields[1..], i - 1));
      rest
  }

  /** The length of a field that passed the first check. */
  function FieldLen(event: Event, field: string): nat
    requires FieldOk(event, field)
  {
    Len(event[field]).value
  }

  /** All seven fields passed the first check. */
  predicate FieldsOk(event: Event) {
    OkBefore(event, RequiredFields, |RequiredFields|)
  }

  /** The per-date arrays are exactly as long as the date list. */
  predicate LengthsAgree(event: Event)
    requires FieldsOk(event)
  {
    assert FieldOk(event, RequiredFields[0]) && FieldOk(event, RequiredFields[4])
        && FieldOk(event, RequiredFields[5]) && FieldOk(event, RequiredFields[6]);
    var n := FieldLen(event, "dates");
    FieldLen(event, "f107s") == n && FieldLen(event, "f107as") == n && FieldLen(event, "aps") == n
  }

  /** Number of points of the Cartesian grid dates x lons x lats x alts. */
  function GridPoints(event: Event): nat
    requires FieldsOk(event)
  {
    assert FieldOk(event, RequiredFields[0]) && FieldOk(event, RequiredFields[1])
        && FieldOk(event, RequiredFields[2]) && FieldOk(event, RequiredFields[3]);
    FieldLen(event, "dates") * FieldLen(event, "lons") * FieldLen(event, "lats") * FieldLen(event, "alts")
  }

  /** The requests the endpoint serves. */
  predicate Acceptable(event: Event) {
    FieldsOk(event) && LengthsAgree(event) && GridPoints(event) <= MaxSize
  }

  /** `validate_event`. The contract determines the outcome for every event:
      it passes exactly the acceptable events, and otherwise names the first
      violation in the order fields, lengths, size. */
  function Validate(event: Event): (r: Outcome)
    ensures r.Pass? <==> Acceptable(event)
    ensures forall i :: (0 <= i < |RequiredFields| && OkBefore(event, RequiredFields, i)
                         && RequiredFields[i] !in event) ==>
              r == Fail(ValueError(MissingMessage(RequiredFields[i])))
    ensures forall i :: (0 <= i < |RequiredFields| && OkBefore(event, RequiredFields, i)
                         && RequiredFields[i] in event && !Iterable(event[RequiredFields[i]])) ==>
              r == Fail(ValueError(NotIterableMessage(RequiredFields[i])))
    ensures FieldsOk(event) && !LengthsAgree(event) ==> r == Fail(ValueError(LengthMessage))
    ensures FieldsOk(event) && LengthsAgree(event) && GridPoints(event) > MaxSize ==>
              r == Fail(ValueError(TooManyMessage))
  {
    match CheckFields(event, RequiredFields)
    case Fail(e) => Fail(e)
    case Pass =>
      assert FieldOk(event, RequiredFields[0]) && FieldOk(event, RequiredFields[1])
          && FieldOk(event, RequiredFields[2]) && FieldOk(event, RequiredFields[3])
          && FieldOk(event, RequiredFields[4]) && FieldOk(event, RequiredFields[5])
          && FieldOk(event, RequiredFields[6]);
      var ndates := Len(event["dates"]).value;
      if Len(event["f107s"]).value != ndates || Len(event["f107as"]).value != ndates
         || Len(event["aps"]).value != ndates then
        Fail(ValueError(LengthMessage))
      else if ndates * Len(event["lons"]).value * Len(event["lats"]).value * Len(event["alts"]).value > MaxSize then
        Fail(ValueError(TooManyMessage))
      else
        Pass
  }

  /** An accepted event holds all seven fields, each with a length, the
      per-date fields as long as the date list, and at most `MaxSize` points. */
  lemma AcceptedFields(event: Event)
    requires Acceptable(event)
    ensures forall f :: f in RequiredFields ==> f in event && Len(event[f]).Some?
    ensures Len(event["f107s"]) == Len(event["dates"]) && Len(event["f107as"]) == Len(event["dates"])
            && Len(event["aps"]) == Len(event["dates"])
    ensures Len(event["dates"]).value * Len(event["lons"]).value * Len(event["lats"]).value
            * Len(event["alts"]).value <= MaxSize
  {
  }

  /** A list of `n` zeros. */
  function Zeros(n: nat): (v: Value)
    ensures Len(v) == Some(n)
  {
    Arr(seq(n, _ => Num(0.0)))
  }

  /** A well-formed request on a grid of the given dimensions. */
  function GridEvent(ndates: nat, nlons: nat, nlats: nat, nalts: nat): (e: Event)
    ensures FieldsOk(e) && LengthsAgree(e)
    ensures GridPoints(e) == ndates * nlons * nlats * nalts
  {
    var e := map["dates" := Zeros(ndates), "lons" := Zeros(nlons), "lats" := Zeros(nlats),
                 "alts" := Zeros(nalts), "f107s" := Zeros(ndates), "f107as" := Zeros(ndates),
                 "aps" := Zeros(ndates)];
    assert forall j :: 0 <= j < |RequiredFields| ==> FieldOk(e, RequiredFields[j]);
    e
  }

  /** 3 dates x 10 longitudes x 10 latitudes x 34 altitudes is 10200 points
      and is refused; exactly 10000 points is served. */
  lemma SizeCapExamples()
    ensures Validate(GridEvent(3, 10, 10, 34)) == Fail(ValueError(TooManyMessage))
    ensures Validate(GridEvent(1, 10, 10, 100)) == Pass
  {
  }

  /** With every field present, two dates but three F10.7 values are refused
      for their lengths. */
  lemma LengthMismatchExample()
    ensures Validate(GridEvent(2, 1, 1, 1)["f107s" := Zeros(3)]) == Fail(ValueError(LengthMessage))
  {
  }

  /** Presence is checked before anything else: without `dates`, the error
      names `dates` whatever the other fields hold. */
  lemma MissingDatesReported(event: Event)
    requires "dates" !in event
    ensures Validate(event) == Fail(ValueError("dates is required as input."))
  {
    assert OkBefore(event, RequiredFields, 0) && RequiredFields[0] == "dates";
    assert MissingMessage(RequiredFields[0]) == "dates is required as input.";
  }
}
