/** The form hook `useForm` of form.js: a bag of input values, a bag of
    errors, and a submit that forwards the values (optionally restricted to an
    allow-list of field names) to a request hook's `send`. */
module Form {
  import opened JsValues
  import Fetching

  /** The part of an input change event the hook reads: `e.target.name` and
      `e.target.value`. */
  datatype ChangeEvent = ChangeEvent(name: string, value: string)

  /** `{...values, [name]: value}`: one key written, every other key kept. */
  function SetField(values: Bag, name: string, value: Value): (r: Bag)
    ensures name in r && r[name] == value
    ensures forall k :: k != name ==> (k in r <==> k in values)
    ensures forall k :: k != name && k in r ==> r[k] == values[k]
  {
    values[name := value]
  }

  /** The bag the submit loop builds: starting from `{}`, each listed field in
      turn is set to its current value (`undefined` when it has none). */
  function Projection(values: Bag, fields: seq<string>): (r: Bag)
    ensures r.Keys == set f | f in fields
    ensures forall k :: k in r ==> r[k] == Lookup(values, k)
    decreases |fields|
  {
    if fields == [] then map[]
    else
      var last := fields[|fields| - 1];
      Projection(values, fields[..|fields| - 1])[last := Lookup(values, last)]
  }

  /** What a submit forwards: the projection when an allow-list is given (an
      empty list is still given, and forwards `{}`), otherwise `values` itself. */
  function Submitted(values: Bag, fields: Option<seq<string>>): (r: Bag)
    ensures fields.None? ==> r == values
    ensures fields.Some? ==> r.Keys == set f | f in fields.value
    ensures forall k :: k in r ==> r[k] == Lookup(values, k)
  {
    match fields
    case None => values
    case Some(fs) => Projection(values, fs)
  }

  /** The `for` loop of `handleSubmit`. */
  method CollectFields(values: Bag, fields: seq<string>) returns (formFields: Bag)
    ensures formFields == Projection(values, fields)
  {
    formFields := map[];
    var i := 0;
    while i < |fields|
      invariant 0 <= i <= |fields|
      invariant formFields == Projection(values, fields[..i])
    {
      var el := fields[i];
      assert fields[..i + 1][..i] == fields[..i];
      formFields := formFields[el := Lookup(values, el)];
      i := i + 1;
    }
    assert fields[..i] == fields;
  }

  /** One mounted `useForm(validate, fetcher, defaultValues, fields)` hook. */
  class FormHook {
    const validate: Bag -> Bag
    const fetcher: Fetching.RequestHook
    const fields: Option<seq<string>>
    var values: Bag
    var errors: Bag

    constructor (validate: Bag -> Bag, fetcher: Fetching.RequestHook, defaultValues: Bag,
                 fields: Option<seq<string>>)
      ensures this.validate == validate && this.fetcher == fetcher && this.fields == fields
      ensures values == defaultValues && errors == map[]
    {
      this.validate := validate;
      this.fetcher := fetcher;
      this.fields := fields;
      values := defaultValues;
      errors := map[];
    }

    method HandleChange(e: ChangeEvent)
      modifies this
      ensures values == SetField(old(values), e.name, Str(e.value))
      ensures errors == old(errors)
    {
      var newValues := values;
      newValues := newValues[e.name := Str(e.value)];
      values := newValues;
    }

    method HandleValueChange(name: string, value: Value)
      modifies this
      ensures values == SetField(old(values), name, value)
      ensures errors == old(errors)
    {
      values := SetField(values, name, value);
    }

    /** Resets the errors to `{}` and, that bag being empty, sends the
        submitted values once; `validate` is never consulted. */
    method HandleSubmit()
      modifies this, fetcher
      ensures errors == map[] && values == old(values)
      ensures fetcher.State() == Fetching.Sent(old(fetcher.State()), fetcher.initData, Some(Submitted(values, fields)))
      ensures fetcher.url == old(fetcher.url) && fetcher.initData == old(fetcher.initData)
    {
      var errorsObj: Bag := map[];
      errors := errorsObj;
      if |errorsObj| == 0 {
        var formFields: Bag := map[];
        if fields.Some? {
          formFields := CollectFields(values, fields.value);
        } else {
          formFields := values;
        }
        fetcher.Send(Some(formFields));
      }
    }
  }

  /** Submitting with the allow-list `['a', 'b']` over `{a: 1, b: 2, c: 3}`
      forwards exactly `{a: 1, b: 2}`. */
  lemma AllowListExample()
    ensures Submitted(map["a" := Num(1), "b" := Num(2), "c" := Num(3)], Some(["a", "b"]))
            == map["a" := Num(1), "b" := Num(2)]
  {
    var values := map["a" := Num(1), "b" := Num(2), "c" := Num(3)];
    var r := Submitted(values, Some(["a", "b"]));
    assert r.Keys == {"a", "b"};
  }

  /** A listed field with no value is forwarded, as `undefined`. */
  lemma MissingFieldIsForwardedUndefined(values: Bag, fields: seq<string>, name: string)
    requires name in fields && name !in values
    ensures name in Submitted(values, Some(fields)) && Submitted(values, Some(fields))[name] == Undefined
  {
  }

  /** When every listed field has a value, the forwarded bag is the part of
      `values` on those fields. */
  lemma ProjectionIsRestriction(values: Bag, fields: seq<string>)
    requires forall f :: f in fields ==> f in values
    ensures Submitted(values, Some(fields)) == map k | k in values && k in fields :: values[k]
  {
  }
}
