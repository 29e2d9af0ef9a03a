/** `BeneficiaryService`: the payload clean-up applied before a beneficiary
    is created or updated, and the two requests that send it. */
module BeneficiaryService {
  import opened Js
  import opened Text

  /** One field after the clean-up: exactly the empty string becomes
      `undefined` (the comparison is strict, so `false`, `0` and `null`
      stay). */
  function ScrubValue(v: JsValue): JsValue
  {
    if v == Str("") then Undefined else v
  }

  /** No field of an object holds the empty string. */
  predicate NoEmptyStrings(o: Obj)
  {
    forall k :: k in o ==> o[k] != Str("")
  }

  /** The payload `formatBeneficiaryData` returns for `data`: the same keys,
      no empty string left, the empty-string fields `undefined` and every
      other value as it was. */
  function Scrubbed(data: Obj): (r: Obj)
    ensures r.Keys == data.Keys
    ensures NoEmptyStrings(r)
    ensures forall k :: k in data && data[k] == Str("") ==> r[k] == Undefined
    ensures forall k :: k in data && data[k] != Str("") ==> r[k] == data[k]
  {
    map k | k in data :: ScrubValue(data[k])
  }

  /** Cleaning a cleaned payload changes nothing. */
  lemma ScrubbedIdempotent(data: Obj)
    ensures Scrubbed(Scrubbed(data)) == Scrubbed(data)
  {
    var once := Scrubbed(data);
    assert forall k :: k in once ==> ScrubValue(once[k]) == once[k];
  }

  /** A payload with no empty string is sent as it is. */
  lemma ScrubbedFixedPoint(data: Obj)
    ensures Scrubbed(data) == data <==> NoEmptyStrings(data)
  {
    if Scrubbed(data) == data {
      forall k | k in data ensures data[k] != Str("") {
        assert Scrubbed(data)[k] == ScrubValue(data[k]);
      }
    }
  }

  /** `formatBeneficiaryData`: copies the object, then visits its keys one
      by one and overwrites each empty-string field with `undefined`. The
      argument is a value, so the caller's object is untouched. */
  method FormatBeneficiaryData(data: Obj) returns (formatted: Obj)
    ensures formatted == Scrubbed(data)
  {
    formatted := data;
    var pending := data.Keys;
    while pending != {}
      invariant pending <= data.Keys
      invariant formatted.Keys == data.Keys
      invariant forall k :: k in data && k in pending ==> formatted[k] == data[k]
      invariant forall k :: k in data && k !in pending ==> formatted[k] == ScrubValue(data[k])
      decreases |pending|
    {
      var key :| key in pending;
      if formatted[key] == Str("") {
        formatted := formatted[key := Undefined];
      }
      pending := pending - {key};
    }
  }

  /** An HTTP request the service sends through the shared client. */
  datatype Request = Request(verb: string, path: string, body: Obj)

  /** `create`: POST the cleaned payload to `/beneficiary`. */
  method Create(data: Obj) returns (req: Request)
    ensures req == Request("POST", "/beneficiary", Scrubbed(data))
    ensures NoEmptyStrings(req.body)
  {
    var formattedData := FormatBeneficiaryData(data);
    req := Request("POST", "/beneficiary", formattedData);
  }

  /** `update`: PATCH the cleaned payload to `/beneficiary/update/<id>`. */
  method Update(id: int, data: Obj) returns (req: Request)
    ensures req == Request("PATCH", "/beneficiary/update/" + IntToString(id), Scrubbed(data))
    ensures NoEmptyStrings(req.body)
  {
    var formattedData := FormatBeneficiaryData(data);
    req := Request("PATCH", "/beneficiary/update/" + IntToString(id), formattedData);
  }
}
