/**
 * The response unwrapper: from the decoded JSON body of a feed response to
 * the value of its `data` member, with the payload variants the CIF server
 * produces straightened out.
 */
module Unwrap {
  import opened Wrappers
  import opened Values
  import opened Text

  /** The exceptions raised while unwrapping. */
  datatype UnwrapError =
    | BodyNotADict           // `msgs.get` on a body that is not a JSON object
    | EnvelopeNotJson        // `json.loads` of the search envelope raises
    | EnvelopeMalformed      // `['hits']['hits']` or `r['_source']` raises
    | NotSuccess             // neither a truthy `status` nor `message == 'success'`
    | SearchFailed(message: Value)  // `status == 'failed'`
    | RecordNotADict         // `m.get` on a record that is not a JSON object
    | NoData                 // `msgs['data']` on a body without `data`

  /** The start of a search-result envelope that the server sends as a string. */
  const EnvelopePrefix: string := "{\"hits\":{\"hits\":[{\"_source\":"

  /** `[r['_source'] for r in hits]`; None when one of the steps raises. */
  function Sources(hits: Value): (r: Option<seq<Value>>)
    ensures hits.List? ==>
      (r.Some? <==> forall i :: 0 <= i < |hits.items| ==> hits.items[i].Dict? && "_source" in hits.items[i].entries)
    ensures hits.List? && r.Some? ==>
      |r.value| == |hits.items| &&
      forall i :: 0 <= i < |hits.items| ==>
        hits.items[i].Dict? && "_source" in hits.items[i].entries && r.value[i] == hits.items[i].entries["_source"]
  {
    match hits
    case List(rs) =>
      if forall i :: 0 <= i < |rs| ==> rs[i].Dict? && "_source" in rs[i].entries
      then Some(seq(|rs|, i requires 0 <= i < |rs| => rs[i].entries["_source"]))
      else None
    // iterating a dict gives its keys and a string its characters; indexing
    // either with '_source' raises, so only the empty ones get through
    case Dict(m) => if m == map[] then Some([]) else None
    case Str(s) => if s == "" then Some([]) else None
    case _ => None
  }

  /** `json.loads(s)['hits']['hits']` turned into the list of `_source` values. */
  function Envelope(s: string, loads: string -> Option<Value>): (r: Result<seq<Value>, UnwrapError>)
    ensures r.Success? ==>
      && loads(s).Some? && loads(s).value.Dict? && "hits" in loads(s).value.entries
      && var outer := loads(s).value.entries["hits"];
      && outer.Dict? && "hits" in outer.entries
      && (outer.entries["hits"].List? ==> |r.value| == |outer.entries["hits"].items|)
  {
    match loads(s)
    case None => Failure(EnvelopeNotJson)
    case Some(doc) =>
      if doc.Dict? && "hits" in doc.entries && doc.entries["hits"].Dict? && "hits" in doc.entries["hits"].entries
      then match Sources(doc.entries["hits"].entries["hits"])
        case None => Failure(EnvelopeMalformed)
        case Some(srcs) => Success(srcs)
      else Failure(EnvelopeMalformed)
  }

  /**
   * The first two rewrites of `data`: the string `'{}'` becomes `[]`, and a
   * search envelope string becomes the list of its `_source` values. None
   * stands for a body without `data`.
   */
  function Reshape(data: Option<Value>, loads: string -> Option<Value>): (r: Result<Option<Value>, UnwrapError>)
    ensures r.Success? ==> (r.value.None? <==> data.None?)
    ensures data.Some? && !data.value.Str? ==> r == Success(data)
    ensures r.Failure? ==> data.Some? && data.value.Str? && StartsWith(data.value.s, EnvelopePrefix)
  {
    var data := if data == Some(Str("{}")) then Some(List([])) else data;
    if data.Some? && data.value.Str? && StartsWith(data.value.s, EnvelopePrefix) then
      match Envelope(data.value.s, loads)
      case Failure(e) => Failure(e)
      case Success(srcs) => Success(Some(List(srcs)))
    else Success(data)
  }

  /** The status check: the body must report success and must not report a failed search. */
  function Validate(msgs: map<string, Value>): (r: Outcome<UnwrapError>)
    ensures r.Pass? <==>
      (Truthy(Get(msgs, "status")) || Get(msgs, "message") == Str("success")) &&
      !(Truthy(Get(msgs, "status")) && Get(msgs, "status") == Str("failed"))
  {
    var status := Get(msgs, "status");
    if !Truthy(status) && Get(msgs, "message") != Str("success") then Fail(NotSuccess)
    else if Truthy(status) && status == Str("failed") then Fail(SearchFailed(Get(msgs, "message")))
    else Pass
  }

  /** The base64 step on one record: a truthy string `message` that decodes is replaced by its decoding. */
  function DecodeRecord(m: map<string, Value>, b64decode: string -> Option<string>): (r: map<string, Value>)
    ensures r.Keys == m.Keys
    ensures forall k :: k in m && k != "message" ==> r[k] == m[k]
  {
    var message := Get(m, "message");
    if Truthy(message) && message.Str? && b64decode(message.s).Some?
    then m["message" := Str(b64decode(message.s).value)]
    else m
  }

  /** The base64 step on every record; None when some record is not a dict. */
  function DecodeAll(records: seq<Value>, b64decode: string -> Option<string>): (r: Option<seq<Value>>)
    ensures r.Some? <==> forall i :: 0 <= i < |records| ==> records[i].Dict?
    ensures r.Some? ==>
      && |r.value| == |records|
      && forall i :: 0 <= i < |records| ==> r.value[i].Dict? && r.value[i].entries.Keys == records[i].entries.Keys
  {
    if forall i :: 0 <= i < |records| ==> records[i].Dict?
    then Some(seq(|records|, i requires 0 <= i < |records| && records[i].Dict? => Dict(DecodeRecord(records[i].entries, b64decode))))
    else None
  }

  /** What the unwrapping part of `_build_iterator` returns (or raises) for the decoded body `msgs`. */
  function Unwrapped(msgs: Value, loads: string -> Option<Value>, b64decode: string -> Option<string>): (r: Result<Value, UnwrapError>)
    ensures r.Success? ==> msgs.Dict? && "data" in msgs.entries && Validate(msgs.entries).Pass?
  {
    if !msgs.Dict? then Failure(BodyNotADict)
    else
      var m := msgs.entries;
      match Reshape(if "data" in m then Some(m["data"]) else None, loads)
      case Failure(e) => Failure(e)
      case Success(data) =>
        match Validate(m)
        case Fail(e) => Failure(e)
        case Pass =>
          match data
          case None => Failure(NoData)
          case Some(List(records)) =>
            (match DecodeAll(records, b64decode)
             case None => Failure(RecordNotADict)
             case Some(out) => Success(List(out)))
          case Some(v) => Success(v)
  }

  /** The loop over the records, decoding each record's `message` in place. */
  method DecodeMessages(records: seq<Value>, b64decode: string -> Option<string>) returns (r: Option<seq<Value>>)
    ensures r == DecodeAll(records, b64decode)
  {
    var data := records;
    var i := 0;
    while i < |data|
      invariant 0 <= i <= |data| == |records|
      invariant forall j :: 0 <= j < i ==> records[j].Dict? && data[j] == Dict(DecodeRecord(records[j].entries, b64decode))
      invariant data[i..] == records[i..]
    {
      var m := data[i];
      assert m == records[i] by {
        assert data[i..][0] == records[i..][0];
      }
      if !m.Dict? {
        return None;
      }
      data := data[i := Dict(DecodeRecord(m.entries, b64decode))];
      i := i + 1;
    }
    assert data == seq(|records|, j requires 0 <= j < |records| && records[j].Dict? => Dict(DecodeRecord(records[j].entries, b64decode)));
    r := Some(data);
  }

  /** The unwrapping part of `_build_iterator`, from `msgs = json.loads(...)` to `return msgs['data']`. */
  method Unwrap(msgs: Value, loads: string -> Option<Value>, b64decode: string -> Option<string>)
    returns (r: Result<Value, UnwrapError>)
    ensures r == Unwrapped(msgs, loads, b64decode)
  {
    if !msgs.Dict? {
      return Failure(BodyNotADict);
    }
    var m := msgs.entries;
    var data: Option<Value> := if "data" in m then Some(m["data"]) else None;
    if data == Some(Str("{}")) {
      data := Some(List([]));
    }
    if data.Some? && data.value.Str? && StartsWith(data.value.s, EnvelopePrefix) {
      var env := Envelope(data.value.s, loads);
      if env.Failure? {
        return Failure(env.error);
      }
      data := Some(List(env.value));
    }
    var check := Validate(m);
    if check.Fail? {
      return Failure(check.error);
    }
    if data.None? {
      return Failure(NoData);
    }
    if data.value.List? {
      var out := DecodeMessages(data.value.items, b64decode);
      if out.None? {
        return Failure(RecordNotADict);
      }
      data := Some(List(out.value));
    }
    r := Success(data.value);
  }

  // ---------------------------------------------------------------------------
  // Properties of the unwrapper

  /** The record carries a truthy string `message` that decodes. */
  predicate Decodable(m: map<string, Value>, b64decode: string -> Option<string>)
  {
    "message" in m && m["message"].Str? && m["message"].s != "" && b64decode(m["message"].s).Some?
  }

  /** A record's `message` is replaced by its decoding when it is a truthy string that decodes, and kept otherwise. */
  lemma MessageDecoded(m: map<string, Value>, b64decode: string -> Option<string>)
    ensures Decodable(m, b64decode) ==> DecodeRecord(m, b64decode)["message"] == Str(b64decode(m["message"].s).value)
    ensures !Decodable(m, b64decode) ==> DecodeRecord(m, b64decode) == m
  {
  }

  /** `data == '{}'` unwraps to the empty list once the status check passes. */
  lemma EmptyObjectString(m: map<string, Value>, loads: string -> Option<Value>, b64decode: string -> Option<string>)
    requires "data" in m && m["data"] == Str("{}")
    ensures Unwrapped(Dict(m), loads, b64decode) ==
      if Validate(m).Pass? then Success(List([])) else Failure(Validate(m).error)
  {
    var none: seq<Value> := [];
    assert DecodeAll(none, b64decode).value == [];
  }

  /**
   * A search envelope unwraps to the `_source` of each hit, in order, each
   * passed through the base64 step, once the status check passes.
   */
  lemma {:induction false} EnvelopeUnwrapped(m: map<string, Value>, hits: seq<Value>,
                                            loads: string -> Option<Value>, b64decode: string -> Option<string>)
    requires "data" in m && m["data"].Str? && StartsWith(m["data"].s, EnvelopePrefix)
    requires loads(m["data"].s).Some? && loads(m["data"].s).value.Dict?
    requires var doc := loads(m["data"].s).value.entries;
      "hits" in doc && doc["hits"].Dict? && "hits" in doc["hits"].entries && doc["hits"].entries["hits"] == List(hits)
    requires forall i :: 0 <= i < |hits| ==> hits[i].Dict? && "_source" in hits[i].entries && hits[i].entries["_source"].Dict?
    requires Validate(m).Pass?
    ensures var r := Unwrapped(Dict(m), loads, b64decode);
      && r.Success? && r.value.List? && |r.value.items| == |hits|
      && forall i :: 0 <= i < |hits| ==>
           r.value.items[i] == Dict(DecodeRecord(hits[i].entries["_source"].entries, b64decode))
  {
    assert m["data"] != Str("{}") by {
      assert |m["data"].s| >= |EnvelopePrefix| > 2;
    }
    var srcs := Sources(List(hits)).value;
    assert Envelope(m["data"].s, loads) == Success(srcs);
    assert Reshape(Some(m["data"]), loads) == Success(Some(List(srcs)));
    assert forall i :: 0 <= i < |srcs| ==> srcs[i].Dict?;
  }

  /** The status check fails the whole unwrapping unless reshaping `data` already raised. */
  lemma StatusChecked(m: map<string, Value>, loads: string -> Option<Value>, b64decode: string -> Option<string>)
    requires Reshape(if "data" in m then Some(m["data"]) else None, loads).Success?
    ensures Validate(m).Fail? ==> Unwrapped(Dict(m), loads, b64decode) == Failure(Validate(m).error)
    ensures !Truthy(Get(m, "status")) && Get(m, "message") != Str("success") ==>
      Unwrapped(Dict(m), loads, b64decode) == Failure(NotSuccess)
    ensures Get(m, "status") == Str("failed") ==>
      Unwrapped(Dict(m), loads, b64decode) == Failure(SearchFailed(Get(m, "message")))
  {
  }

  /** A list `data` keeps its length and, record by record, every field but `message`. */
  lemma {:induction false} ListRecordsKeepFields(m: map<string, Value>, records: seq<Value>,
                                                loads: string -> Option<Value>, b64decode: string -> Option<string>)
    requires "data" in m && m["data"] == List(records)
    requires Unwrapped(Dict(m), loads, b64decode).Success?
    ensures var out := Unwrapped(Dict(m), loads, b64decode).value;
      && out.List? && |out.items| == |records|
      && forall i :: 0 <= i < |records| ==>
           records[i].Dict? && out.items[i].Dict? && out.items[i].entries.Keys == records[i].entries.Keys &&
           (forall k :: k in records[i].entries && k != "message" ==> out.items[i].entries[k] == records[i].entries[k]) &&
           out.items[i] == Dict(DecodeRecord(records[i].entries, b64decode))
  {
    assert Reshape(Some(m["data"]), loads) == Success(Some(List(records)));
    assert DecodeAll(records, b64decode).Some?;
  }

  /** A `data` that is neither a list, nor `'{}'`, nor an envelope string comes back as it is. */
  lemma OtherDataAsIs(m: map<string, Value>, loads: string -> Option<Value>, b64decode: string -> Option<string>)
    requires "data" in m && !m["data"].List? && m["data"] != Str("{}")
    requires !(m["data"].Str? && StartsWith(m["data"].s, EnvelopePrefix))
    requires Validate(m).Pass?
    ensures Unwrapped(Dict(m), loads, b64decode) == Success(m["data"])
  {
  }

  /** A body without `data` that passes the status check raises on `msgs['data']`. */
  lemma MissingData(m: map<string, Value>, loads: string -> Option<Value>, b64decode: string -> Option<string>)
    requires "data" !in m && Validate(m).Pass?
    ensures Unwrapped(Dict(m), loads, b64decode) == Failure(NoData)
  {
  }
}
