/**
 * The record normaliser: how one raw feed record becomes the
 * `[[indicator, attributes]]` pair handed to the indicator store, or the drop
 * sentinel `[[None, None]]`.
 */
module Normalizer {
  import opened Wrappers
  import opened Values
  import opened Text

  /** The field list the miner is configured with. */
  const Fields: seq<string> :=
    ["tlp", "group", "reporttime", "indicator", "firsttime", "lasttime", "count", "tags",
     "description", "confidence", "rdata", "provider"]

  /** CIF itypes that are renamed to the indicator store's vocabulary. */
  const ItypeMap: map<string, string> :=
    map["email" := "email-addr", "ipv4" := "IPv4", "ipv6" := "IPv6", "fqdn" := "domain", "url" := "URL"]

  /** CIF itypes that keep their name. */
  const HashItypes: set<string> := {"md5", "sha1", "sha256", "ssdeep"}

  /** Fields that the copy loop skips. */
  const Skipped: set<string> := {"indicator", "itype", "confidence"}

  /** The exceptions `_process_item` lets escape. */
  datatype ItemError =
    | ItemNotADict            // `item.get` on something that is not a dict
    | ConfidenceNotScalable   // `item['confidence'] * 10` raises TypeError
    | LogNotEncodable         // a log line formatted with a non-ASCII unicode itype or indicator raises

  /** The output pair: indicator and attributes, or `(None, None)`. */
  type Entry = (Value, Value)

  const Drop: seq<Entry> := [(Null, Null)]

  /** The itype translation; None for an itype the miner does not handle. */
  function TranslateItype(itype: Value): (r: Option<string>)
    ensures r.Some? <==> itype.Str? && itype.s in ItypeMap.Keys + HashItypes
    ensures r.Some? && itype.s in HashItypes ==> r.value == itype.s
  {
    if itype.Str? && itype.s in ItypeMap then Some(ItypeMap[itype.s])
    else if itype.Str? && itype.s in HashItypes then Some(itype.s)
    else None
  }

  /** The attribute key a copied field is stored under. */
  function Key(prefix: string, field: string): string
  {
    prefix + "_" + field
  }

  /** Python's `v * 10` on the value found under `confidence`; None when it raises. */
  function Times10(v: Value): (r: Option<Value>)
    ensures v.Int? ==> r == Some(Int(v.i * 10))
    ensures r.Some? <==> !v.Null? && !v.Dict?
  {
    match v
    case Null => None
    case Bool(b) => Some(Int(if b then 10 else 0))
    case Int(i) => Some(Int(i * 10))
    case Str(s) => Some(Str(Repeat(s, 10)))
    case List(items) => Some(List(Repeat(items, 10)))
    case Dict(_) => None
  }

  /** One step of the copy loop: store `item[field]` under its prefixed key. */
  function CopyField(a: map<string, Value>, item: map<string, Value>, prefix: string, field: string): map<string, Value>
  {
    if field in Skipped || field !in item then a else a[Key(prefix, field) := item[field]]
  }

  /** The copy loop over `fields`, starting from the attributes `a`. */
  function CopyInto(a: map<string, Value>, item: map<string, Value>, prefix: string, fields: seq<string>): (r: map<string, Value>)
    ensures a.Keys <= r.Keys
    decreases |fields|
  {
    if fields == [] then a
    else CopyInto(CopyField(a, item, prefix, fields[0]), item, prefix, fields[1..])
  }

  /** The keys the copy loop adds. */
  function CopiedKeys(item: map<string, Value>, prefix: string, fields: seq<string>): set<string>
  {
    set f | f in fields && f !in Skipped && f in item :: Key(prefix, f)
  }

  /**
   * What `_process_item` returns (or raises) for `item`. The log line for an
   * unhandled itype and the final debug line format the itype and the
   * indicator before the log level is consulted, so they raise for a
   * non-ASCII unicode value.
   */
  function Normalize(item: Value, prefix: string, fields: seq<string>): (r: Result<seq<Entry>, ItemError>)
    ensures r == Failure(ItemNotADict) <==> !item.Dict?
    ensures r.Success? ==> |r.value| == 1 && (r.value == Drop <==> r.value[0].0 == Null)
  {
    if !item.Dict? then Failure(ItemNotADict)
    else
      var e := item.entries;
      var indicator := Get(e, "indicator");
      var itype := TranslateItype(Get(e, "itype"));
      if indicator == Null then Success(Drop)
      else if itype.None? then
        if Encodable(Get(e, "itype")) then Success(Drop) else Failure(LogNotEncodable)
      else
        var a := CopyInto(map["type" := Str(itype.value)], e, prefix, fields);
        var confidence := Get(e, "confidence");
        var scaled := if Truthy(confidence) then Times10(confidence) else Some(Null);
        if scaled.None? then Failure(ConfidenceNotScalable)
        else if !Encodable(indicator) then Failure(LogNotEncodable)
        else if !Truthy(confidence) then Success([(indicator, Dict(a))])
        else Success([(indicator, Dict(a["confidence" := scaled.value]))])
  }

  /** The record is dropped: no indicator, or no itype the miner handles. */
  predicate Dropped(item: map<string, Value>)
  {
    Get(item, "indicator") == Null || TranslateItype(Get(item, "itype")).None?
  }

  /** `_process_item`: the attribute loop runs over `fields` as the source does. */
  method ProcessItem(item: Value, prefix: string, fields: seq<string>) returns (r: Result<seq<Entry>, ItemError>)
    ensures r == Normalize(item, prefix, fields)
  {
    if !item.Dict? {
      return Failure(ItemNotADict);
    }
    var e := item.entries;
    var indicator := Get(e, "indicator");
    if indicator == Null {
      return Success(Drop);
    }
    var itype := TranslateItype(Get(e, "itype"));
    if itype.None? {
      if !Encodable(Get(e, "itype")) {
        return Failure(LogNotEncodable);
      }
      return Success(Drop);
    }
    var a := map["type" := Str(itype.value)];
    var i := 0;
    while i < |fields|
      invariant 0 <= i <= |fields|
      invariant CopyInto(a, e, prefix, fields[i..]) == CopyInto(map["type" := Str(itype.value)], e, prefix, fields)
    {
      var field := fields[i];
      assert fields[i..][1..] == fields[i + 1..];
      if field !in Skipped && field in e {
        a := a[Key(prefix, field) := e[field]];
      }
      i := i + 1;
    }
    var confidence := Get(e, "confidence");
    if Truthy(confidence) {
      var c := Times10(confidence);
      if c.None? {
        return Failure(ConfidenceNotScalable);
      }
      a := a["confidence" := c.value];
    }
    if !Encodable(indicator) {
      return Failure(LogNotEncodable);
    }
    r := Success([(indicator, Dict(a))]);
  }

  // ---------------------------------------------------------------------------
  // Properties of the normaliser

  /** A prefixed key determines its field, and never collides with `type` or `confidence`. */
  lemma KeyShape(prefix: string, f: string, g: string)
    ensures Key(prefix, f) == Key(prefix, g) ==> f == g
    ensures Key(prefix, f) != "type" && Key(prefix, f) != "confidence"
  {
    var k := Key(prefix, f);
    assert k[|prefix|] == '_';
    if k == Key(prefix, g) {
      assert f == k[|prefix| + 1..] == g;
    }
  }

  /**
   * The copy loop adds exactly the keys of the copied fields, stores each
   * field's value under its key and leaves every other key alone.
   */
  lemma {:induction false} CopyIntoSpec(a: map<string, Value>, item: map<string, Value>, prefix: string, fields: seq<string>)
    ensures CopyInto(a, item, prefix, fields).Keys == a.Keys + CopiedKeys(item, prefix, fields)
    ensures forall f :: f in fields && f !in Skipped && f in item ==>
      CopyInto(a, item, prefix, fields)[Key(prefix, f)] == item[f]
    ensures forall k :: k in a && k !in CopiedKeys(item, prefix, fields) ==> CopyInto(a, item, prefix, fields)[k] == a[k]
    decreases |fields|
  {
    if fields != [] {
      var f0, rest := fields[0], fields[1..];
      var a' := CopyField(a, item, prefix, f0);
      CopyIntoSpec(a', item, prefix, rest);
      var r := CopyInto(a, item, prefix, fields);
      assert r == CopyInto(a', item, prefix, rest);
      assert forall f :: f in fields <==> f == f0 || f in rest;
      assert CopiedKeys(item, prefix, fields) ==
        CopiedKeys(item, prefix, rest) + (if f0 !in Skipped && f0 in item then {Key(prefix, f0)} else {});
      forall f | f in fields && f !in Skipped && f in item
        ensures r[Key(prefix, f)] == item[f]
      {
        if f !in rest {
          assert f == f0;
          forall g | g in rest && g !in Skipped && g in item ensures Key(prefix, g) != Key(prefix, f) {
            KeyShape(prefix, g, f);
          }
        }
      }
    }
  }

  /** Copied keys never collide with the unprefixed `type` and `confidence` keys. */
  lemma ReservedKeysNotCopied(item: map<string, Value>, prefix: string, fields: seq<string>)
    ensures "type" !in CopiedKeys(item, prefix, fields)
    ensures "confidence" !in CopiedKeys(item, prefix, fields)
  {
    forall f | f in fields && f !in Skipped && f in item
      ensures Key(prefix, f) != "type" && Key(prefix, f) != "confidence"
    {
      KeyShape(prefix, f, f);
    }
  }

  /**
   * A record is replaced by `[[None, None]]` exactly when it has no indicator,
   * or has no handled itype and that itype can be written to the log.
   */
  lemma DropSentinel(item: map<string, Value>, prefix: string, fields: seq<string>)
    ensures Normalize(Dict(item), prefix, fields) == Success(Drop) <==>
      Dropped(item) && (Get(item, "indicator") != Null ==> Encodable(Get(item, "itype")))
  {
  }

  /**
   * The log formatting raises exactly for a non-ASCII unicode itype the miner
   * does not handle, or for a non-ASCII unicode indicator of a record that is
   * otherwise kept.
   */
  lemma LogEncoding(item: map<string, Value>, prefix: string, fields: seq<string>)
    ensures Normalize(Dict(item), prefix, fields) == Failure(LogNotEncodable) <==>
      && Get(item, "indicator") != Null
      && if Dropped(item) then !Encodable(Get(item, "itype"))
         else !Encodable(item["indicator"]) && (Truthy(Get(item, "confidence")) ==> Times10(item["confidence"]).Some?)
  {
  }

  /**
   * Multiplying the confidence by ten raises exactly for a kept record whose
   * confidence is a non-empty dict (None and an empty dict are falsy and skipped).
   */
  lemma UnscalableConfidence(item: map<string, Value>, prefix: string, fields: seq<string>)
    ensures Normalize(Dict(item), prefix, fields) == Failure(ConfidenceNotScalable) <==>
      !Dropped(item) && Truthy(Get(item, "confidence")) && item["confidence"].Dict?
  {
  }

  /** The nine itypes the miner handles and what `type` each one becomes. */
  lemma TranslationTable()
    ensures TranslateItype(Str("email")) == Some("email-addr")
    ensures TranslateItype(Str("ipv4")) == Some("IPv4")
    ensures TranslateItype(Str("ipv6")) == Some("IPv6")
    ensures TranslateItype(Str("fqdn")) == Some("domain")
    ensures TranslateItype(Str("url")) == Some("URL")
    ensures forall h :: h in HashItypes ==> TranslateItype(Str(h)) == Some(h)
    ensures forall v :: TranslateItype(v).Some? <==>
      v in {Str("email"), Str("ipv4"), Str("ipv6"), Str("fqdn"), Str("url"),
            Str("md5"), Str("sha1"), Str("sha256"), Str("ssdeep")}
  {
  }

  /**
   * A record that is kept becomes a single pair whose key is the raw indicator
   * and whose attributes are: `type`, the prefixed copies of the present
   * fields, and `confidence` times ten when the record's confidence is truthy.
   */
  lemma {:induction false} KeptRecord(item: map<string, Value>, prefix: string, fields: seq<string>)
    requires !Dropped(item)
    requires Normalize(Dict(item), prefix, fields).Success?
    ensures var out := Normalize(Dict(item), prefix, fields).value;
      && |out| == 1
      && out[0].0 == item["indicator"]
      && Encodable(item["indicator"])
      && out[0].1.Dict?
      && var a := out[0].1.entries;
      && "type" in a
      && a["type"] == Str(TranslateItype(item["itype"]).value)
      && (forall f :: f in fields && f !in Skipped ==>
            (Key(prefix, f) in a <==> f in item) && (f in item ==> a[Key(prefix, f)] == item[f]))
      && ("confidence" in a <==> Truthy(Get(item, "confidence")))
      && ("confidence" in a ==> Times10(item["confidence"]) == Some(a["confidence"]))
      && a.Keys == {"type"} + CopiedKeys(item, prefix, fields) + (if "confidence" in a then {"confidence"} else {})
  {
    var t := map["type" := Str(TranslateItype(item["itype"]).value)];
    var copied := CopyInto(t, item, prefix, fields);
    CopyIntoSpec(t, item, prefix, fields);
    ReservedKeysNotCopied(item, prefix, fields);
    forall f | f in fields && f !in Skipped && f !in item
      ensures Key(prefix, f) !in copied
    {
      forall g | g in fields && g !in Skipped && g in item ensures Key(prefix, g) != Key(prefix, f) {
        KeyShape(prefix, g, f);
      }
      KeyShape(prefix, f, f);
    }
    var out := Normalize(Dict(item), prefix, fields).value;
    var a := out[0].1.entries;
    var confidence := Get(item, "confidence");
    if Truthy(confidence) {
      assert a == copied["confidence" := Times10(item["confidence"]).value];
      forall f | f in fields && f !in Skipped
        ensures (Key(prefix, f) in a <==> f in item) && (f in item ==> a[Key(prefix, f)] == item[f])
      {
        KeyShape(prefix, f, f);
      }
      assert a.Keys == copied.Keys + {"confidence"};
    } else {
      assert a == copied;
    }
  }

  /**
   * Confidence rescaling: a truthy integer confidence is multiplied by ten; a
   * zero one leaves no key. Such a record is kept unless its indicator cannot
   * be logged.
   */
  lemma ConfidenceRescaled(item: map<string, Value>, prefix: string, fields: seq<string>)
    requires !Dropped(item)
    requires "confidence" in item && item["confidence"].Int?
    ensures var out := Normalize(Dict(item), prefix, fields);
      && (out.Success? <==> Encodable(item["indicator"]))
      && (out.Success? ==>
            var a := out.value[0].1.entries;
            && (item["confidence"].i != 0 ==> "confidence" in a && a["confidence"] == Int(item["confidence"].i * 10))
            && (item["confidence"].i == 0 ==> "confidence" !in a))
  {
    if Encodable(item["indicator"]) {
      KeptRecord(item, prefix, fields);
    }
  }

  /** The record `{"indicator":"1.2.3.4","itype":"ipv4","confidence":50,"tlp":"green"}`. */
  const ExampleItem: map<string, Value> :=
    map["indicator" := Str("1.2.3.4"), "itype" := Str("ipv4"), "confidence" := Int(50), "tlp" := Str("green")]

  /** What that record becomes under the prefix `cifv3`. */
  const ExampleAttributes: map<string, Value> :=
    map["type" := Str("IPv4"), "cifv3_tlp" := Str("green"), "confidence" := Int(500)]

  lemma Example()
    ensures Normalize(Dict(ExampleItem), "cifv3", Fields) == Success([(Str("1.2.3.4"), Dict(ExampleAttributes))])
  {
    ExampleKept();
    ExampleOutput(ExampleItem, "cifv3");
  }

  lemma ExampleOutput(item: map<string, Value>, prefix: string)
    requires item == ExampleItem && prefix == "cifv3"
    requires !Dropped(item) && Normalize(Dict(item), prefix, Fields).Success?
    ensures Normalize(Dict(item), prefix, Fields) == Success([(Str("1.2.3.4"), Dict(ExampleAttributes))])
  {
    var out := Normalize(Dict(item), prefix, Fields);
    KeptRecord(item, prefix, Fields);
    ExampleAttributesMatch(out.value[0].1.entries);
    assert out.value[0].1 == Dict(ExampleAttributes);
    assert out.value[0].0 == item["indicator"];
  }

  lemma ExampleKept()
    ensures !Dropped(ExampleItem)
    ensures Normalize(Dict(ExampleItem), "cifv3", Fields).Success?
  {
    assert TranslateItype(Str("ipv4")) == Some("IPv4");
    assert Truthy(Int(50));
    assert Encodable(Str("1.2.3.4"));
  }

  lemma ExampleAttributesMatch(a: map<string, Value>)
    requires "type" in a && a["type"] == Str(TranslateItype(Str("ipv4")).value)
    requires forall f :: f in Fields && f !in Skipped ==>
      (Key("cifv3", f) in a <==> f in ExampleItem) && (f in ExampleItem ==> a[Key("cifv3", f)] == ExampleItem[f])
    requires "confidence" in a && Times10(Int(50)) == Some(a["confidence"])
    requires a.Keys == {"type"} + CopiedKeys(ExampleItem, "cifv3", Fields) + {"confidence"}
    ensures a == ExampleAttributes
  {
    TlpKey();
    ExampleCopiedKeys();
    assert a["cifv3_tlp"] == Str("green") by {
      assert "tlp" in Fields;
    }
    assert a["type"] == Str("IPv4") by {
      assert TranslateItype(Str("ipv4")) == Some("IPv4");
    }
    forall k | k in a ensures a[k] == ExampleAttributes[k] {
      if k == "type" {
      } else if k == "cifv3_tlp" {
      } else {
        assert k == "confidence";
      }
    }
  }

  lemma ExampleCopiedKeys()
    ensures CopiedKeys(ExampleItem, "cifv3", Fields) == {"cifv3_tlp"}
  {
    TlpKey();
    assert forall f :: f in Fields && f !in Skipped && f in ExampleItem ==> f == "tlp";
    assert "tlp" in Fields;
  }

  lemma TlpKey()
    ensures Key("cifv3", "tlp") == "cifv3_tlp"
  {
  }
}
