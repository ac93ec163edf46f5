/**
 * The CIF v3 miner: its configuration state, the side-configuration reload,
 * the request preparation and one poll of the feed.
 */
module Node {
  import opened Wrappers
  import opened Values
  import opened Text
  import opened Status
  import opened Unwrap
  import Normalizer

  /**
   * The library calls the miner makes, as functions: the text Python's
   * `str()` gives for a value that is not a string (a number, a list, a
   * dict; see `Stringify`), `json.loads` (None when it raises),
   * `base64.b64decode` (None when it raises) and the HTTP GET of `requests`
   * (None when it raises).
   */
  datatype Externals = Externals(
    str: Value -> string,
    loads: string -> Option<Value>,
    b64decode: string -> Option<string>,
    get: (string, map<string, Value>) -> Option<Response>)

  /** The configuration errors `_build_iterator` raises before any request is made. */
  datatype ConfigError =
    | MissingRemote
    | MissingToken
    | MissingFilters
    | FiltersNotADict        // `filters.get` on something that is not a dict
    | MissingItype
    | MissingConfidence
    | MissingTags
    | WhitelistNotAlone      // a `whitelist` tag together with other tags
    | TagNotEncodable        // `str()` of a non-ASCII unicode tag raises UnicodeEncodeError

  /** The exceptions `_load_side_config` lets escape (read and parse errors are caught). */
  datatype SideConfigError =
    | DocumentNotADict       // `sconfig.get` on a document that is not a mapping, e.g. an empty file
    | FiltersNotMergeable    // `self.filters.update(filters)` on values that are not both dicts

  /** Everything a poll can raise. */
  datatype PollError =
    | Config(config: ConfigError)
    | TokenNotAString        // `'Token token=' + self.token` raises
    | RemoteNotEncodable     // formatting a non-ASCII unicode `remote` into the URL raises
    | Transport              // `session.get` raises
    | HttpStatus(status: StatusError)
    | BodyNotJson            // decoding or `json.loads` of the body raises
    | Malformed(unwrap: UnwrapError)

  const FeedEndpoint: string := "/feed"
  const SearchEndpoint: string := "/search"
  const WhitelistLimit: int := 50000

  // ---------------------------------------------------------------------------
  // Side configuration

  /** The fields the side configuration may change. */
  datatype Settings = Settings(token: Value, remote: Value, verifyCert: Value, filters: Value)

  /** The new settings after a reload, and whether the reload raised. */
  datatype Reloaded = Reloaded(settings: Settings, outcome: Outcome<SideConfigError>)

  /**
   * `_load_side_config` given what `yaml.safe_load` of the side-config file
   * returned (None when opening or parsing raised).
   */
  function ApplySideConfig(s: Settings, doc: Option<Value>): (r: Reloaded)
    ensures r.outcome.Fail? ==> r.settings.filters == s.filters
    ensures r.outcome == Fail(DocumentNotADict) ==> r.settings == s
    ensures r.settings.filters != s.filters ==> r.settings.filters != Null
  {
    match doc
    case None => Reloaded(s, Pass)
    case Some(d) =>
      if !d.Dict? then Reloaded(s, Fail(DocumentNotADict))
      else
        var e := d.entries;
        var s' := s.(token := GetOr(e, "token", s.token),
                     remote := GetOr(e, "remote", s.remote),
                     verifyCert := GetOr(e, "verify_cert", s.verifyCert));
        var filters := GetOr(e, "filters", s.filters);
        if filters == Null then Reloaded(s', Pass)
        else if s.filters == Null then Reloaded(s'.(filters := filters), Pass)
        else if s.filters.Dict? && filters.Dict? then Reloaded(s'.(filters := Dict(s.filters.entries + filters.entries)), Pass)
        else Reloaded(s', Fail(FiltersNotMergeable))
  }

  /** A side config that cannot be read or parsed changes nothing. */
  lemma UnreadableSideConfig(s: Settings)
    ensures ApplySideConfig(s, None) == Reloaded(s, Pass)
  {
  }

  /** A side-config document that is not a mapping (an empty file loads as None) raises and changes nothing. */
  lemma SideConfigNotAMapping(s: Settings, d: Value)
    requires !d.Dict?
    ensures ApplySideConfig(s, Some(d)) == Reloaded(s, Fail(DocumentNotADict))
  {
  }

  /**
   * Keys present in the side config win over the current values; `filters`
   * is merged key by key into a current dict, set wholesale when there is none.
   */
  lemma SideConfigOverrides(s: Settings, e: map<string, Value>)
    ensures var r := ApplySideConfig(s, Some(Dict(e)));
      && r.settings.token == (if "token" in e then e["token"] else s.token)
      && r.settings.remote == (if "remote" in e then e["remote"] else s.remote)
      && r.settings.verifyCert == (if "verify_cert" in e then e["verify_cert"] else s.verifyCert)
      && (r.outcome.Fail? <==> s.filters != Null && !(s.filters.Dict? && GetOr(e, "filters", s.filters).Dict?)
                               && GetOr(e, "filters", s.filters) != Null)
      && (r.outcome.Fail? ==> r.settings.filters == s.filters)
      && (s.filters == Null ==> r.settings.filters == GetOr(e, "filters", Null))
      && (GetOr(e, "filters", Null) == Null ==> r.settings.filters == s.filters)
  {
    if s.filters.Dict? && "filters" !in e {
      assert s.filters.entries + s.filters.entries == s.filters.entries;
    }
  }

  /** The `filters` merge: side keys overwrite, other keys are kept, no key is lost. */
  lemma FiltersMerged(s: Settings, e: map<string, Value>, side: map<string, Value>)
    requires s.filters.Dict? && "filters" in e && e["filters"] == Dict(side)
    ensures var f := ApplySideConfig(s, Some(Dict(e))).settings.filters;
      && f.Dict?
      && f.entries.Keys == s.filters.entries.Keys + side.Keys
      && (forall k :: k in side ==> f.entries[k] == side[k])
      && (forall k :: k in s.filters.entries && k !in side ==> f.entries[k] == s.filters.entries[k])
  {
  }

  /** Reloading the same side config twice leaves the miner as reloading it once, when its `filters` is a mapping. */
  lemma {:induction false} ReloadIdempotent(s: Settings, doc: Option<Value>)
    requires doc.Some? && doc.value.Dict? && "filters" in doc.value.entries ==>
      doc.value.entries["filters"].Dict? || doc.value.entries["filters"] == Null
    ensures var once := ApplySideConfig(s, doc);
      ApplySideConfig(once.settings, doc) == once
  {
    var once := ApplySideConfig(s, doc);
    if doc.Some? && doc.value.Dict? {
      var e := doc.value.entries;
      var filters := GetOr(e, "filters", s.filters);
      if s.filters.Dict? && filters.Dict? {
        var merged := s.filters.entries + filters.entries;
        if "filters" in e {
          assert merged + filters.entries == merged;
        } else {
          assert merged == s.filters.entries;
          assert merged + merged == merged;
        }
      } else if s.filters == Null && filters != Null && filters.Dict? {
        assert filters.entries + filters.entries == filters.entries;
      }
    }
  }

  /**
   * Without that condition a reload is not repeatable: a non-mapping `filters`
   * is taken as it is when the miner has none, and the next reload then fails
   * to merge into it.
   */
  lemma ReloadNonMappingFilters(s: Settings, e: map<string, Value>)
    requires s.filters == Null && "filters" in e && e["filters"] != Null && !e["filters"].Dict?
    ensures ApplySideConfig(s, Some(Dict(e))).outcome == Pass
    ensures ApplySideConfig(ApplySideConfig(s, Some(Dict(e))).settings, Some(Dict(e))).outcome == Fail(FiltersNotMergeable)
  {
  }

  // ---------------------------------------------------------------------------
  // Request preparation

  /** The configuration checks of `_build_iterator`, in the order it makes them. */
  function Precheck(remote: Value, token: Value, filters: Value): (r: Outcome<ConfigError>)
    ensures r.Pass? <==>
      remote != Null && token != Null && filters.Dict? &&
      Get(filters.entries, "itype") != Null && Get(filters.entries, "confidence") != Null &&
      Get(filters.entries, "tags") != Null
  {
    if remote == Null then Fail(MissingRemote)
    else if token == Null then Fail(MissingToken)
    else if filters == Null then Fail(MissingFilters)
    else if !filters.Dict? then Fail(FiltersNotADict)
    else if Get(filters.entries, "itype") == Null then Fail(MissingItype)
    else if Get(filters.entries, "confidence") == Null then Fail(MissingConfidence)
    else if Get(filters.entries, "tags") == Null then Fail(MissingTags)
    else Pass
  }

  /**
   * Python's `str(v)`, and `'{}'.format(v)`, for a value they can encode: a
   * string is its own text; any other value is rendered by `str`. When
   * they raise is decided by `Encodable`.
   */
  function Stringify(str: Value -> string, v: Value): string
  {
    if v.Str? then v.s else str(v)
  }

  /** `map(str, items)`. */
  function Strs(str: Value -> string, items: seq<Value>): (r: seq<string>)
    ensures |r| == |items|
    ensures forall i :: 0 <= i < |items| ==> r[i] == Stringify(str, items[i])
    ensures forall i :: 0 <= i < |items| && items[i].Str? ==> r[i] == items[i].s
  {
    seq(|items|, i requires 0 <= i < |items| => Stringify(str, items[i]))
  }

  /** Every tag can be passed to `str()`. */
  predicate AllEncodable(items: seq<Value>)
  {
    forall i :: 0 <= i < |items| ==> Encodable(items[i])
  }

  /** The filters and endpoint after the preparation, and whether it raised. */
  datatype Prepared = Prepared(filters: Value, endpoint: string, outcome: Outcome<ConfigError>)

  /** What the preparation part of `_build_iterator` does to `filters` and `api_endpoint`. */
  function Prepare(remote: Value, token: Value, filters: Value, endpoint: string, str: Value -> string): (r: Prepared)
    ensures r.outcome.Pass? <==>
      && Precheck(remote, token, filters).Pass?
      && var tags := filters.entries["tags"];
      && (tags.List? ==> AllEncodable(tags.items) && !(Str("whitelist") in tags.items && |tags.items| > 1))
  {
    var pre := Precheck(remote, token, filters);
    if pre.Fail? then Prepared(filters, endpoint, pre)
    else
      var f := filters.entries;
      var tags := f["tags"];
      if !tags.List? then Prepared(filters, endpoint, Pass)
      else
        var whitelist := Str("whitelist") in tags.items;
        var f' := if whitelist then f["limit" := Int(WhitelistLimit)] else f;
        var endpoint' := if whitelist then SearchEndpoint else endpoint;
        if whitelist && |tags.items| > 1 then Prepared(Dict(f'), endpoint', Fail(WhitelistNotAlone))
        else if !AllEncodable(tags.items) then Prepared(Dict(f'), endpoint', Fail(TagNotEncodable))
        else Prepared(Dict(f'["tags" := Str(Join(Strs(str, tags.items), ','))]), endpoint', Pass)
  }

  /** The first missing setting, in the order remote, token, filters, itype, confidence, tags, decides the error. */
  lemma PrecheckOrder(remote: Value, token: Value, filters: Value, endpoint: string, str: Value -> string)
    ensures Precheck(remote, token, filters) == Fail(MissingRemote) <==> remote == Null
    ensures Precheck(remote, token, filters) == Fail(MissingToken) <==> remote != Null && token == Null
    ensures Precheck(remote, token, filters) == Fail(MissingFilters) <==> remote != Null && token != Null && filters == Null
    ensures Precheck(remote, token, filters) == Fail(FiltersNotADict) <==>
      remote != Null && token != Null && filters != Null && !filters.Dict?
    ensures filters.Dict? && remote != Null && token != Null ==>
      var itype, confidence, tags := Get(filters.entries, "itype"), Get(filters.entries, "confidence"), Get(filters.entries, "tags");
      && (Precheck(remote, token, filters) == Fail(MissingItype) <==> itype == Null)
      && (Precheck(remote, token, filters) == Fail(MissingConfidence) <==> itype != Null && confidence == Null)
      && (Precheck(remote, token, filters) == Fail(MissingTags) <==> itype != Null && confidence != Null && tags == Null)
    ensures Precheck(remote, token, filters).Fail? ==>
      Prepare(remote, token, filters, endpoint, str) == Prepared(filters, endpoint, Precheck(remote, token, filters))
  {
  }

  /**
   * A tag list holding `whitelist` switches the endpoint to `/search` and sets
   * `limit` to 50000, also when it then raises because other tags are present.
   */
  lemma WhitelistSelectsSearch(remote: Value, token: Value, filters: Value, endpoint: string, str: Value -> string)
    requires Precheck(remote, token, filters).Pass?
    requires filters.entries["tags"].List? && Str("whitelist") in filters.entries["tags"].items
    ensures var p := Prepare(remote, token, filters, endpoint, str);
      && p.endpoint == SearchEndpoint
      && p.filters.Dict? && "limit" in p.filters.entries && p.filters.entries["limit"] == Int(WhitelistLimit)
      && (p.outcome == Fail(WhitelistNotAlone) <==> |filters.entries["tags"].items| > 1)
      && p.filters.entries.Keys == filters.entries.Keys + {"limit"}
  {
  }

  /**
   * A tag list that passes becomes the comma-join of its stringified tags, in
   * order; no other filter changes except `limit` for a whitelist feed, and
   * a list without `whitelist` leaves the endpoint as it was.
   */
  lemma TagListJoined(remote: Value, token: Value, filters: Value, endpoint: string, str: Value -> string)
    requires Precheck(remote, token, filters).Pass?
    requires filters.entries["tags"].List?
    ensures var p := Prepare(remote, token, filters, endpoint, str);
      var tags := filters.entries["tags"].items;
      && (p.outcome.Pass? ==> p.filters.Dict? && p.filters.entries["tags"] == Str(Join(Strs(str, tags), ',')))
      && p.filters.Dict?
      && (forall k :: k in filters.entries && k != "tags" && k != "limit" ==> k in p.filters.entries && p.filters.entries[k] == filters.entries[k])
      && (Str("whitelist") !in tags ==>
            p.endpoint == endpoint && p.filters.entries.Keys == filters.entries.Keys && (p.outcome.Pass? <==> AllEncodable(tags)))
  {
  }

  /**
   * A list of string tags is sent as the comma-join of the tags themselves,
   * whatever `str` makes of other values: `["phishing", "botnet"]` becomes
   * `"phishing,botnet"`.
   */
  lemma StringTagsJoined(remote: Value, token: Value, filters: Value, endpoint: string, str: Value -> string,
                         texts: seq<string>)
    requires Precheck(remote, token, filters).Pass?
    requires filters.entries["tags"] == List(seq(|texts|, i requires 0 <= i < |texts| => Str(texts[i])))
    requires Prepare(remote, token, filters, endpoint, str).outcome.Pass?
    ensures Prepare(remote, token, filters, endpoint, str).filters.entries["tags"] == Str(Join(texts, ','))
  {
    var tags := filters.entries["tags"].items;
    assert Strs(str, tags) == texts;
  }

  /** The two tags of the comment at node.py:173-174, joined. */
  lemma TagExample(texts: seq<string>)
    requires texts == ["phishing", "botnet"]
    ensures Join(texts, ',') == "phishing,botnet"
  {
    assert Join(texts[1..], ',') == "botnet";
  }

  /**
   * `str()` of a non-ASCII unicode tag raises after the whitelist handling:
   * the tags stay a list, while `/search` and `limit` are already set.
   */
  lemma NonAsciiTagRaises(remote: Value, token: Value, filters: Value, endpoint: string, str: Value -> string)
    requires Precheck(remote, token, filters).Pass?
    requires filters.entries["tags"].List?
    ensures var p := Prepare(remote, token, filters, endpoint, str);
      var tags := filters.entries["tags"].items;
      && (p.outcome == Fail(TagNotEncodable) <==> !AllEncodable(tags) && !(Str("whitelist") in tags && |tags| > 1))
      && (p.outcome == Fail(TagNotEncodable) ==>
            && p.filters.entries["tags"] == filters.entries["tags"]
            && (Str("whitelist") in tags ==> p.endpoint == SearchEndpoint && p.filters.entries["limit"] == Int(WhitelistLimit)))
  {
  }

  /**
   * The joined tags read back, split at the commas, as the stringified tags
   * (when no tag contains a comma), which is what the CIF server expects.
   */
  lemma JoinedTagsSplitBack(remote: Value, token: Value, filters: Value, endpoint: string, str: Value -> string)
    requires Precheck(remote, token, filters).Pass?
    requires filters.entries["tags"].List? && |filters.entries["tags"].items| > 0
    requires forall t :: t in filters.entries["tags"].items ==> ',' !in Stringify(str, t)
    requires Prepare(remote, token, filters, endpoint, str).outcome.Pass?
    ensures var p := Prepare(remote, token, filters, endpoint, str);
      Split(p.filters.entries["tags"].s, ',') == Strs(str, filters.entries["tags"].items)
  {
    var tags := filters.entries["tags"].items;
    var parts := Strs(str, tags);
    forall k | 0 <= k < |parts| ensures ',' !in parts[k] {
      assert tags[k] in tags;
    }
    SplitJoin(parts, ',');
  }

  /** A tag value that is not a list is left alone, and so is the endpoint. */
  lemma NonListTagsUntouched(remote: Value, token: Value, filters: Value, endpoint: string, str: Value -> string)
    requires Precheck(remote, token, filters).Pass?
    requires !filters.entries["tags"].List?
    ensures Prepare(remote, token, filters, endpoint, str) == Prepared(filters, endpoint, Pass)
  {
  }

  /** The preparation only ever switches the endpoint to `/search`; it never switches it back. */
  lemma EndpointOnlyToSearch(remote: Value, token: Value, filters: Value, endpoint: string, str: Value -> string)
    ensures var p := Prepare(remote, token, filters, endpoint, str);
      p.endpoint == endpoint || p.endpoint == SearchEndpoint
    ensures endpoint == SearchEndpoint ==> Prepare(remote, token, filters, endpoint, str).endpoint == SearchEndpoint
  {
  }

  /** A successful preparation leaves nothing for the next one to do: preparing again changes nothing. */
  lemma {:induction false} PrepareIdempotent(remote: Value, token: Value, filters: Value, endpoint: string, str: Value -> string)
    requires Prepare(remote, token, filters, endpoint, str).outcome.Pass?
    ensures var p := Prepare(remote, token, filters, endpoint, str);
      Prepare(remote, token, p.filters, p.endpoint, str) == p
  {
    var p := Prepare(remote, token, filters, endpoint, str);
    var f := filters.entries;
    if f["tags"].List? {
      var g := p.filters.entries;
      assert g["itype"] == f["itype"] && g["confidence"] == f["confidence"];
      assert g["tags"].Str? && g["tags"] != Null;
      assert Precheck(remote, token, p.filters).Pass?;
    }
  }

  // ---------------------------------------------------------------------------
  // One poll

  /** The request, the status check and the unwrapping, for the prepared URL and query. */
  function Fetch(ext: Externals, url: string, params: map<string, Value>): (r: Result<Value, PollError>)
    ensures r.Failure? && r.error.HttpStatus? ==> ext.get(url, params).Some? && ext.get(url, params).value.status != 200
  {
    match ext.get(url, params)
    case None => Failure(Transport)
    case Some(resp) =>
      match CheckStatus(resp, 200, ext.loads)
      case Fail(e) => Failure(HttpStatus(e))
      case Pass =>
        match ext.loads(resp.content)
        case None => Failure(BodyNotJson)
        case Some(msgs) =>
          match Unwrapped(msgs, ext.loads, ext.b64decode)
          case Failure(e) => Failure(Malformed(e))
          case Success(data) => Success(data)
  }

  /** A poll returns data only for a 200 response whose body unwraps. */
  lemma FetchNeeds200(ext: Externals, url: string, params: map<string, Value>)
    ensures Fetch(ext, url, params).Success? ==>
      && ext.get(url, params).Some?
      && ext.get(url, params).value.status == 200
      && ext.loads(ext.get(url, params).value.content).Some?
      && Unwrapped(ext.loads(ext.get(url, params).value.content).value, ext.loads, ext.b64decode)
         == Success(Fetch(ext, url, params).value)
    ensures ext.get(url, params).Some? && ext.get(url, params).value.status in Classified ==>
      Fetch(ext, url, params).Failure? && Fetch(ext, url, params).error.HttpStatus?
  {
    if ext.get(url, params).Some? {
      AcceptsOnly200(ext.get(url, params).value, ext.loads);
    }
  }

  /** The miner's state: configuration fields the source sets in `configure` and updates later. */
  class Miner {
    var verifyCert: Value
    var initialDays: Value
    var prefix: Value
    var remote: Value
    var token: Value
    var filters: Value
    var fields: seq<string>
    var apiEndpoint: string

    /** The fields the side configuration may change. */
    function Current(): Settings
      reads this
    {
      Settings(token, remote, verifyCert, filters)
    }

    /** `configure`: the static configuration with its defaults (the side config is loaded next). */
    constructor (config: map<string, Value>)
      ensures verifyCert == GetOr(config, "verify_cert", Bool(true))
      ensures initialDays == GetOr(config, "initial_days", Int(7))
      ensures prefix == GetOr(config, "prefix", Str("cifv3"))
      ensures remote == Get(config, "remote") && token == Get(config, "token") && filters == Get(config, "filters")
      ensures fields == Normalizer.Fields
      ensures apiEndpoint == FeedEndpoint
    {
      verifyCert := GetOr(config, "verify_cert", Bool(true));
      initialDays := GetOr(config, "initial_days", Int(7));
      prefix := GetOr(config, "prefix", Str("cifv3"));
      remote := Get(config, "remote");
      token := Get(config, "token");
      filters := Get(config, "filters");
      fields := Normalizer.Fields;
      apiEndpoint := FeedEndpoint;
    }

    /** `_load_side_config`, given the loaded document (None when reading or parsing raised). */
    method LoadSideConfig(doc: Option<Value>) returns (r: Outcome<SideConfigError>)
      modifies this`token, this`remote, this`verifyCert, this`filters
      ensures Current() == ApplySideConfig(old(Current()), doc).settings
      ensures r == ApplySideConfig(old(Current()), doc).outcome
    {
      if doc.None? {
        return Pass;
      }
      var sconfig := doc.value;
      if !sconfig.Dict? {
        return Fail(DocumentNotADict);
      }
      token := GetOr(sconfig.entries, "token", token);
      remote := GetOr(sconfig.entries, "remote", remote);
      verifyCert := GetOr(sconfig.entries, "verify_cert", verifyCert);
      var newFilters := GetOr(sconfig.entries, "filters", filters);
      if newFilters != Null {
        if filters != Null {
          if !(filters.Dict? && newFilters.Dict?) {
            return Fail(FiltersNotMergeable);
          }
          filters := Dict(filters.entries + newFilters.entries);
        } else {
          filters := newFilters;
        }
      }
      r := Pass;
    }

    /** The checks and the tag handling of `_build_iterator`, which update `filters` and `api_endpoint` in place. */
    method PrepareRequest(str: Value -> string) returns (r: Outcome<ConfigError>)
      modifies this`filters, this`apiEndpoint
      ensures var p := Prepare(remote, token, old(filters), old(apiEndpoint), str);
        filters == p.filters && apiEndpoint == p.endpoint && r == p.outcome
    {
      r := Precheck(remote, token, filters);
      if r.Fail? {
        return;
      }
      var tags := filters.entries["tags"];
      if tags.List? {
        if Str("whitelist") in tags.items {
          apiEndpoint := SearchEndpoint;
          filters := Dict(filters.entries["limit" := Int(WhitelistLimit)]);
          if |tags.items| > 1 {
            return Fail(WhitelistNotAlone);
          }
        }
        if !AllEncodable(tags.items) {
          return Fail(TagNotEncodable);
        }
        filters := Dict(filters.entries["tags" := Str(Join(Strs(str, tags.items), ','))]);
      }
    }

    /**
     * `_build_iterator`: prepare, build the `Authorization` header from the
     * token, send the GET to remote + endpoint with the filters as query,
     * check the status and unwrap the body.
     */
    method BuildIterator(ext: Externals) returns (r: Result<Value, PollError>)
      modifies this`filters, this`apiEndpoint
      ensures var p := Prepare(remote, token, old(filters), old(apiEndpoint), ext.str);
        && filters == p.filters && apiEndpoint == p.endpoint
        && r == (if p.outcome.Fail? then Failure(Config(p.outcome.error))
                 else if !token.Str? then Failure(TokenNotAString)
                 else if !Encodable(remote) then Failure(RemoteNotEncodable)
                 else Fetch(ext, Stringify(ext.str, remote) + p.endpoint, p.filters.entries))
      ensures var p := Prepare(remote, token, old(filters), old(apiEndpoint), ext.str);
        p.outcome.Pass? && token.Str? && remote.Str? && Encodable(remote) ==>
          r == Fetch(ext, remote.s + p.endpoint, p.filters.entries)
    {
      var prepared := PrepareRequest(ext.str);
      if prepared.Fail? {
        return Failure(Config(prepared.error));
      }
      if !token.Str? {
        return Failure(TokenNotAString);
      }
      if !Encodable(remote) {
        return Failure(RemoteNotEncodable);
      }
      var resp := ext.get(Stringify(ext.str, remote) + apiEndpoint, filters.entries);
      if resp.None? {
        return Failure(Transport);
      }
      var check := CheckStatus(resp.value, 200, ext.loads);
      if check.Fail? {
        return Failure(HttpStatus(check.error));
      }
      var msgs := ext.loads(resp.value.content);
      if msgs.None? {
        return Failure(BodyNotJson);
      }
      var data := Unwrap.Unwrap(msgs.value, ext.loads, ext.b64decode);
      if data.Failure? {
        return Failure(Malformed(data.error));
      }
      r := Success(data.value);
    }
  }
}
