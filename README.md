# CIF v3 feed miner — a Dafny model

This project models the core of the CIF v3 miner for MineMeld (`cifv3/node.py`,
class `Miner`): a poller that asks a CIF v3 threat-intelligence server for a
feed of indicators and turns every record into the `(indicator, attributes)`
pair the indicator store takes. Once per poll it

1. checks its configuration (`remote`, `token`, `filters` with `itype`,
   `confidence` and `tags`) and rewrites a list of tags into one comma-joined
   string, switching to the `/search` endpoint with `limit = 50000` for a
   `whitelist` feed;
2. sends the GET and classifies the HTTP status (400, 401, 404, 408, 422,
   429 and 500-504 each raise their own error; anything but 200 raises
   "unknown");
3. unwraps the JSON body: `data == '{}'` becomes `[]`, a search-result
   envelope sent as a string becomes the list of its hits' `_source`, the
   body must report success, and each record's `message` is base64-decoded
   when it decodes;
4. normalises each record: the itype is translated (`email`, `ipv4`, `ipv6`,
   `fqdn`, `url` are renamed; `md5`, `sha1`, `sha256`, `ssdeep` are kept;
   anything else, or a missing indicator or itype, gives the drop sentinel
   `[[None, None]]`), the configured fields are copied under
   `<prefix>_<field>` keys, and a truthy confidence is multiplied by ten.

Between polls the miner can reload a side-configuration file whose `token`,
`remote` and `verify_cert` override the current ones and whose `filters` are
merged key by key into the current filters.

The files:

- `wrappers.dfy` — `Option`, `Result`, `Outcome`.
- `values.dfy` — `Value`, the Python values decoded from JSON and YAML, with
  Python truthiness and `dict.get`.
- `text.dfy` — `startswith`, `join`, string repetition, and the comma split
  the CIF server applies to the joined tags.
- `normalizer.dfy` — `_process_item`: the spec function `Normalize`, the
  method `ProcessItem` (the copy loop over the field list), and the lemmas.
- `status.dfy` — `_check_status`.
- `unwrap.dfy` — the unwrapping half of `_build_iterator`: the spec function
  `Unwrapped`, the methods `Unwrap` and `DecodeMessages` (the loop over the
  records), and the lemmas.
- `node.dfy` — the class `Miner` (its fields are the configuration the
  source updates in place), the side-config reload, the request preparation,
  one poll, and the lemmas about them.

Library calls are parameters, collected in `Node.Externals`: `json.loads`
and `base64.b64decode` (RFC 4648 section 4), each returning `None` where the
library raises, and the HTTP GET of `requests`. Python's `str()` is
`Node.Stringify`: a string is its own text, and only the rendering of other
values (numbers, lists, dicts) is the parameter `str`. When Python 2 cannot turn a value into a
byte string, with `str()` or by formatting it into a byte-string template,
is not left to a parameter: `Values.Encodable` states it (a string with a
non-ASCII character is unicode and raises UnicodeEncodeError).
`yaml.safe_load` of the side-config file is represented by its result,
`None` when opening or parsing raised.

Behaviours of the code that a reader of its comments might not expect, all
of which the model follows:

- The code has no retry loop. A 408, 429 or 5xx raises at once, like every
  other error.
- The endpoint is never set back to `/feed`. Once a `whitelist` tag list has
  switched it to `/search`, it stays there for the life of the miner
  (`Node.EndpointOnlyToSearch`).
- `data == '{}'` yields `[]` only when the status check passes
  (`Unwrap.EmptyObjectString`).
- The `_source` records of a search envelope also go through the base64 step
  for `message` (`Unwrap.EnvelopeUnwrapped`).
- `_process_item` can raise: for a record that is not a dict, for a truthy
  confidence that cannot be multiplied by ten (a non-empty dict,
  `Normalizer.UnscalableConfidence`), and for a non-ASCII unicode
  itype it does not handle or indicator it keeps, because the log lines at
  node.py:120 and 142 are formatted before the log level is consulted
  (`Normalizer.LogEncoding`).
- `map(str, tags)` raises for a non-ASCII unicode tag after `/search` and
  `limit` have been set (`Node.NonAsciiTagRaises`), and formatting a
  non-ASCII unicode `remote` into the URL raises before the GET.
- An empty side-config file loads as `None`. Its `.get` then raises outside
  the `try`, so the reload fails instead of being ignored
  (`Node.SideConfigNotAMapping`).
- A failed `filters` merge leaves `token`, `remote` and `verify_cert` already
  updated.

## Model

| member | source | states |
|---|---|---|
| `Normalizer.TranslateItype` | cifv3/node.py:113-121 | an itype is handled exactly when it is one of the five mapped names or the four hash names; the hash names are kept as they are |
| `Normalizer.TranslationTable` | cifv3/node.py:15-21 | the exact table: email→email-addr, ipv4→IPv4, ipv6→IPv6, fqdn→domain, url→URL, md5/sha1/sha256/ssdeep unchanged, and no other value is handled |
| `Normalizer.Times10` | cifv3/node.py:140 | Python's `v * 10`: an integer is multiplied by ten; it raises (None) exactly for None and dicts |
| `Text.Repeat` | cifv3/node.py:140 | `s * 10` on a string or list has ten times the length of `s` |
| `Text.RepeatContent` | cifv3/node.py:140 | each of the `n` consecutive blocks of `s * n`, as long as `s`, is `s`, so `s * 10` is ten copies of `s` |
| `Normalizer.ProcessItem` | cifv3/node.py:101-144 | the method with the attribute loop over the field list returns or raises exactly what `Normalize` describes |
| `Normalizer.Normalize` | cifv3/node.py:101-144 | `_process_item` as a function: it raises "not a dict" exactly for a record that is not a dict; a result is always one pair, which is the drop sentinel exactly when its indicator is None |
| `Normalizer.CopyInto` | cifv3/node.py:129-136 | the copy loop as a fold over the fields; it never removes a key of the attributes it starts from |
| `Normalizer.LogEncoding` | cifv3/node.py:118-142 | formatting the log raises exactly for a non-ASCII unicode itype that is not handled, or for a non-ASCII unicode indicator of a kept record whose confidence scaled |
| `Normalizer.UnscalableConfidence` | cifv3/node.py:138-140 | multiplying the confidence by ten raises exactly for a kept record whose confidence is a non-empty dict |
| `Normalizer.DropSentinel` | cifv3/node.py:103-121 | a dict record gives `[[None, None]]` exactly when its indicator is missing or None, or its itype is missing, None or not handled and can be written to the log |
| `Normalizer.KeptRecord` | cifv3/node.py:123-144 | a kept record gives one pair whose key is the raw indicator, which can be logged; `type` is the translated itype; each listed field other than indicator, itype and confidence appears as `<prefix>_<field>` exactly when present in the record, with the record's value; `confidence` is present exactly when the record's confidence is truthy, and is that value times ten; no other key appears |
| `Normalizer.ConfidenceRescaled` | cifv3/node.py:138-142 | an integer confidence c ≠ 0 gives `confidence = 10·c`; c = 0 gives no `confidence` key; such a record is kept exactly when its indicator can be logged |
| `Normalizer.CopyIntoSpec` | cifv3/node.py:129-136 | the copy loop adds exactly the prefixed keys of the present, non-skipped fields, stores each field's value under its key, and keeps every other key |
| `Normalizer.KeyShape` | cifv3/node.py:136 | distinct fields give distinct `<prefix>_<field>` keys, and none is `type` or `confidence` |
| `Normalizer.ReservedKeysNotCopied` | cifv3/node.py:127-140 | the copied keys never overwrite `type` and are never overwritten by `confidence` |
| `Normalizer.Example` | cifv3/node.py:101-144 | `{"indicator":"1.2.3.4","itype":"ipv4","confidence":50,"tlp":"green"}` with prefix `cifv3` becomes `("1.2.3.4", {"type":"IPv4","cifv3_tlp":"green","confidence":500})` |
| `Status.ServerMessage` | cifv3/node.py:75-76 | the message of a 400 or 422 is available only when the body parses as a JSON object that has `message` |
| `Status.CheckStatus` | cifv3/node.py:73-99 | the response passes exactly when its status is the expected one and is none of the codes tested earlier; 500-504 raise "busy"; any other unexpected code raises "unknown" with the body |
| `Status.AcceptsOnly200` | cifv3/node.py:195 | with `expect=200`, as at the call site, a response passes exactly when its status is 200 |
| `Status.ClassificationTable` | cifv3/node.py:74-92 | 400, 401, 404, 408, 422 and 429 each raise their own error, whatever the expected code |
| `Status.ServerMessageRead` | cifv3/node.py:74-89 | a 400 or 422 whose body is a JSON object with `message` raises with that message |
| `Unwrap.Sources` | cifv3/node.py:212 | for a list of hits, the comprehension succeeds exactly when every hit is a dict with `_source`, and then holds each hit's `_source`, in order |
| `Unwrap.Envelope` | cifv3/node.py:210-212 | the envelope string unwraps only when it parses to an object whose `hits` is an object with `hits`; a list of hits gives one `_source` per hit |
| `Unwrap.Reshape` | cifv3/node.py:206-212 | the `'{}'` and envelope rewrites never add or remove `data`, leave a non-string `data` as it is, and raise only for an envelope string |
| `Unwrap.DecodeAll` | cifv3/node.py:222-229 | the base64 step over the records succeeds exactly when every record is a dict, and keeps the length and each record's keys |
| `Unwrap.Unwrapped` | cifv3/node.py:204-230 | the unwrapping as a function: it returns data only for a JSON object that has `data` and passes the status check |
| `Unwrap.Validate` | cifv3/node.py:214-220 | the body passes exactly when `status` is truthy or `message == 'success'`, and `status` is not `'failed'` |
| `Unwrap.DecodeRecord` | cifv3/node.py:225-229 | the base64 step keeps a record's keys and every field but `message` |
| `Unwrap.MessageDecoded` | cifv3/node.py:225-229 | a truthy string `message` that decodes is replaced by its decoding; otherwise the record is unchanged |
| `Unwrap.DecodeMessages` | cifv3/node.py:222-229 | the loop over the records decodes each record as `DecodeRecord` does, and fails when a record is not a dict |
| `Unwrap.Unwrap` | cifv3/node.py:204-230 | the method returns exactly what `Unwrapped` describes |
| `Unwrap.EmptyObjectString` | cifv3/node.py:206-207 | `data == '{}'` unwraps to `[]` when the status check passes, and to the status error otherwise |
| `Unwrap.EnvelopeUnwrapped` | cifv3/node.py:209-212 | a `data` string starting with `{"hits":{"hits":[{"_source":` whose parsed `hits.hits` (other keys allowed at either level) is a list of dicts with `_source` unwraps to those `_source` records, in order, each through the base64 step |
| `Unwrap.StatusChecked` | cifv3/node.py:214-220 | a body without truthy `status` and without `message == 'success'` raises; a body with `status == 'failed'` raises with its message |
| `Unwrap.ListRecordsKeepFields` | cifv3/node.py:222-230 | a list `data` keeps its length and, record by record, its keys and every field but `message`; each record is what `DecodeRecord` makes of it |
| `Unwrap.OtherDataAsIs` | cifv3/node.py:230 | a `data` that is not a list, not `'{}'` and not an envelope string is returned as it is |
| `Unwrap.MissingData` | cifv3/node.py:230 | a body without `data` that passes the status check raises on `msgs['data']` |
| `Node.ApplySideConfig` | cifv3/node.py:46-66 | `_load_side_config` as a function: a failed reload never changes the filters, a document that is not a mapping changes nothing, and changed filters are never None |
| `Node.UnreadableSideConfig` | cifv3/node.py:47-53 | a side config that cannot be opened or parsed changes nothing and raises nothing |
| `Node.SideConfigNotAMapping` | cifv3/node.py:55 | a side-config document that is not a mapping raises and changes nothing |
| `Node.SideConfigOverrides` | cifv3/node.py:55-66 | `token`, `remote` and `verify_cert` take the side-config value when the key is present and keep theirs otherwise; the reload raises exactly when the filters to merge are not both dicts; with no current filters, the side filters are taken wholesale; a side config without `filters`, or with `filters: null`, leaves the filters as they were |
| `Node.FiltersMerged` | cifv3/node.py:61-64 | side filter keys overwrite, other current keys are kept, no key is lost |
| `Node.ReloadIdempotent` | cifv3/node.py:46-66 | reloading the same side config twice gives the same state and outcome as reloading it once, when its `filters` is a mapping or absent |
| `Node.ReloadNonMappingFilters` | cifv3/node.py:61-66 | a non-mapping `filters` is taken when the miner has none, and the next reload of the same file raises |
| `Node.Precheck` | cifv3/node.py:148-164 | the checks pass exactly when remote, token, filters (a dict) and its itype, confidence and tags are all set |
| `Node.PrecheckOrder` | cifv3/node.py:148-164 | the first missing setting, in the order remote, token, filters, itype, confidence, tags, decides the error (filters that are not a dict raise before itype is read), and a failed check changes neither the filters nor the endpoint |
| `Node.Strs` | cifv3/node.py:175 | `map(str, tags)` keeps the order and the length of the tags, and a string tag is its own text |
| `Node.Prepare` | cifv3/node.py:148-175 | the preparation as a function: it passes exactly when the checks pass and a tag list has only encodable tags and no `whitelist` beside other tags |
| `Node.WhitelistSelectsSearch` | cifv3/node.py:165-172 | a tag list holding `whitelist` sets the endpoint to `/search` and `limit` to 50000, also when it then raises; it raises exactly when there are other tags; `limit` is the only filter key it adds |
| `Node.TagListJoined` | cifv3/node.py:165-175 | a tag list that passes becomes the comma-join of its stringified tags, in order; other filters are kept; without `whitelist` the endpoint and the filter keys stay as they were, and it passes exactly when every tag is encodable |
| `Node.StringTagsJoined` | cifv3/node.py:173-175 | a list of string tags that passes is sent as the comma-join of the tags' own text, whatever the rendering of other values |
| `Node.TagExample` | cifv3/node.py:173-175 | the tags `phishing` and `botnet` are joined to `phishing,botnet` |
| `Node.NonAsciiTagRaises` | cifv3/node.py:165-175 | `str()` of a non-ASCII unicode tag raises unless the whitelist check raised first; the tags then stay a list, while a whitelist feed already has `/search` and `limit` |
| `Text.SplitJoin` | cifv3/node.py:173-175 | splitting the comma-join at the commas gives the parts back when no part contains a comma |
| `Node.JoinedTagsSplitBack` | cifv3/node.py:173-175 | the joined tags read back, split at the commas, as the stringified tags |
| `Node.NonListTagsUntouched` | cifv3/node.py:163-165 | a tags value that is not a list leaves the filters and the endpoint unchanged |
| `Node.EndpointOnlyToSearch` | cifv3/node.py:37 | the preparation either keeps the endpoint or sets it to `/search`; it never sets it back to `/feed` |
| `Node.PrepareIdempotent` | cifv3/node.py:163-175 | after a successful preparation, preparing again changes nothing |
| `Node.Fetch` | cifv3/node.py:191-230 | the GET, the status check and the unwrapping; an HTTP status error is reported only for a response whose status is not 200 |
| `Node.FetchNeeds200` | cifv3/node.py:191-230 | a poll returns data only for a 200 response whose body parses and unwraps to that data; a classified status always raises |
| `Node.Miner.constructor` | cifv3/node.py:25-37 | the static configuration with its defaults: verify_cert true, initial_days 7, prefix `cifv3`, no remote, token or filters, the twelve fields, endpoint `/feed`; `configure` is this constructor followed by `LoadSideConfig` (node.py:44) |
| `Node.Miner.LoadSideConfig` | cifv3/node.py:46-66 | the new token, remote, verify_cert and filters and the outcome are those of `ApplySideConfig`; no other field changes |
| `Node.Miner.PrepareRequest` | cifv3/node.py:148-175 | the new filters, endpoint and outcome are those of `Prepare`; only `filters` and `api_endpoint` change |
| `Node.Miner.BuildIterator` | cifv3/node.py:146-230 | a configuration error (including a tag `str()` cannot encode) raises before any request; a non-string token raises; a non-ASCII unicode remote raises; otherwise the GET goes to remote + endpoint (for a string remote, its own text followed by the endpoint) with the prepared filters and the result is that of `Fetch`; only `filters` and `api_endpoint` change |

## Left out

- HTTP session setup, the request headers (`Accept`, `User-Agent`, `Content-Type`, `Accept-Encoding`), TLS verification and the 120-second timeout: network I/O. The GET is a parameter. Only the `Authorization` concatenation is kept, because it raises for a token that is not a string.
- The read of `Content-Length` (node.py:202): its value is never used. The model does not capture that the read raises when the header is missing or not an integer.
- `json.loads`, `yaml.safe_load`, `b64decode` and the opening of the side-config file: foreign calls, given as parameters. The text `str()` gives for any value that is not a string (None, a boolean, a number, a list, a dict) is a parameter too (`Node.Externals.str`), because the model has no `repr`; strings are their own text, and when `str()` and formatting raise is modelled (`Values.Encodable`).
- The side-config path built from `MM_CONFIG_DIR` and the miner name: environment access.
- `hup`: it only reloads the side config (`Miner.LoadSideConfig`) and calls the host framework.
- The `BasePollerFT` host: scheduling, the calls to `_build_iterator` and `_process_item`, and what happens to the results.
- Logging, and the text of exception messages. Each exception is a constructor of an error datatype. The formatting of log lines is kept where it raises on a record, a tag or the remote. The node's own name is taken to be ASCII. The log lines at node.py:197 and node.py:218 are not modelled. A non-ASCII unicode server `message` makes either raise UnicodeEncodeError. The model reports the error raised there anyway: `HttpStatus(BadRequest(..))` or `HttpStatus(Unprocessable(..))` at line 197, `SearchFailed` at line 218. Only the exception class differs.
- Floating-point numbers. JSON and YAML numbers are integers in the model, so a fractional confidence is not covered.
- `Node.SideConfigOverrides`: `dict.update` from any iterable of key-value pairs, including an empty string or list, is treated as a failed merge. Python accepts it.
- `Normalizer.ProcessItem`: the prefix is a string parameter. The miner's `prefix` setting can be any configured value, and `'{}_{}'.format(prefix, field)` turns a non-string prefix into its text (5 gives `5_tlp`) or raises for a non-ASCII unicode one; neither is covered. No member connects `Miner.prefix` and `Miner.fields` to `ProcessItem`, because `_process_item` is called by the host, which is not part of this model.
- Dict key order: attribute and filter dicts are maps, so the order in which `_process_item` inserts keys is not recorded.
- `cifv3/webui/extension.js` (the web UI controller) and `cifv3/__init__.py` (packaging) are not part of this model.
