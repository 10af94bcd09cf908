# Envoy local reader — a Dafny model

This project models the core of a Home Assistant integration that polls an
Enphase Envoy solar appliance over local HTTP.

- An `EnvoyReaderFactory` fetches the identity document `info.xml` on the
  first `get_reader`, and again on any call while no firmware version is
  known. It takes the serial number and firmware string from it and fills a default
  password from the serial number.
- It parses the firmware string into an integer tuple.
- An ordered rule table then picks the reader: the legacy model-C reader, or
  the model-S reader in combined mode (`use_production_json=True`) or in
  separate mode (`use_production_json=False`).
- The model-S reader requests up to four JSON endpoints. It normalises them
  into a record `{production, inverters}`, and `get_data` adds
  `serial_number` to that record.

Files and modules:

- `wrappers.dfy` (`Wrappers`): `Option` and `Result`.
- `text.dfy` (`Text`): the Python string operations the core uses, with
  their laws. These are `lower`, `isdigit`, `split(".")` with `join`,
  `int` of a digit string, `str` of a port, and `s[6:]`.
- `documents.dfy` (`Documents`): the JSON documents as typed records, the
  HTTP response oracle `Response<T>`, and the exceptions as an `Error`
  datatype. It also holds the status gate `Gate` and the
  `list(filter(...))[0]` lookup `FirstMatch`. `FirstMatch` gives
  `IndexError` when nothing matches.
- `model_s.dfy` (`Normalization`): `__process_production_json` and
  `__process_inverter_json`. The inverter loop is a method proved against a
  recursive specification function.
- `envoy_reader.dfy` (`Reader`): the class `EnvoyReader`. Its fields never
  change after construction, so they are `const`. The legacy and model-S
  readers are its two named constructors, told apart by `kind`. The class
  has `call_http_api`, `update` and `get_data` as methods, each proved equal
  to a pure specification (`Gate`, `UpdateSpec`, `GetDataSpec`).
- `envoy_reader_factory.dfy` (`Factory`): version parsing, the rule table,
  the password default, the pure resolution `Resolve`, and the class
  `ReaderFactory`. Its `GetReader` and `GetInfo` methods update the
  factory's fields the way the source does.
- `scenarios.dfy` (`Scenarios`): concrete cases. Lemmas cover sample
  version strings, the sample appliance of the factory test and the
  combined-mode counterexample. A client method drives the two classes.

I/O is abstract:

- Each HTTP GET is a parameter of type `Response<T>`. It is either
  `Response(status, body)` with a decoded body, or `TransportFailure`.
- `Endpoints` holds the four answers for one poll.
- The traces of requested paths show which endpoints were called, and in
  what order.

Behaviour of the code worth noting:

- `to_version_tuple("")` raises `IndexError` on `v[0]`. It does not return
  (0,0,0), because only `ValueError` is caught.
- A well-formed firmware string gives one integer per dot-separated segment.
  So the tuple is not always the "(int, int, int)" that the docstring of
  `to_version_tuple` promises (envoy_reader_factory.py:60). For a one-number
  version whose major is 3 or 4, the rule table reads `_v[1]` and raises
  `IndexError`.
- In combined mode, `update` always fails; once its three requests are
  answered, it fails with `UnboundLocalError` (see Findings). The class
  docstring still lists firmware from 3.9 up to 4.10 on model S as supported (envoy_reader.py:13), yet a combined-mode poll
  cannot succeed.
- The repository's own test asserts a successful poll against a fixture
  identity, and that fixture is not part of this model. If that test
  passes, the fixture's firmware must be 4.10 or later. `Scenarios` picks
  `R4.10.35`.
- The factory ignores its `firmware_version` argument and the `fw_version`
  argument of `get_reader`. Every new factory therefore fetches the identity.
- The legacy reader is built without a serial number, so it gets the
  default `""`. Its `update` returns `None`, so `get_data` fails with
  `TypeError`.
- The identity fetch passes `allow_redirects=False`
  (envoy_reader_factory.py:76), so a redirect from `info.xml` is a non-200
  status and fails at the gate. The reader's requests (envoy_reader.py:36)
  do not pass it; their status is that of whatever final response the HTTP
  client returns.

## Model

| member | source | states |
|---|---|---|
| `Text.IsDigit` | envoy_local_reader/envoy_reader_factory.py:66 | `isdigit` on one character holds exactly for the ten decimal digits |
| `Text.ToLower` | envoy_local_reader/envoy_reader.py:25 | every character is lowered, same length (ASCII letters) |
| `Text.ToLowerIdempotent` | envoy_local_reader/envoy_reader_factory.py:17 | lowering twice equals lowering once, so the reader keeps the factory's lowered host |
| `Text.SliceFrom` | envoy_local_reader/envoy_reader_factory.py:37 | `s[k:]` is empty when `s` has at most k characters, else the characters from offset k |
| `Text.Split` | envoy_local_reader/envoy_reader_factory.py:68 | `split(".")` gives at least one segment and no segment contains a dot |
| `Text.JoinSplit` | envoy_local_reader/envoy_reader_factory.py:68 | joining the segments with dots gives back the string |
| `Text.SplitCountsDots` | envoy_local_reader/envoy_reader_factory.py:68 | there is one segment more than there are dots |
| `Text.SplitAppend` | envoy_local_reader/envoy_reader_factory.py:68 | a dot-free prefix joins the first segment of what follows |
| `Text.SplitJoin` | envoy_local_reader/envoy_reader_factory.py:68 | splitting a join of dot-free segments gives back the segments |
| `Text.DecimalValue` | envoy_local_reader/envoy_reader_factory.py:68 | `int(seg)` of a digit run: its last digit is the unit digit, and a run of zeros is 0 |
| `Text.Decimal` | envoy_local_reader/envoy_reader.py:36 | `str(port)` is a non-empty run of decimal digits |
| `Text.DecimalRoundTrip` | envoy_local_reader/envoy_reader_factory.py:68 | `int(str(n)) == n` for every natural number |
| `Documents.Gate` | envoy_local_reader/envoy_reader.py:37-42 | the body is returned iff the status is 200; another status is `EnvoyReaderError` with that code; a transport failure is `EnvoyReaderError` too |
| `Documents.FindFirst` | envoy_local_reader/envoy_reader_model_s.py:39 | the index found satisfies the filter and none before it does; no index means no element satisfies it |
| `Documents.FirstMatch` | envoy_local_reader/envoy_reader_model_s.py:66-67 | `list(filter(p, s))[0]` fails with `IndexError` iff no element matches, else it returns the first matching element |
| `Documents.FirstMatchAt` | envoy_local_reader/envoy_reader_model_s.py:39 | any matching element with no match before it is the one taken |
| `Normalization.ProcessProduction` | envoy_local_reader/envoy_reader_model_s.py:36-52 | combined mode copies the five figures of the first "eim" entry; separate mode takes count and power from the first "inverters" entry and the three energy figures from the separate document; without such an entry it fails with `IndexError` and uses no default |
| `Normalization.NormalizeInverter` | envoy_local_reader/envoy_reader_model_s.py:58-71 | the only error of one entry's normalisation is `IndexError` |
| `Normalization.NormalizeInverterMeaning` | envoy_local_reader/envoy_reader_model_s.py:59-71 | an entry normalises iff the first "PCU" group holds a device with its serial; its five detail fields are copied unchanged and its PCU fields come from the first such device |
| `Normalization.InverterListShape` | envoy_local_reader/envoy_reader_model_s.py:56-74 | the list succeeds iff every entry normalises; then it has the detail list's length and order, entry by entry |
| `Normalization.InverterList` | envoy_local_reader/envoy_reader_model_s.py:56-74 | the inverter list: its only error is `IndexError`, and a successful list has one entry per detail |
| `Normalization.NoPcuGroup` | envoy_local_reader/envoy_reader_model_s.py:56-67 | with no "PCU" group only the empty detail list succeeds, giving the empty list; the inventory is not consulted for it |
| `Normalization.ProcessInverterJson` | envoy_local_reader/envoy_reader_model_s.py:55-74 | the loop builds exactly the specified inverter list, or fails on the first entry that does not normalise |
| `Reader.Url` | envoy_local_reader/envoy_reader.py:36 | the URL starts with `http://` and the host, and ends with the path |
| `Reader.UrlDeterminesPath` | envoy_local_reader/envoy_reader.py:36 | on one host and port the URL `http://host:port/path` determines the path |
| `Reader.EnvoyReader.EnvoyReaderOldC` | envoy_local_reader/envoy_reader.py:24-29 | lowered host; defaults port 80, username "envoy", password "", serial ""; legacy kind |
| `Reader.EnvoyReader.EnvoyReaderS` | envoy_local_reader/envoy_reader_model_s.py:19-21 | the base fields plus the endpoint mode, combined mode by default |
| `Reader.EnvoyReader.CallHttpApi` | envoy_local_reader/envoy_reader.py:31-42 | the URL requested, and the body iff the status is 200, else the gate's error |
| `Reader.UpdateS` | envoy_local_reader/envoy_reader_model_s.py:23-34 | the model-S poll as written: production.json is always requested first; a successful poll is a separate-mode poll that made all four requests and returns exactly `production` and `inverters` |
| `Reader.UpdateSpec` | envoy_local_reader/envoy_reader_model_c_old.py:7-8 | `update` of either reader: it requests nothing, and returns `None`, exactly for the legacy reader; a returned record has exactly `production` and `inverters` |
| `Reader.EnvoyReader.Update` | envoy_local_reader/envoy_reader_model_s.py:23-34 | the requested paths and the result are those of the `update` specification (nothing requested and `None` for the legacy reader) |
| `Reader.UpdateRequestOrder` | envoy_local_reader/envoy_reader_model_s.py:24-29 | requests follow production.json, api/v1/production (separate mode only), inverters, inventory.json; they stop right after the first one not answered with 200, and a poll whose last request was refused fails with `EnvoyReaderError`; a successful poll made them all |
| `Reader.UpdateRefusedError` | envoy_local_reader/envoy_reader_model_s.py:24-29 | for each of the four requests: when it is the first one refused, the poll made exactly the requests up to it and fails with that response's own gate error (its status code, or the connection failure) |
| `Reader.UpdateKeys` | envoy_local_reader/envoy_reader_model_s.py:31-34 | a successful poll's record has exactly the keys `production` and `inverters` |
| `Reader.CombinedModeFails` | envoy_local_reader/envoy_reader_model_s.py:25-32 | a combined-mode poll never succeeds; when all three requests are answered it fails with `UnboundLocalError` |
| `Reader.SeparateModeRecord` | envoy_local_reader/envoy_reader_model_s.py:24-34 | a separate-mode poll succeeds iff all four requests are answered and both normalisations succeed, and then the record holds their results |
| `Reader.UpdateIntended` | envoy_local_reader/envoy_reader_model_s.py:23-34 | the corrected `update`: production.json comes first, and a successful poll made every request of its mode and returns exactly `production` and `inverters` |
| `Reader.UpdateIntendedCorrect` | envoy_local_reader/envoy_reader_model_s.py:23-34 | the corrected `update` agrees with the written one in separate mode; in combined mode it succeeds iff the three requests are answered and both normalisations succeed, with the first "eim" entry's figures and the normalised inverter list |
| `Reader.GetDataSpec` | envoy_local_reader/envoy_reader.py:44-47 | `get_data` of the legacy reader fails with `TypeError`; a successful record has exactly `production`, `inverters` and `serial_number`, the last set to the reader's serial |
| `Reader.EnvoyReader.GetData` | envoy_local_reader/envoy_reader.py:44-47 | the requested paths and record are those of the `get_data` specification |
| `Reader.GetDataStampsSerial` | envoy_local_reader/envoy_reader.py:44-47 | `get_data` makes `update`'s requests; on success it adds `serial_number`, set to the reader's serial, and keeps every other key and value |
| `Reader.LegacyGetDataFails` | envoy_local_reader/envoy_reader_model_c_old.py:7-8 | the legacy reader requests nothing and its `get_data` fails with `TypeError` |
| `Factory.StripPrefix` | envoy_local_reader/envoy_reader_factory.py:65-67 | a leading digit keeps the string; otherwise exactly one character is dropped |
| `Factory.ParseSegments` | envoy_local_reader/envoy_reader_factory.py:68 | `map(int, ...)` succeeds iff every segment is a digit literal, with one value per segment |
| `Factory.ToVersionTuple` | envoy_local_reader/envoy_reader_factory.py:56-70 | `None` gives (0,0,0); it fails (`IndexError`) exactly on the empty string; otherwise a non-empty tuple |
| `Factory.VersionSegments` | envoy_local_reader/envoy_reader_factory.py:64-70 | one integer per dot-separated segment; any segment `int` rejects gives (0,0,0) |
| `Factory.VersionRoundTrip` | envoy_local_reader/envoy_reader_factory.py:62-70 | parsing a rendered version, optionally behind one non-digit letter, gives back its numbers |
| `Factory.SelectReader` | envoy_local_reader/envoy_reader_factory.py:41-53 | with two or more numbers the result is the era of (major, minor) in lexicographic order: before (3,9) legacy, before (4,10) combined, else separate; a one-number tuple fails iff its major is 3 or 4 |
| `Factory.SelectReaderMonotone` | envoy_local_reader/envoy_reader_factory.py:41-53 | a later (major, minor) never selects an older reader |
| `Factory.SelectReaderBoundaries` | envoy_local_reader/envoy_reader_factory.py:41-53 | (3,8,x) legacy, (3,9,x) and (4,9,x) combined, (4,10,x) and (5,0,0) separate, (0,0,0) legacy |
| `Factory.DefaultPassword` | envoy_local_reader/envoy_reader_factory.py:36-37 | a set password is kept; an empty one becomes `serial[6:]` (empty for 6 or fewer characters) only when a serial is known |
| `Factory.DefaultPasswordIdempotent` | envoy_local_reader/envoy_reader_factory.py:36-37 | deriving the default twice equals deriving it once |
| `Factory.NeedsInfo` | envoy_local_reader/envoy_reader_factory.py:32 | the identity is fetched exactly when the firmware is unknown or is the one string (empty) that `to_version_tuple` cannot parse |
| `Factory.BuildReader` | envoy_local_reader/envoy_reader_factory.py:41-53 | the reader has the chosen kind, the factory's connection fields and password, a host that is already lowered, and the factory's serial only for model S ("" for the legacy reader) |
| `Factory.Resolve` | envoy_local_reader/envoy_reader_factory.py:25-53 | one `get_reader` call: `info.xml` is requested exactly when the identity is needed; host, port, username and endpoint type never change; without a fetch serial and firmware stay; after a successful fetch they are the identity document's; a returned reader has the factory's new password |
| `Factory.FetchInfo` | envoy_local_reader/envoy_reader_factory.py:72-84 | on status 200 the serial and firmware become the document's; otherwise `EnvoyReaderError` and nothing changes |
| `Factory.FirstCallFetches` | envoy_local_reader/envoy_reader_factory.py:22-33 | a new factory has no firmware version, so its first `get_reader` fetches `info.xml` |
| `Factory.FailedFetchGivesNoReader` | envoy_local_reader/envoy_reader_factory.py:77-84 | a non-200 or failed identity fetch returns the gate's `EnvoyReaderError`, no reader, and leaves every field as it was |
| `Factory.ResolvedPassword` | envoy_local_reader/envoy_reader_factory.py:36-53 | a set password survives; after a successful fetch the factory's password is the default derived from the document's serial, and without a fetch the default from the known serial; the reader gets the factory's password |
| `Factory.ResolvedReader` | envoy_local_reader/envoy_reader_factory.py:39-53 | the reader's kind is the table's outcome for the parsed firmware; its host, port and username are the factory's; the model-S reader carries the factory's serial, the legacy reader "" |
| `Factory.RefetchWithoutFirmware` | envoy_local_reader/envoy_reader_factory.py:32-33 | after a failed fetch, or a fetch whose firmware text is missing or empty, the next `get_reader` fetches `info.xml` again |
| `Factory.SecondCallStable` | envoy_local_reader/envoy_reader_factory.py:32-37 | once a firmware version is known, another `get_reader` requests nothing and returns the same reader |
| `Factory.ReaderFactory.constructor` | envoy_local_reader/envoy_reader_factory.py:16-23 | lowered host, given port, username and password, empty endpoint type, no serial and no firmware (the firmware argument is ignored) |
| `Factory.ReaderFactory.GetInfo` | envoy_local_reader/envoy_reader_factory.py:72-84 | requests `http://host:port/info.xml`; updates serial and firmware exactly as `FetchInfo` says |
| `Factory.ReaderFactory.GetReader` | envoy_local_reader/envoy_reader_factory.py:25-53 | requests, new fields and the returned reader's configuration are those of `Resolve` on the old fields; a returned reader is fresh |
| `Scenarios.PrefixedVersion` | envoy_local_reader/envoy_reader_factory.py:65-68 | "D7.3.466" gives (7,3,466) |
| `Scenarios.PlainVersion` | envoy_local_reader/envoy_reader_factory.py:64-68 | "3.9.1" gives (3,9,1) |
| `Scenarios.MalformedVersions` | envoy_local_reader/envoy_reader_factory.py:62-70 | `None`, "abc", "3..1" and "DX3.1" give (0,0,0); "" fails with `IndexError` |
| `Scenarios.SingleNumberFirmware` | envoy_local_reader/envoy_reader_factory.py:41-53 | "R3" gives (3,); the tuples (3,) and (4,) fail the table, (2,) is legacy, (5,) separate |
| `Scenarios.SampleFirmware` | envoy_local_reader/envoy_reader_factory.py:39-53 | "R4.10.35" gives (4,10,35), which selects the separate-mode model-S reader |
| `Scenarios.SampleResolution` | envoy_local_reader/envoy_reader_factory.py:32-53 | the sample identity gives a separate-mode model-S reader with password "0000" and serial "0000000000" |
| `Scenarios.SamplePoll` | tests/test_envoy_reader_factory.py:51-57 | the sample poll returns serial "0000000000", 182847 Wh over seven days, 12 active inverters and a first report date of 1589224854 |
| `Scenarios.CombinedModeCounterexample` | envoy_local_reader/envoy_reader_model_s.py:25-32 | a fully answered combined-mode poll fails with `UnboundLocalError` as written and gives the "eim" figures as intended |

## Left out

- HTTP transport is abstract: httpx, digest authentication, the 20-second timeout and `async`/`await`. Each GET is a `Response<T>` parameter. For `info.xml` a redirect is a non-200 status, because that request disables redirects. For the reader's requests, following redirects happens inside the client, and the response parameter is the final one.
- XML parsing of `info.xml` is abstract. The document is an `InfoDoc` of two optional texts. A missing `device/sn` or `device/software` element (an `AttributeError`) and malformed XML (a `ParseError`) are not modelled.
- JSON decoding (`resp.json()`) is abstract, and every document is a typed record. A missing key (`KeyError`) and a value of another JSON type are not modelled. All numbers are integers.
- `int()` accepts surrounding whitespace, a sign and underscores, but the model restricts a segment to a non-empty run of ASCII digits. `isdigit` and `lower` are restricted to ASCII too.
- The port is a natural number. Python formats any object given as the port.
- `print` in the legacy reader's `update` is left out, and that `update` yields `None`.
- `get_data` assigns into the dictionary `update` returned. The model updates a map value. No other reference to that dictionary exists, so nothing else can observe the change.
- `property_names_const` is not part of this model. The record keys `production`, `inverters` and `serial_number` are the ones `sensor.py` reads. Inner field names are record fields.
- The rest of the repository is not modelled: the Home Assistant sensor platform and coordinator (`sensor.py`), the mock HTTP server and the run script under `tests/`.
- Unique inverter serials are not checked by the source, so the model does not state them.

## Findings

| source | as written | input that shows it | evidently intended | confidence | as-written member | corrected member |
|---|---|---|---|---|---|---|
| envoy_local_reader/envoy_reader_model_s.py:25-32 | `resp_extra_prod` is assigned only in separate mode, but line 32 reads it in both modes | a combined-mode poll where production.json, the inverter list and the inventory all answer 200 (`Scenarios.CombinedEndpoints`) | combined mode takes all production figures from production.json and needs no separate document | high, not executed | `Reader.CombinedModeFails` | `Reader.UpdateIntendedCorrect` |

The class methods `EnvoyReader.Update` and `EnvoyReader.GetData` model the
code as written, so they keep the defect. `UpdateIntended` is the corrected
definition, given beside them.
