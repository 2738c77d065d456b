# NagoyaAPI compliance check, modelled in Dafny

NagoyaAPI answers one question: is the country a biological probe comes from one that
implements the Nagoya Protocol on access and benefit sharing? A probe is named by an
ISO 3166-1 alpha-2 or alpha-3 country code, or by coordinates that a reverse geocoder
(Nominatim) resolves to a code. The answer is a membership test against the set of
implementing countries. That set is taken from the treaty registry's records: the
countries whose Nagoya Protocol entry (registry key `XXVII8b`) carries a party date.

The project models that decision and the pure pieces around it:

- `wrappers.dfy` (`Wrappers`): `Option` and `Result`.
- `text.dfy` (`Text`): Rust's `str::len`, which counts UTF-8 bytes (`ByteLen`), and upper-casing (`ToUpper`).
- `models.dfy` (`Models`): the records of `src/models.rs`. It also holds the selection of the `XXVII8b` treaty entry (`DecodeTreaties`) and the two `FromRef` projections of `AppState`.
- `nagoya_check.dfy` (`NagoyaCheck`): `is_probe_in_implementing_country`, `nagoya_check_cc` and `nagoya_check_geo`. The ISO 3166-1 table is an `IsoTable` value: two partial maps, alpha-2 to entry and alpha-3 to entry. The reverse geocoder is a function parameter returning `Result<string, GeoError>`.
- `external_data.dfy` (`ExternalData`): the filter / map / collect of `get_implementing_countries`, over records that are already parsed.
- `api.dfy` (`Api`): the handlers, which map a check outcome onto an HTTP reply.

A probe whose length is neither 2 nor 3 bytes makes the Rust code panic. The model makes
this an explicit outcome, `Checked.Panicked`, not an error value. The handlers turn it into
`Reply.NoResponse`: the handler task dies and the client gets no status at all.

Everything is a value. The check takes the set of implementing countries as an argument
and returns only a result, so it cannot change the set.

`get_implementing_countries` in `src/external_data.rs` builds the set as written: it
copies `code3` verbatim, without upper-casing it or validating it against ISO 3166.

## Model

| member | source | states |
|---|---|---|
| `Text.ByteLen` | src/nagoya_check.rs:59-63 | the length counted by `len()` is at least the number of characters, and equals it exactly when every character is ASCII |
| `Text.ToUpper` | src/nagoya_check.rs:60 | upper-casing keeps the length in bytes, never shortens the text and leaves no lower-case ASCII letter and no 'ß' (which becomes "SS") |
| `Text.UpperChar` | src/nagoya_check.rs:60 | an ASCII lower-case letter becomes its capital, 'ß' becomes "SS", every other character is kept (Rust also upper-cases other non-ASCII letters, see Left out); the UTF-8 length is unchanged |
| `Text.ByteLenAppend` | src/nagoya_check.rs:59-63 | the byte length of a concatenation is the sum of the byte lengths |
| `Text.ToUpperOfUpper` | src/nagoya_check.rs:74 | text that is already upper case is left unchanged by upper-casing |
| `Text.SameIgnoringCaseUpper` | src/nagoya_check.rs:59-65 | two spellings that differ only in the case of ASCII letters upper-case to the same code and have the same byte length |
| `Text.ToUpperIdempotent` | src/nagoya_check.rs:74 | a second upper-casing changes nothing |
| `Models.DecodeTreaties` | src/models.rs:54-65 | a record's treaties decode exactly when the `XXVII8b` entry is present, and the kept party date is that entry's (`None` for null) |
| `Models.DecodeTreatiesOnlyNagoya` | src/models.rs:54-59 | treaty entries other than `XXVII8b` never influence the decoded treaties |
| `Models.ImplementingCountriesFromRef` | src/models.rs:73-77 | the projection hands out a copy equal to the state's implementing countries |
| `Models.ConfigFromRef` | src/models.rs:95-99 | the projection hands out a copy equal to the state's configuration |
| `Models.FromRefProjections` | src/models.rs:73-99 | the `FromRef` projections return the implementing countries and the config the state holds, each independent of the other field |
| `NagoyaCheck.ProbeCountryCode3` | src/nagoya_check.rs:58-71 | 3 bytes: upper-cased alpha-3 lookup; 2 bytes: upper-cased alpha-2 lookup giving that entry's alpha-3; unknown code: `MalformedCountryCode`; any other length: panic |
| `NagoyaCheck.IsProbeInImplementingCountry` | src/nagoya_check.rs:47-75 | panics iff the length is wrong; `MalformedCountryCode` iff the length is right and the code is unknown; never `UnresolvableCoordinates`; otherwise `Ok(b)` with b iff the upper-cased alpha-3 is in the set |
| `NagoyaCheck.NagoyaCheckCc` | src/nagoya_check.rs:11-22 | the check's boolean goes unchanged into `check_result`; its error and its panic pass through unchanged |
| `NagoyaCheck.NagoyaCheckGeo` | src/nagoya_check.rs:25-44 | any geocoder failure is exactly `UnresolvableCoordinates`; a resolved code gives whatever `nagoya_check_cc` gives for it |
| `NagoyaCheck.WrongLengthPanics` | src/nagoya_check.rs:68-71 | `""`, `"D"` and `"DEUT"` panic instead of returning a value |
| `NagoyaCheck.MalformedProbe` | src/nagoya_check.rs:120-140 | `"XYZ"`, absent from the alpha-3 table, gives `MalformedCountryCode` even with an empty set |
| `NagoyaCheck.ProbeInImplementingCountry` | src/nagoya_check.rs:81-118 | `"DEU"` is `Ok(true)` for `{DEU, AUS}` and `{DEU}`, and `Ok(false)` for `{AFG}` and for the empty set |
| `NagoyaCheck.AbsentIsFalse` | src/nagoya_check.rs:72-74 | a known code whose alpha-3 is not in the set (including the empty set) gives `Ok(false)`, never an error |
| `NagoyaCheck.CaseInsensitive` | src/nagoya_check.rs:59-67 | two probes that differ only in the case of ASCII letters give the same outcome |
| `NagoyaCheck.CaseInsensitivityBreaks` | src/nagoya_check.rs:59-67 | the length is taken before upper-casing, so "ſe" (3 bytes) is `MalformedCountryCode` while "se" is answered with Sweden's membership |
| `NagoyaCheck.Alpha2Alpha3Agree` | src/nagoya_check.rs:58-74 | an alpha-2 probe and an alpha-3 probe whose table entries carry the same alpha-3 give the same returned outcome |
| `NagoyaCheck.OnlyResolvedCodeMatters` | src/nagoya_check.rs:72-74 | the set is consulted only for the one resolved code: sets agreeing on it give the same outcome |
| `NagoyaCheck.MonotoneInSet` | src/nagoya_check.rs:72-74 | adding countries to the set never turns `Ok(true)` into anything else |
| `NagoyaCheck.SecondUpperCaseIsNoOp` | src/nagoya_check.rs:72-74 | when the table's alpha-3 codes are upper case, the membership test uses the looked-up code exactly as the table holds it |
| `NagoyaCheck.SharpSProbes` | src/nagoya_check.rs:59-67 | "ß" and "ßd" upper-case to "SS" and "SSD" and so are answered with South Sudan's membership |
| `NagoyaCheck.GeoFailureIgnoresSet` | src/nagoya_check.rs:33-43 | a geocoder failure yields `UnresolvableCoordinates` whatever the implementing set is |
| `ExternalData.FilterParties` | src/external_data.rs:71-73 | keeps exactly the records whose Nagoya entry has a party date |
| `ExternalData.Code3s` | src/external_data.rs:74 | maps each record to its `code3`, position by position, unchanged |
| `ExternalData.Collect` | src/external_data.rs:77-79 | the hash set holds exactly the collected codes and is no larger than their list |
| `ExternalData.ImplementingCodes` | src/external_data.rs:71-79 | c is in the set iff some record has `code3 == c` and a Nagoya party date; the set is no larger than the number of party records |
| `ExternalData.GetImplementingCountries` | src/external_data.rs:62-82 | a parse failure is returned as `Err` and no set is built; otherwise the set is exactly the party records' codes |
| `ExternalData.EmptyRegistry` | src/external_data.rs:71-79 | no records give the empty set |
| `ExternalData.NonPartyContributesNothing` | src/external_data.rs:73 | a record whose Nagoya party date is `None` adds nothing, whether it is appended or prepended (and, by `OrderIrrelevant`, at any position) |
| `ExternalData.DuplicateCodesCollapse` | src/external_data.rs:77-79 | a party record whose code is already present leaves the set unchanged |
| `ExternalData.OrderIrrelevant` | src/external_data.rs:71-75 | the set depends only on which records occur, not on their order or repetition |
| `ExternalData.AndorraRecord` | src/external_data.rs:90-118 | the Andorra test record keeps only its `XXVII8b` date and contributes `AND`; a lower-case code would be kept as written |
| `Api.CountryCodeReply` | src/api.rs:30-34 | Ok gives the body unchanged, `MalformedCountryCode` gives 422, any other error gives 500, a panic gives no response; never 502 |
| `Api.GeoReply` | src/api.rs:56-66 | Ok gives the body unchanged, `UnresolvableCoordinates` gives 502, any other error (the malformed code included) gives 500, a panic gives no response; never 422 |
| `Api.NagoyaCheckCountryCode` | src/api.rs:26-35 | for a decoded payload: 200 with the membership answer iff the code is known, 422 iff it has the right length but is unknown, no response iff the length is wrong; 500 and 502 never occur |
| `Api.NagoyaCheckGeocoordinates` | src/api.rs:47-67 | for a decoded payload: a geocoder failure gives 502; a resolved code gives 200 with the membership answer, 500 if the code is unknown, no response if its length is wrong; never 422 |
| `Api.HealthCheck` | src/api.rs:76-80 | the health check always answers "NagoyaAPI is running" |

## Left out

- The TTL-refreshing cache: `AppState::new(config, countries, ttl)` is called at src/main.rs:54-61 and `state.implementing_countries()` at src/api.rs:58. Neither is defined in src/models.rs, whose `Cache` is commented out. `Api.NagoyaCheckGeocoordinates` therefore reads the state's `implementing_countries` field directly.
- The geocoder's revision: `fetch_country_code_by_coordinates` at src/external_data.rs:39-55 returns a bare `String`, but src/nagoya_check.rs:34-40 maps an error out of it. The model follows the call site: the geocoder is a function `(Config, Coordinates) -> Result<string, GeoError>`. Its HTTP request and URL formatting are left out.
- Fetching the treaty registry (src/external_data.rs:7-37) is network I/O that panics on failure, and is left out. So is reading the JSON with serde (src/external_data.rs:57-60, src/helpers.rs:4-8). `GetImplementingCountries` takes the parsed records, or the parse error, as input. `DecodeTreaties` takes a record's treaties as a map from treaty key to party value, already read from JSON.
- The ISO 3166-1 crate's table is an input (`IsoTable`), not the real list of countries. Lemmas that need particular rows, such as `DEU`, state them as preconditions.
- `Text.ToUpper`, `Text.UpperChar`: upper-case ASCII letters and 'ß' only, and keep every other character as written. Rust's `to_uppercase` also upper-cases other non-ASCII letters. Most of them map to non-ASCII capitals ('é' to 'É'), which are never keys of the ISO 3166-1 table. Some map to ASCII letters: 'ı' to "I", 'ſ' to "S", and the 3-byte ligatures 'ﬀ', 'ﬁ', 'ﬂ', 'ﬃ', 'ﬄ', 'ﬅ', 'ﬆ' to "FF", "FI", "FL", "FFI", "FFL", "ST", "ST". With the real table this changes no answer. A 2-byte "ı" or "ſ" upper-cases to a single letter, which is no alpha-2 code. A 3-byte probe holding 'ı' or 'ſ', or a lone 2-letter ligature, upper-cases to two letters, which the alpha-3 lookup rejects. "FFI" and "FFL" are not alpha-3 codes. So source and model both answer `MalformedCountryCode` for such probes of 2 or 3 bytes, and both panic for any other length. They would differ only for a table where the mapped text is a key.
- The source's case-insensitivity holds only for the case of ASCII letters (and 'ß'). The byte length is taken before upper-casing (src/nagoya_check.rs:59, 63), and 'ſ', 'ı' are two bytes while 's', 'i' are one. So "ſe" and "ıt" are `MalformedCountryCode` (422) where "se" and "it" name Sweden and Italy. The model gives the same answers (`NagoyaCheck.CaseInsensitivityBreaks`).
- Coordinates are `f64` values, modelled as opaque 64-bit patterns. The model never computes with them.
- `async`/`await`, tracing spans and events, OpenAPI annotations, routing, environment loading and server start-up (src/main.rs) are left out. Every operation is synchronous.
- src/handlers.rs is stale code referring to functions and types that do not exist, and is not part of this model.
- Decoding the request body is not modelled. The handlers take an already decoded payload. Before a handler runs, axum's `Json` extractor (src/api.rs:28, 51) rejects a body on its own: 422 for a body that does not fit the struct, 400 for malformed JSON, 415 for a missing content type. The statuses stated for `Api.NagoyaCheckCountryCode` and `Api.NagoyaCheckGeocoordinates` hold only once the body has been decoded.
- `Models.NagoyaError` is imported by src/nagoya_check.rs:6 but its definition is not part of this model. It is modelled with exactly the two variants the code uses, `MalformedCountryCode` and `UnresolvableCoordinates`. The statements that "the other error" gives 500 in `Api.CountryCodeReply` and `Api.GeoReply` rest on that.
