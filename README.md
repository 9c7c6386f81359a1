# Level-detail endpoint, modelled in Dafny

`api/test.js` is one serverless HTTP handler. Given a Geometry Dash level id, it does the following:
1. It fetches the level record from GDBrowser.
2. It fetches the author's profile, the level leaderboard and the first page of comments, all at once.
3. It derives a thumbnail URL, a song URL and a level-page URL.
4. It answers with the level record spread into one JSON object, plus two added keys: `extras` and `extended_info`.

Every response carries the same cross-origin headers. A preflight (`OPTIONS`) request is answered at once. A missing id is refused with 400. A level response that is not ok has its status forwarded. Any exception ends in a 500 that carries the exception's message.

The model is in two parts:
- **The decision itself, as one pure function.** `LevelDetail.Handle` takes the request and the awaited results of the level fetch, the three side fetches and `decodeURIComponent`. It returns the response sent and the URLs fetched, in the order they are requested. `decodeURIComponent` is an uninterpreted function parameter (`string -> Result<string, string>`). Its failure is the URIError that the handler's catch block turns into a 500.
- **The handler as it runs, in imperative form.** `Http.ServerResponse` is the response object that the handler writes step by step (`setHeader`, `status`, `json`, `end`). `Endpoint.HandleRequest` makes those calls in the source's order, holds the song URL in a variable that the branches reassign, and exits early where the source returns or throws. It builds the response object with `LevelDetail.FullResponse`, the model of that object literal. Its contract proves that what it sends equals what `Handle` chooses.

JavaScript's implicit conversions decide several branches, so they are modelled explicitly:
- truthiness, for `!id`, `if (levelData.songLink)` and `authorData || …`
- ToString, for template literals and for the argument of `decodeURIComponent`; it throws a TypeError for an object with a `toString` field of its own, also when that object sits inside an array
- the comparison `customSong >= 1`: ToPrimitive, then ECMAScript's StringToNumber for strings, arrays and objects
- property reads on a parsed body
- object spread, which copies an object's members, an array's elements or a string's characters (one per code point here, see "Left out"); a spread that writes a key again keeps that key's position

JSON objects are association lists in the engine's property order, so the position of `extras` and `extended_info` in the response is modelled too.

The handler removes no field from the level record and does not probe the thumbnail: `extras.thumbnail_url` is always the template URL.

Modules and files:
- `wrappers.dfy`: `Option` and `Result`.
- `assoc.dfy`: ordered key/value lists, for object properties and the header table.
- `js_numbers.dfy`: decimal formatting and StringToNumber.
- `js_values.dfy`: JSON values and JavaScript's conversions.
- `http.dfy`: the response object.
- `level_detail.dfy`: the pure handler.
- `level_detail_properties.dfy`: its properties.
- `endpoint.dfy`: the imperative handler.

## Model

| member | source | states |
|---|---|---|
| LevelDetail.Handle | api/test.js:1-96 | Every response carries the CORS headers, and only the preflight has no body. The handler fetches nothing, only the level, or the level and the three side resources; the first request is always the level. The status is 200, 400, 500 or the level response's own status. |
| LevelDetail.IdPresent | api/test.js:15-19 | The request passes the id check exactly when the parameter, read as a JavaScript value (undefined, a string or an array of strings), is truthy. |
| LevelDetail.IdText | api/test.js:24 | The text put into the URLs is what a template literal makes of the parameter; repeated values are joined by commas. |
| LevelDetail.JoinStrings | api/test.js:24 | The engine's comma join of an array of strings equals the plain comma join of the strings. |
| LevelDetail.OrNull | api/test.js:39-40 | The profile call yields a non-null value only as the parsed body of an ok answer, and always yields that body when there is one. |
| LevelDetail.OrEmptyList | api/test.js:43-48 | The leaderboard and comments calls yield the parsed body of an ok answer, and `[]` when the fetch rejects, the answer is not ok or the body does not parse. |
| LevelDetail.AuthorProfile | api/test.js:84 | `author_profile` is never falsy. It is `{error: "Profile not found"}` when the profile call failed in any way. For a parsed ok body, it is that body when the body is truthy, and the error object when the body is falsy (`null`, `false`, `0`, `""`). Anything other than the error object is a parsed ok body. |
| LevelDetail.SongUrl | api/test.js:60-68 | The song URL is null or a string. It is null exactly when `customSong >= 1` is false, and converting a `customSong` that cannot be made primitive throws. |
| LevelDetail.FullResponse | api/test.js:71-88 | In the response object, every key other than `extras` and `extended_info` has the value the spread level record gives it. `extras` holds the thumbnail, song and level-page URLs, built from the fixed templates with `id` substituted. `extended_info` holds the three side results. Keys keep the record's order; the two added keys come last unless the record already had them. |
| LevelDetailProperties.PreflightIsNoOp | api/test.js:11-13 | An `OPTIONS` request gets status 200, the CORS headers and no body, whatever its id. Nothing is fetched. |
| LevelDetailProperties.MissingIdRejected | api/test.js:15-19 | A missing `id` or an empty `id` gets status 400 with body `{error: 'Level ID is required.'}`. Nothing is fetched. |
| LevelDetailProperties.FetchesOnlyWithId | api/test.js:11-24 | Something is fetched if and only if the request is not a preflight and has a non-empty id. The first request is always `https://gdbrowser.com/api/level/${id}`. |
| LevelDetailProperties.UpstreamStatusForwarded | api/test.js:24-28 | A level response that is not ok gets exactly its own status and the fixed body `{error: 'Level not found or GDBrowser error'}`. The upstream body is not passed on. Only the level was fetched. |
| LevelDetailProperties.LevelReadFailures | api/test.js:24-31 | Three failures each give a 500 with `error: 'Internal Server Error'` and the thrown message in `details`, after only the level fetch: a rejected level fetch, a body that is not JSON, and a `null` body (reading `.author` on it throws). |
| LevelDetailProperties.SongUrlFromLink | api/test.js:63-64 | With a custom song and a truthy `songLink` whose text is t, the song URL is the decoding of t. When decoding fails, the failure is passed on. |
| LevelDetailProperties.SongUrlFallback | api/test.js:65-66 | With a custom song and a falsy or absent `songLink`, the song URL is `https://www.newgrounds.com/audio/listen/` followed by the text of `songID`. |
| LevelDetailProperties.SongUrlFallbackExample | api/test.js:65-66 | A record with `customSong: 12345`, `songID: 12345` and no link gives `https://www.newgrounds.com/audio/listen/12345`. |
| LevelDetailProperties.DecodeFailureIs500 | api/test.js:92-94 | When decoding `songLink` throws, the answer is 500 with `error: 'Internal Server Error'` and the failure's message in `details`. All four requests had already been made. |
| LevelDetailProperties.ConversionFailures | api/test.js:39-66 | An `author` that cannot be made primitive throws before the side calls: 500 after the level fetch alone. A `customSong`, a truthy `songLink` or a fallback `songID` that cannot be made primitive throws after all four requests. Each gives a 500 with the TypeError's message. |
| LevelDetailProperties.AuthorObjectExample | api/test.js:39 | A record `{author: {toString: 1}}` for id 5 gives a 500 with "Cannot convert object to primitive value", after fetching only the level. |
| LevelDetailProperties.NestedLinkExample | api/test.js:64 | A `songLink` that is an array holding an object with its own `toString` throws the TypeError when it is converted for decoding. |
| LevelDetailProperties.SuccessResponse | api/test.js:37-90 | Once the level record is read, the author printed and the song URL derived, the answer is 200 with the full response, whatever the side calls returned. The requests made are the level, `profile/${author}`, `leaderboardLevel/${id}` and `comments/${id}?count=20`, in that order. |
| LevelDetailProperties.SideCallsNeverChangeStatus | api/test.js:37-52 | The three side calls never change the status or the list of URLs fetched. |
| LevelDetailProperties.OneOfFiveOutcomes | api/test.js:11-95 | Every request ends as one of five outcomes: preflight 200 without a body, 400 missing id, the forwarded upstream status, 500 internal error, or 200 with an object that has `extras`. |
| Endpoint.HandleRequest | api/test.js:1-96 | Writing the response step by step finishes it. The status, headers and body sent, and the URLs fetched, are exactly those of `Handle`. |
| Endpoint.SetCorsHeaders | api/test.js:3-9 | The four `setHeader` calls leave exactly the four CORS headers, in order. |
| Endpoint.DeriveSongUrl | api/test.js:60-68 | The reassigned `songUrl` variable ends as the specified song URL, or as the exception raised on the way. It ends as null exactly when `customSong >= 1` is false. |
| Endpoint.Catch | api/test.js:92-95 | The catch block finishes the response with status 500 and `{error: 'Internal Server Error', details: message}`. |
| Http.ServerResponse.SetHeader | api/test.js:3-9 | Setting a header replaces a header of the same name, or appends a new one at the end. Nothing else changes. |
| Http.ServerResponse.Status | api/test.js:27 | `res.status(code)` sets the status and nothing else. |
| Http.ServerResponse.SendJson | api/test.js:90 | `res.json(body)` sends the body and finishes the response. The status and headers are kept. |
| Http.ServerResponse.End | api/test.js:12 | `res.end()` finishes the response with no body. |
| Assoc.PutLookup | api/test.js:76-87 | Writing `extras` or `extended_info` into the spread object gives that key the new value. Every other key keeps its value. |
| Assoc.PutOthers | api/test.js:76-87 | The same for all other keys at once. |
| Assoc.PutKeys | api/test.js:71-88 | A key written again keeps its position in the object, and a new key is appended. |
| Assoc.PutAbsentAppends | api/test.js:3-9 | Setting a header that is not present appends it at the end. |
| Assoc.PutDistinct | api/test.js:71-88 | Writing a key never makes a key appear twice. |
| Assoc.LookupFound | api/test.js:71-88 | A key has a value if and only if it is one of the object's keys. |
| JsValues.Truthy | api/test.js:63 | A value is falsy exactly when it is undefined, null, false, 0 or the empty string. |
| JsValues.Member | api/test.js:31 | Reading a property gives a value exactly when the record is an object that has that key. |
| JsValues.ToStr | api/test.js:64 | Converting a value to a string throws exactly when it is an object with its own `toString` field, or an array holding one at any depth; the error is V8's TypeError message. |
| JsValues.Join | api/test.js:64 | Joining an array's first n elements throws exactly when one of them cannot be converted. |
| JsValues.TemplateText | api/test.js:39 | An absent property prints as "undefined"; a present value prints as its ToString, and throws exactly when ToString does. |
| JsValues.AtLeastOne | api/test.js:61 | `x >= 1` throws exactly when x cannot be made primitive, with the same message. |
| JsValues.NumericStringAtLeastOne | api/test.js:61 | `customSong` given as the decimal string of n compares with 1 exactly as the number n does. |
| JsValues.SingletonArrayAtLeastOne | api/test.js:61 | `[n] >= 1` holds if and only if n >= 1, because the array converts to its string. |
| JsValues.OwnEntriesIndexed | api/test.js:73 | Spreading an array or a string gives one entry per element or character, under the keys "0", "1", … in order, with no key twice, each holding its element or character. |
| JsNumbers.StringToNumber | api/test.js:61 | A string of decimal digits, with or without a leading minus sign, converts to the integer it spells. |
| JsNumbers.IntToDecimal | api/test.js:66 | The decimal form of an integer is a string of digits, preceded by a minus sign when negative, spelling that integer. The only form that starts with a zero is "0" itself. |
| JsNumbers.DecimalRoundTrip | api/test.js:61-66 | StringToNumber reads the decimal form of an integer back as that integer. The decimal form is how `${songID}` prints a number, and StringToNumber is what `>= 1` applies to a string. |
| JsNumbers.DecimalAtLeastOne | api/test.js:61 | The decimal string of n is `>= 1` if and only if n >= 1. |
| JsNumbers.NatToDecimalDenotes | api/test.js:66 | The decimal form of a natural number is made of digits and denotes that number. It starts with a zero only when it is "0", so no number's form has a leading zero. |
| JsNumbers.NatToDecimalInjective | api/test.js:66 | Different numbers print differently. |
| JsNumbers.UnsignedDigits | api/test.js:61 | A string made only of digits converts to its value. |

## Left out

- The fetches and `Promise.all` (api/test.js:24, 37-52) are network I/O and concurrency. Their settled results are inputs (`Fetched`). Since every side call catches its own failure, `Promise.all` never rejects, so only the settled values matter. The fetched URLs are the raw template strings; the percent-encoding that URL parsing applies to them is not modelled.
- JSON parsing of response bodies (api/test.js:30, 40, 44, 48) is not modelled. A body is given already parsed, or as the parse error's message. Numbers are integers, so non-integer and out-of-range JSON numbers are not modelled (floating point). An object's members are assumed to be in the engine's property order, with no key twice.
- `decodeURIComponent` (api/test.js:64) is a function parameter. Its internals (RFC 3986 section 2.1 percent-decoding, UTF-8) are not modelled.
- `console.error` (api/test.js:93) is logging only.
- `Content-Type: application/json`, which `res.json` adds, is not modelled. Neither is the JSON serialisation of the body.
- Header names are compared exactly, not case-insensitively. The boolean `true` given for `Access-Control-Allow-Credentials` is recorded as the string "true" that is sent.
- JsValues.AtLeastOne: the rounding of a decimal string to a double is not modelled, because the model compares decimal literals exactly. For example, JavaScript reads "0.99999999999999999999" as 1.
- The error thrown for a `null` level body carries V8's wording of the TypeError (`NullAuthorMessage`). Other engines word it differently.
- Http.ServerResponse: writing to a response that is already finished throws in Node. The methods instead require that the response is not finished, which the handler always respects.
- Strings are sequences of Unicode code points, while JavaScript strings are sequences of UTF-16 code units. Spreading a string that holds a character outside the Basic Multilingual Plane gives one key per code point in the model and two keys in JavaScript. Lone surrogates cannot be represented.
- JsNumbers.DecimalRoundTrip: holds for every integer in the model. JavaScript prints numbers of magnitude 1e21 and above in exponent form, and JSON parsing rounds integers above 2^53 to the nearest double, so for such numbers `${songID}` and the comparison differ from the model.
- JsValues.ToStr: prints an integer in plain decimal at every magnitude; JavaScript switches to exponent form from 1e21.
