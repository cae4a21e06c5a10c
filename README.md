# LanisAPI core in Dafny

A model of the core of LanisAPI, a Python client for the school portal
Schulportal Hessen, with proofs of what that core promises. It covers:

- **The `Cryptor`** (`cryptor.dfy`). This is the CryptoJS-compatible "Salted__" AES scheme the portal
  expects. The model includes:
  - the MD5 key-derivation chain (OpenSSL's `EVP_BytesToKey`, one iteration);
  - PKCS#7 padding (section 6.3 of RFC 5652);
  - the `"Salted__" + salt + ciphertext` frame in base64 (section 4 of RFC 4648, `base64.dfy`);
  - the generated secret;
  - the RSA handshake and challenge that drive the `authenticated` flag.

  MD5, AES-256-CBC and RSA are function values in a `Primitives` record. The predicate `Lawful` states the one
  property the scheme relies on: AES-CBC decryption undoes encryption on block-aligned data, and MD5 digests
  are 16 bytes long. The random salt, the values of `_random_letter`, the fetched public key and the server's
  handshake answer are inputs.
- **The login steps** (`login_split.dfy`, `http.dfy`). These are the four `get_session` /
  `get_authentication_url` / final-cookie variants, which cut the `SPH-Session` and `sid` values out of raw
  `Set-Cookie` text by positional `split`. Python's `str.split`, `str.join`, `str.find` and indexing are
  modelled in `pystr.dfy`, including the IndexError when a field is missing.
- **The status-checked three-step chain** of `auth.py` and `authentication/authenticate.py`
  (`login_chain.dfy`). An httpx client is a class whose cookie jar each step updates in place.
- **The client state machines** and their decorators:
  - `LanisClient` of `client.py` (`client.dfy`). It has the cookie path, the account path with school lookup,
    the handshake, `close` and `logout`.
  - The two older `LanisClient`s (`legacy_clients.dfy`).
  - `requires_auth` and `handle_exceptions` (`wrappers.dfy`).
- **The school directory** (`schools.dfy`). This covers `parse_schools` with its nested loops, the three
  first-match lookups, `get_schools`, and the flattening of `_get_schools`.
- **Applets and apps** (`applets.dfy`). This covers `parse_applets`, the substring availability search,
  `get_apps` and the exact-match `is_link_supported`.
- **The substitution plan** (`substitutions.dfy`, `substitution_html.dfy`, `dates.dfy`). This covers:
  - the falsy-to-`None` field mapping;
  - the `dd.mm.yyyy` dates (`strftime` and `strptime` with `"%d.%m.%Y"`);
  - the `data-tag="..."` scan (`re.findall`);
  - the plan requests;
  - the experimental HTML module's one-plan-per-distinct-date loop.

The portal is a `Portal` record of functions giving its answer to the login POST, to a request of a URL with a
jar, and to the logout POST. That `visit` request stands for every other kind of request the code sends with
a jar: a GET, the HEAD requests of the status-checked chain and of `core/initialization/authenticate.py`, and
the POST that the `Request` helper's `get` actually sends. The model does not tell these methods apart. A transport failure is the error `RequestError`; a Python exception is an `Err`
of a `Result`. Decoded JSON is a `Json` datatype. Page text and JSON answers are inputs. The resolution of
`urllib.parse.urljoin` for two non-empty strings is a function parameter.

## Model

| member | source | states |
|---|---|---|
| Base64.Encode | src/lanisapi/helpers/cryptor.py:276-278 | `b64encode` gives 4 characters per started 3-byte group, all ASCII |
| Base64.DecodeLength | src/lanisapi/helpers/cryptor.py:298 | `b64decode` (`Decode`) refuses text whose length is not a multiple of 4 |
| Base64.DecodeEncode | src/lanisapi/helpers/cryptor.py:276-278 | decoding the base64 text of any bytes gives back those bytes |
| Base64.SextetRoundTrip | src/lanisapi/helpers/cryptor.py:276-278 | each 6-bit value maps to an alphabet character that decodes back to it |
| Cryptor.StreamPrefix | src/lanisapi/helpers/cryptor.py:64-70 | the chained MD5 stream of m blocks is 16*m bytes long and extends every shorter stream |
| Cryptor.KeyMaterialPrefix | src/lanisapi/helpers/cryptor.py:64-70 | the derived bytes are the first `output` bytes of the MD5 chain over passphrase+salt, however far the chain is continued |
| Cryptor.StreamLength | src/lanisapi/helpers/cryptor.py:64-70 | the chain of m MD5 blocks (`KdfStream`) is 16*m bytes long |
| Cryptor.KeyMaterial | src/lanisapi/helpers/cryptor.py:41-70 | the derivation gives exactly `output` bytes |
| Cryptor.KeyAndIv | src/lanisapi/helpers/cryptor.py:272-274 | with 48 derived bytes, the AES key is MD5 blocks b0+b1 and the IV is block b2 |
| Cryptor.BytesToKey | src/lanisapi/helpers/cryptor.py:41-70 | fails (AssertionError) exactly when the salt is not 8 bytes; otherwise returns the `output`-byte prefix of the MD5 chain |
| Cryptor.Pad | src/lanisapi/helpers/cryptor.py:72-90 | the result is block-aligned, 1 to 16 bytes longer, starts with the data, and every added byte equals the number added |
| Cryptor.Unpad | src/lanisapi/helpers/cryptor.py:92-111 | IndexError exactly on empty data; otherwise a prefix shortened by the last byte's value, or empty when that count is 0 or at least the length |
| Cryptor.UnpadPad | src/lanisapi/helpers/cryptor.py:89-111 | unpadding inverts padding for every input, the empty one included |
| Cryptor.EncryptFrame | src/lanisapi/helpers/cryptor.py:269-282 | the encryption is valid base64 whose length is fixed by the padded plain text |
| Cryptor.DecryptFrame | src/lanisapi/helpers/cryptor.py:298-310 | Base64Error exactly when the text is not base64; a success implies the decoded frame starts with "Salted__" and carries a salt |
| Cryptor.RoundTrip | src/lanisapi/helpers/cryptor.py:269-310 | decrypting with the passphrase that encrypted gives back the plain text, for any salt of 8 bytes |
| Cryptor.FillShape | src/lanisapi/helpers/cryptor.py:141-143 | when no random draw reaches 16, the key has the template's length, each `x`/`y` becomes a hex digit, and every other character is kept |
| Cryptor.FillLength | src/lanisapi/helpers/cryptor.py:121-143 | each placeholder becomes one or two characters (a draw of 16 renders as "10"), so the key is between one and two times the template's length |
| Cryptor.GeneratedKey | src/lanisapi/helpers/cryptor.py:128-143 | the raw key is between one and two times the 46-character template's length |
| Cryptor.GeneratedSecret | src/lanisapi/helpers/cryptor.py:149 | the secret `encrypt(key, key)` decrypts under the raw key back to the raw key |
| Cryptor.FrameOfKeyLength | src/lanisapi/helpers/cryptor.py:149 | a 46-byte text encrypted under itself is 88 characters long |
| Cryptor.SecretLength | src/lanisapi/helpers/cryptor.py:141-149 | without a draw of 16, the raw key has 46 bytes and the secret `encrypt(key, key)` has 88 characters |
| Cryptor.EncryptedKey | src/lanisapi/helpers/cryptor.py:225-244 | the encrypted key is base64 that decodes to the RSA encryption of the secret |
| Cryptor.ChallengeOutcome | src/lanisapi/helpers/cryptor.py:181-198 | raises exactly when the challenge cannot be decrypted, and is true exactly when it decrypts to the secret |
| Cryptor.HonestChallenge | src/lanisapi/helpers/cryptor.py:181-198 | a challenge that encrypts the secret under itself passes |
| Cryptor.WrongChallenge | src/lanisapi/helpers/cryptor.py:181-198 | a challenge that encrypts any other text under the secret fails with False |
| Cryptor.HandshakeOutcome | src/lanisapi/helpers/cryptor.py:312-336 | a server error propagates; the result is true exactly when the server's challenge decrypts to the generated secret |
| Cryptor.HonestHandshake | src/lanisapi/helpers/cryptor.py:312-336 | a server that answers with the secret encrypted under itself completes the handshake |
| Cryptor.TrivialIsLawful | src/lanisapi/helpers/cryptor.py:275 | the assumption on the primitives can be met (a trivial cipher satisfies it) |
| Cryptor.Cryptor.constructor | src/lanisapi/helpers/cryptor.py:37-39 | a new cryptor has no secret and is unauthenticated |
| Cryptor.Cryptor.Encrypt | src/lanisapi/helpers/cryptor.py:246-282 | returns None when unauthenticated and no passphrase is given; a non-empty passphrase is used; otherwise the negotiated secret is used, and AttributeError is raised while it is unset |
| Cryptor.Cryptor.Decrypt | src/lanisapi/helpers/cryptor.py:284-310 | raises NotAuthenticatedError while unauthenticated, and otherwise decrypts with the negotiated secret |
| Cryptor.Cryptor.Challenge | src/lanisapi/helpers/cryptor.py:181-198 | compares the decrypted challenge with the secret, behind the decrypt guard |
| Cryptor.Cryptor.Authenticate | src/lanisapi/helpers/cryptor.py:312-336 | stores the generated secret and returns the handshake outcome; the flag is true afterwards unless the challenge mismatched, and is untouched when the server raised |
| Http.SetCookie | src/lanisapi/helpers/authentication.py:35-41 | the jar gains or replaces the named cookie with that value, domain and path; every other cookie is kept |
| Http.GetCookie | src/lanisapi/client.py:95 | a cookie's value, or None when it is absent or on another domain than the one asked for |
| Http.JarOf | src/lanisapi/client.py:124-129 | a dict given as cookies becomes one cookie per key, on the empty domain and path "/" |
| Http.HeaderGet | src/lanisapi/helpers/authentication.py:38 | None exactly when the header is absent; a single value is returned as it is |
| Http.TwoHeaderValues | src/lanisapi/helpers/authentication.py:74-79 | two Set-Cookie headers are read as one string joined by ", " |
| Http.ResponseCookie | src/lanisapi/auth.py:46 | a response cookie's value, present exactly when the response set it |
| Http.LoginForm | src/lanisapi/helpers/authentication.py:21-31 | query `i` is the school id; `user2` is the username; `user` is "school.username"; the password is copied |
| Http.LoginUserSplits | src/lanisapi/helpers/authentication.py:29 | for a school id without a dot, the first dot-field of `user` is the school id |
| Http.ViaRequest | src/lanisapi/helpers/request.py:14-33 | a 404 becomes PageNotFoundError; any other answer or error passes through |
| Http.ViaRequestJson | src/lanisapi/helpers/request.py:25-33 | the same 404 rule for a JSON-bearing response |
| Http.VisitUrl | src/lanisapi/auth.py:81 | a request to URL None raises TypeError; any other URL is asked of the portal |
| PyStr.FindFrom | src/lanisapi/applets.py:84 | `find` returns the first occurrence at or after the start, or -1 exactly when there is none |
| PyStr.Find | src/lanisapi/applets.py:84 | -1 exactly when the substring does not occur; otherwise the first index where it occurs |
| PyStr.Item | src/lanisapi/helpers/authentication.py:38 | list indexing is IndexError exactly past the end |
| PyStr.SplitNoSep | src/lanisapi/helpers/authentication.py:38 | splitting a string without the separator yields it alone |
| PyStr.SplitCons | src/lanisapi/helpers/authentication.py:38 | the first field of `a + sep + b` is `a` when `a` lacks an unbordered separator |
| PyStr.SplitMany | src/lanisapi/helpers/authentication.py:38 | a split has a second field exactly when the separator occurs |
| PyStr.JoinSplit | src/lanisapi/helpers/authentication.py:38 | joining the fields of a split restores the string |
| PyStr.SplitFieldsLackSep | src/lanisapi/helpers/authentication.py:74-79 | no field of a split contains the separator |
| PyStr.SplitAfterFields | src/lanisapi/helpers/authentication.py:74-79 | splitting fields joined by `;`, then more text, yields those fields and then the rest's fields |
| PyStr.Split | src/lanisapi/helpers/authentication.py:38 | `str.split` gives at least one field (its partners `JoinSplit` and `SplitFieldsLackSep` state the rest) |
| PyStr.JoinCons | src/lanisapi/helpers/authentication.py:74-79 | `sep.join` of a first part and more parts is that part, the separator, then the join of the rest (`Join` itself has no contract; its partner is `JoinSplit`) |
| PyStr.ParseDecimal | src/lanisapi/schools.py:39 | `int(str(n)) == n` for every integer |
| PyStr.ParseInt | src/lanisapi/schools.py:39 | `int()` of text raises only ValueError |
| LoginSteps.SessionValue | src/lanisapi/helpers/authentication.py:38 | an absent header is AttributeError; otherwise the failures are IndexError only |
| LoginSteps.SessionValueDefined | src/lanisapi/helpers/authentication.py:38 | the session value exists exactly when the first `;`-field holds a `=` |
| LoginSteps.SessionValueOf | src/lanisapi/helpers/authentication.py:38 | for `name=value; attributes` the value is extracted up to its first `=` (all of it when it has none) |
| LoginSteps.SessionValueCut | src/lanisapi/helpers/authentication.py:38 | a value that itself contains `=` is cut there |
| LoginSteps.SessionValueExample | src/lanisapi/helpers/authentication.py:36-41 | "SPH-Session=abc123; Domain=.x" yields "abc123" |
| LoginSteps.SidValue | src/lanisapi/helpers/authentication.py:74-79 | an absent header is AttributeError; otherwise the failures are IndexError only |
| LoginSteps.SidValueFrom | src/lanisapi/helpers/authentication.py:74-79 | when the chosen `;`-field is `x, name=value`, the extracted sid is the value up to its first `=` |
| LoginSteps.SidValueMissing | src/lanisapi/helpers/authentication.py:74-79 | when the chosen `;`-field holds no ", ", the extraction raises IndexError |
| LoginSteps.FieldAfter | src/lanisapi/helpers/authentication.py:77 | the `;`-field after k fields is the text up to the next `;` |
| LoginSteps.SecondCookie | src/lanisapi/helpers/authentication.py:78 | in `a, pair` the second ", "-field is the pair |
| LoginSteps.SidValueOf | src/lanisapi/helpers/authentication.py:74-79 | the sid of a second cookie joined into the header at the chosen field is extracted exactly |
| LoginSteps.SidSecondFieldFails | src/lanisapi/core/initialization/authenticate.py:48 | field `[1]` raises when the first cookie has an attribute without ", " |
| LoginSteps.SidFieldChoice | src/lanisapi/core/initialization/authenticate.py:48 | on a header whose first cookie has two attributes, field `[2]` yields the sid while field `[1]` raises |
| LoginSteps.InterimJar | src/lanisapi/helpers/authentication.py:35-41 | the interim jar holds only `SPH-Session`, on ".hessen.de" and "/" |
| LoginSteps.SessionFrom | src/lanisapi/helpers/authentication.py:35-50 | errors propagate; the session jar is the interim jar of the extracted value, and the location is the answer's `location` header |
| LoginSteps.GetSession | src/lanisapi/helpers/authentication.py:8-50 | a 404 answer to the login POST raises PageNotFoundError and a transport error is raised; any other answer gives the interim jar of its `SPH-Session` value and its `location` header, or the error of a missing Set-Cookie field |
| LoginSteps.GetSessionDirect | src/lanisapi/authentication_functions.py:3-29 | every answer, a 404 included, gives the interim jar of its `SPH-Session` value and its `location` header, or the error of a missing field; a transport error is raised (also src/LanisAPI/authentication_functions.py:5-25 and src/lanisapi/core/initialization/authenticate.py:6-29) |
| LoginSteps.SessionVariantsAgree | src/lanisapi/helpers/authentication.py:33 | the checked and the direct `get_session` agree exactly when the answer is not a 404 |
| LoginSteps.AuthenticationUrlFrom | src/lanisapi/helpers/authentication.py:52-62 | the result is exactly the answer's `location` header, which may be None |
| LoginSteps.GetAuthenticationUrl | src/lanisapi/helpers/authentication.py:52-62 | the connect answer's `location` header, which may be None; a 404 raises PageNotFoundError and a transport error is raised |
| LoginSteps.GetAuthenticationUrlDirect | src/lanisapi/authentication_functions.py:31-42 | the `location` header of every connect answer, a 404 included; a transport error is raised (also src/LanisAPI/authentication_functions.py:27-33 and src/lanisapi/core/initialization/authenticate.py:32-37) |
| LoginSteps.UrlVariantsAgree | src/lanisapi/helpers/authentication.py:52-62 | the checked and the direct `get_authentication_url` agree exactly when the connect answer is not a 404 |
| LoginSteps.FinalJar | src/lanisapi/helpers/authentication.py:71-79 | a fresh jar holding exactly `i` and `sid` |
| LoginSteps.FinalCookiesFrom | src/lanisapi/helpers/authentication.py:64-83 | errors propagate; a success is the final jar of the school and the sid cut from the chosen field |
| LoginSteps.GetAuthenticationSid | src/lanisapi/helpers/authentication.py:64-83 | URL None is TypeError; `i` is the given school; the sid comes from field `[2]` after the 404 rule |
| LoginSteps.GetAuthenticationData | src/lanisapi/authentication_functions.py:44-62 | URL None is TypeError; `i` is "6091" whatever the school; the sid comes from field `[2]` (also src/LanisAPI/authentication_functions.py:35-43) |
| LoginSteps.GetAuthenticationCookies | src/lanisapi/core/initialization/authenticate.py:40-51 | URL None is TypeError; `i` is the given school; the sid comes from field `[1]` |
| LoginChain.Credentials | src/lanisapi/auth.py:21-49 | an error propagates; a non-302 answer returns None with the jar unchanged; a 302 stores `i` and `SPH-Session` and returns the stored session |
| LoginChain.SchoolCookieParses | lanisapi/authentication/authenticate.py:29-32 | the `i` cookie the first step stores reads back with `int()` as the school id |
| LoginChain.LoginLocation | src/lanisapi/auth.py:52-67 | a result is returned only on 302, and there it is exactly the `location` header |
| LoginChain.Token | src/lanisapi/auth.py:70-88 | only a 200 stores `sid`; a returned token is the jar's new `sid` |
| LoginChain.ChainFrom | src/lanisapi/auth.py:52-88 | a transport error of the connect request stops with the jar unchanged; the jar keeps every cookie but `sid`, gains at most `sid`, and a returned token is its `sid` |
| LoginChain.Chain | src/lanisapi/auth.py:91-104 | a transport error of the login POST stops with the jar unchanged; after a 302 the jar's `i` is the school id; a returned token is the jar's `sid` |
| LoginChain.RefusedCredentialsContinue | src/lanisapi/auth.py:91-104 | refused credentials do not stop the chain: steps two and three still run on the unchanged jar |
| LoginChain.NoRedirectIsTypeError | lanisapi/authentication/authenticate.py:68-80 | a connect answer that is not a redirect makes the third step request URL None, which raises TypeError |
| LoginChain.TokenTrace | src/lanisapi/auth.py:91-104 | a token comes back only through a 302 with a `location` followed by a 200 there, and it is the jar's `sid` |
| LoginChain.LoginClient.constructor | src/lanisapi/auth.py:91 | the client talks to the given portal with the given jar |
| LoginChain.LoginClient.CheckCredentials | lanisapi/authentication/authenticate.py:7-32 | posts the login form and updates the jar as `Credentials` says (also src/lanisapi/auth.py:21-49) |
| LoginChain.LoginClient.GetLoginUrl | lanisapi/authentication/authenticate.py:35-47 | the connect location on 302, None otherwise; the jar is unchanged |
| LoginChain.LoginClient.GetSessionToken | lanisapi/authentication/authenticate.py:50-65 | the GET of the URL updates the jar as `Token` says |
| LoginChain.LoginClient.Authenticate | lanisapi/authentication/authenticate.py:68-80 | the three steps in order; the outcome and the final jar are those of `Chain` |
| Wrappers.HandleExceptions | src/lanisapi/helpers/wrappers.py:11-21 | only RequestError is swallowed, becoming None; every other outcome is passed through unchanged |
| Wrappers.HandleExceptionsOnlyCatchesTransport | src/lanisapi/helpers/wrappers.py:16-20 | the wrapper changes an outcome exactly when that outcome is a RequestError |
| Wrappers.RequiresAuth | src/lanisapi/helpers/wrappers.py:23-31 | NotAuthenticatedError when unauthenticated; the wrapped result otherwise |
| Wrappers.RequiresAuthRaisesIff | src/lanisapi/helpers/wrappers.py:27-30 | the guard raises NotAuthenticatedError exactly when the flag is false (for a call that does not raise it itself) |
| Wrappers.LegacyRequiresAuth | src/lanisapi/lanisapi.py:98-105 | None without running the method when unauthenticated; the method's result otherwise (also src/LanisAPI/LanisAPI.py:64-71) |
| JsonAccess.Index | src/lanisapi/schools.py:38-40 | subscripting gives the field of a dict that has the key, KeyError for a dict without it, and TypeError otherwise |
| JsonAccess.IntOf | src/lanisapi/schools.py:39 | `int()` of a JSON value keeps numbers and parses decimal text |
| JsonAccess.IntOfDecimal | src/lanisapi/schools.py:39 | an id sent as decimal text reads back as that number |
| JsonAccess.Elements | src/lanisapi/schools.py:36-38 | the elements a loop visits when its body subscripts each one; TypeError where that fails for every element |
| JsonAccess.Iterate | src/lanisapi/functions/schools.py:35 | the items of a list, nothing for an empty dict, and the characters of a string; any other value raises TypeError |
| JsonAccess.MapAll | lanisapi/substitutions/parse.py:43-62 | converts every element in order, or raises the exception of the first element that fails |
| JsonAccess.MapAllFirstError | src/lanisapi/applets.py:30-35 | a failing element whose predecessors all convert decides the exception |
| JsonAccess.MapAllAll | src/lanisapi/applets.py:30-35 | when every element converts, the converted list is the result |
| Schools.SchoolOf | src/lanisapi/schools.py:39 | a school exists exactly when `Id` is present and converts with `int()`; name and city are copied |
| Schools.DistrictOf | src/lanisapi/schools.py:37-40 | one school per `Schulen` element, in order, then the district's own id and name |
| Schools.Districts | src/lanisapi/schools.py:25-42 | one district per element, in order; it succeeds whenever every element converts (also lanisapi/schools/parse.py:18-34) |
| Schools.ParseSchools | src/lanisapi/schools.py:34-42 | the two nested append loops return exactly `Districts` (also lanisapi/schools/parse.py:26-34) |
| Schools.FirstAmong | src/lanisapi/schools.py:92-94 | None exactly when no school matches; otherwise the id of a matching school |
| Schools.FirstAmongAppend | src/lanisapi/schools.py:91-95 | the first match in a concatenation is the first match of the first part, if there is one, else that of the second |
| Schools.FirstInIsFirstOverall | src/lanisapi/schools.py:91-95 | the nested district-then-school search finds the first match of the whole directory in that order |
| Schools.InDistrict | lanisapi/core/schools/schools.py:51-52 | exactly the districts with that name are kept |
| Schools.FindByNameAndCity | src/lanisapi/schools.py:79-95 | the early-return search returns the first school matching name and city in directory order |
| Schools.FindInDistrict | lanisapi/core/schools/schools.py:40-56 | the early-return search returns the first school with that name in a district of that name (also lanisapi/schools/schools.py:40-47) |
| Schools.GetSchools | src/lanisapi/schools.py:45-76 | errors propagate; a falsy response gives None; otherwise the decoded JSON (also lanisapi/core/schools/schools.py:9-37) |
| Schools.GetSchoolId | src/lanisapi/schools.py:79-95 | the search applied to the parsed directory; an error in fetching or parsing propagates |
| Schools.GetSchoolIdInDistrict | lanisapi/core/schools/schools.py:40-56 | the district search applied to the parsed directory; an error propagates (also lanisapi/schools/schools.py:40-47) |
| Schools.FalsyDirectoryIsTypeError | src/lanisapi/schools.py:73-74 | a falsy directory response makes every lookup raise TypeError (iterating None) |
| Schools.SchoolList | src/lanisapi/functions/schools.py:24-40 | errors propagate; a falsy response gives None |
| Schools.GetSchoolList | src/lanisapi/functions/schools.py:10-40 | a cached `schools.json` is returned as it is; otherwise the flattened answer after the 404 rule |
| Schools.FlattenGroups | src/lanisapi/functions/schools.py:31-36 | the nested append loop returns exactly `Flatten` |
| Schools.FlattenMatchesParse | src/lanisapi/functions/schools.py:34-36 | the flat list holds, entry by entry, the schools `parse_schools` finds, in district-then-school order |
| Client.CookieJar | src/lanisapi/client.py:123-129 | the cookie path's jar is exactly `{i: school id, sid: session id}` |
| Client.ExportCookies | src/lanisapi/client.py:92-95 | the exported credential is a cookie credential; a missing cookie exports as None |
| Client.ExportRoundTrip | src/lanisapi/client.py:92-129 | saved cookies export as themselves, and the jar of a completed login exports as its school and sid |
| Client.SchoolTest | src/lanisapi/client.py:144-145 | true exactly when `Name` and `Ort` are the given ones; raises (KeyError or TypeError) exactly when `Name` cannot be read, or `Name` matches and `Ort` cannot be read |
| Client.FirstEntry | src/lanisapi/client.py:141-146 | a found entry is one whose test holds after entries whose tests were false; None (StopIteration) exactly when every test is false; an error is that of the first test that raised, after tests that were false |
| Client.FirstEntryAt | src/lanisapi/client.py:141-146 | the entry at the first position whose test holds, after tests that were false, is the one found |
| Client.EntryId | src/lanisapi/client.py:146 | `["Id"]` of the found entry as text, present exactly when the key exists and is text or a number |
| Client.IdText | src/lanisapi/client.py:146 | a text id is used as it is and a numeric id as its decimal text |
| Client.LookupSchool | src/lanisapi/client.py:138-151 | fetching errors propagate and an iterable-less directory (None included) raises TypeError; otherwise the id of the entry the search finds, None exactly when it finds none, or the exception of a test or of the `Id` subscript |
| Client.LookupFindsFirstMatch | src/lanisapi/client.py:138-146 | with the call corrected, a directory whose entry i is the first to match gives entry i's id |
| Client.LookupFindsNothing | src/lanisapi/client.py:138-151 | with the call corrected, a directory in which no entry matches makes the lookup give up with None |
| Client.GetSchools | src/lanisapi/client.py:97-106 | the corrected call: the directory, with a RequestError turned into None |
| Client.GetSchoolsAsWritten | src/lanisapi/client.py:106 | the call as written always raises TypeError |
| Client.NameLookupAsWrittenFails | src/lanisapi/client.py:106 | as written, every lookup by name and city raises TypeError |
| Client.NameLookupFindsListedSchool | src/lanisapi/client.py:138-146 | with the call corrected, a directory that lists the school yields its id |
| Client.ResolveSchool | src/lanisapi/client.py:135-136 | a string school is used directly as the id |
| Client.AccountLogin | src/lanisapi/client.py:154-172 | a completed login leaves exactly `i` and `sid`; a session without `location` stops with no jar; an exception of each of the three steps is raised, and otherwise the jar is the final step's |
| Client.AccountLoginJar | src/lanisapi/client.py:154-172 | a completed login saw no 404 and leaves the final jar whose `i` is the school id and whose `sid` is cut from the third `;`-field of the Set-Cookie text of the URL the connect answer's `location` named |
| Client.Plan | src/lanisapi/client.py:123-172 | the cookie credential always installs its own jar |
| Client.CookiePathIgnoresPortal | src/lanisapi/client.py:123-132 | the cookie path makes no request: its outcome is independent of the portal and the directory |
| Client.UnknownSchoolStops | src/lanisapi/client.py:147-151 | a school that is not listed ends `authenticate` with no jar |
| Client.MissingLocationStops | src/lanisapi/client.py:159-164 | a login answer without `location` ends `authenticate` with no jar |
| Client.AuthenticationCookiesAsWritten | src/lanisapi/client.py:94 | as written, reading the cookies raises AttributeError |
| Client.ExportAsWrittenFails | src/lanisapi/client.py:94-95 | as written, the jar of a completed login cannot be exported, while the corrected reading exports it |
| Client.LanisClient.constructor | src/lanisapi/client.py:43-67 | a new client is unauthenticated, with an empty jar and a fresh unauthenticated cryptor |
| Client.LanisClient.Close | src/lanisapi/client.py:85-88 | the flag is cleared and the jar is kept |
| Client.LanisClient.AuthenticationCookies | src/lanisapi/client.py:91-95 | corrected: the credential exported from the client's jar, where the code as written raises AttributeError (see `Client.AuthenticationCookiesAsWritten`) |
| Client.LanisClient.LoginPlan | src/lanisapi/client.py:123-172 | without changing anything, returns the jar `authenticate` installs (the saved cookies, or the login's final jar), None to give up, or the exception, exactly as `Plan` |
| Client.LanisClient.Authenticate | src/lanisapi/client.py:108-179 | corrected (the name-and-city path uses `Client.GetSchools`, where the code as written raises TypeError): a no-op when authenticated; otherwise the planned jar is installed, the cryptor stores the generated secret and its flag ends as `Cryptor.authenticate` leaves it, and the client's flag is set exactly when the handshake succeeds; errors are filtered by `handle_exceptions` |
| Client.LanisClient.Logout | src/lanisapi/client.py:193-203 | NotAuthenticatedError when unauthenticated; otherwise the logout POST, and the flag is cleared only when it does not raise |
| LegacyClients.DataLogin | src/lanisapi/lanisapi.py:151-162 | a completed login leaves exactly `i` = "6091" and `sid`; a session without `location` stops; session errors propagate (also src/LanisAPI/LanisAPI.py:85-94) |
| LegacyClients.ParserClient.constructor | src/lanisapi/lanisapi.py:107-122 | a new client is unauthenticated with empty cookies |
| LegacyClients.ParserClient.Close | src/lanisapi/lanisapi.py:135-137 | the flag is cleared |
| LegacyClients.ParserClient.Authenticate | src/lanisapi/lanisapi.py:140-164 | a no-op when authenticated; an error or a missing `location` changes nothing; success replaces the cookies with the final jar and sets the flag |
| LegacyClients.ParserClient.Logout | src/lanisapi/lanisapi.py:186-194 | None without a request when unauthenticated; otherwise the logout GET with the cookies, and the flag is cleared unless it raised |
| LegacyClients.CookieClient.constructor | src/LanisAPI/LanisAPI.py:73-78 | a new client is unauthenticated with no cookies |
| LegacyClients.CookieClient.Authenticate | src/LanisAPI/LanisAPI.py:80-96 | a no-op when authenticated; an error or a missing `location` changes nothing; success stores the final jar in `auth_cookies` and sets the flag |
| LegacyClients.CookieClient.Logout | src/LanisAPI/LanisAPI.py:110-114 | None without a request when unauthenticated; otherwise the logout GET with `auth_cookies`, and the flag is cleared unless it raised |
| Applets.UrlJoin | src/lanisapi/applets.py:33 | a falsy link gives the base; a text link is resolved against it; any other value raises TypeError |
| Applets.AppletOf | src/lanisapi/applets.py:31-33 | an applet exists exactly when `Name`, `link` and `Farbe` are present and the link joins; its fields are those values |
| Applets.ParsedApplets | src/lanisapi/applets.py:21-35 | one applet per entry, in order, and success whenever every entry converts (also lanisapi/_core/applets/parse.py:16-29 and lanisapi/applets/parse.py:14-20) |
| Applets.ParseApplets | src/lanisapi/applets.py:30-35 | the append loop returns exactly `ParsedApplets` |
| Applets.GetApplets | src/lanisapi/applets.py:61-69 | the answer's `entrys` field; errors propagate (also lanisapi/core/applets/applets.py:9-21 and lanisapi/applets/applets.py:9-19) |
| Applets.GetAppletAvailability | src/lanisapi/applets.py:72-86 | true exactly when some applet's link contains the text, and errors propagate (also lanisapi/core/applets/applets.py:24-37 and lanisapi/applets/applets.py:22-27) |
| Applets.OwnLinkAvailable | src/lanisapi/applets.py:82-86 | every listed applet is available under its link and under any piece of it |
| Applets.NothingListedNothingAvailable | src/lanisapi/applets.py:82-86 | with no applets listed, nothing is available |
| Applets.AppOf | src/lanisapi/core/helper/apps.py:24-28 | an app exists exactly when `Name` and `link` are present and the link joins against the index page |
| Applets.AppList | src/lanisapi/core/helper/apps.py:15-29 | one app per entry of `entrys`, in order |
| Applets.GetApps | src/lanisapi/core/helper/apps.py:22-29 | the append loop returns exactly `AppList` |
| Applets.IsLinkSupported | src/lanisapi/core/helper/apps.py:32-35 | True exactly when some app's link equals the link; never False, None otherwise |
| Dates.DaysIn | lanisapi/substitutions/parse.py:64-65 | every month has 28 to 31 days |
| Dates.Padded | src/lanisapi/substitutions.py:137 | the padded text has exactly the requested number of digits |
| Dates.PaddedValue | src/lanisapi/substitutions.py:137 | a number below 10^width reads back from its padded digits |
| Dates.PaddedDigits | src/lanisapi/substitutions.py:67-70 | digits are the padded form of their own value, leading zeros included |
| Dates.FormatDate | src/lanisapi/substitutions.py:137 | `strftime("%d.%m.%Y")` has the `dd.mm.yyyy` shape |
| Dates.ParseDate | src/lanisapi/substitutions.py:67-70 | a result exists only for text of that shape naming a real date; every failure is ValueError |
| Dates.ParseFormat | src/lanisapi/substitutions.py:67-70 | `strptime` reads back what `strftime` wrote |
| Dates.FormatParse | src/lanisapi/module/experimental/substitution_html.py:25 | an accepted text is exactly what `strftime` writes for its date |
| Dates.TwoDigits | src/lanisapi/substitutions.py:67-70 | two digits are read as tens and units |
| Dates.NoThirtiethOfFebruary | src/lanisapi/substitutions.py:67-70 | a day that does not exist in its month is refused |
| Dates.TagsFrom | lanisapi/substitutions/substitutions.py:20 | every capture has the date shape and is the date of a match at or after the start |
| Dates.Tags | lanisapi/substitutions/substitutions.py:20 | every capture of the `data-tag` scan has the date shape |
| Dates.TagsDoNotOverlap | lanisapi/substitutions/substitutions.py:20 | two matches never overlap |
| Dates.TagCapturedFrom | lanisapi/substitutions/substitutions.py:20 | every match at or after the start is captured |
| Dates.TagCaptured | lanisapi/substitutions/substitutions.py:20 | a text is captured exactly when it is the date of some match |
| Substitutions.Kept | src/lanisapi/substitutions.py:49-64 | None exactly for a falsy value; any other value is kept |
| Substitutions.SubstitutionOf | src/lanisapi/substitutions.py:47-65 | an element exists exactly for a dict with all sixteen keys (KeyError for a dict without one, TypeError otherwise), and each field is its key's value kept as above (also lanisapi/substitutions/parse.py:43-62) |
| Substitutions.DateOf | src/lanisapi/substitutions.py:67-70 | a text date is parsed and any other value raises TypeError |
| Substitutions.ParsedDay | src/lanisapi/substitutions.py:37-70 | one element per entry, in order, then the parsed date (also lanisapi/substitutions/parse.py:35-67) |
| Substitutions.ParseSubstitutions | src/lanisapi/substitutions.py:46-70 | the append loop, then the date, returns exactly `ParsedDay` (also lanisapi/substitutions/parse.py:43-65) |
| Substitutions.BoolText | src/lanisapi/substitutions.py:137 | `str()` of a bool is "True" or "False" |
| Substitutions.SubstitutionsRequest | src/lanisapi/substitutions.py:134-140 | `ganzerPlan` is "True" or "False", never "true"; the tag parses back to the date |
| Substitutions.WholePlanRequest | lanisapi/substitutions/substitutions.py:66-72 | `ganzerPlan` is "true" and the tag parses back to the date |
| Substitutions.PlanOf | src/lanisapi/substitutions.py:142-145 | errors propagate; the result is `{date: tag, substitutions: answer}` (also lanisapi/substitutions/substitutions.py:74-77) |
| Substitutions.GetSubstitutions | src/lanisapi/substitutions.py:92-145 | fails exactly when the plan request fails, with its error; a result carries the answer as `substitutions` and a `date` that parses back to the requested date |
| Substitutions.GetWholeSubstitutions | lanisapi/substitutions/substitutions.py:26-77 | the same for the variant that always asks for the whole plan |
| Substitutions.FetchedDay | src/lanisapi/substitutions.py:92-145 | a fetched plan, parsed, succeeds exactly when the answer's elements convert; it then carries the requested date and one element per answer entry |
| Substitutions.FetchedWholeDay | lanisapi/substitutions/substitutions.py:26-77 | the same for the variant that always asks for the whole plan |
| Substitutions.DatesIn | src/lanisapi/substitutions.py:73-89 | every failure is ValueError |
| Substitutions.DateSet | src/lanisapi/substitutions.py:84-89 | every failure of parsing the captures is ValueError |
| Substitutions.DatesInTags | lanisapi/substitutions/substitutions.py:8-23 | a date is in the result exactly when some captured tag parses to it |
| Substitutions.GetSubstitutionDates | src/lanisapi/substitutions.py:73-89 | the captured dates of the page, parsed, as a set: exactly `DatesIn` (also lanisapi/substitutions/substitutions.py:8-23) |
| Substitutions.CollectDates | src/lanisapi/substitutions.py:84-89 | the loop adding each parsed capture to a set returns exactly `DateSet`, raising at the first capture that is not a date (also lanisapi/substitutions/substitutions.py:18-23) |
| SubstitutionHtml.DateTags | src/lanisapi/module/experimental/substitution_html.py:16-18 | exactly the captured texts, as a set, each of date shape |
| SubstitutionHtml.EntryOf | src/lanisapi/module/experimental/substitution_html.py:26-35 | an entry exists exactly for a dict with the eight keys; seven values are copied and `notice` is None exactly when `Hinweis` is falsy |
| SubstitutionHtml.Request | src/lanisapi/module/experimental/substitution_html.py:21-22 | the request asks for the whole plan of that tag |
| SubstitutionHtml.FetchPlan | src/lanisapi/module/experimental/substitution_html.py:20-36 | a plan carries the parsed tag date and one entry per answer element; a tag that does not parse is ValueError once the request succeeded |
| SubstitutionHtml.FetchedTagDate | src/lanisapi/module/experimental/substitution_html.py:25 | a fetched plan's date, written back, is the captured tag |
| SubstitutionHtml.DistinctCard | src/lanisapi/module/experimental/substitution_html.py:39-46 | a sequence without repetitions has as many elements as its set |
| SubstitutionHtml.Get | src/lanisapi/module/experimental/substitution_html.py:38-46 | each distinct date is visited once; on success there is exactly one plan per distinct date, each that date's plan; a failure is the last visited date's, every earlier date's plan having been fetched |

## Left out

- The MD5, AES-256-CBC and RSA PKCS#1 v1.5 internals are function values. The only things assumed of them are
  AES-CBC's inversion on aligned data and 16-byte digests.
- `Random.new().read(8)` (the salt), the timestamps behind `_random_letter`, and `randint` in the handshake
  request are inputs. `_random_letter` is an oracle returning 0 to 16.
- `_get_public_key` and `_handshake` are not modelled as requests. The fetched key and the server's answer
  (challenge or exception) are inputs. The JSON decode failure inside `_handshake` and `_get_public_key`
  (logged, then an UnboundLocalError) is folded into the server's error.
- `Cryptor.Cryptor.Authenticate`: a challenge that cannot be decrypted raises with the flag left True. This is
  modelled as written.
- Text the cryptor handles as `str` is modelled as its UTF-8 bytes. UnicodeDecodeError on `.decode()` is not
  modelled.
- `Base64.Decode` accepts only canonical padded input. Python's `b64decode` silently discards characters
  outside the alphabet.
- Every HTTP request and the process-wide `Request` client are the `Portal` functions. Cookies that httpx
  stores automatically from a response into the client's jar are not modelled; only the jars the code builds
  explicitly are.
- A jar holds one cookie per name. httpx keys cookies by (name, domain, path) and raises CookieConflict on an
  ambiguous `get`; neither is modelled.
- `urllib.parse.urljoin` is the parameter `join`. Its RFC 3986 resolution is not modelled.
- `@cache` on `get_schools`, on `get_applets` (`src/lanisapi/applets.py:38`) and on the three app functions of
  `src/lanisapi/functions/apps.py` (lines 35, 63 and 96) is not modelled: each call is a fresh request.
- Logging, reading `schools.json` from disk (only its effect is modelled, as the `cached` input of
  `Schools.GetSchoolList`), `__del__`, and closing the httpx clients are not modelled.
- After a successful `authenticate`, `src/lanisapi/client.py` calls `_get_available_apps()` only for logging. It is not modelled, and
  neither are `get_available_apps` and `get_app_availability` of `src/lanisapi/client.py`, which are thin
  wrappers over `src/lanisapi/functions/apps.py` (a fuzzy `difflib` matcher).
- `check_availability`, which `src/lanisapi/client.py` imports from `helpers/wrappers.py`, is not defined
  there. It is not modelled, and neither are the HTML-scraping methods it guards.
- `Client.IdText`: an `Id` that is neither text nor a number raises TypeError. Python would format any value
  into the login form.
- JSON numbers are integers in `Json`; floating-point numbers that `response.json()` may produce are not
  modelled.
- `PyStr.ParseInt`: it accepts an optional sign followed by ASCII digits only. Python's `int()` also accepts
  surrounding whitespace (" 42", "42\n"), single underscores between digits ("1_000") and non-ASCII decimal
  digits; the model raises ValueError for all of them.
- `JsonAccess.Iterate`: iterating a non-empty dict (over its keys) is modelled as TypeError.
- `Dates.ParseDate`: it accepts only the two-digit day and month and the four-digit year. `strptime` also
  accepts one-digit forms and leading spaces.
- `Dates.ParseDate`: `\d` is ASCII digits only, while Python's `re` and `strptime` also accept other Unicode
  digits.
- `Substitutions.GetSubstitutionDates`: it returns the set, as does the code; the order in which the code
  returns it is not modelled.
- `SubstitutionHtml.Get`: the iteration order of the set is exposed as the out-parameter `order` rather than
  being fixed.
- `src/lanisapi/module/experimental/substitution_html.py` imports `SubstitutionPlan` from
  `module/standard/substitution.py`, which does not define it. It also calls `self._request`, which `Module`
  does not set (it sets `self.request`). The model takes the plan request as a parameter and the plan as the
  `Plan` datatype.
- The dynamic module registry (`core/client/client.py`, `module/*.py`), HTML scraping (tasks, conversations,
  calendar, the substitution pages of the older clients), and the fuzzy app matcher are not part of this
  model.

## Findings

| source | as written | input that shows it | evidently intended | confidence | as-written member | corrected member |
|---|---|---|---|---|---|---|
| src/lanisapi/client.py:106 | `get_schools` calls `_get_schools(self.save)`, but `_get_schools` (src/lanisapi/functions/schools.py:10) takes no argument, so every call raises TypeError | any `LanisAccount` whose school is given by name and city | `_get_schools()`, so that a listed school's id is found | not executed | Client.NameLookupAsWrittenFails | Client.LookupFindsFirstMatch |
| src/lanisapi/client.py:94 | `authentication_cookies` calls `Request.get_cookies()`, which `Request` (src/lanisapi/helpers/request.py) does not define, so reading it raises AttributeError | any client after a completed login | read the shared client's jar, exporting `i` and `sid` | not executed | Client.ExportAsWrittenFails | Client.ExportRoundTrip |
