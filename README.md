# APP_Clima weather screen, modelled in Dafny

APP_Clima is a single React Native screen. The user types the name of an
Andalusian province and presses "Buscar Clima". The screen looks the trimmed
name up in a fixed table of eight provinces and their two-digit provider codes.
It asks the el-tiempo.net provincial endpoint for that code. If the body holds
the flat `temperatures` / `stateSky` shape, it stores
`{tempMax, tempMin, description}` with the description lowercased. Otherwise it
raises a "no data" alert or an error alert and clears the result. It also shows
one of four weather icons, or a default one.

The model has six modules:

- `Wrappers` (wrappers.dfy): the `Option` type, standing for `undefined`/`null`.
- `Text` (text.dfy): `String.prototype.trim` and `String.prototype.toLowerCase`.
  Trim removes the complete ECMAScript WhiteSpace and LineTerminator set.
  Lowercasing covers ASCII and the Latin-1 capitals, which include every
  accented capital used in Spanish.
- `Provinces` (provinces.dfy): the `codigoProvincia` table and the
  trim-then-exact-lookup `Resolve`. There is also `ResolveAsWritten`, the same
  lookup with JavaScript's inherited object keys (see "## Findings").
- `Weather` (weather.dfy): the response as an input value (`TransportFailure`,
  or a body whose fields may be missing), and `Classify`. `Classify` maps each
  response to the branch of the `try`/`catch` that `fetchClima` takes.
- `Icons` (icons.dfy): the `iconosClima` table and its fallback lookup `IconFor`.
- `ClimaApp` (clima_app.dfy): the screen state as the class `ClimaScreen`.
  Its fields are `provincia`, `tiempo` and `loading`. It also records the
  alerts raised and the requests issued. `fetchClima` is the method
  `FetchClima`. It is composed of `Begin` (validate, raise `loading`), `Send`
  (the one request) and `Finish` (store or clear `tiempo`, lower `loading`).

Points where App.js's behaviour is easy to misread:

- Only the flat response shape is accepted. No `ciudades[0]`, `title` or
  `today` shape is read anywhere in App.js.
- The early return on an unknown province leaves `tiempo` as it was. Both
  request failures set it to null. Neither leaves the state exactly as it was
  before the call.
- Nothing stops a second `fetchClima` while one is loading. The button stays
  enabled.
- A `null` body and a truthy, non-string description both make the code
  throw inside the `try`. They therefore end in the `catch` branch (the error
  alert), not in the "no data" branch.

## Model

| member | source | states |
|---|---|---|
| Text.IsWhitespace | App.js:34 | the characters `trim` removes: TAB, LF, VT, FF, CR, every Unicode space separator, U+FEFF, U+2028 and U+2029 |
| Text.LeadingWs | App.js:34 | the count of leading characters removed by `trim`: all of them are whitespace and the next character is not |
| Text.TrailingWs | App.js:34 | the count of trailing characters removed by `trim`: all of them are whitespace and the character before them is not |
| Text.Trim | App.js:34 | the trimmed text has no whitespace at either end |
| Text.TrimIsSlice | App.js:34 | the trimmed text is a contiguous slice of the input, and only whitespace lies before and after it |
| Text.TrimPadded | App.js:34 | any whitespace padding around a trimmed string is exactly what `trim` removes |
| Text.TrimIdempotent | App.js:34 | trimming twice equals trimming once |
| Text.LowerChar | App.js:52 | lowering one character: an upper-case letter of the alphabet becomes lower case, every other character is kept, and whitespace stays whitespace |
| Text.ToLower | App.js:52 | `toLowerCase` keeps the length, lowers character by character and leaves no upper-case letter |
| Text.ToLowerKeepsTrimmed | App.js:52 | lowercasing changes no whitespace, so a trimmed string stays trimmed |
| Text.ToLowerFixedPoint | App.js:52 | lowercasing leaves a string unchanged if and only if it has no upper-case letter |
| Text.ToLowerIdempotent | App.js:52 | lowercasing an already lowered description changes nothing |
| Provinces.CodigoProvincia | App.js:6-15 | the `codigoProvincia` table as an exact finite map from the eight names to their codes |
| Provinces.Resolve | App.js:34-35 | `codigoProvincia[provincia.trim()]` looked up among the own keys only: the code of the trimmed text, or None |
| Provinces.TableEntries | App.js:6-15 | the table holds exactly the eight names Almería…Sevilla with codes 04, 11, 14, 18, 21, 23, 29, 41 |
| Provinces.NamesAreTrimmed | App.js:6-15 | every key is non-empty, has no edge whitespace and starts with a capital |
| Provinces.NotAKey | App.js:6-15 | the empty string and every string not starting with a capital are not keys |
| Provinces.ResolvePadded | App.js:34-38 | a table name padded with any whitespace resolves to exactly its own code |
| Provinces.ResolveSevillaPadded | App.js:34 | " Sevilla " resolves to "41" |
| Provinces.ResolveBlank | App.js:34-37 | empty or whitespace-only text gets no code |
| Provinces.ResolveRejects | App.js:34-37 | padded text whose trimmed core is not exactly a key gets no code |
| Provinces.ResolveRejectsUncapitalised | App.js:34-37 | trimmed text not starting with a capital gets no code |
| Provinces.ResolveLowercaseRejected | App.js:34-37 | the all-lowercase spelling of any table name (e.g. "sevilla") gets no code: matching is case-sensitive |
| Provinces.ResolveUnaccentedRejected | App.js:34-37 | "Almeria" without its accent gets no code: matching is accent-sensitive |
| Provinces.ResolveTrimmed | App.js:34 | resolving already-trimmed text gives the same answer as resolving the raw text |
| Provinces.ResolvedCodeIsTwoDigits | App.js:6-15 | every resolved code is two decimal digits |
| Provinces.ResolveInjective | App.js:6-15 | two texts that resolve to the same code have the same trimmed name |
| Provinces.ResolveAsWritten | App.js:34-35 | the same lookup as JavaScript performs it: the own code, else an inherited `Object.prototype` property for those twelve names, else None (`undefined`) |
| Provinces.InheritedKeyPassesGuard | App.js:34-35 | as written, "toString" finds an inherited property that passes the `!codigo` guard, while the exact lookup rejects it |
| Provinces.ResolveAgreesOnOwnKeys | App.js:34-35 | the as-written and exact lookups agree except on inherited `Object.prototype` names |
| Weather.Truthy | App.js:48 | JavaScript truthiness of `stateSky.description`: a non-empty string, or a truthy non-string value |
| Weather.HasWeather | App.js:48 | the guard `data.temperatures && data.stateSky && data.stateSky.description` |
| Weather.Classify | App.js:42-61 | the branch each response takes: a stored result, the no-data branch, or the `catch` (transport failure, null body, or a non-string description with no `toLowerCase`); an accepted description is non-empty and lower case |
| Weather.AcceptedIff | App.js:48-53 | a result is built if and only if the body is present, `temperatures` and `stateSky` are present and `stateSky.description` is a non-empty string |
| Weather.AcceptedFields | App.js:49-53 | on acceptance `tempMax`/`tempMin` are copied unchanged, `description` is the lowercase of the payload's and non-empty, and lowering it again changes nothing |
| Weather.NoDataIff | App.js:48-57 | the "no data" branch is taken exactly for a present body that fails the field check |
| Weather.EmptyDescriptionIsNoData | App.js:48 | an empty description string counts as missing and gives "no data" |
| Weather.TransportFailureFails | App.js:59-61 | a transport failure ends in the `catch` branch |
| Weather.SoleadoExample | App.js:48-53 | max 30, min 18, "Soleado" is stored as 30, 18, "soleado" |
| Icons.IconosClima | App.js:18-24 | the `iconosClima` table as an exact finite map from the four descriptions to their icons |
| Icons.IconFor | App.js:94 | `iconosClima[description]` with the default image as fallback: the table's icon for one of its four keys, the default icon otherwise |
| Icons.IconForKeys | App.js:18-24 | soleado, nublado, lluvioso and tormenta each give their own icon |
| Icons.IconForDefaultIff | App.js:94 | the default icon is chosen if and only if the description is none of the four keys |
| Icons.IconForInjective | App.js:18-24 | two descriptions with the same non-default icon are the same key |
| ClimaApp.AlertTitle | App.js:36-60 | the title of each alert: "Error", "Información", "Error" |
| ClimaApp.AlertMessage | App.js:36-60 | the message of each alert, word for word from the three `Alert.alert` calls |
| ClimaApp.AlertsDistinct | App.js:36-60 | the "no data" alert differs from the transport-failure alert in title and message; all three messages differ |
| ClimaApp.ShownIcon | App.js:86-96 | an icon is shown exactly when `tiempo` is not null |
| ClimaApp.CapitalisedDescriptionShowsIcon | App.js:52-94 | a payload description whose lowercase is "soleado" (e.g. "Soleado") shows the sunny icon |
| ClimaApp.Settled | App.js:49-61 | how a request's outcome lands on the screen: an accepted result is stored with no alert; no data and failure each null `tiempo` and append their own alert |
| ClimaApp.StoredResultComplete | App.js:49-61 | after a request, `tiempo` is null or a complete record from an accepted body with a non-empty lowercase description; it is null exactly when an alert was added |
| ClimaApp.ClimaScreen.Valid | App.js:49-53 | the screen invariant: a stored description is non-empty and lower case, so it can serve as an icon key |
| ClimaApp.ClimaScreen.constructor | App.js:28-30 | the initial state: empty text, null `tiempo`, `loading` false |
| ClimaApp.ClimaScreen.SetProvincia | App.js:76 | typing sets `provincia` only |
| ClimaApp.ClimaScreen.Begin | App.js:34-40 | an unknown name raises the validation alert and changes nothing else; a known name raises `loading` |
| ClimaApp.ClimaScreen.Send | App.js:44 | exactly one request is issued for the code, and the loading flag at that moment is recorded |
| ClimaApp.ClimaScreen.Finish | App.js:42-64 | an accepted body is stored without an alert; "no data" and failure each add their own alert and null `tiempo`; `loading` ends false |
| ClimaApp.ClimaScreen.FetchClima | App.js:33-65 | unknown province: one validation alert, no request, `tiempo` and `loading` untouched; known province: one request issued while `loading` is true, then the outcome settled and `loading` false |
| ClimaApp.SevillaScenario | App.js:28-64 | typing " Sevilla " and fetching issues one request for "41" with loading shown and stores the accepted result |

## Left out

- The HTTP call (App.js:44) and its URL are not modelled. The provider is the parameter `server: string -> Response`. Its answer is a transport failure or a parsed body with optional fields.
- React rendering, layout and styles (App.js:67-125) are not modelled. `useState` becomes plain class fields. `Alert.alert` becomes an entry appended to `alerts`.
- The `require()` image assets are left out; they are the `Icon` enumeration.
- Asynchronous suspension is not modelled. The single `await` becomes a call of `server`. There is no re-entrancy guard, because the code has none.
- Text.ToLower: lowers only ASCII and Latin-1 capitals, not the whole Unicode case mapping of `toLowerCase`. Other characters are left unchanged.
- Icons.IconFor: an exact finite map. In JavaScript, `iconosClima["constructor"]` (and the other inherited names) finds a function and hands it to `Image` instead of the default icon. This is the same prototype-chain quirk as in "## Findings"; its as-written form is not modelled for icons.
- Temperatures are opaque `Temp` values. They are copied and never computed with, so no numeric or floating-point behaviour is modelled.
- The `ciudades[0]` / `title` / `today` response shape is not read by App.js, so it is not modelled.

## Findings

| source | as written | input that shows it | evidently intended | confidence | as-written member | corrected member |
|---|---|---|---|---|---|---|
| App.js:34-35 | `codigoProvincia[provincia.trim()]` also finds properties inherited from `Object.prototype`. These are truthy, so the `!codigo` guard lets them through and a request is built from a function or object instead of a code | the text "toString" (also "constructor", "valueOf", "__proto__", …) | only the eight own keys of the table resolve; everything else raises the validation alert | not executed; medium | Provinces.InheritedKeyPassesGuard | Provinces.ResolveRejects |
