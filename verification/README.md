# Copart lot notifier: verified model of the webhook and the dashboard logic

This project models the two places where the system makes decisions.

**The webhook handler (`api/hook.js`).** It receives one lot from the
browser-side watcher and turns it into a Telegram post. The model covers:

- how body fields are read, with JavaScript's `||`, `??` and `String(…)`;
- the skip rule for a body with no lot;
- the year, make, model and state scanned out of the lot URL;
- the price line with its price-drop marker;
- the `money` formatter;
- the caption, built one line at a time;
- the CARFAX/COPART buttons;
- the choice between a photo post and a text post;
- the response the handler gives.

**The dashboard (`ui/app.py`).** The model covers:

- which history entries are final, and the outcome label each entry shows;
- the one-entry-per-lot log feed;
- the stage tallies, the per-bot RAW counts and the first source of each lot;
- the comma-separated filter lists and the blocked-state exclusion;
- the fixed-price city table of the delivery settings;
- creating and deleting profiles.

Modules:

- `Text`: ASCII case mapping, decimal digits, split/join, trimming, and the shared `Option` and `Distinct`.
- `JsValues`: JavaScript values, truthiness, `||`, `??`, `String()`, `trim()` and `Number()`.
- `MoneyFormat`: `Math.round`, then en-US digit grouping.
- `CopartUrl`: the `/lot/<digits>/<slug>` match, slug tokens, and the state and year scans (as loops and as functions).
- `PriceLine`: `buildPriceLine`, with the drop percentage.
- `UriEncoding`: `encodeURIComponent` (UTF-8, then percent-escapes).
- `Hook`: body normalisation, the caption, the keyboard and the handler's decision.
- `PyValues`: Python values, `dict.get`, truthiness, `str()` and `strip()`.
- `History`: `is_final`, outcome labels, the feed's two passes, the tallies and the first sources.
- `Filters`: list normalisation and blocked-state exclusion.
- `Delivery`: the fixed-city table rebuild, for the city cell read as the code reads it and as corrected (see Findings).
- `Profiles`: the configuration's profiles, as a class with `Create` and `Delete`.

Two behaviours one might expect are not in the code; the model follows the code:

- Caption text is not HTML-escaped, although posts are sent with `parse_mode: "HTML"`.
- The model is the single slug token after the make, not a multi-word model name.

## Model

| member | source | states |
|---|---|---|
| MoneyFormat.Round | api/hook.js:6 | `Math.round` gives the integer within one half of the input, with halves going up |
| MoneyFormat.GroupIsGrouped | api/hook.js:6 | en-US grouping of a digit string puts a comma before every group of three digits from the right, and dropping the commas gives the digits back |
| MoneyFormat.Money | api/hook.js:3-7 | the result is empty exactly when `Number(n)` is not finite |
| MoneyFormat.MoneyRoundTrip | api/hook.js:3-7 | for a finite input the text is an optional minus sign plus comma-grouped digits with no decimal point, and it reads back as `Math.round(Number(n))` |
| JsValues.Or | api/hook.js:125 | `a \|\| b` is `a` when `a` is truthy, otherwise `b` |
| JsValues.Coalesce | api/hook.js:126 | `a ?? b` is `b` exactly when `a` is null or undefined |
| JsValues.DigitStringToNumber | api/hook.js:4 | `Number` of a string of decimal digits is the number they spell |
| CopartUrl.MatchAtMeaning | api/hook.js:20 | the lot pattern matches at a position exactly when `/lot/`, digits, `/` and a character other than `?` or `#` follow (letters in any case); the captured slug runs up to the first `?` or `#` |
| CopartUrl.FirstMatch | api/hook.js:20-21 | the position where `String.prototype.match` finds the lot pattern: the leftmost one, or none at all |
| CopartUrl.CleanTokens | api/hook.js:23-26 | the slug tokens are non-empty and lower-case |
| CopartUrl.TokensIgnoreCase | api/hook.js:23-26 | slugs that differ only in letter case give the same tokens |
| CopartUrl.StateCodesAreTwoLetters | api/hook.js:9-13 | every code of the state set is two lower-case letters |
| CopartUrl.FirstState | api/hook.js:29-32 | the state is empty exactly when no token is a state code |
| CopartUrl.FirstStateIsFirst | api/hook.js:29-32 | a state that was found is the first state-code token, upper-cased |
| CopartUrl.FindState | api/hook.js:29-32 | the scanning loop with `break` returns the first state-code token, upper-cased |
| CopartUrl.OnlyWholeTokensMatch | api/hook.js:31 | a token that is not two characters long is never taken as a state |
| CopartUrl.FirstYear | api/hook.js:35-38 | the index of the first token of exactly four digits, or past the end |
| CopartUrl.FindYearIndex | api/hook.js:35-38 | the loop gives -1 exactly when no token is four digits, and otherwise the index of the first such token |
| CopartUrl.ExtractFromCopartUrl | api/hook.js:15-49 | the method's year, make, model and state equal those of the specification function `Extract` |
| CopartUrl.NoLotSegment | api/hook.js:18-21 | a missing URL, a non-string URL or a URL without a lot segment gives four empty fields |
| CopartUrl.NoYearKeepsState | api/hook.js:39 | with no four-digit token, year, make and model are empty and the state is still the first state found |
| CopartUrl.YearAnchorsMakeAndModel | api/hook.js:41-48 | the year is the first four-digit token; make and model are the next two tokens upper-cased, each empty when missing |
| CopartUrl.ExtractWellFormed | api/hook.js:35-48 | a make only comes with a year, no year means no make or model, and a year is four digits |
| PriceLine.Tenths | api/hook.js:67 | `toFixed(1)` picks the tenth nearest to the percentage |
| PriceLine.BuildPriceLine | api/hook.js:51-76 | the line is "n/a" exactly when both prices are absent (empty, null or undefined); otherwise it starts with `$` |
| PriceLine.OnePrice | api/hook.js:73-75 | with one price present, the line is `$` and that price through `money` |
| PriceLine.TwoPrices | api/hook.js:57-70 | with both prices, the line is old price `=>` new price followed by the drop suffix |
| PriceLine.DropThreshold | api/hook.js:62-68 | the drop marker appears exactly when both prices are finite, the old one is positive and 2000·(old − new) > old |
| PriceLine.ScaledDrop | api/hook.js:65-67 | for a positive old price, a percentage above 0.05 is the same as 2000·(old − new) > old |
| PriceLine.NoDropOnIncrease | api/hook.js:64-67 | a price that did not go down never shows the marker |
| PriceLine.ThresholdExamples | api/hook.js:67 | 10000 to 9995 shows no marker; 10000 to 9994 shows one |
| PriceLine.ZeroIsAPrice | api/hook.js:52 | a new price of 0 counts as present and prints as `$0` |
| PriceLine.PercentExample | api/hook.js:65-67 | 11000 to 9500 gives the suffix with 13.6% |
| PriceLine.DropExample | api/hook.js:58-70 | 11000 to 9500 gives the full line `$11,000 => $9,500` with the 13.6% marker |
| UriEncoding.Utf8Char | api/hook.js:162 | a character is one to four bytes, and it is a single byte equal to its code exactly when it is ASCII |
| UriEncoding.EncodeUriComponent | api/hook.js:162 | the escaped text is never shorter than the input, and only an empty input escapes to nothing |
| UriEncoding.DecodeEncode | api/hook.js:162 | percent-decoding the escaped VIN gives back its UTF-8 bytes |
| UriEncoding.EncodedIsSafe | api/hook.js:162 | the escaped text holds only unreserved characters and `%` |
| UriEncoding.UnreservedUnchanged | api/hook.js:162 | a text of unreserved characters is left as it is |
| UriEncoding.SpaceExample | api/hook.js:162 | a space escapes to `%20` |
| Hook.LotIdOf | api/hook.js:126 | `lot_id` wins over `lotId` unless it is null or undefined; with both missing the lot id is empty |
| Hook.EmptyLotIdWins | api/hook.js:126 | an empty-string `lot_id` is kept even when `lotId` is set |
| Hook.UrlOf | api/hook.js:127 | a truthy `url` is kept; otherwise the Copart lot link for a non-empty lot id, else empty |
| Hook.Normalize | api/hook.js:125-137 | the lot id and url are `LotIdOf` and `UrlOf` of the body; the odometer is empty exactly when `orr` is empty or nullish; the title code and location are truthy exactly when their source fields are |
| Hook.NormalizeNullish | api/hook.js:129-137 | the odometer, both prices and the timestamp are the body's field when it is neither null nor undefined, and "" when it is |
| Hook.NormalizeFalsy | api/hook.js:125-134 | the source, masked VIN, remark and location are the body's field, or "" when it is falsy; the title code is `STT`, then `title`, then "" |
| Hook.NormalizeTexts | api/hook.js:135-136 | the seller name is the trimmed text of `name`, then `scn`, and the photo url that of `photo_url`; each is "" when none is truthy |
| Hook.SkipRule | api/hook.js:139 | the body is skipped exactly when the lot id is empty and `url` is falsy |
| Hook.EmptyBodySkipped | api/hook.js:122-139 | an authorised POST with no body is answered as skipped |
| Hook.NonEmpty | api/hook.js:143 | `filter(Boolean)` keeps only non-empty parts, is empty exactly when every part is empty, and keeps a non-empty first part first |
| Hook.NonEmptyKeeps | api/hook.js:143 | the filter keeps every non-empty part as often as it occurs, and drops only empty ones |
| Hook.NonEmptyAppend | api/hook.js:143 | the filter keeps the order of the parts: filtering a concatenation is concatenating the filtered halves |
| Hook.CarTitleParts | api/hook.js:143 | with year, make and model all known, the title is the three joined by spaces, trimmed |
| Hook.NewLotTitle | api/hook.js:142-175 | the caption opens with NEW LOT exactly when year, make and model are all empty |
| Hook.Located | api/hook.js:166 | the state if one was found, else a truthy `yn`, else "n/a" |
| Hook.CopartLinkIsUrl | api/hook.js:161 | for a body that is not skipped, the COPART link is the normalised `url` |
| Hook.OdoDisplay | api/hook.js:187-191 | the odometer text the method builds is the one `OdoShow` specifies |
| Hook.ShowCases | api/hook.js:187-191 | the odometer line from the odometer text, the resolver's reading and the remark: none without an odometer or a remark, the text or else the resolver's reading followed by the remark, else the bare remark |
| Hook.OdoCases | api/hook.js:187-191 | the six cases of the odometer line: nothing, the formatted reading, the resolver's reading, each with or without the remark, and the bare remark |
| Hook.BuildCaptionLines | api/hook.js:173-197 | the lines pushed one by one are `CaptionLines`, whose shape `CaptionShape` states |
| Hook.CaptionShape | api/hook.js:173-182 | the title line, then the seller line when there is a name, then the price line and the location line |
| Hook.DeliveredPrice | api/hook.js:131-132 | the caption's price reads "n/a" exactly when both `old_bnp` and `bnp` are empty, null or undefined |
| Hook.CarfaxLink | api/hook.js:162 | there is a CARFAX link exactly when the full VIN is known |
| Hook.Keyboard | api/hook.js:200-207 | one button, or two with CARFAX first; COPART with the lot link is always last |
| Hook.Resolved | api/hook.js:148-158 | with no resolver URL, no lot id or no reply, the VIN and odometer stay empty; otherwise they are the reply's `vin` and `odometer` as text, each "" when falsy |
| Hook.Status | api/hook.js:114-247 | the HTTP status is 200 exactly for a skipped lot and a delivered post |
| Hook.RespondOutcome | api/hook.js:114-212 | 405 exactly for a method that is not POST, then 401 for a bad token, then skip, then 500 without bot token or chat, else delivery |
| Hook.DeliveryShape | api/hook.js:200-232 | a photo post exactly when there is a photo URL; a text post ends with a newline and the lot link; two buttons exactly when the full VIN is known; COPART last |
| Hook.DeliveredIsComposed | api/hook.js:122-249 | a delivered answer is `Compose` of the normalized body, and that body's url is truthy |
| Hook.Handle | api/hook.js:112-249 | the handler's answer is `Respond`, whose outcomes `RespondOutcome` states |
| Hook.Notify | api/hook.js:140-249 | the caption, keyboard and Telegram call built step by step are `Compose` |
| Hook.Compose | api/hook.js:140-249 | a body that names a lot is delivered exactly when bot token and chat id are set, and otherwise answers 500 |
| Hook.ComposeShape | api/hook.js:200-232 | the delivery's shape for a body with a url: photo or text post, the keyboard's buttons and where the full VIN comes from |
| PyValues.Get | ui/app.py:285-286 | `get` gives the stored value, or the default when the key is absent |
| PyValues.UpperStripped | ui/app.py:535 | upper-casing a stripped string leaves it stripped |
| History.OutcomeOf | ui/app.py:334-341 | the label is a free-form one exactly when the entry is not final |
| History.FinalLabel | ui/app.py:284-293 | a final entry always gets one of the three fixed labels; SKIP is labelled SKIP unless it is TG SENT |
| History.LabelCollision | ui/app.py:334-341 | an entry with stage "SENT" and status "✅" is not final, yet its label reads "SENT ✅" |
| History.FirstFinal | ui/app.py:297-303 | the index of the lot's first final entry, or past the end |
| History.FirstOf | ui/app.py:305-310 | the index of the lot's first entry, or past the end |
| History.PickMeaning | ui/app.py:295-310 | the entry picked for a lot is one of its entries, and it is final exactly when the lot has a final entry |
| History.FinalPass | ui/app.py:295-303 | the first loop keeps, in history order, the first final entry of each lot that has one |
| History.RestPass | ui/app.py:305-310 | the second loop appends, in history order, the first entry of each lot still unseen |
| History.SelectFinalEntries | ui/app.py:295-310 | one entry per lot, no empty lot id, every lot of history present, each entry its lot's first final entry or else its first entry, final lots first, each group in history order |
| History.CountStage | ui/app.py:214-216 | a stage is counted at most once per entry |
| History.TallyStages | ui/app.py:213-216 | each stage key is listed once, its count is the number of entries with that stage, and the counts sum to the length of history |
| History.UnknownTally | ui/app.py:215 | the "UNKNOWN" tally counts entries without a stage plus entries whose stage is literally "UNKNOWN" |
| History.BotCountsWithinRaw | ui/app.py:226-227 | the botA and botB counts together never exceed the RAW tally |
| History.FirstSourced | ui/app.py:229-234 | the index of the lot's first entry with a non-empty first source, or past the end |
| History.FirstSources | ui/app.py:229-234 | a lot is recorded exactly when it is non-empty and has a non-empty first source; its value is the first such source, never overwritten |
| History.WinsWithinLots | ui/app.py:236-237 | botA wins plus botB wins is at most the number of recorded lots |
| Filters.CleanPiecesClean | ui/app.py:535 | from pieces free of commas the comprehension keeps only non-empty, stripped items in the list's case |
| Filters.CleanPiecesKeeps | ui/app.py:535 | a list of clean items goes through the comprehension unchanged |
| Filters.NormalizeList | ui/app.py:535-548 | every item is non-empty, stripped, free of commas, upper-case (lower-case for the seller blacklist) |
| Filters.NormalizeJoin | ui/app.py:533-536 | a clean list shown joined with commas and read back is the same list |
| Filters.Exclude | ui/app.py:549 | a state stays blocked exactly when it was blocked and is not one that requires a seller |
| Filters.ExcludeDisjoint | ui/app.py:549 | a blocked list that shares nothing with the required states is unchanged |
| Filters.ExcludeIdempotent | ui/app.py:549 | excluding twice is the same as excluding once |
| Filters.ApplyForm | ui/app.py:535-549 | after the form is saved, no blocked state requires a seller, and every other blocked state stays |
| Filters.FormListsClean | ui/app.py:535-548 | all five lists the form writes hold clean items |
| Delivery.IntOr0 | ui/app.py:609-610 | an empty cell is 0; a number is cut toward zero |
| Delivery.CityKeyAsWritten | ui/app.py:605 | the city key as written is stripped and upper-case |
| Delivery.BlankCityAsWritten | ui/app.py:605-607 | as written, a row with a blank (None) city cell gets the key "NONE" |
| Delivery.CityKey | ui/app.py:605-607 | with a blank cell read as no city, a missing or None city gives no key |
| Delivery.BlankCityIgnored | ui/app.py:605-607 | with the corrected key, a row whose city is None, missing or white space gives the empty key and so adds no entry |
| Delivery.LastWith | ui/app.py:608 | the last row with a given city key, or -1 |
| Delivery.FirstWith | ui/app.py:608 | the first row with a given city key, or -1 |
| Delivery.RebuildFixed | ui/app.py:603-612 | for either reading of the city cell (as written or corrected): one entry per non-empty key, listed without repeats in first-appearance order; each holds the price and distance of that key's last row |
| Delivery.BlankRowAsWritten | ui/app.py:603-612 | the rebuild as written gives a row with a blank city cell the entry "NONE" |
| Delivery.BlankRowCorrected | ui/app.py:603-612 | with the corrected key the same row gives no entry |
| Profiles.Remove | ui/app.py:158 | the remaining names are exactly the others |
| Profiles.RemoveDistinct | ui/app.py:158-160 | removing a listed name leaves a list without repeats, one shorter |
| Profiles.Config.Create | ui/app.py:147-150 | a non-empty name gets a copy of the active profile's settings and becomes active |
| Profiles.Config.Delete | ui/app.py:153-162 | an unknown name changes nothing; the last profile is never deleted; otherwise the profile is gone and, if it was active, the first remaining profile is active |

## Findings

| source | as written | input that shows it | evidently intended | confidence | as-written member | corrected member |
|---|---|---|---|---|---|---|
| ui/app.py:605-607 | `str(row.get("Город", ""))` turns a blank city cell, which holds `None`, into the text "None". That text is upper-cased to "NONE" and passes the empty check. | a row added in the table editor with a price and no city: city `None`, price 500 | a blank city cell is skipped like an empty one | medium, not executed | Delivery.BlankCityAsWritten | Delivery.CityKey |

## Left out

- Network I/O is outside the model: the Telegram `sendPhoto`/`sendMessage` calls and the VIN resolver `fetch`. The resolver's answer is a parameter (`Option<ResolverReply>`; `None` stands for a failed or thrown call). The handler's reply leaves out Telegram's `ok` flag.
- `process.env` is a parameter (`Env`), and the request is reduced to its method, its token and its body.
- An exception in the handler, answered with status 500, is not modelled.
- JsValues.StringToNumber: accepts signed decimal literals and `Infinity` only. Hexadecimal, octal, binary and exponent forms give NaN in the model. Objects and arrays as body fields are not modelled.
- JsValues.ToStr: a JSON number carries the text JavaScript renders it as. The number-to-string algorithm is not modelled.
- JsValues.StringToNumber / MoneyFormat.Money: numbers are exact reals, not IEEE doubles. Negative zero is lost, so `money("-0")` gives "0" in the model where JavaScript gives "-0". Digit strings beyond 2^53 keep their exact value instead of being rounded to the nearest double.
- PriceLine.Fixed1: the percentage is computed on exact rationals, not binary floating point. A value within rounding error of a tenth's midpoint may print differently than in JavaScript.
- Text.Upper: case mapping is ASCII only. JavaScript and Python also map non-ASCII letters.
- PyValues.PyVal: booleans and floats inside history entries are not modelled. Only absent, `None`, integers and strings are.
- Streamlit widgets and rendering are not modelled, and neither is the settings and history file I/O.
- The bridge's HTTP calls, the time-based "today" counters, charts and the refresh loop are not modelled.
- Delivery.IntOr0: a NaN cell, on which `int()` raises, is not modelled.
- Profiles.Config.Valid: the dictionary's length is read off its key list, which the class keeps with no repeats.
