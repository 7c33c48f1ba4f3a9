# IPO Allotment Predictor — verified model of its logic

The site estimates an investor's chance of being allotted shares in a Nepali
IPO. From an oversubscription ratio `r` and a number of accounts `n` it
computes the per-account odds `p = min(1, 1/r)`. It then computes the chance
of at least one allotment, `(1 - (1-p)^n) * 100`, and a verdict tier (Extremely
High, Good, Moderate, Low). Around this engine sit:

- the predictor screen's session: the form fields, the `form`/`result` step,
  and three fields mirrored in local storage;
- the home page countdown, in two versions: a borrow-style tick in the
  TypeScript shell and a recomputation from milliseconds in the JavaScript
  shell;
- the hidden admin page routing;
- the admin panel's listing editor: edit, add, delete and search.

This project models all of these in Dafny and proves what they promise.

| file | module | models |
|---|---|---|
| engine.dfy | `Engine` | odds, aggregate percentage, tiers, sentiment, display rounding (both predictor components) |
| listings.dfy | `Listings` | the listing record, `find` by id, an order-preserving `filter` |
| session.dfy | `Session` | the predictor session as a class `PredictorSession` |
| countdown.dfy | `Countdown` | the `{d, h, m, s}` value, its seconds, its ranges |
| app_tsx.dfy | `AppTsx` | the tick, the path → page effect, class `AppContent` |
| app_jsx.dfy | `AppJsx` | `calculateTimeLeft`, the hash → page check, class `AppContent` |
| admin.dfy | `Admin` | the form, edit/add/delete/search, class `Dashboard` |

Main results:

- The aggregate percentage lies in [0, 100]. It equals `100·p` for one account
  and is never below `100·p` for more. It never decreases as accounts are
  added, and never increases as the ratio grows. It is exactly 100 when
  `0 < r ≤ 1` and `n ≥ 1`, and 0 when `n = 0`.
- The tier thresholds are strict: exactly 80 is Good. The tier is monotone in
  the percentage. The tier is taken from the unrounded total. Rounding to two
  decimals for display never shows a higher tier's value, and shows at most
  one tier lower.
- The TypeScript tick keeps the fields in range and takes off exactly one
  second until it reaches zero, where it stays. The JavaScript recomputation
  is written with real division, `Math.floor` and JavaScript's truncating
  `%`; it is proved equal to integer division and remainder, in range, and
  worth `difference / 1000` seconds. One tick of the first equals a
  recomputation 1000 ms later in the second.
- Edit changes only the records with the edited id and keeps their
  positions. Delete keeps every other record in order. Deleting a freshly
  added record undoes the add. Search is an order-preserving subsequence
  that keeps a record exactly when it matches the query. The empty query
  keeps everything.

Behaviour of the code that the model keeps:

- The tier is chosen from the unrounded percentage (src/components/Predictor.jsx:73). Only the displayed probability is rounded.
- The back button only sets the step (src/components/Predictor.jsx:300). The last result stays in the state.
- Neither component checks the parsed numbers. The only checks are that the two text fields are non-empty (src/components/Predictor.jsx:56). The model takes `ratio > 0` as a precondition of the engine and of the submit methods. It does not claim that the code enforces it.
- The comment attached to a result is one fixed text per tier (src/components/Predictor.jsx:76-88). It is determined by the tier, so the model keeps only the tier.
- The account and kitta fields start at `'1'` and `'10'` (src/components/Predictor.jsx:30-32).
- In the `.jsx` component, a selected id that names no listing makes the delayed callback throw when it reads the name. The loading flag then stays set and no result appears. `Session.PredictorSession.Submit` models this.

Inputs from the environment become parameters:

- the parsed ratio and account count: `parseFloat` and `parseInt` are not modelled;
- the millisecond difference, standing for `Date` values and the clock;
- the router path and the URL hash;
- the answer to the delete confirmation (`window.confirm`);
- the random id of a new listing.

The local-storage entry is a field holding a value. JSON encoding and storage I/O are not modelled.

## Model

| member | source | states |
|---|---|---|
| Engine.PerAccountOdds | src/components/Predictor.jsx:66 | the odds lie in (0, 1], never exceed `1/r`, equal either 1 or `1/r`, and are exactly 1 iff `r ≤ 1` |
| Engine.AggregatePercent | src/components/Predictor.jsx:67 | `(1 - (1-p)^n) * 100` lies in [0, 100] for `p` in [0, 1] |
| Engine.TotalPercent | src/components/Predictor.jsx:62-67 | the total for a ratio and an account count lies in [0, 100] |
| Engine.TierOf | src/components/Predictor.jsx:73-89 | each tier holds exactly on its interval: above 80, (50, 80], (20, 50], at most 20 |
| Engine.Compute | src/components/Predictor.tsx:84-117 | the odds are `PerAccountOdds(r)` and the total `TotalPercent(r, n)`; odds in (0, 1] and 1 iff `r ≤ 1`; total in [0, 100]; total `100·p` for one account, at least `100·p` for more, 0 for none; tier of the unrounded total; the sentiment (`SentimentOf`) Aggressive iff `r > 50` |
| Engine.Round2 | src/components/Predictor.jsx:92 | the displayed value is within 0.005 of the total (above by at most 0.005, below by less) and is a whole number of hundredths |
| Engine.Verdict | src/components/Predictor.jsx:73-89 | every label is non-empty, and every English label ends in " Chance" |
| Engine.Color | src/components/Predictor.jsx:73-89 | every colour class is an emerald shade exactly for Good and Extremely High |
| Engine.PowNonNegative | src/components/Predictor.jsx:67 | a power of a non-negative base is non-negative |
| Engine.PowInUnit | src/components/Predictor.jsx:67 | a power of a number in [0, 1] lies in [0, 1] |
| Engine.PowAntitoneInExponent | src/components/Predictor.jsx:67 | for a base in [0, 1], a larger exponent gives a power no larger |
| Engine.PowMonotoneInBase | src/components/Predictor.jsx:67 | for non-negative bases, a larger base gives a power no smaller |
| Engine.PowZeroBase | src/components/Predictor.jsx:67 | a positive power of 0 is 0 |
| Engine.TotalAtLeastOneAccount | src/components/Predictor.tsx:88-91 | no accounts give 0, one account gives `100·p`, more give at least `100·p` |
| Engine.TotalMonotoneInAccounts | src/components/Predictor.jsx:286-288 | for a fixed ratio, more accounts never lower the total (the multiple-accounts tip) |
| Engine.TotalAntitoneInRatio | src/components/Predictor.jsx:66-67 | for a fixed account count, a higher ratio never raises the total |
| Engine.UndersubscribedIsCertain | src/components/Predictor.jsx:66-73 | for `0 < r ≤ 1` and `n ≥ 1` the total is 100 and the tier Extremely High |
| Engine.TierMonotone | src/components/Predictor.tsx:96-108 | a higher percentage never yields a lower tier |
| Engine.TierBoundaries | src/components/Predictor.jsx:73-85 | exactly 80 is Good, exactly 50 Moderate, exactly 20 Low |
| Engine.DisplayedTierNeverHigher | src/components/Predictor.jsx:73-92 | the tier of the rounded value is never above, and at most one below, the tier actually chosen |
| Engine.DisplayedTierCanBeLower | src/components/Predictor.jsx:73-92 | a reachable total of 80.004 is shown as 80 (a Good value) but gets Extremely High |
| Engine.VerdictsDistinct | src/components/Predictor.jsx:74-86 | different tiers get different labels in each language |
| Engine.ColorsDistinct | src/components/Predictor.jsx:75-87 | different tiers get different colours |
| Engine.Scenarios | src/components/Predictor.tsx:87-91 | 10x gives 10% per account; 10x with 5 accounts gives 40.951 (Moderate, shown 40.95); 2x with 3 gives 87.5; 0.5x gives 100; sentiment flips above 50 |
| Listings.Find | src/components/Predictor.jsx:37 | the result is absent iff no listing has the id, else it is the first listing with that id |
| Listings.Keep | src/components/AdminDashboard.jsx:77 | `filter` gives an order-preserving subsequence holding every kept element as often as the input and no other |
| Listings.KeepAll | src/components/AdminDashboard.jsx:80-83 | a filter that keeps every element returns its input |
| Session.Save | src/components/Predictor.jsx:52 | the stored entry writes all three fields, the flag as it is |
| Session.OrDefault | src/components/Predictor.jsx:44-45 | `x \|\| d` gives `d` exactly when `x` is missing, empty or `d`, and `x` otherwise |
| Session.Restore | src/components/Predictor.jsx:40-48 | restored text fields are never empty; a missing entry or field gives `'1'`, `'10'`, `false` |
| Session.RestoreAfterSave | src/components/Predictor.jsx:44-52 | saving and reloading gives the same fields iff neither text field was empty |
| Session.ResultFor | src/components/Predictor.jsx:91-102 | the result holds the engine's prediction, the rounded total, the verdict label and colour of the unrounded total's tier, the language, the raw accounts text and the name |
| Session.PredictorSession.constructor | src/components/Predictor.jsx:23-48 | the form step, no result, no selection, no ratio, and the restored persisted fields |
| Session.PredictorSession.SelectListing | src/components/Predictor.jsx:187 | only the selection changes |
| Session.PredictorSession.SetOversubscription | src/components/Predictor.jsx:210 | only the ratio text changes; it is not persisted |
| Session.PredictorSession.SetAccounts | src/components/Predictor.jsx:51-53 | the accounts text changes and the stored entry is rewritten from the persisted fields |
| Session.PredictorSession.SetKitta | src/components/Predictor.jsx:239 | the kitta text changes and the stored entry is rewritten |
| Session.PredictorSession.ToggleFirstTime | src/components/Predictor.jsx:245 | the flag flips and the stored entry is rewritten |
| Session.PredictorSession.Submit | src/components/Predictor.jsx:55-107 | no change unless the button can be pressed (`CanSubmit`: the form step, a listing selected, the ratio text non-empty, nothing loading); an unknown listing leaves only the loading flag set; otherwise the result step, loading cleared, and the result of the engine with the listing's name in the language (`DisplayName`); inputs unchanged |
| Session.PredictorSession.SubmitWithoutName | src/components/Predictor.tsx:76-124 | the same guard (`CanSubmit`); when it passes, the result step, loading cleared and the engine's result; inputs unchanged |
| Session.PredictorSession.Back | src/components/Predictor.jsx:300 | the form step with every input and the last result unchanged |
| Session.PredictorSession.ShowsConfetti | src/components/Predictor.jsx:156 | confetti (shown value above 70) implies the result step and a Good or Extremely High verdict |
| Countdown.SecondsDetermine | src/App.tsx:64-70 | two in-range countdown values with the same seconds are equal |
| AppTsx.Tick | src/App.tsx:64-70 | an in-range value stays in range and loses exactly one second unless it is zero; zero is a fixed point |
| AppTsx.TickIsOneSecondLess | src/App.tsx:64-70 | the tick is the unique in-range value one second shorter (or zero at zero) |
| AppTsx.TickN | src/App.tsx:63-71 | repeated ticks keep an in-range value in range and leave zero at zero |
| AppTsx.TickNSeconds | src/App.tsx:63-71 | after `k` ticks an in-range value is in range and has lost `k` seconds, or reached zero |
| AppTsx.InitialRunsOut | src/App.tsx:37 | the start value {2, 14, 45, 30} is in range, is 225930 seconds, and is zero after that many ticks |
| AppTsx.PageForPath | src/App.tsx:44-50 | the page becomes admin iff the path is the admin path; otherwise admin becomes home and any other page stays |
| AppTsx.PageForPathIdempotent | src/App.tsx:44-50 | handling the same path twice is handling it once |
| AppTsx.AppContent.constructor | src/App.tsx:34-50 | the start countdown, and the page the path effect gives from home on mount: admin iff the initial path is the admin path |
| AppTsx.AppContent.OnInterval | src/App.tsx:62-73 | the countdown ticks once, stays in range, and the page is unchanged |
| AppTsx.AppContent.OnPathChange | src/App.tsx:44-50 | the page follows the path, on admin iff on the admin path; the countdown is unchanged |
| AppJsx.Trunc | src/App.jsx:76-78 | the quotient of JavaScript's `%` rounds toward zero: within one of `x`, on the side of zero |
| AppJsx.JsRem | src/App.jsx:76-78 | JavaScript's `x % y` for `y > 0` lies in [0, y) for `x ≥ 0` and in (-y, 0] for `x < 0` |
| AppJsx.FloorDiv | src/App.jsx:75 | `Math.floor(a / b)` over reals is integer division |
| AppJsx.FloorRem | src/App.jsx:76-78 | `Math.floor((a / b) % k)` with JavaScript's truncating `%` is the integer `(a / b) % k` |
| AppJsx.CalculateTimeLeft | src/App.jsx:69-82 | the fields are in range; a difference of 0 or less gives zero; days are the difference divided by 86400000; the value is `difference / 1000` seconds |
| AppJsx.SecondsOfParts | src/App.jsx:75-78 | the integer days, hours, minutes and seconds are in range and add up to the whole seconds of the difference |
| AppJsx.TickAgreesWithRecompute | src/App.jsx:69-86 | one tick of the TypeScript countdown equals recomputing 1000 ms later |
| AppJsx.PageForHash | src/App.jsx:46-50 | the page stays or becomes admin, and is admin iff the hash is the admin hash or it already was: no hash leaves the admin page |
| AppJsx.AdminPageIsSticky | src/App.jsx:46-50 | leaving the admin hash keeps the admin page, where the TypeScript shell goes home |
| AppJsx.AppContent.constructor | src/App.jsx:44-90 | the initial hash check from home and the countdown computed at once |
| AppJsx.AppContent.OnHashChange | src/App.jsx:46-51 | the page follows the hash check; the countdown is unchanged |
| AppJsx.AppContent.OnInterval | src/App.jsx:84-86 | the countdown is recomputed, in range, worth the whole seconds left; the page is unchanged |
| Admin.DefaultForm | src/components/AdminDashboard.jsx:21-31 | the new-listing form has no id, its required text fields are empty, and it holds the stated defaults |
| Admin.FormOfRoundTrip | src/components/AdminDashboard.jsx:36 | the form opened on a record carries the record's id, and saving it under that id gives back the record |
| Admin.ApplyEdit | src/components/AdminDashboard.jsx:217-310 | editing a field never changes the form's id |
| Admin.WithId | src/components/AdminDashboard.jsx:62-65 | the new record carries the given id and exactly the form's fields |
| Admin.Overlay | src/components/AdminDashboard.jsx:60 | the overlaid record has the form's fields and keeps its id unless the form carries one |
| Admin.OverlayUnchangedForm | src/components/AdminDashboard.jsx:33-60 | saving an untouched form opened on a record reproduces that record |
| Admin.EditById | src/components/AdminDashboard.jsx:60 | the length is kept; records with the id are overlaid in place; every other record is unchanged in its position |
| Admin.EditKeepsIds | src/components/AdminDashboard.jsx:60 | with the form of the edited record, every id stays where it was |
| Admin.EditIdempotent | src/components/AdminDashboard.jsx:59-60 | saving the same form twice is saving it once |
| Admin.DeleteById | src/components/AdminDashboard.jsx:77 | an order-preserving subsequence with no record of the id and every other record as often as before |
| Admin.DeleteAbsent | src/components/AdminDashboard.jsx:77 | deleting an id no record carries changes nothing |
| Admin.DeleteUndoesAdd | src/components/AdminDashboard.jsx:62-77 | deleting a just-prepended record with a fresh id gives back the old list |
| Admin.LowerChar | src/components/AdminDashboard.jsx:81 | A to Z move to a to z; every other character is kept |
| Admin.Lower | src/components/AdminDashboard.jsx:81 | lower-casing keeps the length and works character by character |
| Admin.Contains | src/components/AdminDashboard.jsx:81-82 | `includes` holds iff the query occurs at some index |
| Admin.Matches | src/components/AdminDashboard.jsx:80-83 | the empty query matches every record, and so does any query the Nepali name contains |
| Admin.Search | src/components/AdminDashboard.jsx:80-83 | an order-preserving subsequence of matching records holding every matching record as often as the list |
| Admin.SearchEmptyQuery | src/components/AdminDashboard.jsx:80-83 | the empty query keeps every record |
| Admin.LowerIdempotent | src/components/AdminDashboard.jsx:81 | lower-casing twice is lower-casing once |
| Admin.SearchIgnoresCaseOfName | src/components/AdminDashboard.jsx:81 | if a query finds a record by its English name, every query differing only in letter case finds every record whose name differs only in letter case |
| Admin.LowerCasedQueryFindsSameNames | src/components/AdminDashboard.jsx:81 | the lower-cased query finds every record the query finds by its English name |
| Admin.SearchNameExample | src/components/AdminDashboard.jsx:81 | "NAB" finds the listing named "Nabil" |
| Admin.NepaliNameIsCaseSensitive | src/components/AdminDashboard.jsx:82 | the Nepali name is matched as typed: "Ab" finds a Nepali name "Ab" and "ab" does not |
| Admin.Dashboard.constructor | src/components/AdminDashboard.jsx:15-31 | modal closed, no record being edited, empty query, no error, the default form |
| Admin.Dashboard.OpenModal | src/components/AdminDashboard.jsx:33-52 | the modal opens; with a record, that record is being edited and fills the form; without, no record and the default form |
| Admin.Dashboard.CloseModal | src/components/AdminDashboard.jsx:205 | only the modal closes; the record being edited and the form stay |
| Admin.Dashboard.EditField | src/components/AdminDashboard.jsx:217 | only the form changes, by the one field edit |
| Admin.Dashboard.SetSearchQuery | src/components/AdminDashboard.jsx:117 | only the query changes |
| Admin.Dashboard.Submit | src/components/AdminDashboard.jsx:54-73 | no change unless the modal is open with the required fields filled (`RequiredFilled`: name, Nepali name, open and close date non-empty); then the error is cleared, the modal closes, and the list is edited by id or gets the new record in front; an edit keeps every id in its position |
| Admin.Dashboard.Delete | src/components/AdminDashboard.jsx:75-78 | a refused prompt keeps the list; an accepted one deletes by id; nothing else changes |
| Admin.Dashboard.Filtered | src/components/AdminDashboard.jsx:80-83 | the table rows are the search of the list for the query: an order-preserving subsequence of matching records, each matching record as often as in the list, all of it for an empty query |

## Left out

- Floating point: the engine and AppJsx.CalculateTimeLeft compute over exact reals, so IEEE-754 error in `1/r`, `Math.pow`, `Math.round` and the divisions of src/App.jsx:75-78 is not modelled.
- `toFixed(2)` on the per-account odds (src/components/Predictor.jsx:98): the model keeps the unrounded odds.
- The parsing of the text fields (`parseFloat`, `parseInt`): the submit methods take the parsed numbers. A ratio ≤ 0, `NaN`, or a negative or `NaN` account count is outside the model.
- Session.PredictorSession.Submit: requires `ratio > 0`, which the code never checks. The same holds for SubmitWithoutName and the engine's functions.
- The 1500 ms delay and the spinner: the delayed callback is run to completion inside the submit methods.
- The real-time listing subscription of the `.tsx` component, the listing store and its loading screen: external services.
- JSON encoding of the stored entry, and a `JSON.parse` failure on a corrupted entry: storage I/O.
- The per-tier comment text and the translations: defined in a constants file that is not part of this model.
- Share, download, confetti rendering, animations and theme: browser APIs and markup.
- The clock and timers: the millisecond difference and each interval firing are inputs. The countdown target (`countdownData`) enters only through the difference. The JavaScript shell passes it to the admin panel (src/App.jsx:97), whose component ignores those props (src/components/AdminDashboard.jsx:15).
- Parsing of the number inputs of the admin form: `Number(e.target.value)` is taken as an already-parsed real. The `required` attribute on the two number inputs is therefore not modelled; Admin.RequiredFilled checks only the four text fields.
- The optional history fields of a listing (oversubscription, allotment rate, listing price and gain): the record type drops them. The edit `{ ...item, ...formData }` would copy them from the form, which was filled from the record itself.
- The `try`/`catch` of the admin submit: nothing in its body can throw, so the error message is never set.
- Uniqueness of the random id of a new listing: it is a parameter. DeleteUndoesAdd assumes it is fresh.
- Admin.Lower, Admin.LowerChar: lower-case only the letters A to Z. JavaScript's `toLowerCase` also maps other Unicode letters.
- The server, the static pages, the navigation bar, the footer, the ticker and the page switch: markup and I/O with no stateable logic.
