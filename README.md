# Pricing calculator for an AI agency — a Dafny model

This project models the calculating core of a web calculator that an agency uses
to price its work. The calculator has three pages:

- **Flat-project page.** Up to ten scenario cards share one project total. The
  partners who split the revenue are listed with their percentages, and the page
  warns when those percentages do not add up to 100 %.
- **Hourly page.** Up to ten cards each price a month of work from an hourly rate:
  - hours per day, days per week and weeks per month;
  - a down payment, given in R$ or in percent;
  - weekly instalments for the rest, each with its date.
- **AI-project page.** One form prices the setup of an AI automation project and
  its monthly fee:
  - setup: hours by workflow and complexity, percentage markups, then a margin;
  - monthly fee: hosting, tokens, WhatsApp, support and a margin;
  - payback for the client.

Modules:

| module | file | models |
|---|---|---|
| `AiCalculations` | `ai_calculations.dfy` | `calculateAiProject`, as functions plus lemmas that reconcile its result |
| `HourlyCalculations` | `hourly_calculations.dfy` | `calculateHourlyScenario` |
| `ScenarioList` | `scenario_list.dfy` | the scenario-count field shared by both list pages |
| `PricingPage` | `pricing_page.dfy` | the flat-project page's handlers |
| `HourlyPricingPage` | `hourly_pricing_page.dfy` | the hourly page's handlers |
| `AiPricingPage` | `ai_pricing_page.dfy` | the AI page's handlers, the currency-text cleaning and the recompute effect |
| `JsText` | `js_text.dfy` | the JavaScript built-ins the handlers rely on: `parseFloat`, `parseInt`, `String.prototype.replace` of a first occurrence, `x \|\| d` on numbers, and integer-to-text |
| `Types`, `AiTypes` | `types.dfy`, `ai_types.dfy` | the records of the two type files |
| `Wrappers` | `wrappers.dfy` | `Option` |

`calculateHourlyScenario` updates a result record step by step. It is modelled as
the method `CalculateHourlyScenario`, built from the methods `PriceMonth`,
`ResolveDownPayment` and `AddInstalments`, whose instalment date loop carries its
own invariants. Each method is proved equal to a specification function:
`HourlyResult`, `DownPayment` or `WithInstalments`. The lemmas about those
functions state what the engine promises.

Each resize handler copies the list, pushes new cards in a loop and truncates. It
is the method `ScenarioList.ResizeList`, proved against the function `Resized`.

Numbers are exact `real`s, integers are unbounded and dates are day numbers.

## Model

| member | source | states |
|---|---|---|
| AiCalculations.Ceil | src/utils/aiCalculations.ts:110 | `Math.ceil` is the least integer at or above the hours: x <= n < x + 1 |
| AiCalculations.CalculateAiProject | src/utils/aiCalculations.ts:36-135 | the reported hours cover the raw hours; the base is labour plus integrations as the breakdown lists them; the reported complexity markup gathers the complexity, AI-tech and IP addons and the urgency markup is the urgency addon; payback is the 999 sentinel whenever savings do not exceed the monthly fee; the annual projection is twelve months of net gain |
| AiCalculations.BaseOfCalculation | src/utils/aiCalculations.ts:38-43 | the reported hours are the raw workflow hours rounded up; labour is the unrounded hours times the rate; the base setup value is labour plus the integration cost, as the breakdown lists them |
| AiCalculations.MarkupsOfCalculation | src/utils/aiCalculations.ts:46-63 | the subtotal before margin is the base times one plus the enabled markups; the four breakdown addons add exactly that subtotal less the base; the reported complexity markup is every addon but urgency; the urgency markup is the urgency addon |
| AiCalculations.SubtotalIsMarkedUpBase | src/utils/aiCalculations.ts:54-67 | final setup value less the margin addon equals base times the total markup multiplier |
| AiCalculations.AddonsOfCalculation | src/utils/aiCalculations.ts:57-63 | complexity, urgency, AI-tech and IP-transfer addons sum to the subtotal less the base |
| AiCalculations.MarginOfCalculation | src/utils/aiCalculations.ts:66-67 | the setup margin addon is the setup margin percentage of the subtotal it is added to |
| AiCalculations.RecurringOfCalculation | src/utils/aiCalculations.ts:72-89 | hosting cost by tier, tokens per thousand at the model's rate, WhatsApp costed only when enabled; base monthly less hosting and tokens is support plus WhatsApp; the final monthly value adds the recurring margin percentage of the base |
| AiCalculations.RoiOfCalculation | src/utils/aiCalculations.ts:94-107 | with a positive monthly gain for the client, payback times the gain recovers the final setup value; otherwise payback is the 999 sentinel and the annual projection is not positive; the annual projection is always twelve months of gain |
| AiCalculations.SupportLineIsSupportFee | src/components/PricingDetailModal.tsx:131 | the line a detail view labels as the support fee (base monthly less hosting and tokens) equals the support fee exactly when the WhatsApp cost is zero, which holds whenever WhatsApp is off |
| AiCalculations.UrgencyAddsQuarterOfBase | src/utils/aiCalculations.ts:47-63 | switching urgency on keeps the base and the monthly value, adds a quarter of the base to the pre-margin subtotal, and reports that quarter as the urgency markup (zero when off) |
| AiCalculations.UrgencyKeepsBase | src/utils/aiCalculations.ts:42-43 | urgency changes neither the base setup value nor the final monthly value |
| AiCalculations.UrgencyMarkup | src/utils/aiCalculations.ts:47 | the urgency markup is a quarter of the base when urgent, zero otherwise |
| AiCalculations.UrgencyRaisesSubtotal | src/utils/aiCalculations.ts:54-63 | the subtotal shown before margin rises by a quarter of the base when urgency is switched on |
| AiCalculations.PreMarginShift | src/utils/aiCalculations.ts:54-63 | the pre-margin setup with urgency exceeds the one without by 0.25 times the base |
| AiCalculations.AddonsOfStages | src/utils/aiCalculations.ts:54-63 | the four addons computed on the base sum to the pre-margin setup less the base |
| AiCalculations.SubtotalOfCalculation | src/components/PricingDetailModal.tsx:97 | the subtotal a detail view shows (final setup value less margin addon) is the pre-margin setup |
| HourlyCalculations.ParseInputs | src/utils/hourlyCalculations.ts:32-38 | the parsed weeks per month are never zero, since `\|\| 4.345` replaces 0 and NaN; the start date is absent exactly when its field is empty |
| HourlyCalculations.HourlyResult | src/utils/hourlyCalculations.ts:6-8 | every result carries the scenario's id and the name "Cenário id" |
| HourlyCalculations.CalculateHourlyScenario | src/utils/hourlyCalculations.ts:5-116 | the imperative engine returns exactly `HourlyResult` of the parsed inputs |
| HourlyCalculations.PriceMonth | src/utils/hourlyCalculations.ts:40-91 | the guard, the month's chain of products, the down payment, the financed amount and the instalments, updated field by field, give `HourlyResult` |
| HourlyCalculations.ResolveDownPayment | src/utils/hourlyCalculations.ts:60-75 | the two-branch down payment assignment computes `DownPayment` |
| HourlyCalculations.DownPayment | src/utils/hourlyCalculations.ts:60-72 | an amount in R$ takes priority and is kept; otherwise a positive percentage is kept; with neither, both are zero |
| HourlyCalculations.AddInstalments | src/utils/hourlyCalculations.ts:81-107 | the instalment block and its date loop compute `WithInstalments` |
| HourlyCalculations.WithInstalments | src/utils/hourlyCalculations.ts:81-107 | the instalment stage leaves the id, name, month values, down payment and financed amount untouched |
| HourlyCalculations.DownPaymentIsItsPercentage | src/utils/hourlyCalculations.ts:60-72 | whichever way it was given, the down payment is its percentage of the total; an amount in R$ takes priority and is kept; otherwise a positive percentage is kept; with neither both are zero |
| HourlyCalculations.ZeroExactlyWhenBlocked | src/utils/hourlyCalculations.ts:41-43 | the engine returns the all-zero record if and only if the rate, hours per day or days per week is not positive |
| HourlyCalculations.MonthValuesAgree | src/utils/hourlyCalculations.ts:45-58 | past the guard: a month is the hours in it at the rate, a week is a day's value times the days, a month is a week times the weeks, and the contract total is the month; with positive weeks the month is worth something |
| HourlyCalculations.DownPaymentSplitsContract | src/utils/hourlyCalculations.ts:74-78 | the financed amount is never negative; down payment plus financed amount is the contract when the down payment does not exceed it; nothing is financed when it does |
| HourlyCalculations.InstalmentsCoverFinanced | src/utils/hourlyCalculations.ts:81-91 | there are as many instalments as asked when positive and the guard passes, none otherwise; the instalments pay off exactly the financed amount, with monthly (×4.345) and daily (÷7) equivalents |
| HourlyCalculations.ScheduleIsWeekly | src/utils/hourlyCalculations.ts:94-107 | dates exist if and only if the guard passes, instalments are positive and a start date is given; then the first date is the typed start day and the dates are exactly start + 7·i for each instalment i; there is one date per instalment, each falls seven days after the one before, and the last is recorded |
| HourlyCalculations.WorkedMonth | src/utils/hourlyCalculations.ts:46-106 | R$ 100/h, 8 h, 5 days and 4.345 weeks give 173.8 hours and R$ 17,380; 20 % down is R$ 3,476, leaving R$ 13,904 in four weekly payments of R$ 3,476 on days 0, 7, 14 and 21 |
| ScenarioList.CountActionOf | src/pages/PricingPage.tsx:24-25 | the count field resizes exactly when `parseInt` gives an integer from 1 to 10, to that integer; it clears the count exactly when the text is empty |
| ScenarioList.Resized | src/pages/PricingPage.tsx:28-44 | the new list has the asked length; shrinking keeps the first records in order; growing keeps the old records and appends records numbered on from the old length |
| ScenarioList.ResizeList | src/pages/HourlyPricingPage.tsx:32-42 | the copy, push loop and truncation compute `Resized` |
| ScenarioList.ResizeKeepsIdsSequential | src/pages/PricingPage.tsx:30-43 | if the card ids were 1..n before a resize, they are 1..count after it |
| ScenarioList.GrowThenShrink | src/pages/PricingPage.tsx:30-43 | growing the list and then shrinking it back gives the original list |
| PricingPage.HandleNumScenariosChange | src/pages/PricingPage.tsx:23-49 | an accepted count sets the count and resizes, with new cards carrying the shared total; empty text sets the count to 0 and keeps the cards; other text changes nothing; sequential ids and totals that follow the shared total are preserved |
| PricingPage.ResizeKeepsTotals | src/pages/PricingPage.tsx:30-43 | after a resize every card, old or new, carries the shared total |
| PricingPage.SetField | src/pages/PricingPage.tsx:53 | the spread sets the named field, keeps the id and every other field |
| PricingPage.SetFieldToItsValue | src/pages/PricingPage.tsx:53 | writing a field's own value back leaves the card unchanged |
| PricingPage.HandleScenarioChange | src/pages/PricingPage.tsx:52-54 | the named field of every card with the id takes the value; ids, other fields and other cards are unchanged |
| PricingPage.ScenarioChangeIdempotent | src/pages/PricingPage.tsx:52-54 | applying the same edit twice equals applying it once |
| PricingPage.HandleGlobalTotalChange | src/pages/PricingPage.tsx:56-59 | the shared total and every card's total take the value; count, partners, ids and all other card fields are unchanged |
| PricingPage.MaxId | src/pages/PricingPage.tsx:63 | `Math.max` of the ids is an upper bound attained by some partner |
| PricingPage.NextParticipantId | src/pages/PricingPage.tsx:63 | the new id exceeds every existing id, and is 1 for an empty list |
| PricingPage.AddParticipant | src/pages/PricingPage.tsx:62-65 | one partner is appended after the unchanged list, with the next id, 0 % and the name "Participante id"; distinct ids stay distinct and the total percentage is unchanged |
| PricingPage.Without | src/pages/PricingPage.tsx:69 | `filter` keeps exactly the partners whose id differs, never lengthens the list, and keeps distinct ids distinct |
| PricingPage.WithoutAppend | src/pages/PricingPage.tsx:69 | filtering a concatenation filters each part and keeps them in order, so the kept partners stay in their original order |
| PricingPage.RemoveParticipant | src/pages/PricingPage.tsx:67-70 | with at most one partner nothing changes; otherwise the result is the order-keeping filter, in which exactly the partners with another id remain; distinct ids stay distinct |
| PricingPage.WithoutAbsent | src/pages/PricingPage.tsx:69 | removing an id nobody has leaves the list unchanged |
| PricingPage.WithoutPresent | src/pages/PricingPage.tsx:69 | with distinct ids, removing a present id drops exactly one partner and that partner's percentage from the total |
| PricingPage.RemoveKeepsSomeone | src/pages/PricingPage.tsx:67-70 | with distinct ids, removal never empties the partner list |
| PricingPage.RemovalsKeepSomeone | src/pages/PricingPage.tsx:67-70 | after any run of removals, one after another, ids are still distinct and the partner list is still not empty |
| PricingPage.PercentageFromText | src/pages/PricingPage.tsx:119 | the percentage input stores `parseFloat` of its text, or 0 when that is not a number |
| PricingPage.UpdateParticipant | src/pages/PricingPage.tsx:72-79 | partners with the id take the edit to the one field; all others are unchanged; no id changes |
| PricingPage.TotalAfterOneChange | src/pages/PricingPage.tsx:81 | when one partner's percentage changes, the sum moves by exactly the change |
| PricingPage.TotalPercentage | src/pages/PricingPage.tsx:81 | the `reduce` sum is 0 for no partners and never negative when no percentage is |
| PricingPage.ShareAtMostTotal | src/pages/PricingPage.tsx:81 | with no negative percentage, every partner's share is at most the total |
| PricingPage.UpdateMovesTotal | src/pages/PricingPage.tsx:72-81 | with distinct ids, setting a partner's percentage moves the total from the old to the new value; renaming leaves it alone |
| PricingPage.WarningFor | src/pages/PricingPage.tsx:143-144 | no warning exactly at 100 %, red exactly above 100 %, yellow exactly below |
| PricingPage.InitialStateConsistent | src/pages/PricingPage.tsx:11-20 | the initial page has sequential card ids, totals following the shared total, distinct partner ids and a total of exactly 100 % (no warning) |
| HourlyPricingPage.DefaultScenarioReads | src/pages/HourlyPricingPage.tsx:8-17 | a default card reads as 8 hours, 5 days, 4.345 weeks, 4 instalments, no date and no down payment percentage |
| HourlyPricingPage.CreateDefaultScenario | src/pages/HourlyPricingPage.tsx:8-17 | a default card carries the given id with the rate, the down-payment percentage and the date empty; `DefaultScenarioReads` states how its other texts read |
| HourlyPricingPage.InitialHourlyStateConsistent | src/pages/HourlyPricingPage.tsx:20-24 | the page opens with one default card numbered 1, a count of 1 and no results |
| HourlyPricingPage.HandleNumScenariosChange | src/pages/HourlyPricingPage.tsx:27-46 | an accepted count resizes with default cards numbered on from the old length; empty text sets the count to 0 and keeps the cards; other text changes nothing; ids 1..n are kept |
| HourlyPricingPage.SetField | src/pages/HourlyPricingPage.tsx:50 | the spread sets the named field, keeps the id and every other field |
| HourlyPricingPage.HandleScenarioChange | src/pages/HourlyPricingPage.tsx:49-51 | only the named field of cards with the id changes |
| HourlyPricingPage.ScenarioChangeKeepsIds | src/pages/HourlyPricingPage.tsx:49-51 | an edit keeps card ids 1..n |
| HourlyPricingPage.HandleCalculate | src/pages/HourlyPricingPage.tsx:53-58 | one result per card in the same order; result i is the engine's result for card i's parsed inputs and carries its id and name; cards and count unchanged |
| HourlyPricingPage.CalculatedResultsKeepPromises | src/pages/HourlyPricingPage.tsx:53-58 | every result of the button splits its contract between down payment and financed amount, pays off the financed amount in its instalments and dates them weekly |
| AiPricingPage.RecomputeEffect | src/pages/AiPricingPage.tsx:32-35 | after the effect the shown result is `calculateAiProject` of the current inputs |
| AiPricingPage.GetField | src/pages/AiPricingPage.tsx:37 | reading any input field yields a value of that field's kind |
| AiPricingPage.SetField | src/pages/AiPricingPage.tsx:38 | the spread makes the named field read back as the written value |
| AiPricingPage.SetFieldKeepsOthers | src/pages/AiPricingPage.tsx:38 | writing one field leaves every other field as it was |
| AiPricingPage.SameFieldsSameInputs | src/types/ai.ts:6-42 | two input records that agree on every field are equal, so fields determine the record |
| AiPricingPage.SetFieldToItsValue | src/pages/AiPricingPage.tsx:38 | writing a field's own value back leaves the inputs unchanged |
| AiPricingPage.HandleInputChange | src/pages/AiPricingPage.tsx:37-39 | only the named input changes, to the given value, and the result shown is recomputed from the new inputs |
| AiPricingPage.StripCurrencyNoise | src/pages/AiPricingPage.tsx:52 | the regex replace leaves no `R`, `$`, white space or `.`, and never lengthens the text |
| AiPricingPage.StripAppend | src/pages/AiPricingPage.tsx:52 | stripping distributes over concatenation |
| AiPricingPage.CleanCurrencyText | src/pages/AiPricingPage.tsx:52 | the cleaned text has no `R`, `$` or white space; its only `.` is where the first comma of the stripped text was; every other character, later commas included, is kept |
| AiPricingPage.CurrencyTextValue | src/pages/AiPricingPage.tsx:53-54 | the stored number is `parseFloat` of the cleaned text, or 0 when that is NaN |
| AiPricingPage.HandleCurrencyChange | src/pages/AiPricingPage.tsx:50-55 | a currency field takes the value of its cleaned text; other inputs are unchanged; the result shown is recomputed |
| AiPricingPage.GroupThousands | src/pages/AiPricingPage.tsx:44-46 | the stand-in pt-BR grouping writes only digits and `.` separators |
| AiPricingPage.TwoDigits | src/pages/AiPricingPage.tsx:45 | the two decimals are two digits with the value of the cents |
| AiPricingPage.StripGrouped | src/pages/AiPricingPage.tsx:52 | stripping a grouped whole part removes exactly the thousands points and gives back its digits |
| AiPricingPage.CleanFormatted | src/pages/AiPricingPage.tsx:41-52 | cleaning "R$ 1.234,56"-style text gives the whole digits, a point and the two decimals |
| AiPricingPage.CurrencyRoundTrip | src/pages/AiPricingPage.tsx:41-55 | for any amount in cents, formatted pt-BR style behind any prefix of `R`, `$` and spaces, cleaning then parsing returns the amount |
| AiPricingPage.DefaultsPrice | src/pages/AiPricingPage.tsx:10-27 | the page's defaults price at 60 hours, R$ 12,500 base, R$ 16,250 before margin, R$ 22,750 setup, R$ 2,240 monthly cost and R$ 3,360 monthly fee |
| AiPricingPage.InitialPageShowsDefaultsPrice | src/pages/AiPricingPage.tsx:10-35 | once the effect has run on the opening page it shows the defaults' price: R$ 22,750 setup and R$ 3,360 a month |
| JsText.DigitRun | src/utils/hourlyCalculations.ts:38 | the longest leading run of decimal digits: all digits, followed by a non-digit or the end |
| JsText.TrimStart | src/utils/hourlyCalculations.ts:33 | `parseFloat` and `parseInt` drop exactly the leading white space |
| JsText.UnsignedDecimalPrefix | src/utils/hourlyCalculations.ts:33 | an unsigned prefix parses exactly when it starts with a digit, or a point followed by a digit |
| JsText.ParseFloat | src/utils/hourlyCalculations.ts:33-37 | `parseFloat` yields a number exactly when the trimmed, unsigned text starts a decimal |
| JsText.ParseInt | src/utils/hourlyCalculations.ts:38 | `parseInt` yields a number exactly when a digit follows the trimmed sign |
| JsText.OrElse | src/utils/hourlyCalculations.ts:33-35 | `x \|\| d` keeps a non-zero number and gives d for 0 or NaN |
| JsText.OrElseInt | src/utils/hourlyCalculations.ts:38 | `parseInt(..) \|\| 0` keeps a non-zero integer and gives 0 otherwise |
| JsText.IndexOf | src/utils/hourlyCalculations.ts:37 | the first position of a character: it is there and nowhere before |
| JsText.ReplaceFirst | src/utils/hourlyCalculations.ts:37 | `replace` of a one-character string keeps the length and changes nothing when the character is absent |
| JsText.ReplaceFirstSplits | src/utils/hourlyCalculations.ts:37 | `replace` rewrites exactly the first occurrence and keeps the text before and after it |
| JsText.NatToDigits | src/pages/PricingPage.tsx:64 | the decimal text of a natural number is digits without a leading zero and reads back as the number |
| JsText.ParseIntOfIntToString | src/pages/PricingPage.tsx:64 | `parseInt` of an integer's decimal text gives back the integer |
| JsText.ReadsDecimal | src/pages/AiPricingPage.tsx:53 | `parseFloat` of digits, a point and digits is their decimal value |
| JsText.ParseFloatOfDigits | src/pages/HourlyPricingPage.tsx:11-12 | `parseFloat` of a digit string is its integer value |

## Left out

- Rendering is left out: JSX, styling, icons, tabs and the key-based reset in `src/App.tsx`.
  - So are the display-only components: `GuideModal`, `Tooltip`, `HourlyScenarioCard`, `HourlyScenarioDetails` and `PricingDetailModal`.
  - The two subtractions `PricingDetailModal` displays are stated as lemmas on the AI engine.
- `TokenEstimatorModal` is left out. It is UI around one product: conversations × messages × 30 × 1000.
- The PDF export (jsPDF, with a timestamp) and the TXT export (Blob, object URLs, anchor clicks) are I/O and are left out.
- `utils/calculations` (`parseCurrency`, `formatCurrency`, `calculateScenario`) is not part of this model.
  - `parseCurrency` is a parameter of the hourly engine (`HourlyCalculations.External`).
  - The flat-project page's calculate button, its instalments and the partners' shares are left out.
  - `CurrencyInput`, `ScenarioCard`, `ResultsTable` and `HourlyResultsTable` are not part of this model.
- Dates are day numbers, and reading the `YYYY-MM-DD` field is a parameter. `date-fns` `addDays` becomes adding 7·i, and the `dd/MM/yyyy` rendering is left out.
- `Intl.NumberFormat` is replaced by the stand-in `FormatBrl`. It is used only to state the cleaning round trip, for non-negative amounts in whole cents.
- IEEE-754 arithmetic is replaced by exact `real`s:
  - rounding, Infinity and NaN are left out;
  - a NaN result of `parseFloat`/`parseInt` is `None`;
  - `parseFloat`'s "Infinity" and `parseInt`'s hexadecimal prefixes are not recognised.
- The hourly engine's `try/catch` error marker is left out. Nothing in the model can throw.
- The AI page's default state lacks the WhatsApp fields and `monthlySavings`. `AiPricingPage.DefaultInputs` completes it with WhatsApp off, zero counts and zero savings.
- `createDefaultScenario` leaves out the R$ down-payment field. `HourlyPricingPage.CreateDefaultScenario` gives it the empty text.
- `integrationsCount` and `roi` are carried in the AI inputs, but the engine never reads them.
- `HourlyScenarioResult.valorHora` and `participantsShares` are never set by the engine and are not modelled.
- `PricingPage.HandleScenarioChange`, `HourlyPricingPage.HandleScenarioChange`: the field may be any text field of a card but not `id`. The page only ever edits text fields.
- `PricingPage.UpdateParticipant`: the edit is the name or the percentage, not the id. Those are the two inputs the page offers.
- `AiPricingPage.HandleInputChange`: a value must fit the field's kind (number, flag or choice). The handler's own type accepts any string, number or flag for any field, but every call on the page passes a value of the field's kind: number inputs pass `Number(...)`, checkboxes pass `checked`, the selects offer exactly the options of their field, and the currency inputs pass the number they read.
