# Device diagnostics calculators — Dafny model

This project models the three diagnostic calculators of the product
lifecycle demo:

- the battery state-of-health form (`components/ui/battery-form.tsx`);
- the server cooling page (`app/server/page.tsx`);
- the smartphone storage page (`app/smartphone/page.tsx`).

Each calculator reads user-entered telemetry and classifies the device into
a severity tier. It also lists maintenance advice.

The model is in four modules:

- `FormCommon` (`common.dfy`) holds the JavaScript behaviour the forms rely on:
  - `Number` parsing, abstracted as a `JsNumber`;
  - `parseNumber`;
  - `Math.round`;
  - `Number(x.toFixed(1))`;
  - `String.prototype.trim` over the ECMAScript whitespace set;
  - the required-field test;
  - the `delete` on the error map;
  - the percentage of a part in a positive whole, which the battery and smartphone pages both compute.

  It also holds a generic lemma: two lists in strictly increasing rank with the same members are equal.
- `BatteryHealth` (`battery.dfy`) and `ServerCooling` (`server.dfy`) each
  have the same parts:
  - the required-field errors;
  - the evaluation, stated as a specification function (`Assess`);
  - the whole submit handler as a function (`Submit`);
  - a method `Evaluate` that builds the message list step by step, as the handler does, proved equal to `Assess`;
  - a method `CollectRequiredErrors` that fills the error map key by key;
  - a class whose fields are the component's React state. Its `HandleSubmit` is proved against `Submit`. Its `Change` is the onChange handler, which stores the text and removes that field's error.
- `SmartphoneStorage` (`smartphone.dfy`) covers:
  - the values derived on every render: the used percent, the tier at 80 and 90, and the space to free;
  - the alert, the bar width and the notes of the results panel;
  - a class with the five state variables and the `evaluate`, `reset` and onChange handlers.

Messages are datatypes whose `Text()` is the exact string the page shows.
Message order is stated as strictly increasing `Rank`. Membership is stated
through an independent predicate `Applies`. The `MessagesDetermined` lemmas
show that these two facts fix the message list completely.

Numbers are exact reals. The following are written out explicitly:

- `Math.round(x)` is `floor(x + 0.5)`;
- `toFixed(1)` rounds a tie away from zero;
- `parseNumber` maps NaN and the infinities to 0.

In these easily misread places the model follows the code:

- The battery and server submit handlers, taken on their own, let non-numeric text pass the required-field checks, which only look for blank text. Such text is then evaluated as 0 (`BatteryHealth.UnparsableDesignCountsAsZero`). In a browser the inputs are `type="number"`, which report such text as the empty string, so the handler rejects it as missing.
- The battery tier is taken from the unrounded state of health. The displayed value is rounded to one decimal. So the display can show a tier boundary, such as 70.0, next to the lower tier (`BatteryHealth.ShownSohCanReachThresholdOfHigherTier`).
- The smartphone panel is not frozen at evaluation. Once `isEvaluated` is set, it is recomputed from the current inputs on every render (`SmartphoneStorage.SmartphonePage.Results`).
- An optional smartphone value of 0 does not simply omit its note, as intended. It renders a bare `0` (see Findings). The page model `SmartphonePage.Results` renders the notes as written; `SmartphoneStorage.Notes` is the intended list, and the two agree exactly when no optional value is 0 or NaN.

## Model

| member | source | states |
|---|---|---|
| FormCommon.ParseNumber | app/server/page.tsx:17-20 | a finite parse is kept as is; NaN and both infinities become 0 |
| FormCommon.Round | app/server/page.tsx:43 | `Math.round` yields the integer within half a unit of x, a tie going up |
| FormCommon.ToFixedOne | components/ui/battery-form.tsx:88-90 | the displayed SoH is a whole number of tenths within 0.05 of the exact value, a tie resolved away from zero |
| FormCommon.Percent | components/ui/battery-form.tsx:57 | a part as a percentage of a positive whole: percent × whole = 100 × part, and 0 when the whole is not positive; it lies in 0..100 when 0 ≤ part ≤ whole (the battery SoH, and the smartphone used percent at app/smartphone/page.tsx:20) |
| FormCommon.Trim | components/ui/battery-form.tsx:29 | trim never lengthens a string; a non-empty result starts and ends with non-whitespace; the result is empty exactly when every character is whitespace |
| FormCommon.IsMissing | components/ui/battery-form.tsx:29-40 | a required field is missing exactly when its text is empty or all whitespace |
| FormCommon.WithoutKey | components/ui/battery-form.tsx:106-113 | deleting an error key removes exactly that key and keeps every other entry unchanged |
| FormCommon.SortedUnique | components/ui/battery-form.tsx:62-86 | two lists in strictly increasing rank with the same members are equal, so a message list is fixed by its members and its order |
| BatteryHealth.KeysDistinct | components/ui/battery-form.tsx:28-40 | the four inputs have four distinct error keys, so the field-keyed map stands for the string-keyed error record |
| BatteryHealth.TextsDistinct | components/ui/battery-form.tsx:59-86 | the five messages have five distinct texts, so a list of messages stands for the list of strings the form stores |
| BatteryHealth.RequiredErrors | components/ui/battery-form.tsx:28-40 | a field has an error exactly when its text is blank; each error is that field's own message; the map is empty exactly when all four are present |
| BatteryHealth.Tier | components/ui/battery-form.tsx:59-73 | CRITICAL exactly below 70, WARNING exactly in [70, 85), GOOD exactly from 85 |
| BatteryHealth.Assess | components/ui/battery-form.tsx:57-86 | the tier follows the SoH thresholds; a message is present exactly when it applies (tier message, cycles above 500 after rounding, temperature above 35); the messages are in source order; exactly one tier message comes first, then at most two context messages |
| BatteryHealth.MessagesDetermined | components/ui/battery-form.tsx:59-86 | any list ordered like the source's with exactly the applicable messages is the evaluated list |
| BatteryHealth.Submit | components/ui/battery-form.tsx:24-91 | the submit is rejected exactly when some field is blank, and then carries the non-empty required-field errors; otherwise it evaluates the parsed numbers and displays the SoH rounded to one decimal |
| BatteryHealth.PlaceholderReading | components/ui/battery-form.tsx:52-90 | 5000/3200/450 cycles/40 °C gives SoH 64.0, CRITICAL, the degradation and temperature messages and no cycles message |
| BatteryHealth.BlankCyclesRejected | components/ui/battery-form.tsx:34-48 | a blank cycle count alone yields only the cycles error |
| BatteryHealth.UnparsableDesignCountsAsZero | components/ui/battery-form.tsx:19-22 | non-numeric but non-blank design text passes validation and gives SoH 0, CRITICAL |
| BatteryHealth.ShownSohCanReachThresholdOfHigherTier | components/ui/battery-form.tsx:57-90 | an SoH of 69.96 is CRITICAL yet displayed as 70.0 |
| BatteryHealth.CollectRequiredErrors | components/ui/battery-form.tsx:28-40 | filling the error map field by field yields exactly the required-field errors |
| BatteryHealth.Evaluate | components/ui/battery-form.tsx:52-86 | the step-by-step computation of SoH, status and pushed messages equals the specified evaluation |
| BatteryHealth.BatteryForm.constructor | components/ui/battery-form.tsx:9-17 | the form starts with empty inputs, no result and no errors |
| BatteryHealth.BatteryForm.HandleSubmit | components/ui/battery-form.tsx:24-91 | the new state is the submit outcome: either the errors with the result cleared, or no errors with the displayed SoH, status and messages; the inputs are unchanged and the state invariant is kept |
| BatteryHealth.BatteryForm.Change | components/ui/battery-form.tsx:106-113 | editing a field stores its text and removes that field's error only; other inputs and the result stay unchanged |
| ServerCooling.KeysDistinct | app/server/page.tsx:25-31 | the two inputs have distinct error keys, so the field-keyed map stands for the string-keyed error record |
| ServerCooling.RequiredErrors | app/server/page.tsx:25-31 | a field has an error exactly when its text is blank; each error is its field's message; the map is empty exactly when both are present |
| ServerCooling.Classify | app/server/page.tsx:46-64 | CRITICAL exactly when cpu ≥ 85, or cpu ≥ 80 with fan < 1200; GOOD exactly when cpu < 75 and fan ≥ 1500; WARNING otherwise |
| ServerCooling.Assess | app/server/page.tsx:42-74 | the status follows the rounded fan speed; a message is present exactly when it applies; the messages are in source order, one to three of them; the optimal message appears exactly when the status is GOOD, and then alone; the sustained-heat risk appears exactly when cpu ≥ 80, and then last |
| ServerCooling.MessagesDetermined | app/server/page.tsx:48-74 | any list ordered like the source's with exactly the applicable messages is the evaluated list |
| ServerCooling.Submit | app/server/page.tsx:22-78 | the submit is rejected exactly when a field is blank, and then carries the non-empty required-field errors; otherwise it evaluates the parsed CPU temperature and rounded fan speed |
| ServerCooling.HotWithSlowFan | app/server/page.tsx:48-74 | 82 °C with 1100 RPM gives CRITICAL with the overheating, slow-fan and sustained-heat messages |
| ServerCooling.ThresholdsInclusive | app/server/page.tsx:48-69 | 75 °C is already WARNING; 85 °C is CRITICAL; a fan reading of 1499.5 rounds to 1500 and counts as optimal |
| ServerCooling.CollectRequiredErrors | app/server/page.tsx:25-31 | filling the error map field by field yields exactly the required-field errors |
| ServerCooling.Evaluate | app/server/page.tsx:42-74 | the step-by-step status escalation and pushes equal the specified evaluation |
| ServerCooling.ServerPage.constructor | app/server/page.tsx:10-15 | the page starts with empty inputs, no status, no messages and no errors |
| ServerCooling.ServerPage.HandleSubmit | app/server/page.tsx:22-78 | the new state is the submit outcome: the errors with the result cleared, or no errors with the computed status and messages; the inputs are unchanged |
| ServerCooling.ServerPage.Change | app/server/page.tsx:102-109 | editing a field stores its text and removes that field's error only |
| SmartphoneStorage.NumberOrZero | app/smartphone/page.tsx:17-18 | undefined and NaN become 0; a finite number is kept |
| SmartphoneStorage.StorageTier | app/smartphone/page.tsx:22-24 | critical exactly from 90, warning exactly in [80, 90), ok exactly below 80 |
| SmartphoneStorage.SpaceToFreeTo90 | app/smartphone/page.tsx:26 | the amount is the larger of 0 and the excess over 90 % of the total |
| SmartphoneStorage.SpaceToFreeToRecommended | app/smartphone/page.tsx:27-31 | the amount is the larger of 0 and the excess over the total less the recommended free share |
| SmartphoneStorage.Analyze | app/smartphone/page.tsx:17-31 | the totals are the stored numbers or 0; the tiers follow the used percent; with no positive total the percent is 0 and the tier ok; the amounts to free are max(0, used − 0.9 × total) and max(0, used − total × (1 − 10/100)), hence non-negative and equal; an amount to free above 0 with a positive total occurs only in the critical tier |
| SmartphoneStorage.OverNinetyIsCritical | app/smartphone/page.tsx:20-26 | more than 90 % of a positive total in use gives a used percent above 90 |
| SmartphoneStorage.PlaceholderReading | app/smartphone/page.tsx:17-31 | 115 of 128 GB is 89.84375 %, a warning, with nothing to free to reach 90 % |
| SmartphoneStorage.ZeroTotal | app/smartphone/page.tsx:20-26 | a zero total gives 0 % and ok, while the amount to free is still the used size |
| SmartphoneStorage.ChooseAlert | app/smartphone/page.tsx:170-230 | the invalid-input alert appears exactly when the total is not positive, otherwise the alert of the tier; the critical alert carries the two amounts to free of the analysis, which are equal and non-negative; the warning alert carries the amount to free to 90 %, which is always 0 |
| SmartphoneStorage.BarWidth | app/smartphone/page.tsx:164 | the bar width lies in 0..100 and equals the used percent whenever that is in range |
| SmartphoneStorage.RenderGuardAsWritten | app/smartphone/page.tsx:253-265 | `x && note` renders nothing for undefined and one item otherwise: the note for a non-zero number, bare text for a falsy one ("0" for 0, "NaN" for NaN) |
| SmartphoneStorage.NotesAsWritten | app/smartphone/page.tsx:253-265 | every defined optional value fills one slot, cache first; a slot holds bare text exactly when its value is 0 or NaN; with both values non-zero the items are the cache note followed by the response note |
| SmartphoneStorage.ZeroCacheRendersStrayZero | app/smartphone/page.tsx:253-258 | a cache size of 0 renders the bare text "0" |
| SmartphoneStorage.Notes | app/smartphone/page.tsx:253-265 | one note per optional value that is defined and non-zero, cache first, and nothing else |
| SmartphoneStorage.NotesAgreeWithoutFalsyNumbers | app/smartphone/page.tsx:253-265 | the notes as written equal the intended notes exactly when no optional value is 0 or NaN |
| SmartphoneStorage.StoredValue | app/smartphone/page.tsx:68-72 | empty input text stores undefined; any other text stores the number it parses to |
| SmartphoneStorage.SmartphonePage.constructor | app/smartphone/page.tsx:11-15 | every input starts undefined and the results are hidden |
| SmartphoneStorage.SmartphonePage.Results | app/smartphone/page.tsx:140-265 | the panel is shown exactly when evaluated; it is computed from the current inputs: the analysis, the bar width clamped from the used percent, the tier's alert, the four fixed recommendations and the notes as the page renders them, which are the intended notes exactly when no optional value is 0 or NaN |
| SmartphoneStorage.SmartphonePage.Evaluate | app/smartphone/page.tsx:33-35 | evaluating shows the results and leaves every input as it was |
| SmartphoneStorage.SmartphonePage.Reset | app/smartphone/page.tsx:37-43 | reset clears every input and hides the results |
| SmartphoneStorage.SmartphonePage.ChangeTotal | app/smartphone/page.tsx:68-72 | the total becomes the parsed input, or undefined for empty text; nothing else changes |
| SmartphoneStorage.SmartphonePage.ChangeUsed | app/smartphone/page.tsx:85-89 | the used size becomes the parsed input, or undefined for empty text; nothing else changes |
| SmartphoneStorage.SmartphonePage.ChangeResponseMs | app/smartphone/page.tsx:103-107 | the response time becomes the parsed input, or undefined for empty text; nothing else changes |
| SmartphoneStorage.SmartphonePage.ChangeCacheGb | app/smartphone/page.tsx:120-124 | the cache size becomes the parsed input, or undefined for empty text; nothing else changes |

## Left out

- The grammar of `Number(text)` is not modelled. A text field carries the `JsNumber` it parses to beside its text, and the model does not relate the two.
- IEEE-754 double rounding is not modelled. All arithmetic is on exact reals, so a percentage such as 115/128 × 100 is exact here, while the browser may be off in the last bit.
- Only the tenths value of `toFixed(1)` is modelled, not its string form. The exponent form for magnitudes of 10^21 and more is also left out. The `toFixed(1)` and `toFixed(2)` figures that are display-only on the smartphone page are left out entirely.
- Markup, styling, icons and the static descriptive text of the alerts are not modelled. Only the alert titles, the advice strings and which items appear are modelled.
- The navigation bar, the layouts and the landing and laptop pages are not part of this model.
- SmartphoneStorage.StoredValue: an infinity is excluded by its precondition. An `<input type="number">` only ever reports an empty string or a finite number, so that case cannot reach the handler. The `min`, `max` and `step` attributes are not modelled either. The browser applies them only as validation hints.
- A `TextField` pairs any text with any parsed number, including pairs a browser never produces: a `type="number"` input reports non-numeric text as the empty string. The model therefore also covers the handlers on inputs they cannot receive in a browser.
- React's asynchronous batching of state updates and event plumbing are not modelled; `preventDefault` is one example. Each handler is one atomic state change.
- FormCommon.Trim: its contract does not state that the result is the slice between the first and the last non-whitespace character. It states only the trimmed ends and when the result is empty, which is what the required-field test uses.

## Findings

| source | as written | input that shows it | evidently intended | confidence | as-written member | corrected member |
|---|---|---|---|---|---|---|
| app/smartphone/page.tsx:253-265 | `{cacheGb && …}` and `{responseMs && …}` evaluate to the number itself when it is falsy, and React renders a number 0 (or NaN) as text | cache size 0 entered: the notes area shows a bare "0" | a note only for a provided non-zero value, and nothing otherwise | high; not executed | SmartphoneStorage.NotesAsWritten (SmartphoneStorage.ZeroCacheRendersStrayZero) | SmartphoneStorage.Notes |
