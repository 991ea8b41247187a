# Expense tracker core, modelled in Dafny

The page script `js/app.js` drives a small expense tracker. This project models its core:

- **The expense form's submit handler.** Five checks, each of which marks a field as wrong: a date with a non-whitespace character, a non-empty category, an amount that parses to a number above 0, a checked payment radio, and a checked confirm box. When every check passes, the entry is built and pushed onto the stored array.
- **The statistics page.** From the stored entries it computes:
  - the total, where an amount that is not a number counts as 0;
  - the number of entries;
  - the largest amount, as a reduce starting at 0; with no entries the page shows a placeholder instead;
  - the per-category totals, keyed by the category, or by `egyeb` when the category is empty. Keys are kept in the order they were first seen.
- **The bar chart geometry.** The placeholder text, or one bar per category. Each bar has an x position, a shared width, a height scaled to the largest total, a value label 6 px above the bar and a category label under it.
- **`capitalize`.**

Modules, one per file:

| file | module | what it holds |
|---|---|---|
| `entries.dfy` | `Entries` | The stored entry, the parsed amount (`Num(real)` or `Invalid`), the coercion to a number, the category key. |
| `aggregate.dfy` | `Aggregate` | The total, count and maximum (`Summarize`), and their properties. |
| `categories.dfy` | `Categories` | The per-category totals, as an ordered sequence of slots standing for the object's properties in insertion order. `GroupByCategory` is the imperative grouping loop; `Group` is its specification. Reference definitions: `CategorySum`, `FirstIndex`, `SumSlots`. |
| `text.dfy` | `Text` | The JavaScript `trim` (the ECMAScript whitespace and line terminator set, sections 12.2 and 12.3 of ECMA-262) and `capitalize`. |
| `form.dfy` | `ExpenseForm` | The form, the five checks as the imperative method `CheckForm`, and the entry an accepted form produces. |
| `store.dfy` | `Store` | The stored array, as a class whose `SaveExpense` appends in place. |
| `chart.dfy` | `Chart` | The layout of `drawBarChart`, as the function `Layout`, and the imperative drawing loop `DrawBarChart` proved equal to it. |
| `page.dfy` | `Pages` | The submit handler (check, then save only when valid) and the statistics page (summary, grouping, chart). |
| `scenarios.dfy` | `Scenarios` | Worked examples: no entries, a three-entry history, an entry with no category, an unparsable amount. |

The clock readings that `js/app.js` takes (`Date.now()` for the id and `toISOString()` for the creation time) are parameters. The width and height of the canvas are parameters too.

Amounts are modelled over `real`. A stored amount is what the form writes: a finite number, or something that is not a number. The total and the category sums read it through `Number(...) || 0`. The largest-amount reduce compares the stored value itself, which gives the same result for such values.

In the chart, a largest category total of 0 makes every scaled height `0/0` or `x/0`, which is not a finite number. The canvas then draws neither the rectangle nor the value label. The model represents such a bar with `rect == None` and keeps its category label. This is the code's behaviour: an all-zero chart does not draw zero-height bars, it draws no bars at all.

## Model

| member | source | states |
|---|---|---|
| Entries.Coerce | js/app.js:124 | Definition: the amount an entry adds to a sum, `Number(e.amount)`, or 0 when that is falsy: a number as it is, anything that is not a number as 0. |
| Entries.KeyOf | js/app.js:139 | The grouping key is never empty. It is the category when that is non-empty and `egyeb` otherwise. |
| Aggregate.Total | js/app.js:124 | Definition: the reduce that starts at 0 and adds each entry's coerced amount, in order. |
| Aggregate.Summarize | js/app.js:124-134 | The count is the number of entries. The maximum is the placeholder exactly when there are no entries. Otherwise it is at least 0, at least every coerced amount, and either 0 or exactly some entry's amount. |
| Aggregate.MaxReduce | js/app.js:132 | The reduce started at 0 gives a value that is at least 0, at least every coerced amount, and either 0 or some entry's number. An entry that is not a number is skipped, because the comparison with it is false. |
| Aggregate.TotalAppend | js/app.js:124 | The total of a concatenation is the sum of the totals of its parts. |
| Aggregate.Valids | js/app.js:124 | The entries whose amount is a number: no more entries than the input, each of them from the input, each with a numeric amount. |
| Aggregate.TotalIgnoresInvalid | js/app.js:124-126 | The total of all entries equals the total of the entries whose amount is a number (`Valids`, which keeps only such entries and drops none of them), so an invalid amount counts as 0. The count is still the number of all entries, which is at least the number of valid ones. |
| Aggregate.RecordOneMore | js/app.js:124-126 | One more entry raises the count by 1 and the total by its coerced amount. An invalid amount is counted but adds nothing. |
| Categories.Bump | js/app.js:139-140 | Definition: one loop step, which adds the amount to the key's slot, or appends a slot holding `0 + amount` when the key has none. |
| Categories.Group | js/app.js:137-141 | Definition: the `byCat` object after the loop has seen every entry, as slots in insertion order. |
| Categories.IndexOf | js/app.js:140 | Looking up a key finds the first slot holding it, or reports that no slot holds it. |
| Categories.GroupByCategory | js/app.js:137-141 | The forEach loop leaves exactly `Group(es)`: each entry's coerced amount is added to the slot of its key, and a new slot goes last. |
| Categories.GroupStep | js/app.js:138-141 | One more entry takes the totals one loop step further. |
| Categories.FirstIndex | js/app.js:138-139 | Reference definition: the first entry grouped under a key, or none. |
| Categories.BumpIndexOf | js/app.js:140 | One loop step leaves every existing key where it was. It finds the new key at the end when that key is new. |
| Categories.BumpLookup | js/app.js:140 | One loop step adds the amount to the slot of the entry's key and to no other slot. A new key starts from 0. |
| Categories.BumpSum | js/app.js:140 | One loop step adds the amount to the sum of all slots. |
| Categories.GroupLookup | js/app.js:137-141 | A key has a slot exactly when some entry is grouped under it. The slot's sum is the sum of that category's coerced amounts, and a key without entries sums to 0. |
| Categories.GroupCoversEntries | js/app.js:139-140 | Every entry's key has a slot. |
| Categories.GroupKeysSeen | js/app.js:139-140 | Every slot's key belongs to some entry. |
| Categories.GroupKeysUnique | js/app.js:137-141 | No key has two slots. |
| Categories.GroupFirstSeen | js/app.js:137-145 | Slots appear in the order in which their key's first entry appears. |
| Categories.GroupSlotSums | js/app.js:137-141 | Every slot holds exactly the sum of the coerced amounts of its category. |
| Categories.GroupPreservesTotal | js/app.js:124-141 | The category totals add up to the page total. |
| Text.TrimStart | js/app.js:46 | Dropping leading whitespace keeps a suffix. The suffix starts with a non-space or is empty, and everything dropped is whitespace. |
| Text.TrimEnd | js/app.js:46 | Dropping trailing whitespace keeps a prefix. The prefix ends with a non-space or is empty, and everything dropped is whitespace. |
| Text.Trim | js/app.js:46 | The trimmed string neither starts nor ends with whitespace. |
| Text.TrimKeepsMiddle | js/app.js:46 | The trimmed string is a contiguous slice of the input, with only whitespace before and after it. |
| Text.TrimEmpty | js/app.js:46 | A string trims to the empty string exactly when every character is whitespace. |
| Text.UpperAscii | js/app.js:158 | A lower-case ASCII letter becomes its upper-case letter (32 code points lower). Every other character is kept. |
| Text.Capitalize | js/app.js:156-159 | The empty string is returned as it is. Otherwise the first character is upper-cased and the rest is kept, so the length is unchanged. |
| Text.CapitalizeIdempotent | js/app.js:156-159 | Capitalising twice is capitalising once. |
| Text.CapitalizeChangesOnlyFirst | js/app.js:156-159 | The result does not start with a lower-case ASCII letter, and it matches the input at every position after the first. |
| ExpenseForm.DateOk | js/app.js:46 | Definition: the date check passes when the field exists and its trimmed value is not empty. |
| ExpenseForm.CategoryOk | js/app.js:53 | Definition: the category check passes when the field exists and its value is not empty. |
| ExpenseForm.AmountOk | js/app.js:60-61 | Definition: the amount check passes when the field exists and its value parses to a number above 0. |
| ExpenseForm.PaymentOk | js/app.js:68 | Definition: the payment check passes when some payment radio is checked. |
| ExpenseForm.ConfirmOk | js/app.js:75 | Definition: the confirmation check passes when the checkbox exists and is checked. |
| ExpenseForm.Accepted | js/app.js:46-80 | Definition: a form is accepted when all five checks pass. |
| ExpenseForm.AnyChecked | js/app.js:19-22 | The payment check holds exactly when some radio is checked. |
| ExpenseForm.FirstChecked | js/app.js:88 | Finds the first checked radio, with no checked radio before it, or reports that none is checked. |
| ExpenseForm.PaymentValue | js/app.js:88 | The stored payment is never empty. It is the first checked radio's value when there is one and its value is not empty, and `cash` in every other case. |
| ExpenseForm.CheckForm | js/app.js:43-85 | The form is valid exactly when all five checks pass, which is exactly when no field is marked. Each field is marked exactly when its own check fails. |
| ExpenseForm.NewEntry | js/app.js:88-98 | The entry of an accepted form has the form's date (non-blank after trimming) and category (which is its own grouping key). Its amount is a parsed number above 0. Its payment is `PaymentValue` of the radios, so it is not empty. Its label and notes are the form's texts, or empty when the field is missing. It carries the given id and creation time. |
| ExpenseForm.DateOkMeans | js/app.js:46 | The date check passes exactly when the date field exists and holds a character that is not whitespace. |
| Store.ExpenseStore.constructor | js/app.js:34-35 | The store starts with the stored array (empty when nothing was stored). |
| Store.ExpenseStore.SaveExpense | js/app.js:32-38 | Saving appends the entry at the end. The length grows by one and every earlier entry is unchanged. |
| Pages.Submit | js/app.js:40-100 | The submission is valid exactly when the form is accepted, and each field is marked exactly when its check fails. A valid submission appends exactly the built entry to the store. A rejected one leaves the store unchanged. |
| Pages.ShowStatistics | js/app.js:119-152 | The page shows `Summarize` of the stored entries and their `Group` totals, and draws `Layout` of those totals. |
| Pages.AcceptedEntryRecorded | js/app.js:124-141 | After an accepted submission the count grows by one and the total strictly grows. The category's slot exists, and its sum is the earlier category sum plus the new amount. |
| Chart.MaxIndex | js/app.js:176 | Finds a category whose total is at least every other total. |
| Chart.MaxValue | js/app.js:175-176 | `Math.max` of the totals is at least every total and is one of them. |
| Chart.BarWidth | js/app.js:179-182 | Definition: the shared bar width, an even share of `w - 40` less the gap of 10, but at least 20. |
| Chart.BarHeight | js/app.js:187 | Definition: the height of a bar, its value divided by the maximum and scaled to the chart height `h - 40`. |
| Chart.BarHeightOfMax | js/app.js:187 | The maximum is scaled to exactly the chart height. |
| Chart.BarHeightTimesMax | js/app.js:187 | Height times maximum equals value times chart height. |
| Chart.BarHeightMonotone | js/app.js:187 | With a positive maximum, a larger value never gets a lower height. |
| Chart.BarHeightBounded | js/app.js:187 | With a positive maximum, values from 0 to the maximum get heights from 0 to the chart height. |
| Chart.PlaceBar | js/app.js:185-201 | Definition: the i-th bar, with x `20 + i * (barW + 10)`, top `20 + (chartH - barH)`, value label 6 above the top, a rectangle only when the maximum is not 0, and the label anchor `(x + barW / 2, h - 10)`. |
| Chart.Layout | js/app.js:167-206 | Definition: the placeholder text at (10, 20) when there is no category, otherwise one placed bar per category. |
| Chart.DrawBarChart | js/app.js:161-206 | The drawing loop produces exactly `Layout`. |
| Chart.LayoutShape | js/app.js:167-206 | With no category only the placeholder is drawn at (10, 20). Otherwise there is exactly one bar per category, in order, carrying the category's total and its capitalised name. |
| Chart.BarWidthFloor | js/app.js:182 | All bars share one width. The width is at least 20 and at least the even share of the chart width less the gap. |
| Chart.BarsLeftToRight | js/app.js:186 | The first bar starts at the margin (20). Each next bar starts one width plus the gap of 10 further right, so bars never overlap. |
| Chart.BarsOnBaseline | js/app.js:187-201 | With a non-zero maximum every bar is drawn and ends at the baseline `h - 20`. The value label is 6 above the bar's top, and the category label is anchored at the bar's horizontal midpoint, 10 below the baseline; it is right-aligned and rotated there, which is not modelled. |
| Chart.TallestBarFillsChart | js/app.js:187-188 | The bar of the largest total has the chart height and its top at the top margin (20). |
| Chart.HeightsProportional | js/app.js:187 | With a non-zero maximum, bar height times maximum equals total times chart height. |
| Chart.HeightsMonotone | js/app.js:187 | With a positive maximum and a canvas at least 40 high, a larger total never gets a shorter bar. |
| Chart.HeightsBounded | js/app.js:187-188 | With a positive maximum and a canvas at least 40 high, a non-negative total gets a height between 0 and the chart height, and the bar's top is at or below the top margin. |
| Chart.BarHeightAt | js/app.js:187 | With a non-zero maximum each bar has a rectangle whose height is the scaled total. |
| Chart.ZeroMaxDrawsNoRects | js/app.js:176-197 | When the largest total is 0, no bar gets a rectangle or a value label. |
| Scenarios.EmptyHistory | js/app.js:124-173 | No entries: total 0, count 0, the maximum placeholder, no categories, and only the placeholder text. |
| Scenarios.SampleSummary | js/app.js:124-134 | Entries food 1000, food 500, transport 300: total 1800, count 3, largest 1000. |
| Scenarios.SampleGrouping | js/app.js:137-141 | The same entries group to food 1500 followed by transport 300. |
| Scenarios.SampleChart | js/app.js:187 | For those totals the food bar fills the chart height, and it is five times as tall as the transport bar. |
| Scenarios.MissingCategory | js/app.js:139 | An entry with an empty category is grouped under `egyeb`. |
| Scenarios.UnparsableAmount | js/app.js:124-140 | An amount that is not a number is counted, adds 0 and leaves the maximum at 0. Its category still gets a slot, and its bar has no rectangle. |

## Left out

- DOM lookups, event listeners, class and text updates, `alert` and `console.log`: these are user interface glue. A missing form element is modelled as a `None` field; the messages themselves are not modelled.
- `localStorage` and the `JSON.parse`/`JSON.stringify` round trip. The store holds the decoded array, and a missing value stands for the empty array.
- Canvas calls (`clearRect`, `fillRect`, `fillText`, `save`, `translate`, `rotate`, `restore`, fonts, colours): only the numbers they receive are modelled.
- The category list on the statistics page (js/app.js:144-149) is not modelled separately. It shows the capitalised keys of `Group` in slot order, with their sums formatted by `toFixed(0)`.
- The number formatting (`toFixed(0)`, `Math.round`) of the figures and labels.
- JavaScript number semantics: amounts are `real`, so there is no rounding or overflow. `Number(...)` of a text field is an abstract parse result (`Amount`). `Infinity` is not representable, because the model has finite numbers only.
- Negative amounts are modelled with the same formulas, but the chart properties about heights assume a positive maximum. With no positive total the drawing of `js/app.js` is not meaningful.
- Amounts stored as strings. `localStorage` may hold entries written by other code, with `amount` a string such as `"1500"`. The largest-amount reduce (js/app.js:132) compares `e.amount > m` on the raw value, so two such strings compare as text (`"500" > "1500"`). The result is then a string, and `toFixed` fails on it. The model stores only what the form writes, a number or a non-number, where this comparison agrees with the numeric one.
- Category names that are members of `Object.prototype`. `byCat` is a plain `{}` (js/app.js:137), so a category such as `constructor`, `toString` or `__proto__` reads an inherited member rather than a missing key. The model treats every category as an ordinary key.
- `Number("Infinity")` passes the amount check (js/app.js:61). `JSON.stringify` then saves it as `null`, which reads back as 0. The model has finite numbers only, so this case does not arise in it.
- Pages.AcceptedEntryRecorded: the statement that the total strictly grows holds for finite amounts only. An `Infinity` amount is saved as `null` and adds 0 after the reload.
- The `Object.keys` rule that lists integer-like keys first: `Group` keeps every key in first-seen order.
- `Date.now()` and `new Date().toISOString()`: the id and the creation time are parameters of `Submit`.
- Text.UpperAscii: upper-cases only `a`-`z`. `toUpperCase` also maps other letters, some of them to several characters.
- `ExpenseStore` keeps no value other than the array: the storage key is not modelled.
