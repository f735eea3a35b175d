# Rental invoice calculator — a Dafny model of its form logic

The rental invoice calculator is a React page. It collects five billing amounts
(rent, management fee, water bill, electricity bill, parking fee), adds them up,
and renders a printable invoice. This project models the three parts of that page
that are logic rather than markup, and proves what they promise:

- **The amount input** (`components/CurrencyInput.tsx`, module `CurrencyInput`).
  Every keystroke is reduced to its digits before it reaches the form
  (`DigitsOnly`). A non-empty value is shown through a locale formatter and the
  empty value as empty text (`FormattedValue`).
- **The form** (`App.tsx`, module `App`):
  - `parseValue` turns a field into a number, with `NaN` coerced to 0
    (`ParseFloat`, `ParseValue`), and the `total` memo adds the five fields
    (`Total`).
  - The persistence is the class `InvoiceForm`. It holds the five fields, the
    view, the one pending debounce timer as a deadline, and local storage as a
    map. `Mount` is the first render, whose debounce effect already schedules a
    write of the empty fields. `Load` is the mount-time load effect. `Edit` is a
    state setter. `Tick` lets time pass and fires a due timer. `Unmount` is the
    teardown. `ProceedToReview` and `GoBackToForm` switch the view.
- **The invoice** (`components/InvoiceTemplate.tsx`, module `InvoiceTemplate`).
  `renderInvoiceRow` is applied to five line items in a fixed order. An item is
  printed only when its amount is positive (`RenderInvoiceRow`, `ShownRows`). The
  total is always printed (`Render`).

`Sequences` holds the sum and subsequence facts shared by these modules, and
`Wrappers` holds `Option`.

Timers, storage and JSON are replaced by explicit values:
- a `setTimeout` handle is a deadline in milliseconds;
- time passes only through `Tick(now)`;
- storage is a `map` from key to the parsed object;
- a stored entry that is absent, fails `JSON.parse` or is not an object reaches `Load` as `None`.

Three facts about the code shape the model:
- There is one storage key (`rental_invoice_form`) and there are five fields.
- `parseValue` does not strip non-digits itself. The input component strips them
  before the value reaches state, and `parseValue` is `parseFloat` with `NaN`
  mapped to 0.
- A failed load leaves the fields as they are; on mount they are still the empty
  defaults.

## Model

| member | source | states |
|---|---|---|
| `CurrencyInput.DigitsOnly` | components/CurrencyInput.tsx:12-15 | the value handed to `onChange` holds only '0'–'9'; every digit of the raw text survives as often as it occurred, in its original order; it is never longer than the input |
| `CurrencyInput.DigitsOnlyFixedPoint` | components/CurrencyInput.tsx:13 | the filter leaves a text unchanged exactly when the text is all digits |
| `CurrencyInput.DigitsOnlyIdempotent` | components/CurrencyInput.tsx:13 | filtering the filter's own output changes nothing |
| `CurrencyInput.DigitsOnlyConcat` | components/CurrencyInput.tsx:13 | the filter works character by character: filtering a concatenation is concatenating the filtered parts |
| `CurrencyInput.DigitsOnlyEmptyIff` | components/CurrencyInput.tsx:13 | the filtered value is empty exactly when the raw text holds no digit |
| `CurrencyInput.FormattedValue` | components/CurrencyInput.tsx:17 | an empty value is displayed as the empty string; only a non-empty value goes through the number formatter |
| `CurrencyInput.DisplayEmptyAfterInput` | components/CurrencyInput.tsx:13-17 | after a keystroke the field displays nothing exactly when the typed text held no digit |
| `InvoiceTemplate.RenderInvoiceRow` | components/InvoiceTemplate.tsx:30-38 | a row exists exactly when the value is strictly positive; it carries its own caption, its own value and the formatted form of that value |
| `InvoiceTemplate.ShownRows` | components/InvoiceTemplate.tsx:54-60 | the rendered rows are a subsequence of all five item rows in their fixed order; a row is shown exactly when it is one of the items' rows and its amount is positive; there are no more rows than items |
| `InvoiceTemplate.ShownRowsSum` | components/InvoiceTemplate.tsx:31 | with no negative amounts, the shown row amounts add up to the sum of all item amounts |
| `InvoiceTemplate.RenderedRowsSum` | components/InvoiceTemplate.tsx:55-59 | the amounts of the shown rows add up to rent + management fee + water + electricity + parking when none is negative |
| `InvoiceTemplate.Render` | components/InvoiceTemplate.tsx:54-69 | at most five rows, in the fixed order, the i-th line item shown exactly when its amount is positive; the total text is the formatted total whatever the rows |
| `App.ParseFloat` | App.tsx:39 | on a digit-only field, the parse is `NaN` exactly for the empty string |
| `App.ParseValue` | App.tsx:38-41 | `parseValue("")` is 0 (the `NaN` is coerced); on a non-empty digit string it is the decimal value of the digits; never negative |
| `App.ParseValueZeroIff` | App.tsx:38-41 | a field parses to 0 exactly when it is empty or consists of zeros only |
| `App.ParseValueAppendDigit` | App.tsx:38-41 | typing a digit after any field, the empty one included, multiplies its value by ten and adds the digit |
| `App.NoDigitParsesToZero` | App.tsx:38-41 | text with no digit in it, after the input filter, parses to 0 |
| `App.Fields.With` | App.tsx:32-36 | a setter changes its own field to the new value and no other field |
| `App.Total` | App.tsx:43-45 | the memoised total is the fold `Sum` over the five parsed fields |
| `App.TotalAnyOrder` | App.tsx:43-45 | the total equals the sum of `parseValue` over the five fields taken in any order |
| `App.ExampleTotal` | App.tsx:43-45 | rent "5000000" and water bill "200000" with the other fields empty total 5200000 |
| `App.InvoiceProps` | App.tsx:184-192 | the template receives the five parsed fields and the memoised total |
| `App.InvoiceRowsAddUpToTotal` | App.tsx:184-192 | on the rendered invoice the amounts of the shown rows add up to the total, and the total text is the formatted total |
| `App.RowShownIff` | App.tsx:185-189 | a field's invoice line is printed exactly when the field contains a digit other than '0' |
| `App.ReadEntry` | App.tsx:115-116 | an entry is read exactly when the storage key is present, and it is the stored object |
| `App.Restore` | App.tsx:116-127 | with no stored object the fields are unchanged; with one, a field takes the stored value exactly when that value is non-empty and keeps its own value otherwise |
| `App.RestoreRoundTrip` | App.tsx:131-139 | loading into the default form a snapshot the save effect wrote restores exactly the five saved values |
| `App.InvoiceForm.Mount` | App.tsx:10-36 | first render: empty fields, form view, and the debounce effect's first run pending one delay later |
| `App.InvoiceForm.Edit` | App.tsx:16-22 | a real change to a field while mounted sets that field alone, cancels the pending timer and schedules a new one 3000 ms after the change; an unchanged value or an unmounted form changes nothing; storage is untouched |
| `App.InvoiceForm.InputChange` | App.tsx:155-159 | a keystroke in a field's input sets the field to the filtered keystroke, so an edited field is digit-only |
| `App.InvoiceForm.Adopt` | App.tsx:119-123 | the five guarded setter calls for a parsed object leave the fields equal to `Restore` of the old fields with that object, and touch nothing else: timer, storage, view and clock are as before |
| `App.InvoiceForm.Load` | App.tsx:114-128 | the fields become `Restore` of the old fields; if any changed, the mount-time write is superseded by a timer restarted at load time |
| `App.InvoiceForm.Tick` | App.tsx:11-18 | a due timer fires exactly once and writes the current fields, which are the fields as of the last change, under `rental_invoice_form`; otherwise nothing changes |
| `App.InvoiceForm.Unmount` | App.tsx:20 | teardown cancels the pending timer, so no later write happens |
| `App.InvoiceForm.ProceedToReview` | App.tsx:51-54 | the view becomes the review |
| `App.InvoiceForm.GoBackToForm` | App.tsx:56-58 | the view becomes the form |
| `App.SaveThenReload` | App.tsx:114-140 | values typed into a new form, saved by the debounce and loaded into a freshly mounted form come back exactly |
| `App.DebouncedBurst` | App.tsx:16-22 | two quick edits produce no write when the first edit's delay ends and one write, of the last value, one delay after the second |
| `App.DebouncedEdits` | App.tsx:16-22 | on a mounted form, a burst of real changes of any length, the first before the pending timer is due and each later one within 3000 ms of the previous, writes nothing while it lasts although the pending timer is given its chance to fire before every change; one delay after the last change exactly one write is added, holding the fields after all the changes, under the storage key |
| `App.UnmountDropsPendingSave` | App.tsx:17-20 | an edit followed by teardown before its delay elapses is never written |
| `App.MountWithoutEntry` | App.tsx:114-140 | with no usable stored entry, the write scheduled on mount stores the empty fields |

## Left out

- Markup, CSS classes, icons and `window.scrollTo`: presentation with no stateable behaviour.
- `Intl.NumberFormat` and `toLocaleDateString`: locale services of the environment. The currency formatter and the input's number formatter are function parameters. The only property assumed of either is the hypothesis of `CurrencyInput.DisplayEmptyAfterInput`: the number formatter never returns empty text for a non-empty value, which holds of `Intl.NumberFormat`. The invoice date is not modelled.
- Image and PDF export with `isGenerating`: thin wrappers over html2canvas and jsPDF, which are not part of this model. The page-placement arithmetic is floating point.
- The real `localStorage`, `JSON.parse`/`JSON.stringify` and `setTimeout`: replaced by a map, an `Option` and a deadline advanced by `Tick`. A stored object's fields are taken to be strings. A truthy non-string field value, which the source would put into state, is not modelled.
- Storage read and write failures (quota, disabled storage): the source handles neither, since `getItem` sits outside the load's `try` and `setItem` has none; the model's storage never fails.
- App.ParseValue: defined only on empty or digit-only text, which is all the input handler produces. `parseFloat` on other text (decimals, exponents, leading-prefix parses, whitespace) is not modelled. Neither is float precision above 2^53: amounts are unbounded naturals.
- App.Total: needs all five fields digit-only, so it does not cover values restored from storage that are not digit strings. The load effect does not constrain those.
- App.InvoiceForm.Load: takes the already parsed entry. An unparsable entry and a non-object entry reach it as `None`, like an absent one, which matches the source's branches.
- React's rendering schedule is reduced to its effect on state. Setters inside the load effect are batched into one re-render. A setter given the current value does not re-render. Setters after unmount are ignored. The `callback.current` ref is reassigned on every render, so a firing timer writes the latest fields; the model writes the current fields directly.
- The text table in translations.ts: static strings, and no modelled file imports it.
