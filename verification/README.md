# Vendora core in Dafny

Vendora is a mobile bookkeeping app for market traders: orders with invoice
numbers, market events with their sales, expenses, a company profile, and a
printable HTML invoice. This project models its core and proves properties of
the model:

- the persistence layer (`lib/storage.ts`): the repositories that read a
  whole collection under one storage key, change it and write it back, the
  global invoice counter, and backup export and import;
- the invoice generator (`lib/invoiceTemplate.ts`): HTML escaping, euro
  amounts with a decimal comma, the item rows, and the document with its
  optional blocks;
- the date picker (`components/DateInput.tsx`): month lengths, month
  navigation, the Monday-first grid of day cells, and the `YYYY-MM-DD` text
  a picked day becomes;
- the new-order screen (`app/order/new.tsx`): the row editor, the running
  total, the two guards of the save, and the order handed to the store.

The modules:

| file | module | contents |
|---|---|---|
| `optional.dfy` | `Optional` | `Option` and `Result` |
| `digits.dfy` | `Digits` | decimal numerals as `String(n)` renders them, and their values |
| `jsstring.dfy` | `JsString` | `trim`, `padStart` and `parseInt(s, 10)` |
| `collections.dfy` | `Collections` | `findIndex` and `filter` by a string key |
| `storage.dfy` | `Storage` | the records, the class `Store` holding the seven storage keys, invoice numbers, backups |
| `invoice.dfy` | `InvoiceTemplate` | escaping with a reference decoder, `formatEur` with a reader, item rows with a row parser, the document |
| `calendar.dfy` | `Calendar` | the calendar rules, ISO date text with a parser, the class `DatePicker` |
| `new_order.dfy` | `NewOrder` | the item drafts, the guards, the class `NewOrderForm` |

Conventions used throughout:

- Money is an integer number of cents.
- The key-value store is the class `Store`. Each key is an `Option` field, and `None` is an absent key.
- Each repository method reads a field, builds the new value and assigns it, as the source does with `getAll`, `unshift`/`filter` and `saveAll`.
- Clocks, generated ids, the current year, the weekday of the first of a month, today's date, the time zone offset and the currency parser `parseAmount` are parameters.

Two facts about the code that shape the model:

- Quantities may be negative: `parseInt(value, 10) || 1` (`app/order/new.tsx:55`) keeps any non-zero number, so `QuantityFromText` promises only a non-zero quantity.
- Import restores seven sections, the invoice counter included (`lib/storage.ts:262`).

## Model

| member | source | states |
|---|---|---|
| `JsString.TrimStartShape` | app/order/new.tsx:55 | `parseInt` (and `trim`, line 68) drop exactly a blank prefix; what remains does not start with white space |
| `JsString.TrimEndShape` | app/order/new.tsx:79 | `trim` drops exactly a blank suffix; what remains does not end with white space |
| `JsString.Trim` | app/order/new.tsx:68 | `String.prototype.trim`; specified by `TrimEmptyIffBlank` (empty exactly for blank text) and `TrimShape` (no white space at either end, idempotent) |
| `JsString.TrimEmptyIffBlank` | app/order/new.tsx:68 | `!s.trim()` holds exactly when every character of `s` is white space |
| `JsString.TrimShape` | app/order/new.tsx:85-90 | a trimmed field neither starts nor ends with white space, and trimming is idempotent |
| `JsString.PadStart` | lib/storage.ts:97 | `padStart` never truncates, keeps the text as a suffix and fills only on the left |
| `JsString.ZeroPaddedValue` | lib/storage.ts:97 | zero padding a numeral keeps it a numeral of the same value |
| `JsString.TwoDigits` | components/DateInput.tsx:47-48 | the two-digit month or day field is two digits that read back as the number |
| `JsString.TwoDigitsPadded` | components/DateInput.tsx:47-48 | that field is `String(n).padStart(2, "0")` |
| `JsString.ParseInt` | app/order/new.tsx:55 | `parseInt(s, 10)`: leading white space, an optional sign, then the longest digit run, `None` for `NaN`; specified by `ParseIntDecimal` (reads back `String(i)`) |
| `JsString.ParseIntDecimal` | app/order/new.tsx:55 | `parseInt(String(i), 10)` gives back `i`, negative ones included, over unbounded integers |
| `Digits.NatToDecimal` | lib/storage.ts:95 | `toString` gives at least one digit, no leading zero, and one digit exactly below 10 |
| `Digits.NatToDecimalValue` | lib/storage.ts:95 | reading the numeral back gives the number |
| `Collections.IndexOfKey` | lib/storage.ts:123 | `findIndex` gives the first position with the key, and -1 exactly when no element has it |
| `Collections.WithoutKey` | lib/storage.ts:134 | `filter((x) => x.id !== id)`: never longer; specified by `WithoutKeyContents` and `WithoutKeyConcat` |
| `Collections.WithoutKeyContents` | lib/storage.ts:134 | delete keeps exactly the records with another id, and changes nothing when the id is absent |
| `Collections.WithoutKeyConcat` | lib/storage.ts:134 | filtering keeps relative order |
| `Collections.WithKey` | lib/storage.ts:170 | `filter((s) => s.marketId === marketId)`: never longer; specified by `WithKeyContents` and `FiltersPartition` |
| `Collections.WithKeyContents` | lib/storage.ts:170 | `getByMarket` keeps exactly the sales of that market |
| `Collections.FiltersPartition` | lib/storage.ts:168-171 | the sales of a market and the rest split the collection: the multisets add up to the whole |
| `Storage.ItemsTotal` | lib/storage.ts:106 | the `reduce` over price × quantity from 0, left to right; specified by `ItemsTotalConcat` and `ItemsTotalFirst` |
| `Storage.ItemsTotalConcat` | lib/storage.ts:106 | the `reduce` total of a concatenation is the sum of the totals |
| `Storage.ItemsTotalFirst` | lib/storage.ts:106 | the total is the first line total plus the total of the rest |
| `Storage.CreatedOrder` | lib/storage.ts:103-116 | the new order keeps the input fields, gets the id, number and timestamps given, falls back to `now` for an empty date, and its total matches its items |
| `Storage.ApplyOrderChanges` | lib/storage.ts:125-128 | each mentioned field overrides, the rest stay; supplied items recompute the total; `updatedAt` is always stamped |
| `Storage.StatusChangeOnly` | lib/storage.ts:128 | a status update changes the status and the stamp and nothing else |
| `Storage.ChangesKeepTotalConsistent` | lib/storage.ts:125-128 | an update keeps the total consistent unless it sets a total without items |
| `Storage.CreatedMarket` | lib/storage.ts:141-147 | the new market event keeps the input fields and gets the id and time given |
| `Storage.ApplyMarketChanges` | lib/storage.ts:156 | each mentioned field overrides, the rest stay, and no stamp is added |
| `Storage.CreatedSale` | lib/storage.ts:172-178 | the new sale keeps the input fields and gets the id and time given |
| `Storage.DatePart` | lib/storage.ts:198 | `now.split("T")[0]` is the longest prefix of `now` without a `T` |
| `Storage.CreatedExpense` | lib/storage.ts:192-200 | the expense date is the given one, else the legacy date, else the date part of `now` |
| `Storage.YearSuffix` | lib/storage.ts:96 | `slice(-2)` of the year gives one or two digits whose value is the year modulo 100 |
| `Storage.CounterText` | lib/storage.ts:97 | the counter field has at least three digits, reads back as the counter, and ends with its numeral |
| `Storage.InvoiceNumber` | lib/storage.ts:91-97 | `${year}-${counter}`; specified by `YearSuffix`, `CounterText` and `InvoiceNumberInjective` (no number repeats for another counter) |
| `Storage.InvoiceNumberInjective` | lib/storage.ts:91-97 | two invoice numbers are equal only when their year prefixes and their counters are |
| `Storage.Exported` | lib/storage.ts:233-251 | every section of the store as present, with the raw counter; specified by `ExportImportRoundTrip` |
| `Storage.Imported` | lib/storage.ts:253-263 | each present section replaces the stored one, absent ones keep it; specified by `ImportedView` and `ExportImportRoundTrip` |
| `Storage.ImportedView` | lib/storage.ts:253-263 | writing the sections of a backup into the keys yields the store view `Imported` describes |
| `Storage.ExportImportRoundTrip` | lib/storage.ts:233-263 | importing an export restores every collection, the profile and the settings; the counter too when one was set |
| `Storage.Store.constructor` | lib/storage.ts:3-11 | a store with none of the seven keys set, observed as all empty with default profile and settings |
| `Storage.Store.Orders` | lib/storage.ts:82-85 | an absent key reads as the empty collection |
| `Storage.Store.Markets` | lib/storage.ts:139 | an absent key reads as the empty collection |
| `Storage.Store.Sales` | lib/storage.ts:167 | an absent key reads as the empty collection |
| `Storage.Store.Expenses` | lib/storage.ts:190 | an absent key reads as the empty collection |
| `Storage.Store.Profile` | lib/storage.ts:212-217 | an absent key reads as the all-empty profile |
| `Storage.Store.Settings` | lib/storage.ts:224-227 | an absent key reads as system theme and the euro sign |
| `Storage.Store.Keys` | lib/storage.ts:3-11 | the raw keys are observed as the store's view |
| `Storage.Store.GetNextInvoiceNumber` | lib/storage.ts:91-98 | the counter (0 when absent) moves to c + 1, and the number for c + 1 is returned |
| `Storage.ConsecutiveInvoiceNumbers` | lib/storage.ts:91-98 | two invoice numbers taken in a row differ, and the counter moves by two |
| `Storage.Store.SaveOrders` | lib/storage.ts:102 | the orders key holds the given collection |
| `Storage.Store.AddOrder` | lib/storage.ts:103-120 | the created order with the next invoice number is prepended, and consistent totals stay consistent |
| `Storage.Store.UpdateOrder` | lib/storage.ts:121-131 | no order with the id: nothing written and `null`; otherwise exactly the first match is replaced by its merge, which is returned |
| `Storage.Store.DeleteOrder` | lib/storage.ts:132-135 | the orders without that id are written back, and consistent totals stay consistent |
| `Storage.Store.SaveMarkets` | lib/storage.ts:140 | the markets key holds the given collection |
| `Storage.Store.AddMarket` | lib/storage.ts:141-151 | the created market event is prepended |
| `Storage.Store.UpdateMarket` | lib/storage.ts:152-159 | no match: nothing written and `null`; otherwise the first match is merged in place and returned |
| `Storage.Store.DeleteMarket` | lib/storage.ts:160-163 | the market events without that id are written back |
| `Storage.Store.GetByMarket` | lib/storage.ts:168-171 | the sales of that market, in stored order, with the store unchanged |
| `Storage.Store.AddSale` | lib/storage.ts:172-182 | the created sale is prepended |
| `Storage.Store.DeleteSale` | lib/storage.ts:183-186 | the sales without that id are written back |
| `Storage.Store.SaveExpenses` | lib/storage.ts:191 | the expenses key holds the given collection |
| `Storage.Store.AddExpense` | lib/storage.ts:192-204 | the created expense is prepended |
| `Storage.Store.DeleteExpense` | lib/storage.ts:205-208 | the expenses without that id are written back |
| `Storage.Store.SaveProfile` | lib/storage.ts:218-220 | the profile key holds the given profile |
| `Storage.Store.SaveSettings` | lib/storage.ts:228-230 | the settings key holds the given settings |
| `Storage.Store.ExportAllData` | lib/storage.ts:233-251 | version 1, the given export date, and every collection, singleton and the raw counter as observed |
| `Storage.Store.ImportAllData` | lib/storage.ts:253-263 | exactly the sections the backup holds overwrite their keys; the version is not checked |
| `Storage.Store.ClearAllData` | lib/storage.ts:265-267 | all seven keys are removed and the store reads as empty |
| `InvoiceTemplate.EscapeHtml` | lib/invoiceTemplate.ts:4-11 | the five global replacements in source order; specified by `EscapeHtmlPerChar` (equal to escaping each character) and `EscapeHtmlRoundTrip` (decoding inverts it) |
| `InvoiceTemplate.EscapeHtmlConcat` | lib/invoiceTemplate.ts:4-11 | escaping distributes over concatenation |
| `InvoiceTemplate.EscapeHtmlChar` | lib/invoiceTemplate.ts:4-11 | on one character the replacement chain gives that character's entity; no entity is escaped twice |
| `InvoiceTemplate.EscapeHtmlPerChar` | lib/invoiceTemplate.ts:4-11 | the chain of five replacements equals escaping each character on its own |
| `InvoiceTemplate.EscapeHtmlIdentity` | lib/invoiceTemplate.ts:4-11 | text without `& < > "` and newlines is unchanged |
| `InvoiceTemplate.EscapeHtmlShape` | lib/invoiceTemplate.ts:4-11 | escaped text has no `"` and no newline, every `<` or `>` belongs to a `<br/>`, and it is never shorter |
| `InvoiceTemplate.UnescapeAfterEscape` | lib/invoiceTemplate.ts:4-11 | decoding escaped text gives the original back, whatever follows it |
| `InvoiceTemplate.EscapeHtmlRoundTrip` | lib/invoiceTemplate.ts:4-11 | escaping loses nothing: decoding recovers the text, and distinct texts escape differently |
| `InvoiceTemplate.FormatEur` | lib/invoiceTemplate.ts:13-15 | two decimals with a comma and ` €`, a minus sign for negatives; specified by `FormatEurRoundTrip` (reads back as the same cents) and `FormatEurNoAngle` |
| `InvoiceTemplate.FormatEurRoundTrip` | lib/invoiceTemplate.ts:13-15 | a formatted amount reads back as exactly the same number of cents, sign included |
| `InvoiceTemplate.FormatEurNoAngle` | lib/invoiceTemplate.ts:13-15 | a formatted amount holds no markup |
| `InvoiceTemplate.NameCellRead` | lib/invoiceTemplate.ts:33 | the escaped name cell reads back up to its closing tag |
| `InvoiceTemplate.NumberCellsRead` | lib/invoiceTemplate.ts:34-37 | the quantity, unit price and line total cells read back as those numbers |
| `InvoiceTemplate.ParseItemRow` | lib/invoiceTemplate.ts:31-37 | a rendered row reads back as the item's name, quantity, unit price and price × quantity |
| `InvoiceTemplate.ItemRows` | lib/invoiceTemplate.ts:29-39 | the rows joined without separator; specified by `ItemRowsRoundTrip` (they parse back as one row per item, in order) |
| `InvoiceTemplate.ItemRowsRoundTrip` | lib/invoiceTemplate.ts:29-39 | the joined rows read back as exactly one row per item, in order |
| `InvoiceTemplate.InvoiceDate` | lib/invoiceTemplate.ts:22 | the order date when set, else the creation time |
| `InvoiceTemplate.ThankYouText` | lib/invoiceTemplate.ts:41 | the translation when non-empty, else the German default; never empty |
| `InvoiceTemplate.CompanyHeading` | lib/invoiceTemplate.ts:218 | the heading is present exactly when the company name is set |
| `InvoiceTemplate.CompanyAddress` | lib/invoiceTemplate.ts:220 | the address fragment is present exactly when the address is set |
| `InvoiceTemplate.CompanyEmail` | lib/invoiceTemplate.ts:221 | the email fragment is present exactly when the email is set |
| `InvoiceTemplate.CompanyPhone` | lib/invoiceTemplate.ts:222 | the phone fragment is present exactly when the phone is set |
| `InvoiceTemplate.TaxNoteBlock` | lib/invoiceTemplate.ts:267 | the tax note block is present exactly when the tax note is set |
| `InvoiceTemplate.RecipientAddress` | lib/invoiceTemplate.ts:239 | the customer address fragment is present exactly when the address is set |
| `InvoiceTemplate.RecipientEmail` | lib/invoiceTemplate.ts:240 | the customer email fragment is present exactly when the email is set |
| `InvoiceTemplate.CompanyAddressReadBack` | lib/invoiceTemplate.ts:220 | read as text, the fragment is the address followed by a line break |
| `InvoiceTemplate.CompanyEmailReadBack` | lib/invoiceTemplate.ts:221 | read as text, the fragment is `E-Mail: ` and the email |
| `InvoiceTemplate.CompanyPhoneReadBack` | lib/invoiceTemplate.ts:222 | read as text, the fragment is a line break and the phone |
| `InvoiceTemplate.RecipientFragmentsReadBack` | lib/invoiceTemplate.ts:239-240 | read as text, the address shows as is, and the email starts a new line exactly when an address precedes it |
| `InvoiceTemplate.HeaderContents` | lib/invoiceTemplate.ts:216-232 | the header holds the company heading, the invoice number and the date |
| `InvoiceTemplate.TableContents` | lib/invoiceTemplate.ts:245-262 | the table holds the item rows and the total |
| `InvoiceTemplate.FooterContents` | lib/invoiceTemplate.ts:266-269 | the footer holds the tax note block and the closing line |
| `InvoiceTemplate.RenderFront` | lib/invoiceTemplate.ts:216-243 | the document shows the escaped company name when set, the invoice number, the date and the customer name |
| `InvoiceTemplate.RenderBack` | lib/invoiceTemplate.ts:245-269 | the document shows the item rows, the formatted total, the tax note when set and the closing line |
| `InvoiceTemplate.RenderContents` | lib/invoiceTemplate.ts:43-272 | both of the above, for any layout text between the interpolations |
| `InvoiceTemplate.GenerateInvoiceHtml` | lib/invoiceTemplate.ts:17-272 | the document for an order and profile; specified by `RenderContents` and `InvoiceShowsItemsAndTotal` |
| `InvoiceTemplate.InvoiceShowsItemsAndTotal` | lib/invoiceTemplate.ts:17-39 | the generated invoice holds one readable row per item and the order total |
| `Calendar.IsLeapYear` | components/DateInput.tsx:22-24 | the Gregorian rule; specified by `LeapYearPeriod`, `DaysInMonth` and `YearLength` |
| `Calendar.LeapYearPeriod` | components/DateInput.tsx:22-24 | the leap-year rule repeats every 400 years |
| `Calendar.DaysInMonth` | components/DateInput.tsx:26-29 | 28 to 31 days; 29 exactly for February of a leap year; the table otherwise |
| `Calendar.YearLength` | components/DateInput.tsx:20-29 | the months add up to 366 days in a leap year and 365 otherwise |
| `Calendar.ConstructedDate` | components/DateInput.tsx:96 | `new Date(y, m, d)` is a valid date; it is that day when the month has it, with years 0 to 99 read as 1900 to 1999 |
| `Calendar.PrevDay` | components/DateInput.tsx:62 | the day before is valid: the previous day of the month, or the last day of the month before |
| `Calendar.ParseISODate` | components/DateInput.tsx:58-62 | whatever the text, what it reads is a valid date |
| `Calendar.IsoTextRead` | components/DateInput.tsx:45-50 | fields of the right widths read back one by one |
| `Calendar.FourDigitYear` | components/DateInput.tsx:46 | a year from 1000 to 9999 renders as four digits reading back as the year |
| `Calendar.ToISODate` | components/DateInput.tsx:45-50 | `YYYY-MM-DD` with a 1-based month; specified by `ISODateRoundTrip` (`ParseISODate` reads it back) |
| `Calendar.ISODateRoundTrip` | components/DateInput.tsx:45-50 | `toISODate` of a valid date with a four-digit year reads back as that date |
| `Calendar.MonthAfter` | components/DateInput.tsx:86-93 | the month stays in 0 to 11 and the month count goes up by one |
| `Calendar.MonthBefore` | components/DateInput.tsx:77-84 | the month stays in 0 to 11 and the month count goes down by one |
| `Calendar.MonthBeforeAfter` | components/DateInput.tsx:77-93 | next then previous, and previous then next, return to the same month |
| `Calendar.StartOffset` | components/DateInput.tsx:102-103 | 0 to 6 empty cells: the weekday shifted to a Monday-first week |
| `Calendar.DayColumn` | components/DateInput.tsx:101-107 | each day's cell falls in the column of the weekday that day falls on |
| `Calendar.DayCells` | components/DateInput.tsx:105-107 | `startOffset` empty cells, then the days 1 to `daysInMonth` in order |
| `Calendar.IsSelected` | components/DateInput.tsx:109-116 | year, month and day of the value's date match the cell; specified by `SelectedDayUnique`, `WestOfUtcMissesSelection` and `SelectDayReadsBack` |
| `Calendar.DatePicker.MonthGrid` | components/DateInput.tsx:101-107 | the grid of the month on view: `startOffset` empty cells, then each of its days in order, every day in the column of its weekday |
| `Calendar.SelectedDayUnique` | components/DateInput.tsx:109-116 | at most one day of the month on view is selected |
| `Calendar.StartDate` | components/DateInput.tsx:58-60 | the value's date when it reads, else today; always a valid date |
| `Calendar.ValueDateAsWritten` | components/DateInput.tsx:62 | `new Date(value)` of a date-only value: that day east of UTC, the day before west of it |
| `Calendar.WestOfUtcMissesSelection` | components/DateInput.tsx:109-116 | west of UTC, a picked day is never shown as selected |
| `Calendar.FirstOfMarchReadsAsFebruary` | components/DateInput.tsx:95-116 | picking 1 March 2024 five hours west of UTC reads back as 29 February |
| `Calendar.SelectDayReadsBack` | components/DateInput.tsx:95-116 | read field by field, a picked day is the selected day and the picker reopens on its month |
| `Calendar.DatePicker.constructor` | components/DateInput.tsx:56-60 | closed, on the month of the value's date or today's |
| `Calendar.DatePicker.OpenPicker` | components/DateInput.tsx:64-75 | open, back on the month of the value's date or today's |
| `Calendar.DatePicker.PrevMonth` | components/DateInput.tsx:77-84 | the view moves one month back, wrapping January to December of the year before |
| `Calendar.DatePicker.NextMonth` | components/DateInput.tsx:86-93 | the view moves one month forward, wrapping December to January of the next year |
| `Calendar.DatePicker.SelectDay` | components/DateInput.tsx:95-99 | the picker closes and hands on the ISO text of that day of the month on view |
| `Calendar.DatePicker.PickToday` | components/DateInput.tsx:205-209 | the picker closes and hands on today's ISO text |
| `NewOrder.QuantityFromText` | app/order/new.tsx:55 | never 0: the parsed number when non-zero, else 1 |
| `NewOrder.QuantityReadsBack` | app/order/new.tsx:55 | typing a non-zero number stores exactly that quantity |
| `NewOrder.UpdatedItem` | app/order/new.tsx:50-60 | only the named field changes, the id never does, and an unknown field name changes nothing |
| `NewOrder.RemoveAt` | app/order/new.tsx:64 | the row at the index goes and the others keep their order; an index off the list drops nothing |
| `NewOrder.SomeNameBlank` | app/order/new.tsx:72 | `items.some((i) => !i.name.trim())`; specified by `SomeNameBlankMeaning` |
| `NewOrder.SomeNameBlankMeaning` | app/order/new.tsx:72 | `some` holds exactly when a row's name trims to nothing |
| `NewOrder.Validate` | app/order/new.tsx:67-75 | the two guards in source order; specified by `ValidateMeaning` |
| `NewOrder.ValidateMeaning` | app/order/new.tsx:67-75 | a blank customer name is refused first, then any blank item name; saving goes ahead exactly when neither is blank |
| `NewOrder.ParsedItems` | app/order/new.tsx:77-82 | one stored item per row, in order: trimmed name, same quantity, parsed price |
| `NewOrder.PreviewTotal` | app/order/new.tsx:98 | the running total under the rows; specified by `PreviewIsSavedTotal` (it is the saved order's total) |
| `NewOrder.PreviewIsSavedTotal` | app/order/new.tsx:98 | the total shown under the rows is the total the saved order gets |
| `NewOrder.SavedInput` | app/order/new.tsx:84-92 | the input handed to the store: trimmed text fields, status open, the date as is, the parsed rows; specified by `SavedOrderShape` |
| `NewOrder.SavedOrderShape` | app/order/new.tsx:67-92 | an order saved past both guards has a non-empty customer name, status open, one item per row with a non-empty name and its quantity, and the total shown |
| `NewOrder.NewOrderForm.constructor` | app/order/new.tsx:34-41 | empty fields, today's ISO date, and one blank row with id "1" |
| `NewOrder.NewOrderForm.AddItem` | app/order/new.tsx:43-48 | a blank row is appended and the others are untouched |
| `NewOrder.NewOrderForm.UpdateItem` | app/order/new.tsx:50-60 | only the row at the index changes, and only in the named field |
| `NewOrder.NewOrderForm.RemoveItem` | app/order/new.tsx:62-65 | nothing happens while one row is left; otherwise that row goes; at least one row always remains |
| `NewOrder.NewOrderForm.SaveOrder` | app/order/new.tsx:67-96 | a guard failure is reported with the store untouched; otherwise the order built from the trimmed fields and parsed rows is prepended with the next invoice number |

## Left out

- Storage I/O: `AsyncStorage`, JSON text and `async` sequencing are not modelled. Each operation is one atomic step on the `Store` object, and the interleavings of concurrent calls are not modelled.
- Values read back as JSON of the wrong shape are not modelled.
- Export: the pretty-printed JSON text of a backup is not modelled. `ExportAllData` gives the envelope as a value.
- The invoice counter is stored as a number. A stored counter text that `parseInt` cannot read (`NaN`) is not modelled, and neither is an empty counter text, which the source treats like an absent key.
- `generateId` and `Date.now()` / `new Date().toISOString()` / `getFullYear()` use the clock and randomness. They are parameters (`id`, `now`, `year`), so the model does not show that ids are unique.
- `JsString.ParseIntDecimal`, `NewOrder.QuantityReadsBack`, `Digits.NatToDecimal`, `Storage.CounterText`: quantities and the invoice counter are unbounded integers, while JavaScript numbers are doubles. Rounding above 2^53 in `parseInt` and the exponent notation `String` uses from 1e21 up are not modelled.
- Amounts are integer cents, not JavaScript floats, so `toFixed(2)` rounding is not modelled. `formatCurrency.ts` / `parseAmount` is not part of this model: it is the parameter `parseAmount`.
- `InvoiceTemplate.GenerateInvoiceHtml`: the stylesheet text between `<style>` and `</style>` is left out of `InvoiceMarkup`. The de-DE `toLocaleDateString` of the invoice date is the parameter `localDate`.
- The translation tables (`lib/i18n`) are not part of this model. Labels are a record of strings.
- `formatDisplayDate`, the German month names and the weekday header of the picker are display text only.
- `isToday` is `IsSelected` applied to the clock's date, so it has no member of its own.
- The weekday of the first of a month (`getDay`) and today's date are parameters.
- `Calendar.StartDate`, `Calendar.DatePicker.constructor`, `Calendar.DatePicker.OpenPicker`: a value that is not a date-only `YYYY-MM-DD` text is treated as absent. Full timestamps such as `createdAt`, which `new Date(value)` would accept, are not read.
- `Calendar.StartDate`, `Calendar.DatePicker.constructor`, `Calendar.DatePicker.OpenPicker` read the value field by field (the corrected reading of the finding below), not through `new Date(value)` and the local getters. West of UTC the source starts from the day before (`Calendar.ValueDateAsWritten`), so for a value on the 1st of a month it opens on the previous month where the model opens on the value's own month.
- `Calendar.ISODateRoundTrip`, `Calendar.SelectDayReadsBack`: the read-back is proved for years 1000 to 9999, since `toISODate` writes other years with fewer or more than four digits.
- The text setters bound to the input fields (`setCustomerName` and the like), the modal, haptics, navigation and styling are not modelled.
- The other screens and components are outside the core.

## Findings

| source | as written | input that shows it | evidently intended | confidence | as-written member | corrected member |
|---|---|---|---|---|---|---|
| components/DateInput.tsx:62 | `new Date(value)` reads the picked `YYYY-MM-DD` as midnight UTC, and `getFullYear`/`getMonth`/`getDate` then give the local calendar day of that instant, which west of UTC is the day before | value `2024-03-01` (1 March picked) with the device at UTC−5: the value's date is 29 February, so day 1 of March is not highlighted and the picker reopens on February | the picked day is the selected day and the picker reopens on its month | not executed | `Calendar.FirstOfMarchReadsAsFebruary` | `Calendar.SelectDayReadsBack` |
