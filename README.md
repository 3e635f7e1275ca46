# Sales dashboard rules, in Dafny

A model of the decision logic inside a Next.js sales and inventory
dashboard (a front end over a Strapi content API), with proofs about it.
The dashboard itself is mostly React markup; what is modelled here is the
rules its components run:

- **Period windows** (`Calendar`, `DateRanges`): the daily, weekly, monthly
  and last-month windows that the reports page and the summary cards build
  by moving JavaScript `Date` objects with `setHours`/`setDate`. A date is
  (year, month 0..11, day, milliseconds of the day); `new Date(y, m, d)`
  rolls months and days over as JavaScript does for four-digit years, and the window
  methods mutate `JsDate` objects step by step and are proved equal to
  calendar specifications (the weekly window spans eight calendar days, the
  monthly one ends on the month's last day, last month ends 1 ms before this
  month begins).
- **Revenue** (`Sales`, `SectionCards`, `SalesChart`, `JsNumber`): a sale's
  total is subtotal + tax − discount; the page statistics, the four summary
  cards with their growth badge, and the twelve-bar revenue chart whose
  month buckets are filled by a loop over the sales and whose bars are
  built oldest first; the highlighted bar is the hovered one or the first
  highest one.
- **Queries** (`SearchParams`, `SalesPage`, `ProductsPage`, `ReportsPage`):
  `URLSearchParams` as a class whose `set` replaces or appends, and the list
  pages' query builders, proved to carry each column filter exactly when it
  is non-empty.
- **Table pages** (`Pagination`): the page, page size, filters, rows and
  dialog state the three list pages share, the clamped navigation buttons
  and the "Showing a to b of n rows" line.
- **Exports** (`ReportsPage`, `Invoice`): the CSV export (nine columns, no
  quoting: it reads back only when no field holds a comma or a newline),
  the invoice preview with its item table, placeholder row and notes block,
  and the PDF page loop.
- **Forms** (`SaleForm`, `ProductForm`, `RegisterForm`, `ColumnFilter`): the
  invoice line-item editor with its subtotal, validation and payload; the
  product dialog with its schema, image upload state and payload; the
  registration form with its schema, per-field error map and redirect; the
  column filter popover.
- **Plumbing rules** (`ApiError`, `Proxy`, `ProductCells`): the error-message
  cascade, the route guard that redirects to the login page, and the
  product table's cell fallbacks.

Money is an exact `real`; `Math.round` and `toFixed(1)` are written out on
it. Locale number and date formatting (`toLocaleString`,
`toLocaleDateString` with a locale other than the month names), the e-mail
validator and the session-token lookup are parameters. HTTP calls are not
modelled: each response is an argument of the method that handles it.

`Text` holds the integer/string conversions, padding and splitting the
rules need, with their round trips; `Wrappers` holds `Option`; `Catalog`
holds the product, category and image records.

## Model

| member | source | states |
|---|---|---|
| ApiError.HandleApiError | nextjs-frontend/app/lib/handleApiError.ts:17-49 | the cascade: a falsy value gives the default ("Something went wrong" unless one is passed); an HTTP client error gives the server's non-empty `error.message`, else its own message; any other Error its message; a plain object its non-empty `error.message`, else the default |
| ApiError.EmptyOnlyFromEmptyErrorMessage | nextjs-frontend/app/lib/handleApiError.ts:21-48 | with a non-empty default, an empty text can only come from an error object whose own message is empty (and, for an HTTP error, whose server message is empty too) |
| ApiError.ServerMessageWins | nextjs-frontend/app/lib/handleApiError.ts:27-29 | a non-empty server message is returned whatever the client's own message and the default are |
| Proxy.Decide | nextjs-frontend/proxy.ts:5-26 | a request is redirected iff its path starts with "/dashboard" or "/api/protected" and it has no token; the redirect goes to "/login" with `callbackUrl` set to the original path and no other parameter |
| Proxy.IsProtected | nextjs-frontend/proxy.ts:14-15 | every path under "/dashboard/" or "/api/protected/" is protected, and an empty path or one not starting with "/" is not |
| Proxy.UnprotectedPassesThrough | nextjs-frontend/proxy.ts:14-25 | a path outside the two protected prefixes always passes through, token or not |
| Proxy.TokenPassesThrough | nextjs-frontend/proxy.ts:18-25 | a request with a token always passes through |
| Proxy.PrefixAlsoMatchesDashboardX | nextjs-frontend/proxy.ts:14-15 | the test is a plain prefix test, so "/dashboardX" is protected and redirected without a token |
| ColumnFilter.Filter.constructor | nextjs-frontend/components/column-filter.tsx:26-27 | the draft starts as the parent's filter and the popover closed |
| ColumnFilter.Filter.Shown | nextjs-frontend/components/column-filter.tsx:49-82 | the clear button is shown iff the filter is non-empty; otherwise the popover, with its open flag |
| ColumnFilter.Filter.ValueChanged | nextjs-frontend/components/column-filter.tsx:20-27 | a new filter from the parent does not reset the draft or the open flag |
| ColumnFilter.Filter.Apply | nextjs-frontend/components/column-filter.tsx:29-32 | "Apply" reports the current draft and closes the popover; nothing else changes |
| ColumnFilter.Filter.Clear | nextjs-frontend/components/column-filter.tsx:34-37 | clearing empties the draft and reports ""; the open flag is untouched |
| ColumnFilter.Filter.OpenChange | nextjs-frontend/components/column-filter.tsx:39-44 | the open flag follows the popover; opening re-reads the draft from the filter, closing keeps it |
| ColumnFilter.Filter.Type | nextjs-frontend/components/column-filter.tsx:69 | typing changes only the draft and reports nothing |
| ColumnFilter.Filter.KeyDown | nextjs-frontend/components/column-filter.tsx:70-74 | Enter behaves exactly like "Apply"; any other key changes nothing and reports nothing |
| ColumnFilter.Filter.ApplyAndStore | nextjs-frontend/components/column-filter.tsx:29-58 | once the parent stores an applied non-empty draft, the popover gives way to the clear button; an empty draft leaves a closed popover |
| ProductCells.ImageUrl | nextjs-frontend/app/dashboard/products/features/columns.tsx:67-71 | no image gives no URL; otherwise the first image's non-empty thumbnail URL, else its own non-empty URL, else none; a URL it yields is never empty |
| ProductCells.ImageSrc | nextjs-frontend/app/dashboard/products/features/columns.tsx:75 | the `src` starts with "http://localhost:1337" and the rest of it is exactly the URL |
| ProductCells.AltText | nextjs-frontend/app/dashboard/products/features/columns.tsx:76 | the first image's non-empty alternative text, else the product name |
| ProductCells.PriceCell | nextjs-frontend/app/dashboard/products/features/columns.tsx:116-122 | the cell reads "N/A" iff the price is 0; any other price reads "₹" followed by its formatted amount |
| ProductCells.StockClass | nextjs-frontend/app/dashboard/products/features/columns.tsx:129-135 | the stock is styled as in stock iff it is greater than 0 |
| ProductCells.BarcodeCell | nextjs-frontend/app/dashboard/products/features/columns.tsx:142-145 | a non-empty barcode is shown as is; a missing or empty one reads "N/A" |
| ProductCells.CategoryCell | nextjs-frontend/app/dashboard/products/features/columns.tsx:104-111 | the category's name, or "N/A" without a category |
| ProductCells.Describe | nextjs-frontend/app/dashboard/products/features/columns.tsx:157-173 | an empty description reads "N/A"; one of up to 80 characters is shown whole; a longer one shows its first 80 characters and "..." with the full text as the title |
| ProductCells.DescriptionRecoverable | nextjs-frontend/app/dashboard/products/features/columns.tsx:159-172 | nothing is lost: a non-empty description is always the cell's title or its text, and the text is at most 83 characters |
| ProductForm.SchemaIssues | nextjs-frontend/app/dashboard/products/features/new.tsx:35-42 | the schema's issue list is empty iff the values pass (a name, a price of at least 0, a whole stock of at least 0), and a rule is listed iff it fails |
| ProductForm.ValuesOf | nextjs-frontend/app/dashboard/products/features/new.tsx:111-118 | editing fills the form from the product: name, description, price and stock copied, a missing barcode as "", the category's document id only when it is non-empty |
| ProductForm.StoredProductRevalidates | nextjs-frontend/app/dashboard/products/features/new.tsx:35-42 | a stored product with a name and non-negative price and stock passes the schema again once loaded into the form |
| ProductForm.PercentInRange | nextjs-frontend/app/dashboard/products/features/new.tsx:156-160 | the upload percentage `Math.round(loaded * 100 / total)` stays within 0..100 while the bytes sent stay within the total, and is 100 once all are sent |
| ProductForm.PayloadOf | nextjs-frontend/app/dashboard/products/features/new.tsx:181-189 | the payload copies name, description, price and stock; an empty barcode is sent as null, an empty category is left out, and the image is the current image id |
| ProductForm.RequestFor | nextjs-frontend/app/dashboard/products/features/new.tsx:191-199 | an item with a non-zero id is updated at "/api/products/" + its document id; anything else is created; the body is the payload either way |
| ProductForm.SaveMessage | nextjs-frontend/app/dashboard/products/features/new.tsx:195-204 | the toast after saving: "Product updated successfully", "Product created successfully" or "Failed to save product" |
| ProductForm.Form.constructor | nextjs-frontend/app/dashboard/products/features/new.tsx:77-94 | the dialog starts from the default values, with no preview, no image id, nothing loading or uploading and progress 0 |
| ProductForm.Form.Sync | nextjs-frontend/app/dashboard/products/features/new.tsx:108-140 | a closed dialog changes nothing; opening resets from the product (preview and id from its first image, or none) or to the defaults with no image; a preview is shown exactly when there is an image id |
| ProductForm.Form.Edit | nextjs-frontend/app/dashboard/products/features/new.tsx:217-330 | typing changes the values only |
| ProductForm.Form.StartUpload | nextjs-frontend/app/dashboard/products/features/new.tsx:142-150 | a chosen file starts an upload at progress 0; no file changes nothing |
| ProductForm.Form.UploadProgress | nextjs-frontend/app/dashboard/products/features/new.tsx:155-162 | a progress event with a known total sets the rounded percentage; one without a total changes nothing |
| ProductForm.Form.UploadSucceeded | nextjs-frontend/app/dashboard/products/features/new.tsx:165-173 | the uploaded file becomes both the preview and the image id, and the upload ends |
| ProductForm.Form.UploadFailed | nextjs-frontend/app/dashboard/products/features/new.tsx:169-173 | a failed upload ends the upload and keeps the previous image |
| ProductForm.Form.RemoveImage | nextjs-frontend/app/dashboard/products/features/new.tsx:345-350 | removing the preview clears the preview and the image id together |
| ProductForm.Form.Submit | nextjs-frontend/app/dashboard/products/features/new.tsx:177-199 | the disabled button ignores a submit while saving or uploading; invalid values give the schema's issues; valid ones send the one create or update request for the payload and start loading |
| ProductForm.Form.SaveFinished | nextjs-frontend/app/dashboard/products/features/new.tsx:195-207 | the answer gives the save message and the button is enabled again |
| RegisterForm.KeyInjective | nextjs-frontend/components/auth/register-form.tsx:28-34 | distinct fields have distinct names, so each error key belongs to one field |
| RegisterForm.WithField | nextjs-frontend/components/auth/register-form.tsx:41 | `{ ...prev, [name]: value }` sets the named field and leaves every other field as it was |
| RegisterForm.ErrorMapLastWins | nextjs-frontend/components/auth/register-form.tsx:82-88 | a field has an error iff some issue's non-empty first path segment names it, and the error is the message of the last such issue |
| RegisterForm.FieldErrors | nextjs-frontend/components/auth/register-form.tsx:82-88 | the `forEach` over the issues builds exactly the error map of the issues |
| RegisterForm.ErrorMapSnoc | nextjs-frontend/components/auth/register-form.tsx:83-87 | one more issue overwrites the error of its field, or changes nothing when its path is empty |
| RegisterForm.NoErrorOutside | nextjs-frontend/components/auth/register-form.tsx:13-19 | the schema's checks of some fields never put an error on another field |
| RegisterForm.ErrorsForFields | nextjs-frontend/components/auth/register-form.tsx:82-88 | over distinct fields, a field has an error iff its own check fails, and the error is its own message |
| RegisterForm.SchemaErrors | nextjs-frontend/components/auth/register-form.tsx:81-90 | after a refused submit each field shows an error iff it fails its check (first and last name of at least 2 characters, username of at least 3, a valid e-mail, a password of at least 6), with that check's message |
| RegisterForm.FailureDescription | nextjs-frontend/components/auth/register-form.tsx:77-80 | the refused registration's description is the server's non-empty message, else "Registration failed" |
| RegisterForm.Form.constructor | nextjs-frontend/components/auth/register-form.tsx:27-37 | the form starts with five empty fields, no errors and not loading |
| RegisterForm.Form.HandleChange | nextjs-frontend/components/auth/register-form.tsx:39-45 | typing sets that field only and clears that field's error when it shows one; other errors stay |
| RegisterForm.Form.Submit | nextjs-frontend/components/auth/register-form.tsx:47-90 | the disabled button ignores a submit while loading; otherwise the errors are cleared, a refusing schema fills them from its issues with the "Please check the form for errors" toast, and valid data sends the register request with the five fields |
| RegisterForm.Form.RegisterAnswered | nextjs-frontend/components/auth/register-form.tsx:63-96 | a refused registration ends loading with "Registration failed" and its description; success signs in with the same e-mail and password |
| RegisterForm.Form.SignInAnswered | nextjs-frontend/components/auth/register-form.tsx:71-96 | a successful sign-in goes to "/", an unsuccessful one to "/login", a throw shows "An error occurred"; loading ends in every case |
| Invoice.RowOf | nextjs-frontend/app/dashboard/reports/features/columns.tsx:57-64 | an item's row shows its product name, its quantity (which reads back as that integer), its unit price and quantity × price, each amount after "₹" |
| Invoice.BodyOf | nextjs-frontend/app/dashboard/reports/features/columns.tsx:55-66 | the table has one row per line item, in order; an empty item list gets exactly the one "No items" placeholder row instead |
| Invoice.TotalsOf | nextjs-frontend/app/dashboard/reports/features/columns.tsx:230-247 | four totals lines in order: subtotal, tax, the discount after a leading "-₹", and the grand total subtotal + tax − discount |
| Invoice.PdfName | nextjs-frontend/app/dashboard/reports/features/columns.tsx:301 | the PDF file name is "Invoice-", then exactly the invoice number, then ".pdf" |
| Invoice.Preview | nextjs-frontend/app/dashboard/reports/features/columns.tsx:51-258 | the preview's heading, date, customer block, item table and totals come from the sale; the notes block is present iff the notes are non-empty and then holds them |
| Invoice.PreviewTotalMatchesTable | nextjs-frontend/app/dashboard/reports/features/columns.tsx:415-419 | the preview's grand total and the report table's "Total" cell print the same amount, the sale total |
| Invoice.ContactCell | nextjs-frontend/app/dashboard/reports/features/columns.tsx:367-388 | the e-mail and phone cells show a non-empty value as is, an empty one as "N/A" |
| Invoice.PageCount | nextjs-frontend/app/dashboard/reports/features/columns.tsx:287-299 | the image is cut into at least one page |
| Invoice.PagesCoverImage | nextjs-frontend/app/dashboard/reports/features/columns.tsx:287-299 | the pages cover the whole image, and the last page starts inside it or exactly at its end |
| Invoice.ExactMultipleAddsPage | nextjs-frontend/app/dashboard/reports/features/columns.tsx:292-299 | an image exactly k pages tall gets k + 1 pages, the last one empty |
| Invoice.PdfPages | nextjs-frontend/app/dashboard/reports/features/columns.tsx:288-299 | the page loop produces 1 + ⌊height / 297⌋ pages, page k placing the image at offset −297·k |
| Sales.SaleTotal | nextjs-frontend/app/dashboard/reports/page.tsx:222 | a sale's total stays at or below subtotal plus tax exactly when its discount is not negative |
| Sales.SumRevenue | nextjs-frontend/app/dashboard/reports/page.tsx:179-181 | the revenue of no sales is 0, of one sale its total, and of sales none of whose totals is negative it is not negative |
| Sales.SumRevenueAppend | nextjs-frontend/app/dashboard/reports/page.tsx:179-181 | the revenue fold is additive over concatenation: the revenue of two lists together is the sum of their revenues |
| Sales.SumRevenueSplits | nextjs-frontend/app/dashboard/reports/page.tsx:179-184 | summed revenue equals the summed subtotals plus the summed taxes minus the summed discounts |
| Sales.SumRevenueMonotone | nextjs-frontend/components/section-cards-sales.tsx:92-96 | when no added sale has a negative total, adding sales never lowers the revenue |
| Sales.ComputeStats | nextjs-frontend/app/dashboard/reports/page.tsx:178-188 | the page stats: total sales is the summed subtotals, invoices the number of rows, total revenue the summed sale totals, and the average times the row count is the revenue; an empty page gives all zeros |
| Sales.Growth | nextjs-frontend/components/section-cards-sales.tsx:108-111 | with a positive baseline the growth g satisfies previous + previous·g/100 = current, and is positive (negative) iff current is above (below) the baseline; without a positive baseline it is 0 |
| JsNumber.Round | nextjs-frontend/components/sales-chart.tsx:102 | `Math.round`: the result is within half a unit of x, a tie going up |
| JsNumber.RoundUnique | nextjs-frontend/components/sales-chart.tsx:102 | any integer within half a unit of x (ties up) is its rounding |
| JsNumber.ToFixed1Accuracy | nextjs-frontend/components/section-cards-sales.tsx:135 | `toFixed(1)` ends in a '.' and one digit, and the text reads back to within 0.05 of the number |
| JsNumber.SignedPercent | nextjs-frontend/components/section-cards-sales.tsx:134-136 | the percentage text starts with '+' iff the value is at least 0, with '-' iff it is negative, and ends with '%' |
| JsNumber.SignedPercentAccuracy | nextjs-frontend/components/section-cards-sales.tsx:134-136 | the percentage text reads back to within 0.05 of the value |
| SectionCards.PeriodParamsAreSet | nextjs-frontend/components/section-cards-sales.tsx:84-87 | the three `set` calls on an empty query give the lower date bound, the upper date bound and a page size of 100, in that order |
| SectionCards.PeriodQuery | nextjs-frontend/components/section-cards-sales.tsx:81-89 | a period's query holds exactly that period's window, as ISO strings, and a page size of 100 |
| SectionCards.PeriodStats | nextjs-frontend/components/section-cards-sales.tsx:92-119 | each card's figure is its period's revenue sum, and the growth relates this month's revenue to last month's when last month's is positive, else it is 0 |
| SectionCards.WeeklyCoversToday | nextjs-frontend/components/section-cards-sales.tsx:92-105 | when the weekly response holds today's sales and further sales with non-negative totals, the weekly figure is at least today's |
| SectionCards.TodayBadge | nextjs-frontend/components/section-cards-sales.tsx:169 | the today badge reads "Active" iff today's revenue is positive, else "No sales" |
| SectionCards.GrowthCaption | nextjs-frontend/components/section-cards-sales.tsx:248-256 | the footer reads "Growth vs last month" iff the growth is at least 0, else "Decline vs last month" |
| SectionCards.GrowthTextAgrees | nextjs-frontend/components/section-cards-sales.tsx:233-256 | the percentage's sign agrees with the caption: '+' with growth, '-' with decline |
| SectionCards.Cards.constructor | nextjs-frontend/components/section-cards-sales.tsx:34-41 | the cards start at zero and loading |
| SectionCards.Cards.Loaded | nextjs-frontend/components/section-cards-sales.tsx:99-124 | once all four responses arrive the figures are the period stats of the four lists and loading ends |
| SectionCards.Cards.Failed | nextjs-frontend/components/section-cards-sales.tsx:120-124 | a failed request keeps the figures and ends loading |
| DateRanges.DailyRangeIsToday | nextjs-frontend/app/dashboard/reports/page.tsx:119-123 | both daily bounds fall on today, at 00:00:00.000 and 23:59:59.999, one day less a millisecond apart |
| DateRanges.WeeklyRangeSpansEightDays | nextjs-frontend/app/dashboard/reports/page.tsx:124-129 | the weekly window starts at 00:00:00.000 seven calendar days before today and ends today at 23:59:59.999, so it spans eight calendar days |
| DateRanges.MonthlyRangeIsCurrentMonth | nextjs-frontend/app/dashboard/reports/page.tsx:130-135 | the monthly window runs from the 1st of the current month to its last day (28, 29, 30 or 31) at 23:59:59.999 |
| DateRanges.LastMonthRangeIsPreviousMonth | nextjs-frontend/components/section-cards-sales.tsx:68-72 | the last-month window is the whole previous calendar month, January rolling back to December of the year before |
| DateRanges.LastMonthEndsJustBeforeMonthly | nextjs-frontend/components/section-cards-sales.tsx:63-72 | the last-month window ends exactly one millisecond before the monthly window starts |
| DateRanges.MonthShiftNear | nextjs-frontend/components/section-cards-sales.tsx:69 | `new Date(y, m - 1, …)` in January means December of the year before; any other month stays in its year |
| DateRanges.DailyDates | nextjs-frontend/app/dashboard/reports/page.tsx:115-123 | the two `setHours` calls give exactly the daily window |
| DateRanges.WeeklyDates | nextjs-frontend/app/dashboard/reports/page.tsx:115-129 | `setDate(day - 7)` then the two `setHours` calls give exactly the weekly window |
| DateRanges.MonthlyDates | nextjs-frontend/app/dashboard/reports/page.tsx:130-135 | the 1st of this month, and day 0 of next month moved to 23:59:59.999 |
| DateRanges.LastMonthDates | nextjs-frontend/components/section-cards-sales.tsx:68-72 | the 1st of last month, and day 0 of this month moved to 23:59:59.999 |
| DateRanges.ReportsWindow | nextjs-frontend/app/dashboard/reports/page.tsx:113-142 | every tab's window has valid calendar dates at both ends |
| DateRanges.ReportsDateRange | nextjs-frontend/app/dashboard/reports/page.tsx:113-142 | "daily", "weekly" and "monthly" give their windows; any other tab leaves both bounds at "now" |
| DateRanges.CardsWindow | nextjs-frontend/components/section-cards-sales.tsx:49-79 | every card's window has valid calendar dates at both ends |
| DateRanges.CardsDateRange | nextjs-frontend/components/section-cards-sales.tsx:49-79 | "today", "weekly", "monthly" and "lastMonth" give their windows; any other kind leaves both bounds at "now" |
| Calendar.DaysInMonth | nextjs-frontend/app/dashboard/reports/page.tsx:133 | every month has 28 to 31 days, February 29 in a Gregorian leap year |
| Calendar.NextMonthStart | nextjs-frontend/components/section-cards-sales.tsx:64-70 | the next month (December rolling into January of the next year) starts exactly the month's length in days later |
| Calendar.RollDays | nextjs-frontend/app/dashboard/reports/page.tsx:126 | an out-of-range day rolls over to the date d − 1 days after the 1st of the month, so roll-over never skips or repeats a day |
| Calendar.Roll | nextjs-frontend/app/dashboard/reports/page.tsx:126 | rolling any day number over gives a valid calendar date with the same time of day |
| Calendar.MonthShift | nextjs-frontend/components/section-cards-sales.tsx:64-70 | a month number past 11 or below 0 becomes a month 0..11 of a shifted year, with the same count of months from year 0 |
| Calendar.MakeDate | nextjs-frontend/components/section-cards-sales.tsx:64-70 | `new Date(y, m, d)` is a valid date at midnight, whatever m and d are |
| Calendar.RollInRange | nextjs-frontend/app/dashboard/reports/page.tsx:132 | an in-range day is left as it is |
| Calendar.FirstOfMonth | nextjs-frontend/app/dashboard/reports/page.tsx:132 | `new Date(y, m, 1)` is the 1st of the rolled-over month |
| Calendar.DayZeroIsLastOfPreviousMonth | nextjs-frontend/app/dashboard/reports/page.tsx:133 | day 0 of a month is the last day of the month before it |
| Calendar.ParseTwo | nextjs-frontend/components/sales-chart.tsx:81 | a two-digit zero-padded number reads back as itself for 0..99 |
| Calendar.IsoString | nextjs-frontend/app/dashboard/reports/page.tsx:246 | `toISOString()` ends in "Z", and its `split("T")[0]` is exactly the "YYYY-MM-DD" part of the date |
| Calendar.IsoDay | nextjs-frontend/app/dashboard/sales/features/new.tsx:154 | the "YYYY-MM-DD" text holds no "T", and for years 0..9999 it has ten characters with dashes at positions 4 and 7 |
| Calendar.ParseIsoDay | nextjs-frontend/app/dashboard/sales/features/new.tsx:249 | reading "YYYY-MM-DD" as `new Date(text)`: a result is a valid date at midnight, and only a ten-character text with dashes at 4 and 7 gives one |
| Calendar.ParseIsoDayOfIsoDay | nextjs-frontend/app/dashboard/sales/features/new.tsx:249 | reading back the "YYYY-MM-DD" text of a valid date with a four-digit year gives midnight of that same day |
| Calendar.FourDigitYear | nextjs-frontend/app/dashboard/sales/features/new.tsx:154 | a year in 0..9999 prints as four digits that read back as the year |
| Calendar.TwoDigits | nextjs-frontend/app/dashboard/sales/features/new.tsx:154 | a number below 100 pads to two digits that read back as the number |
| Calendar.DayTextShape | nextjs-frontend/app/dashboard/sales/features/new.tsx:249 | a four-digit year, two-digit month and two-digit day joined by dashes are ten characters with dashes at 4 and 7 and the three digit runs in place |
| Calendar.ParseDayText | nextjs-frontend/app/dashboard/sales/features/new.tsx:249 | such a text reads as midnight of that day exactly when the month is 1..12 and the day within the month's length, and fails otherwise |
| Calendar.JsDate.At | nextjs-frontend/app/dashboard/reports/page.tsx:114-116 | `new Date()` holds the instant "now" |
| Calendar.JsDate.Of | nextjs-frontend/app/dashboard/reports/page.tsx:132-133 | `new Date(y, m, d)` holds the rolled-over date at midnight |
| Calendar.JsDate.SetHours | nextjs-frontend/app/dashboard/reports/page.tsx:121-122 | `setHours` with in-range arguments changes only the time of day |
| Calendar.JsDate.SetDate | nextjs-frontend/app/dashboard/reports/page.tsx:126 | `setDate(d)` moves to day d of the current month, rolled over, keeping the time of day |
| SaleForm.Failing | nextjs-frontend/app/dashboard/sales/features/new.tsx:42-51 | the failing rules are exactly the listed rules that fail, in their order |
| SaleForm.SchemaOrderIsComplete | nextjs-frontend/app/dashboard/sales/features/new.tsx:42-51 | the schema runs every one of its eight checks |
| SaleForm.ValidIffNoRuleFails | nextjs-frontend/app/dashboard/sales/features/new.tsx:42-51 | the schema accepts the values iff none of its checks fails |
| SaleForm.SchemaIssues | nextjs-frontend/app/dashboard/sales/features/new.tsx:42-51 | the issue list is empty iff the schema accepts (invoice number, date, name, a valid non-empty e-mail, phone, tax and discount of at least 0), and a rule is listed iff it fails |
| SaleForm.SubtotalAppend | nextjs-frontend/app/dashboard/sales/features/new.tsx:121-126 | the subtotal fold is additive over concatenation |
| SaleForm.SubtotalOfCompleteRows | nextjs-frontend/app/dashboard/sales/features/new.tsx:121-126 | when every row has a product and a positive quantity, the subtotal is the plain sum of price × quantity |
| SaleForm.SubtotalNonNegative | nextjs-frontend/app/dashboard/sales/features/new.tsx:121-126 | with non-negative prices the subtotal is never negative |
| SaleForm.Total | nextjs-frontend/app/dashboard/sales/features/new.tsx:128-130 | the total minus tax plus discount is the subtotal |
| SaleForm.RemoveAt | nextjs-frontend/app/dashboard/sales/features/new.tsx:204-206 | removing position i drops exactly that row and keeps the others in order; an index outside the list changes nothing |
| SaleForm.Apply | nextjs-frontend/app/dashboard/sales/features/new.tsx:208-222 | setting the product also sets the price to the product's price and keeps the quantity; setting the quantity changes only the quantity; any other field changes nothing |
| SaleForm.AddKeepsSubtotal | nextjs-frontend/app/dashboard/sales/features/new.tsx:200-202 | appending the blank row leaves the subtotal unchanged |
| SaleForm.DropMiddleSubtotal | nextjs-frontend/app/dashboard/sales/features/new.tsx:204-206 | taking one row out of the middle lowers the subtotal by that row's contribution |
| SaleForm.RemoveSubtotal | nextjs-frontend/app/dashboard/sales/features/new.tsx:204-206 | removing a row lowers the subtotal by exactly that row's contribution |
| SaleForm.UpdateSubtotal | nextjs-frontend/app/dashboard/sales/features/new.tsx:208-222 | editing a row swaps that row's contribution and changes nothing else in the subtotal |
| SaleForm.Find | nextjs-frontend/app/dashboard/sales/features/new.tsx:166 | `Array.find`: no result iff no product matches; otherwise the first matching product |
| SaleForm.LoadedItems | nextjs-frontend/app/dashboard/sales/features/new.tsx:164-178 | loading keeps one row per stored line in order, with the stored quantity and price; the product is the catalogue's product with that id, else a stub |
| SaleForm.UnknownProductIsStub | nextjs-frontend/app/dashboard/sales/features/new.tsx:166-174 | a product missing from the catalogue becomes a stub with the stored document id, the stored line price and stock 0 |
| SaleForm.LoadedSubtotal | nextjs-frontend/app/dashboard/sales/features/new.tsx:164-178 | with positive stored quantities the loaded rows reproduce the stored lines' sum of price × quantity, whatever the catalogue's current prices |
| SaleForm.LoadedPrefix | nextjs-frontend/app/dashboard/sales/features/new.tsx:165-178 | loading drops nothing and reorders nothing: the rows of a prefix of the stored lines are a prefix of the rows |
| SaleForm.NewInvoiceNumber | nextjs-frontend/app/dashboard/sales/features/new.tsx:185 | a new invoice number is "INV-" followed by at most eight digits |
| SaleForm.InvoiceNumberDigits | nextjs-frontend/app/dashboard/sales/features/new.tsx:185 | the digits after "INV-" read back as the clock's millisecond count modulo 10^8, and there are eight of them once the count has eight digits |
| SaleForm.ResetValues | nextjs-frontend/app/dashboard/sales/features/new.tsx:151-195 | editing fills the fields from the stored sale with its date as "YYYY-MM-DD"; a new invoice gets a fresh number, today's date, empty texts and zero tax and discount |
| SaleForm.BuildPayload | nextjs-frontend/app/dashboard/sales/features/new.tsx:241-259 | the payload lists one product line per row in order (document id, quantity, price); its subtotal is the sum of price × quantity, its total is subtotal + tax − discount, and notes default to "" |
| SaleForm.StoredTotalMatchesForm | nextjs-frontend/app/dashboard/sales/features/new.tsx:247-259 | a sale stored from the payload has, by the reports' formula, the same total the form showed |
| SaleForm.RequestFor | nextjs-frontend/app/dashboard/sales/features/new.tsx:261-269 | a sale with a non-zero id is updated at "/api/sales/" + its document id; anything else is created; the body is the payload |
| SaleForm.SaveMessage | nextjs-frontend/app/dashboard/sales/features/new.tsx:265-274 | "Invoice updated successfully", "Invoice created successfully" or "Failed to save invoice" |
| SaleForm.Form.constructor | nextjs-frontend/app/dashboard/sales/features/new.tsx:102-118 | the dialog starts with today's date, empty fields, no rows and no catalogue |
| SaleForm.Form.Sync | nextjs-frontend/app/dashboard/sales/features/new.tsx:148-198 | a closed dialog changes nothing; opening resets the fields and loads the stored rows, or starts a new invoice with no rows |
| SaleForm.Form.CatalogLoaded | nextjs-frontend/app/dashboard/sales/features/new.tsx:133-145 | the catalogue arriving re-runs the reset of an open dialog, so stored rows pick up the catalogue's products |
| SaleForm.Form.Edit | nextjs-frontend/app/dashboard/sales/features/new.tsx:106-118 | typing changes the fields only; the rows are untouched |
| SaleForm.Form.AddLineItem | nextjs-frontend/app/dashboard/sales/features/new.tsx:200-202 | "Add product" appends one blank row (no product, quantity 1, price 0), leaves the other rows and the subtotal unchanged |
| SaleForm.Form.RemoveLineItem | nextjs-frontend/app/dashboard/sales/features/new.tsx:204-206 | the trash button removes exactly that row and lowers the subtotal by its contribution |
| SaleForm.Form.UpdateLineItem | nextjs-frontend/app/dashboard/sales/features/new.tsx:208-222 | an edit changes only its own row, and the subtotal changes by that row's new contribution less its old one |
| SaleForm.Form.SelectProduct | nextjs-frontend/app/dashboard/sales/features/new.tsx:414-421 | choosing a product found in the catalogue sets it (and its price) on that row; an unknown id changes nothing |
| SaleForm.Form.Submit | nextjs-frontend/app/dashboard/sales/features/new.tsx:224-269 | a save while one runs is ignored; failing fields give the schema's issues; no rows or an incomplete row is refused with its message and no request; otherwise, when the date field reads as a "YYYY-MM-DD" day, exactly one create or update request goes out whose payload date is midnight of that day, and a date that does not read fails with "Failed to save invoice" |
| SaleForm.ResetDateParsesBack | nextjs-frontend/app/dashboard/sales/features/new.tsx:151-195 | the date the reset puts in the field (the stored sale's day or today) reads back as midnight of that day, so an unedited date saves unchanged |
| SaleForm.Subtotal | nextjs-frontend/app/dashboard/sales/features/new.tsx:121-126 | rows without a product or with no positive quantity add nothing; with no complete row the subtotal is 0 |
| SaleForm.Form.SaveFinished | nextjs-frontend/app/dashboard/sales/features/new.tsx:265-277 | the answer gives the save message and the button is enabled again |
| Text.NatToString | nextjs-frontend/components/sales-chart.tsx:81 | `String(n)` of a natural number is a non-empty run of digits |
| Text.ParseIntOfIntToString | nextjs-frontend/app/dashboard/reports/page.tsx:147-148 | `String(i)` of an integer reads back as that integer |
| Text.IntToStringInjective | nextjs-frontend/app/dashboard/reports/page.tsx:147-148 | distinct integers give distinct texts |
| Text.NatToStringLength | nextjs-frontend/components/sales-chart.tsx:263 | the number of digits is the decimal order of magnitude |
| Text.TakeLast | nextjs-frontend/app/dashboard/sales/features/new.tsx:185 | `slice(-k)` keeps the last k characters, or all of a shorter text |
| Text.LastDigits | nextjs-frontend/app/dashboard/sales/features/new.tsx:185 | the last k digits of a number's text read back as the number modulo 10^k |
| Text.ParseNatLeadingZeros | nextjs-frontend/components/sales-chart.tsx:81 | leading zeros do not change the number a digit text reads as |
| Text.PaddedNumber | nextjs-frontend/components/sales-chart.tsx:81 | a number padded with zeros is all digits and reads back as the number |
| Text.PadStart | nextjs-frontend/components/sales-chart.tsx:81 | `padStart(width, c)` keeps the text at the end and fills up to the width with c in front |
| Text.Split | nextjs-frontend/app/dashboard/reports/page.tsx:246 | `split(c)` always gives at least one piece |
| Text.SplitJoin | nextjs-frontend/app/dashboard/reports/page.tsx:236-239 | splitting a join on a separator no piece contains gives the pieces back |
| Text.Capitalize | nextjs-frontend/app/dashboard/reports/page.tsx:207 | `charAt(0).toUpperCase() + slice(1)` upper-cases a first ASCII letter and keeps the rest and the length |
| ReportsPage.TabFromUrl | nextjs-frontend/app/dashboard/reports/page.tsx:84 | the URL's non-empty `tab` parameter, else "daily" |
| ReportsPage.BaseParamsAreSet | nextjs-frontend/app/dashboard/reports/page.tsx:146-155 | the six `set` calls on an empty query give page, page size, `sort[0]=date:desc`, `populate[0]=products.product` and both date bounds, in that order |
| ReportsPage.ReportsQuery | nextjs-frontend/app/dashboard/reports/page.tsx:145-169 | the query is the six base parameters with the tab's window as ISO strings, followed by a `$containsi` pair for each non-empty column filter |
| ReportsPage.ReportsQueryReadsBack | nextjs-frontend/app/dashboard/reports/page.tsx:157-166 | reading the query back, the customer-name and invoice-number filters are present iff their texts are non-empty, and then hold those texts |
| ReportsPage.CsvFields | nextjs-frontend/app/dashboard/reports/page.tsx:221-233 | a sale's CSV row has the nine columns of the header, the last one the sale total subtotal + tax − discount |
| ReportsPage.CsvLines | nextjs-frontend/app/dashboard/reports/page.tsx:236-239 | the export has exactly one line more than there are sales: the header, then one line per sale in loaded order |
| ReportsPage.CsvFileName | nextjs-frontend/app/dashboard/reports/page.tsx:246 | the file name is the tab with its first ASCII letter upper-cased, "_Sales_Report_", today's "YYYY-MM-DD" and ".csv" |
| ReportsPage.CsvRow | nextjs-frontend/app/dashboard/reports/page.tsx:221-238 | a sale's line holds no newline and splits on commas back into its nine fields when none of them holds a separator |
| ReportsPage.CsvContent | nextjs-frontend/app/dashboard/reports/page.tsx:236-239 | the export starts with the header line, and with no sales it is just that line |
| ReportsPage.PeriodSubtitle | nextjs-frontend/app/dashboard/reports/page.tsx:322 | the subtitle is the tab with its first ASCII letter upper-cased and the rest kept, followed by " period" |
| ReportsPage.JoinHasNoChar | nextjs-frontend/app/dashboard/reports/page.tsx:236-239 | joining pieces that lack a character, with a separator that lacks it, never introduces it |
| ReportsPage.PlainLineReadsBack | nextjs-frontend/app/dashboard/reports/page.tsx:238 | comma-joined fields without commas or newlines form one line that splits back into the fields |
| ReportsPage.HeaderReadsBack | nextjs-frontend/app/dashboard/reports/page.tsx:210-220 | the header line splits back into the nine column names |
| ReportsPage.CsvLineAt | nextjs-frontend/app/dashboard/reports/page.tsx:236-239 | line i + 1 of the export is sale i's row |
| ReportsPage.CsvLinesArePlain | nextjs-frontend/app/dashboard/reports/page.tsx:236-239 | when no field holds a comma or newline, no line holds a newline and every line splits into the header or its sale's nine fields |
| ReportsPage.CsvReadsBack | nextjs-frontend/app/dashboard/reports/page.tsx:206-239 | when no field holds a comma or newline (there is no quoting), the file splits into the header line and one line per sale, each splitting into that sale's fields |
| ReportsPage.CsvTotalIsRevenue | nextjs-frontend/app/dashboard/reports/page.tsx:222-232 | the Total column of a row is the sale's revenue, the figure the statistics add up |
| ReportsPage.Page.constructor | nextjs-frontend/app/dashboard/reports/page.tsx:84-101 | the page starts on the URL's tab (or "daily"), with zero statistics, no rows, loading, page 1 of 10 rows and both filters empty; the statistics describe the rows on screen |
| ReportsPage.Page.SyncTab | nextjs-frontend/app/dashboard/reports/page.tsx:104-106 | a changed URL tab becomes the active tab |
| ReportsPage.Page.SelectTab | nextjs-frontend/app/dashboard/reports/page.tsx:291 | a clicked tab becomes the active tab and nothing else changes |
| ReportsPage.Page.FetchSucceeded | nextjs-frontend/app/dashboard/reports/page.tsx:173-188 | a response replaces the rows and the meta and recomputes the statistics from the new rows; page, page size and filters stay |
| ReportsPage.Page.FetchFailed | nextjs-frontend/app/dashboard/reports/page.tsx:189-193 | a failed fetch keeps rows, meta and statistics and ends loading |
| ReportsPage.Page.ExportReport | nextjs-frontend/app/dashboard/reports/page.tsx:206-246 | the export's file name and content are those of the active tab and the rows on screen |
| Pagination.PageCountOr1 | nextjs-frontend/app/dashboard/sales/page.tsx:255 | `meta?.pageCount \|\| 1` is at least 1: the page count when known and non-zero, otherwise 1 |
| Pagination.PrevPage | nextjs-frontend/app/dashboard/sales/page.tsx:245 | "‹" moves one page back and never below page 1 |
| Pagination.NextPage | nextjs-frontend/app/dashboard/sales/page.tsx:254-256 | "›" moves one page on and never past the last page (1 when the count is unknown) |
| Pagination.BackDisabledIffStuck | nextjs-frontend/app/dashboard/sales/page.tsx:236-247 | "«" and "‹" are disabled exactly when "‹" would leave the page unchanged |
| Pagination.ForwardDisabledIffStuck | nextjs-frontend/app/dashboard/sales/page.tsx:254-266 | within the known pages, "›" and "»" are disabled exactly when "›" would leave the page unchanged, i.e. on the last page |
| Pagination.Summary | nextjs-frontend/app/dashboard/sales/page.tsx:199-206 | no line before the first response, "No rows" for an empty page, otherwise a range of exactly as many rows as are shown, starting after (page − 1) × pageSize rows, out of the total |
| Pagination.SummaryOfFullPage | nextjs-frontend/app/dashboard/sales/page.tsx:203-205 | a full page k shows rows (k − 1) × size + 1 to k × size |
| Pagination.ListPage.constructor | nextjs-frontend/app/dashboard/sales/page.tsx:71-81 | no rows, loading, no meta, page 1 of 10 rows, every column filter empty, dialog closed with nothing selected |
| Pagination.ListPage.HandleFilterChange | nextjs-frontend/app/dashboard/sales/page.tsx:83-86 | the filter is stored under its key and the page returns to 1; nothing else changes |
| Pagination.ListPage.HandlePageSizeChange | nextjs-frontend/app/dashboard/sales/page.tsx:127-130 | the page size is stored and the page returns to 1; nothing else changes |
| Pagination.ListPage.GoFirst | nextjs-frontend/app/dashboard/sales/page.tsx:236 | "«" goes to page 1 |
| Pagination.ListPage.GoPrev | nextjs-frontend/app/dashboard/sales/page.tsx:245 | "‹" goes to PrevPage of the current page |
| Pagination.ListPage.GoNext | nextjs-frontend/app/dashboard/sales/page.tsx:254-256 | "›" goes to NextPage of the current page and meta |
| Pagination.ListPage.GoLast | nextjs-frontend/app/dashboard/sales/page.tsx:265 | "»" goes to the page count, or 1 when it is unknown |
| Pagination.ListPage.BeginFetch | nextjs-frontend/app/dashboard/sales/page.tsx:110 | a fetch sets the loading flag only |
| Pagination.ListPage.FetchSucceeded | nextjs-frontend/app/dashboard/sales/page.tsx:112-118 | the response's rows and pagination meta replace the old ones and loading ends |
| Pagination.ListPage.FetchFailed | nextjs-frontend/app/dashboard/sales/page.tsx:115-118 | a failed fetch keeps the rows and the meta and ends loading |
| Pagination.ListPage.OpenCreate | nextjs-frontend/app/dashboard/sales/page.tsx:171-174 | the create button opens the dialog with nothing selected |
| Pagination.ListPage.OpenEdit | nextjs-frontend/app/dashboard/sales/page.tsx:153-156 | a row's edit action opens the dialog on that row |
| Pagination.ListPage.SetDialogOpen | nextjs-frontend/app/dashboard/sales/page.tsx:178 | the dialog's own open/close request sets the open flag and keeps the selection |
| Pagination.ListPage.DialogSucceeded | nextjs-frontend/app/dashboard/sales/page.tsx:182-185 | a successful save closes the dialog and starts a refetch: the list is loading with the same page, page size and filters, and the rows, meta and selection are kept |
| SalesPage.BaseParamsAreSet | nextjs-frontend/app/dashboard/sales/page.tsx:90-94 | the four `set` calls on an empty query give page, page size, `sort[0]=date:desc` and `populate[0]=products.product`, in that order |
| SalesPage.SalesQuery | nextjs-frontend/app/dashboard/sales/page.tsx:89-108 | the query is the four base parameters followed by a `$containsi` pair for each non-empty column filter, customer name before invoice number |
| SalesPage.SalesQueryReadsBack | nextjs-frontend/app/dashboard/sales/page.tsx:96-105 | reading the query back, each column filter is present iff its text is non-empty, and then holds that text |
| SalesPage.HandleDelete | nextjs-frontend/app/dashboard/sales/page.tsx:132-148 | nothing happens without confirmation; otherwise the sale's document is deleted; exactly when the request succeeds the list is fetched again with the same page, page size and filters and "Sale deleted successfully" follows, and otherwise "Failed to delete sale" |
| SalesPage.DeletePrompt | nextjs-frontend/app/dashboard/sales/page.tsx:134-136 | the confirmation asks about exactly the sale's invoice number, quoted, after the fixed question text |
| ProductsPage.BaseParamsAreSet | nextjs-frontend/app/dashboard/products/page.tsx:95-99 | the four `set` calls on an empty query give page, page size, `populate[0]=category` and `populate[1]=image`, in that order |
| ProductsPage.ProductsQuery | nextjs-frontend/app/dashboard/products/page.tsx:94-109 | the query is the base parameters followed by a `$containsi` pair for each non-empty column filter, name before description |
| ProductsPage.ProductsQueryReadsBack | nextjs-frontend/app/dashboard/products/page.tsx:100-106 | reading the query back, each column filter is present iff its text is non-empty, and then holds that text |
| ProductsPage.HandleDelete | nextjs-frontend/app/dashboard/products/page.tsx:134-145 | nothing happens without confirmation; otherwise the product's document is deleted; exactly when the request succeeds the list is fetched again with the same page, page size and filters and "Product deleted successfully" follows, and otherwise "Failed to delete product" |
| ProductsPage.DeletePrompt | nextjs-frontend/app/dashboard/products/page.tsx:135 | the confirmation asks about exactly the product's name, quoted, after the fixed question text |
| SearchParams.Get | nextjs-frontend/components/sales-chart.tsx:68-71 | `get(name)` is absent exactly when no pair has that name, and otherwise the value of a pair with that name |
| SearchParams.RemoveAll | nextjs-frontend/components/sales-chart.tsx:68-71 | dropping a name leaves exactly the pairs with other names |
| SearchParams.GetRemoveAll | nextjs-frontend/components/sales-chart.tsx:68-71 | dropping one name leaves every other name's value unchanged |
| SearchParams.GetReplaceFirst | nextjs-frontend/components/sales-chart.tsx:68-71 | replacing the first pair of a present name makes it read the new value and leaves the others unchanged |
| SearchParams.GetAppend | nextjs-frontend/components/sales-chart.tsx:68-71 | appending a pair for an absent name makes it read that value and leaves the others unchanged |
| SearchParams.GetAfterSet | nextjs-frontend/components/sales-chart.tsx:68-71 | after `set(name, value)`, `get(name)` is the new value and every other name reads as before |
| SearchParams.GetOptionalParams | nextjs-frontend/app/dashboard/sales/page.tsx:96-105 | with two optional pairs after the base, each name reads its value iff it is non-empty, and every other name reads as in the base |
| SearchParams.SetTwoNewNames | nextjs-frontend/app/dashboard/sales/page.tsx:90-94 | two `set` calls with distinct names the query does not hold append both pairs in call order |
| SearchParams.SetNewName | nextjs-frontend/components/sales-chart.tsx:68-71 | setting a name not yet present appends the pair |
| SearchParams.SetIfPresent | nextjs-frontend/app/dashboard/sales/page.tsx:96-105 | a guarded `set` of a new name appends the pair exactly when its value is non-empty |
| SearchParams.SetTwoIfPresent | nextjs-frontend/app/dashboard/sales/page.tsx:96-105 | two guarded `set`s of new names append their pairs in order, each only when its value is non-empty |
| SearchParams.Query.constructor | nextjs-frontend/components/sales-chart.tsx:68 | a new query holds no pairs |
| SearchParams.Query.Set | nextjs-frontend/components/sales-chart.tsx:69-71 | `set` replaces the query's pairs by SetEntry of the old ones |
| SalesChart.KeyParts | nextjs-frontend/components/sales-chart.tsx:81 | a month key splits back into the year before the dash and the two month digits after it |
| SalesChart.MonthKeyRoundTrip | nextjs-frontend/components/sales-chart.tsx:81 | a `YYYY-MM` month key reads back as the year and month it was built from |
| SalesChart.MonthKeyInjective | nextjs-frontend/components/sales-chart.tsx:81 | distinct months never share a bucket key |
| SalesChart.AddUpSnoc | nextjs-frontend/components/sales-chart.tsx:79-89 | one more sale adds its revenue to its own month's bucket and leaves the others |
| SalesChart.AddUpLookup | nextjs-frontend/components/sales-chart.tsx:79-89 | each bucket holds the sum of the amounts filed under its key, and a key never filed reads as 0 |
| SalesChart.ResetThenAdd | nextjs-frontend/components/sales-chart.tsx:85-88 | resetting a missing or zero bucket to 0 and then adding equals adding to `monthlyData[key] \|\| 0` |
| SalesChart.Revenues | nextjs-frontend/components/sales-chart.tsx:79-84 | each sale contributes its month key and its total subtotal + tax − discount, in order |
| SalesChart.AmountForMonth | nextjs-frontend/components/sales-chart.tsx:79-89 | the amounts filed under a month's key are the revenues of exactly the sales dated in that month |
| SalesChart.SaleKeyMatches | nextjs-frontend/components/sales-chart.tsx:80-81 | a sale is filed under a month's key exactly when it is dated in that month |
| SalesChart.BucketIsMonthRevenue | nextjs-frontend/components/sales-chart.tsx:77-89 | every month's bucket is exactly the revenue of that month's sales |
| SalesChart.AddUpAll | nextjs-frontend/components/sales-chart.tsx:85-88 | the loop of resets and additions builds exactly the buckets of AddUp |
| SalesChart.GroupByMonth | nextjs-frontend/components/sales-chart.tsx:77-89 | grouping the sales gives the month buckets of their revenues |
| SalesChart.SeriesMonth | nextjs-frontend/components/sales-chart.tsx:94 | point j's month is 11 − j months before the current one, as a valid month |
| SalesChart.MonthPoint | nextjs-frontend/components/sales-chart.tsx:94-103 | one month's point is its short name and its bucket (0 when missing) rounded |
| SalesChart.BuildSeries | nextjs-frontend/components/sales-chart.tsx:92-104 | the loop produces twelve points, point j being the month 11 − j months back, oldest first |
| SalesChart.PointOfMonthStart | nextjs-frontend/components/sales-chart.tsx:94 | `new Date(y, month − i, 1)` falls in the month of point 11 − i, across year boundaries |
| SalesChart.PointRevenue | nextjs-frontend/components/sales-chart.tsx:92-104 | each bar shows the rounded revenue of exactly the sales dated in its month |
| SalesChart.MonthNumberUnique | nextjs-frontend/components/sales-chart.tsx:93-95 | the month number 12 × year + month determines the year and month |
| SalesChart.SingleSaleRaisesOneBar | nextjs-frontend/components/sales-chart.tsx:77-104 | a single sale dated k months back raises bar 11 − k only, to its rounded total |
| SalesChart.ChartQuery | nextjs-frontend/components/sales-chart.tsx:61-71 | the query asks for sales from the first of the month eleven months back, 1000 at most, oldest first |
| SalesChart.QueryStartsAtFirstPoint | nextjs-frontend/components/sales-chart.tsx:62-69 | the query's lower bound is midnight on the first day of the oldest bar's month |
| SalesChart.PeakIsFirstMaximum | nextjs-frontend/components/sales-chart.tsx:137-142 | the reduce picks the first bar with the highest revenue when it is positive, and stays at index 0, value 0 when no bar is above zero |
| SalesChart.Highlighted | nextjs-frontend/components/sales-chart.tsx:129-143 | nothing to highlight without data, the hovered bar while hovering, the peak otherwise |
| SalesChart.LabelWidthByDigits | nextjs-frontend/components/sales-chart.tsx:260-264 | a value with k + 1 digits gets a label 8(k + 1) + 10 pixels wide |
| SalesChart.Chart.constructor | nextjs-frontend/components/sales-chart.tsx:49-55 | no points, loading, zero growth, nothing hovered |
| SalesChart.Chart.Loaded | nextjs-frontend/components/sales-chart.tsx:73-123 | the twelve points are those of the response's month buckets; the growth is updated only when the previous month's bar is positive, and loading ends |
| SalesChart.MonthKey | nextjs-frontend/components/sales-chart.tsx:81 | a month key ends in a dash and the two-digit month |
| SalesChart.Peak | nextjs-frontend/components/sales-chart.tsx:137-142 | the highlighted value is never negative, and a positive one is the revenue of the bar at the highlighted index |
| SalesChart.SeriesGrowth | nextjs-frontend/components/sales-chart.tsx:109-118 | with a positive previous bar, the previous revenue grown by the rate is the current revenue; otherwise the rate is 0 |
| SalesChart.LabelWidth | nextjs-frontend/components/sales-chart.tsx:260-264 | the label is 10 pixels of padding plus 8 per character, and at least one character wide |
| JsNumber.ToFixed1 | nextjs-frontend/components/sales-chart.tsx:191 | `toFixed(1)` text ends in a point and one digit, and starts with "-" exactly when the number is negative |
| SalesChart.Chart.Failed | nextjs-frontend/components/sales-chart.tsx:119-123 | a failed fetch keeps the chart and ends loading |
| SalesChart.Chart.Hover | nextjs-frontend/components/sales-chart.tsx:226 | hovering a bar makes it the active one and changes nothing else |
| SalesChart.Chart.Leave | nextjs-frontend/components/sales-chart.tsx:208 | leaving the chart clears the active bar and changes nothing else |
| SalesChart.Chart.Shown | nextjs-frontend/components/sales-chart.tsx:129-143 | without a hovered bar the title shows the peak of the points |
| SalesChart.Chart.Badge | nextjs-frontend/components/sales-chart.tsx:189-191 | the badge starts with "+" exactly when the growth rate is at least 0 (with "-" exactly when it is negative), ends with "%", and reads back to within 0.05 of the rate |
| SalesChart.Chart.Caption | nextjs-frontend/components/sales-chart.tsx:196 | the caption is "Growth vs. last month" exactly when the rate is at least 0 and "Decline vs. last month" otherwise, agreeing with the badge's sign |

## Left out

- Time zones and daylight saving: the local time zone is taken as UTC, so `toISOString` is the local calendar date and time; every `new Date()` in one handler is taken to be the same instant `now`.
- Locale formatting: `toLocaleString` and `toLocaleDateString` of amounts and dates are caller-supplied functions; only the short English month names of the chart are written out.
- Floating point: amounts, percentages and progress are exact reals, so rounding drift in sums is not modelled.
- The HTTP requests themselves, toasts, `confirm`, routing and React rendering: responses and the user's answers are arguments, and the methods return the request or message the component would issue.
- Concurrency: the four parallel period fetches of the summary cards are taken as arriving together, and overlapping or stale fetches of the list pages are not modelled.
- URL encoding: a query is its list of name/value pairs; `toString` and percent-encoding are not modelled.
- The route guard's `matcher` configuration is not modelled; the guard is applied to every path it is given.
- The chart's spring animation, canvas scaling in the PDF export (only the page loop over the image height is modelled) and the file download itself.
- HTML escaping: invoice fields are placed into the preview unescaped, as the source does; the model builds the preview's parts, not its markup.
- CSV quoting: the export quotes nothing, matching the source; the read-back lemmas therefore require fields without commas or newlines.
- String length is counted in characters, not UTF-16 code units, for the 80-character description cut and the label width.
- RegisterForm.SchemaErrors: the minimum lengths (2, 2, 3 and 6) are counted in characters, while zod's `.min` counts UTF-16 code units, so a text with characters outside the Basic Multilingual Plane (an emoji counts 2) can pass zod and fail the model; RegisterForm.FieldFails and RegisterForm.Form.Submit share this.
- Calendar.MakeDate: JavaScript's `new Date(y, m, d)` reads a year 0..99 as 1900 + y; the model keeps the year as given. The source only passes `getFullYear()` of a current date, so such a year does not arise.
- Calendar.JsDate.Of: built on Calendar.MakeDate, so it keeps a year 0..99 as given too.
- The e-mail check of the registration schema and the session-token lookup of the route guard are abstract parameters.
- Removing a field's error is modelled as removing the key from the error map (the source sets it to `undefined`, which reads the same).
- A stored sale whose date is null is not modelled: every sale carries a valid date.
- The registration success toast is not part of RegisterForm.Form.RegisterAnswered's result; a successful registration continues with the sign-in, which is modelled.
- Text.Capitalize: upper-cases only 'a'..'z'; JavaScript's `toUpperCase` also maps other letters (é to É) and can lengthen a character (ß to SS), which is not modelled. The tabs it is applied to are the ASCII words "daily", "weekly" and "monthly".
- SaleForm.Form.Submit: reads only the "YYYY-MM-DD" text with a four-digit year, as the date input produces; the extended six-digit year form that `new Date` also accepts (years outside 0..9999) and a day beyond the month's length (handled differently by JavaScript engines) are treated as dates that cannot be read.
- Calendar.ParseIsoDay: see SaleForm.Form.Submit; only the day form of the date-time text is read.
- SalesChart.GroupByMonth: computes each sale's (key, revenue) pair before the loop rather than inside it; the loop body (reset a missing or zero bucket, then add) is the source's.
- SalesChart.BuildSeries: each month's first day is a `Date` value built by `MakeDate`, not a fresh mutable `Date` object.
- SalesChart.Chart.Loaded: the 1000-sale page cap of the chart's query is not enforced on the response, which is taken as given.
- SectionCards.PeriodQuery: the 100-sale page cap is part of the query only; the response is taken as given.
- SaleForm.Form.UpdateLineItem: requires an index in range; the source would fail on a row that does not exist, and the editor only offers existing rows.
- The product dialog's category list fetch is not modelled: a category is the id the form holds. The sale form's product fetch is the catalogue handed to SaleForm.Form.CatalogLoaded.
- Calendar.JsDate.SetHours: requires hours, minutes, seconds and milliseconds in range; the source only calls it with in-range constants, so JavaScript's carrying of out-of-range arguments is not modelled.
- Pagination.NextPage: requires the current page to be at least 1, which every handler keeps (`ListPage.Valid`).
- The three list pages share one `Pagination.ListPage` class, since their state and handlers are the same; only their query builders and delete messages differ.
