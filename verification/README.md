# autoChase core, modelled in Dafny

autoChase is a small invoice-reminder web application. Its logic is
modelled here, one Dafny module per source file, with proofs of what
that logic promises. The modelled parts are:

- the reminder scheduler: candidate days per rule, weekday shifting,
  "future only", placeholder substitution and the final sort by time;
- the plan limits;
- the PayFast payment-gateway helpers: the MD5 signature base string,
  the subscription checkout and the postback validation;
- the ITN (instant transaction notification) webhook;
- the CSV import and export of invoices;
- the day-list fields of the settings form;
- the local invoice store;
- the outbox: plan-limit truncation, mark-as-sent and the unsent count;
- the search filter of the ITN audit log.

Modules:

- Shared: `Wrappers` (Option and Result), `Strings` (the JavaScript
  string built-ins the source uses) and `Types` (the records of
  lib/types.ts).
- lib/plans.ts: `Plans`.
- lib/scheduler.ts: `Calendar`, `Template`, `Scheduler`.
- lib/payfast.ts: `Encoding`, `Payfast`.
- pages/api/payfast/notify.ts: `Notify`.
- pages/autochase/invoices.tsx: `CsvImport`.
- pages/autochase/settings.tsx: `SettingsForm`.
- lib/storage.ts: `Storage`.
- pages/autochase/outbox.tsx: `Outbox`.
- pages/autochase/admin/itn.tsx: `ItnAdmin`.

Effects become parameters:

- the clock is `now`, an instant in local minutes, with day 0 being
  Thursday 1970-01-01 and reminders anchored at 09:00;
- the money formatter `fmtMoney`, the MD5 digest, `crypto.randomUUID`,
  `Date.now`, `toFixed` and `parseFloat(...) * 100` are function
  parameters;
- the postback reply and the stored settings row are inputs of the
  webhook.

Where the code does something step by step it is a method with loops
proved against a specification function:

- the weekday shift, the schedule loops and the insertion sort;
- the character scan of `splitCsvLine` and the row loop of `parseCsv`;
- the `findIndex` and in-place overwrite of `upsertLocal` (on an array
  copy).

The webhook handler is a method too: it has no loop, and its contract
states the reply, the postback, the audit row and the settings write
outright.

Behaviour of the code worth knowing:

- 2025-01-17 is a Friday and is not moved by the weekday shift
  (`Scheduler.FridayExample`).
- Substitution chains six global replaces, so a substituted value
  holding a later placeholder is expanded (`Template.ChainedExpansion`).
- The reminder sort is stable and compares times only; ties keep
  generation order (`Scheduler.SortByWhenStable`).
- Offsets are not de-duplicated. Reminder ids built from
  (invoice, day, kind) can repeat once weekend points are moved to the
  same Monday (`Scheduler.SharedIdsOnShift`).
- The webhook takes the plan from whatever precedes the first `-` in
  `m_payment_id` and does not check it against the known plan names
  (`Notify.PlanFromRef`).
- The IP allowlist is a substring test: an allowed `10.0.0.1` also
  admits `10.0.0.123` (`Notify.IpSubstringMatch`).

## Model

| member | source | states |
|---|---|---|
| Plans.GetPlanLimit | lib/plans.ts:9-12 | a missing or empty plan and the starter plan give 50; pro gives 250; only business is unlimited; any other stored name has no entry (`undefined`); every numeric limit is positive |
| Plans.StarterBelowPro | lib/plans.ts:3-7 | the starter ceiling is below the pro ceiling |
| Calendar.Weekday | lib/scheduler.ts:6 | `getDay` is a number 0..6 |
| Calendar.DayOfAt | lib/scheduler.ts:45 | the 09:00 instant of a day falls on that day |
| Calendar.AtMonotone | lib/scheduler.ts:65 | comparing 09:00 instants compares days, in both directions |
| Calendar.WeekendsAreShort | lib/scheduler.ts:6 | no three consecutive days are all weekend days |
| Calendar.FirstWeekdayFrom | lib/scheduler.ts:7-11 | the result is a weekday at most two days later, and every day skipped is a weekend day |
| Calendar.NextWeekday | lib/scheduler.ts:7-11 | the day-by-day loop of `nextWeekday` returns the first weekday on or after the day |
| Calendar.ParseIsoDay | lib/scheduler.ts:45 | a `YYYY-MM-DD` due date is accepted iff its month is 1 to 12 and its day 1 to 31, and then gives the day number of its year, month and day |
| Calendar.PadTwoDigits | lib/scheduler.ts:3 | `pad` writes 1..99 as two digits that read back as the number |
| Calendar.NatToStringFourDigits | lib/scheduler.ts:4 | a four-digit year is written with four characters |
| Calendar.IsoRoundTrip | lib/scheduler.ts:4 | `toISODate` output of a four-digit-year date is 10 characters and reads back as the same date |
| Calendar.EpochAnchor | lib/scheduler.ts:6 | day 0 is 1970-01-01, a Thursday |
| Calendar.FridayAnchor | lib/scheduler.ts:6 | 2025-01-10 is day 20098, a Friday |
| Calendar.FridayIso | lib/scheduler.ts:4 | day 20098 is written 2025-01-10 |
| Calendar.IsWeekend | lib/scheduler.ts:6 | `getDay()` is 0 or 6; its promises are carried by `WeekendsAreShort`, `FirstWeekdayFrom` and `EpochAnchor` |
| Calendar.ToISODate | lib/scheduler.ts:3-4 | `YYYY-MM-DD` with padded month and day; `IsoRoundTrip` and `FridayIso` carry its promises |
| Template.BuildPaymentLink | lib/scheduler.ts:21-26 | with no template or an empty one, the link is the invoice's own link or "" |
| Template.PaymentLinkTemplateVerbatim | lib/scheduler.ts:21-26 | a template without the two placeholders is used unchanged |
| Template.InterpolateUntouched | lib/scheduler.ts:28-36 | text without any of the six placeholders comes back unchanged |
| Template.YourNameTokenIsolated | lib/scheduler.ts:30-35 | the yourName token holds none of the five earlier tokens |
| Template.YourNameDefault | lib/scheduler.ts:35 | with no business name, or an empty one, `{{yourName}}` renders as "Accounts" |
| Template.YourNameSurvives | lib/scheduler.ts:31-34 | the earlier replaces leave `{{yourName}}` in place |
| Template.ChainedExpansion | lib/scheduler.ts:28-36 | a client name that is itself `{{yourName}}` is expanded to the sender name, so substitution is not one pass |
| Template.Interpolate | lib/scheduler.ts:28-36 | the six chained replaces; `InterpolateUntouched`, `ChainedExpansion`, `YourNameDefault` and `YourNameSurvives` carry its promises |
| Scheduler.BeforePoints | lib/scheduler.ts:47-52 | one "before" point per offset |
| Scheduler.AfterPoints | lib/scheduler.ts:57-62 | one "after" point per offset |
| Scheduler.Emit | lib/scheduler.ts:64-76 | no more reminders than points |
| Scheduler.InsertByWhenPermutes | lib/scheduler.ts:80 | inserting adds exactly the new reminder to the multiset |
| Scheduler.InsertByWhenSorted | lib/scheduler.ts:80 | inserting into a time-sorted list keeps it sorted |
| Scheduler.SortByWhen | lib/scheduler.ts:80 | the sort returns a time-ordered permutation of its input |
| Scheduler.GatherErrSticks | lib/scheduler.ts:43-77 | once an invoice has thrown, the whole loop throws |
| Scheduler.BeforeSchedule | lib/scheduler.ts:47-52 | the "before" loop builds the before points |
| Scheduler.AfterSchedule | lib/scheduler.ts:57-62 | the "after" loop builds the after points |
| Scheduler.PointsFor | lib/scheduler.ts:46-62 | the `schedule` array is the before points, the due-date point if asked for, then the after points |
| Scheduler.EmitPoints | lib/scheduler.ts:64-76 | the inner loop renders exactly the points not before `now`, in order |
| Scheduler.SortReminders | lib/scheduler.ts:80 | the final sort, as insertions, gives the sorted permutation |
| Scheduler.ScheduleReminders | lib/scheduler.ts:38-81 | the method returns the scheduler's result or its error |
| Scheduler.CandidateShape | lib/scheduler.ts:47-62 | each point lies on the day its rule names, moved forward to a weekday when asked, and never moved otherwise |
| Scheduler.CandidateCount | lib/scheduler.ts:46-62 | the candidate list has exactly as many points as the rules ask for in total |
| Scheduler.CandidatePositions | lib/scheduler.ts:47-62 | point i < b is the Before point on the shifted day due − beforeDays[i]; point b is the On point on the shifted due day when asked; point b + o + i is the After point on the shifted day due + afterDays[i] |
| Scheduler.EmitExactly | lib/scheduler.ts:64-76 | a reminder is emitted iff it renders a point at or after `now` |
| Scheduler.EmitRenders | lib/scheduler.ts:64-76 | the emitted list is the rendering, point by point and in order, of the points not before `now`; nothing is merged |
| Scheduler.RenderedReminder | lib/scheduler.ts:66-75 | a reminder is addressed to the client, linked to the invoice, unsent, at 09:00 on the point's day, with the id `<invoice>-<date>-<kind>` and the interpolated texts |
| Scheduler.ForInvoiceExactly | lib/scheduler.ts:44-76 | a paid invoice contributes `[]`; a readable due date gives the rendering, in generation order, of its candidate points not before `now`; membership iff issued; an error iff its due date is invalid and it has a point |
| Scheduler.ForInvoiceCount | lib/scheduler.ts:46-76 | an invoice gets at most one reminder per point |
| Scheduler.GatherFailsIff | lib/scheduler.ts:43-77 | the loop throws iff some invoice's contribution throws |
| Scheduler.GatherMembers | lib/scheduler.ts:43-77 | on success the result holds exactly what the invoices contribute, within the count bound |
| Scheduler.GatherConcat | lib/scheduler.ts:43-77 | on success the result is the contributions concatenated in invoice order, every copy kept |
| Scheduler.ScheduleFailsIff | lib/scheduler.ts:45 | scheduling throws iff an unpaid invoice with at least one point has an unreadable due date |
| Scheduler.ScheduleExactly | lib/scheduler.ts:38-81 | the result is sorted by time, holds exactly the reminders issued for the invoices, at most invoices times points, and is a permutation of the concatenated contributions, duplicates included |
| Scheduler.CollectExactly | lib/scheduler.ts:38-77 | before sorting, the collected reminders are the invoices' contributions concatenated in order, exactly those issued, at most invoices times points |
| Scheduler.IssuedFacts | lib/scheduler.ts:64-76 | every issued reminder is for an unpaid invoice, not before `now`, at 09:00, on a weekday when asked, on its rule's day, with the derived id |
| Scheduler.AtTimeAppend | lib/scheduler.ts:80 | selecting the reminders of one time distributes over concatenation |
| Scheduler.InsertByWhenAtTime | lib/scheduler.ts:80 | an insertion puts the new reminder after those of equal time |
| Scheduler.SortByWhenStable | lib/scheduler.ts:80 | the reminders of any one time keep their generation order |
| Scheduler.NextReminderDate | lib/scheduler.ts:83-87 | null for a paid invoice or when none is scheduled; otherwise the earliest time among its scheduled reminders; throws exactly when scheduling it throws |
| Scheduler.SortedHead | lib/scheduler.ts:83-87 | the first reminder of the sorted schedule is one of the invoice's own and is due no later than any of them |
| Scheduler.FridayExample | lib/scheduler.ts:47-62 | due Friday 2025-01-10 with 3 before, on, 7 after and weekdays only gives Tue 01-07, Fri 01-10 and Fri 01-17 |
| Scheduler.SharedIdsOnShift | lib/scheduler.ts:66 | offsets landing on Saturday and Sunday both move to Monday and give the same reminder id |
| Scheduler.ScheduleKeepsDuplicates | lib/scheduler.ts:38-81 | with offsets 1 and 2 before a Monday, weekdays only, `scheduleReminders` returns two reminders with one time and one id |
| Scheduler.Candidates | lib/scheduler.ts:47-62 | befores, on-due, afters; `CandidatePositions`, `CandidateShape` and `CandidateCount` carry its promises |
| Scheduler.ForInvoice | lib/scheduler.ts:44-76 | one invoice's reminders or the throw; `ForInvoiceExactly` (the exact list), `EmitRenders` and `ForInvoiceCount` carry its promises |
| Scheduler.Schedule | lib/scheduler.ts:38-81 | `scheduleReminders`; `ScheduleExactly`, `ScheduleFailsIff`, `SortByWhenStable` and `ScheduleKeepsDuplicates` carry its promises |
| Encoding.Utf8 | lib/payfast.ts:46 | one to four bytes, a single byte iff ASCII |
| Encoding.PercentByte | lib/payfast.ts:46 | a byte is written as `%` and two hex digits |
| Encoding.PercentBytes | lib/payfast.ts:46 | three characters per byte |
| Encoding.EncodeLength | lib/payfast.ts:46 | encoding never shortens, and leaves a string unchanged iff every character is unreserved |
| Encoding.ReplacePercentBytes | lib/payfast.ts:46 | the `%20` replace never matches inside the escape of a byte other than a space |
| Encoding.FormEncodeIsPlusEncode | lib/payfast.ts:46 | `encodeURIComponent` then replacing `%20` by `+` is encoding a space as `+` directly |
| Encoding.PlusEncodeAlphabet | lib/payfast.ts:46 | the one-pass encoding uses only unreserved characters, `%`, hex digits and `+` |
| Encoding.FormEncodeAlphabet | lib/payfast.ts:46-47 | an encoded value holds no space, `&` or `=`, so it cannot break a `key=value&...` string |
| Payfast.LookupMember | lib/payfast.ts:41-46 | in an object, reading a key gives the value it holds |
| Payfast.LookupFirst | lib/payfast.ts:41-46 | an entry whose key is new is what a read of that key finds |
| Payfast.Keep | lib/payfast.ts:44 | the filter keeps exactly the entries the test accepts |
| Payfast.KeepMultiset | lib/payfast.ts:44 | the filter keeps every copy of an accepted entry and none of a rejected one |
| Payfast.KeepAppend | lib/payfast.ts:44 | filtering distributes over concatenation |
| Payfast.KeepPermutation | lib/payfast.ts:43-44 | filters of reorderings are reorderings |
| Payfast.InsertByKeyPermutes | lib/payfast.ts:45 | inserting a key adds exactly that entry |
| Payfast.InsertByKeySorted | lib/payfast.ts:45 | inserting keeps the keys in ascending order |
| Payfast.SortByKey | lib/payfast.ts:45 | `Object.keys(...).sort()` gives the entries in ascending key order, a permutation |
| Payfast.SortedUnique | lib/payfast.ts:45 | two key-sorted orderings of the same object are equal |
| Payfast.EncodedPairs | lib/payfast.ts:46 | one `key=value` string per entry |
| Payfast.EmptyValueIgnored | lib/payfast.ts:44 | an entry with an empty value does not change the base string |
| Payfast.BaseStringOrderFree | lib/payfast.ts:41-49 | the base string and the signature depend only on the object's entries, not their order |
| Payfast.BaseStringSplits | lib/payfast.ts:46-47 | without a passphrase, splitting the base string at `&` gives back the sorted `key=value` pairs |
| Payfast.PassphraseLast | lib/payfast.ts:47 | a non-empty passphrase only appends `&passphrase=<encoded>`; an absent or empty one adds nothing |
| Payfast.SignatureOfBase | lib/payfast.ts:48 | the signature is a function of the base string |
| Payfast.GetEndpoint | lib/payfast.ts:33-35 | the URL is on the sandbox host when asked for, on the live host otherwise, and ends in `/eng/process` |
| Payfast.GetValidateEndpoint | lib/payfast.ts:37-39 | the URL is on the same host as `getEndpoint`'s, ends in `/eng/query/validate`, and is never the process URL |
| Payfast.ValidationBodyEntries | lib/payfast.ts:57-61 | the postback body holds every entry but `signature`, including empty values |
| Payfast.ValidateItn | lib/payfast.ts:62-68 | no verdict (the call throws) iff the request failed; valid iff the reply is ok and its trimmed text is `VALID` |
| Payfast.StringifiedKeys | lib/payfast.ts:78-95 | the checkout fields have the thirteen keys of the object literal, all different |
| Payfast.SubscriptionSigned | lib/payfast.ts:93-97 | the checkout posts to the sandbox or live URL; its fields are the stringified fields plus a `signature` over exactly them |
| Payfast.SignatureAppended | lib/payfast.ts:97 | adding `signature` to fields without one keeps keys distinct, is removed by the webhook's filter and reads back |
| Payfast.StringifiedTerms | lib/payfast.ts:77-95 | the field set carries the plan's amount, frequency 3, cycles 0, subscription type 1, the reference and the buyer's email |
| Payfast.SubscriptionTerms | lib/payfast.ts:77-97 | the signed checkout carries the same terms |
| Payfast.BaseString | lib/payfast.ts:41-48 | the signed base string; `BaseStringOrderFree`, `EmptyValueIgnored`, `BaseStringSplits` and `PassphraseLast` carry its promises |
| Payfast.SignParams | lib/payfast.ts:41-49 | the digest of the base string; `SignatureOfBase` and `BaseStringOrderFree` carry its promises |
| Payfast.ValidationBody | lib/payfast.ts:57-62 | the postback form body; `ValidationBodyEntries` carries its promise |
| Payfast.BuildSubscription | lib/payfast.ts:71-98 | the signed checkout; `SubscriptionSigned`, `StringifiedTerms` and `SubscriptionTerms` carry its promises |
| Notify.NonBlank | pages/api/payfast/notify.ts:23 | `filter(Boolean)` keeps exactly the non-empty strings |
| Notify.AllowlistEntries | pages/api/payfast/notify.ts:23 | an entry is allowed iff it is a non-empty trimmed comma-separated piece; entries hold no comma; unset or empty `PAYFAST_IPS` allows everyone |
| Notify.AnyContained | pages/api/payfast/notify.ts:25 | `some` is true iff some entry occurs in the address |
| Notify.IpSubstringMatch | pages/api/payfast/notify.ts:25 | an allowed `10.0.0.1` admits `10.0.0.123` |
| Notify.ClientIp | pages/api/payfast/notify.ts:24 | the forwarded address when present and non-empty, otherwise the socket address or "" |
| Notify.Sandbox | pages/api/payfast/notify.ts:32 | unset or empty means sandbox; otherwise sandbox iff the value is `true` |
| Notify.CompleteGate | pages/api/payfast/notify.ts:41 | only a present `payment_status` can pass, in any letter case |
| Notify.PlanFromRef | pages/api/payfast/notify.ts:43 | the plan read from a reference holds no `-` |
| Notify.PlanFromRefRoundTrip | pages/api/payfast/notify.ts:43 | `<plan>-<n>` reads back as the plan; a reference without `-` reads as itself; a missing one as "" |
| Notify.ReferenceNamesPlan | pages/api/payfast/notify.ts:43 | the checkout's generated reference, read by the webhook, names the plan bought |
| Notify.CheckoutSignatureAccepted | pages/api/payfast/notify.ts:11-20 | a checkout field set delivered in any order passes the signature check |
| Notify.SignedFieldsAccepted | pages/api/payfast/notify.ts:11-20 | fields with distinct keys that carry their own non-empty signature pass the check in any order |
| Notify.SignatureAuthenticates | pages/api/payfast/notify.ts:14-20 | with a collision-free digest, a passing notification has the base string of the fields that were signed |
| Notify.MergePlan | pages/api/payfast/notify.ts:54 | the new settings set `plan` and keep every other stored key and value |
| Notify.Handle | pages/api/payfast/notify.ts:7-78 | non-POST gives 405; POST always gives 200 `OK`, sends the postback and writes the audit row of the three checks; the plan is written iff all checks pass, the status is COMPLETE and the reference names a plan |
| Notify.FailedPostbackDenies | pages/api/payfast/notify.ts:28-38 | a failed postback is never validated |
| Notify.SigOk | pages/api/payfast/notify.ts:11-20 | a present signature equal to the local one; `SignedFieldsAccepted`, `CheckoutSignatureAccepted` and `SignatureAuthenticates` carry its promises |
| Notify.Allowlist | pages/api/payfast/notify.ts:23 | the allowlist; `AllowlistEntries` carries its promise |
| Notify.IpOk | pages/api/payfast/notify.ts:25 | empty allowlist or a contained entry; `AnyContained` and `IpSubstringMatch` carry its promises |
| Notify.Complete | pages/api/payfast/notify.ts:41 | `payment_status` upper-cased is `COMPLETE`; `CompleteGate` carries its promise |
| CsvImport.Scan | pages/autochase/invoices.tsx:187-203 | a line always gives at least one field |
| CsvImport.SplitLine | pages/autochase/invoices.tsx:187-203 | the character loop of `splitCsvLine` gives the specified fields |
| CsvImport.FieldsTrimmed | pages/autochase/invoices.tsx:202 | every field comes back trimmed |
| CsvImport.UnquotedLine | pages/autochase/invoices.tsx:187-203 | a line without quotes splits at every comma and is trimmed piece by piece |
| CsvImport.FieldCount | pages/autochase/invoices.tsx:187-203 | every line has one more field than commas outside quotes, counted by `CommasOutside` reading each quote as a toggle |
| CsvImport.ScanEscaped | pages/autochase/invoices.tsx:193-194 | a doubled quote inside quotes reads as one quote and a single quote closes the field |
| CsvImport.QuotedField | pages/autochase/invoices.tsx:193-198 | a quoted field reads back whole, commas and quotes included |
| CsvImport.QuotedRoundTrip | pages/autochase/invoices.tsx:187-203 | any fields, quoted and joined with commas, read back as exactly those fields |
| CsvImport.PlainRoundTrip | pages/autochase/invoices.tsx:187-203 | fields with no comma, quote, line break or edge space, joined with commas, read back as themselves |
| CsvImport.DropCR | pages/autochase/invoices.tsx:162 | `split(/\r?\n/)` gives one line per newline-separated piece |
| CsvImport.NonBlankLines | pages/autochase/invoices.tsx:162 | exactly the lines that do not trim to "" are kept |
| CsvImport.IndexOf | pages/autochase/invoices.tsx:165 | `indexOf` is -1 or a position holding the key |
| CsvImport.IndexOfFirst | pages/autochase/invoices.tsx:165 | -1 iff the key is absent; otherwise its first position |
| CsvImport.Take10 | pages/autochase/invoices.tsx:177 | `slice(0, 10)` gives the prefix of length min(10, length) |
| CsvImport.ParseCsvLines | pages/autochase/invoices.tsx:161-185 | the method gives the specified invoices |
| CsvImport.ReadRows | pages/autochase/invoices.tsx:167-183 | the row loop collects one invoice per data line with enough columns, in order |
| CsvImport.ParseCsvBound | pages/autochase/invoices.tsx:162-169 | blank lines are ignored, no lines give no invoices, and there are at most as many invoices as data lines |
| CsvImport.ParseCsvEmpty | pages/autochase/invoices.tsx:163 | empty text gives no invoices |
| CsvImport.RowRules | pages/autochase/invoices.tsx:170-181 | `paid` iff the cell lower-cases to `true`; the currency is the non-empty cell, and `ZAR` for an empty cell; the due date is the first ten characters of its cell or of the import time |
| CsvImport.RowDefaults | pages/autochase/invoices.tsx:170-181 | each of the eight fields takes its default when the header lacks its column: `""` texts, `cents("0")`, `ZAR`, the import day, unpaid, an empty link |
| CsvImport.ExportCells | pages/autochase/invoices.tsx:132 | one cell per header |
| CsvImport.ExportedLines | pages/autochase/invoices.tsx:131-133 | the header line plus one line per invoice |
| CsvImport.HeaderPositions | pages/autochase/invoices.tsx:130 | each header name is found at its own column |
| CsvImport.PaidCell | pages/autochase/invoices.tsx:178 | the exported `paid` cell reads back as the flag |
| CsvImport.ReadExportedRow | pages/autochase/invoices.tsx:170-181 | the cells of an exported invoice read back as that invoice, with a fresh id and creation time |
| CsvImport.MakeRowInHeaderOrder | pages/autochase/invoices.tsx:170-181 | columns in the export's header order fill the invoice fields of those names, defaults only where a cell is empty |
| CsvImport.ExportedLinesClean | pages/autochase/invoices.tsx:131-133 | no exported line holds a line break or is blank |
| CsvImport.LinesOfJoin | pages/autochase/invoices.tsx:162 | non-blank lines without breaks, joined with newlines, split back into themselves |
| CsvImport.ExportedRowAt | pages/autochase/invoices.tsx:167-183 | each exported data line reads back as its invoice |
| CsvImport.HeaderRead | pages/autochase/invoices.tsx:164 | the exported header line reads back as the header names |
| CsvImport.ExportRoundTrip | pages/autochase/invoices.tsx:128-185 | importing an export of exportable invoices gives back the same invoices in order, each with a fresh id and creation time and its currency and payment-link defaults written out |
| CsvImport.SplitCsvLine | pages/autochase/invoices.tsx:187-203 | `splitCsvLine`; `SplitLine`, `FieldCount`, `FieldsTrimmed`, `QuotedRoundTrip` and `PlainRoundTrip` carry its promises |
| CsvImport.MakeRow | pages/autochase/invoices.tsx:170-181 | one row's invoice; `RowRules`, `RowDefaults` and `MakeRowInHeaderOrder` carry its promises |
| CsvImport.ParseCsv | pages/autochase/invoices.tsx:161-185 | `parseCsv`; `ParseCsvLines`, `ParseCsvBound`, `ParseCsvEmpty` and `ExportRoundTrip` carry its promises |
| SettingsForm.Piece | pages/autochase/settings.tsx:118-119 | a piece gives at most one number, never negative |
| SettingsForm.NumsBound | pages/autochase/settings.tsx:116-119 | at most one number per piece, none negative |
| SettingsForm.CsvNums | pages/autochase/settings.tsx:115-120 | every number is non-negative; at most one more than there are commas |
| SettingsForm.NumsAppend | pages/autochase/settings.tsx:116-119 | pieces are read one by one, so order is kept and a dropped piece affects nothing else |
| SettingsForm.NumsFromPieces | pages/autochase/settings.tsx:117-119 | every number read is what some trimmed piece parses to |
| SettingsForm.Shown | pages/autochase/settings.tsx:53 | one written number per day |
| SettingsForm.NonNegative | pages/autochase/settings.tsx:119 | no longer than the list |
| SettingsForm.IntShown | pages/autochase/settings.tsx:53 | a written number has no comma or edge space and parses back to itself |
| SettingsForm.NumsShown | pages/autochase/settings.tsx:53 | reading written numbers gives the non-negative ones |
| SettingsForm.ShownReadBack | pages/autochase/settings.tsx:53 | a shown day list reads back as its non-negative days; the empty list reads back as [] |
| SettingsForm.RoundTrip | pages/autochase/settings.tsx:53 | a list of non-negative days, shown and read back, is unchanged |
| SettingsForm.Apply | pages/autochase/settings.tsx:15 | every key in the patch is overwritten, every other key kept |
| SettingsForm.OnChange | pages/autochase/settings.tsx:15 | before the settings load an edit is dropped; after, it is applied |
| SettingsForm.PatchLaws | pages/autochase/settings.tsx:15 | an empty patch changes nothing, a patch applied twice is applied once, two edits are the one merged edit |
| SettingsForm.EditBeforeDays | pages/autochase/settings.tsx:53 | the before list becomes `csvNums` of the text; everything else is kept |
| SettingsForm.EditAfterDays | pages/autochase/settings.tsx:55 | the after list becomes `csvNums` of the text; everything else is kept |
| SettingsForm.EditShownUnchanged | pages/autochase/settings.tsx:53-55 | leaving a day field as shown leaves the settings unchanged |
| Storage.FirstWithId | lib/storage.ts:106 | the first position holding the id, or none iff no entry has it |
| Storage.FindIndex | lib/storage.ts:106 | `findIndex` gives the first matching index, or -1 iff none matches |
| Storage.UpsertLocal | lib/storage.ts:104-109 | the copy-then-overwrite-or-prepend method gives the specified list |
| Storage.UpsertShape | lib/storage.ts:104-109 | the length grows by one iff the id is new; the saved invoice is in the result |
| Storage.UpsertReplaces | lib/storage.ts:107 | a present id: the first match is replaced in place and nothing else changes |
| Storage.UpsertPrepends | lib/storage.ts:107 | a new id: the invoice goes first and the old list follows |
| Storage.UpsertIdempotent | lib/storage.ts:104-109 | saving the same invoice twice is saving it once |
| Storage.UpsertKeepsUnique | lib/storage.ts:104-109 | upserting keeps ids unique |
| Storage.Delete | lib/storage.ts:74 | exactly the entries with another id are kept |
| Storage.DeleteAppend | lib/storage.ts:74 | deleting distributes over concatenation, so order is kept |
| Storage.DeleteAbsent | lib/storage.ts:74 | deleting an absent id changes nothing |
| Storage.DeleteKeepsUnique | lib/storage.ts:74 | deleting keeps ids unique |
| Storage.DeleteAfterUpsert | lib/storage.ts:63-74 | deleting a just-saved id gives the old list without that id |
| Storage.Upsert | lib/storage.ts:104-109 | `upsertLocal`; `UpsertLocal`, `UpsertShape`, `UpsertReplaces`, `UpsertPrepends` and `UpsertIdempotent` carry its promises |
| Outbox.Truncate | pages/autochase/outbox.tsx:31 | a prefix of the schedule; unlimited and `slice(0, undefined)` keep all; a limit keeps min(limit, length) |
| Outbox.LimitReachedIff | pages/autochase/outbox.tsx:32 | the alert shows iff a numeric limit is below the schedule length; without it nothing is cut |
| Outbox.TruncateKeepsEarliest | pages/autochase/outbox.tsx:31 | the kept reminders are sorted and none is later than a dropped one |
| Outbox.Generate | pages/autochase/outbox.tsx:27-37 | nothing happens iff the settings are not loaded |
| Outbox.GeneratedWithinPlan | pages/autochase/outbox.tsx:27-37 | the outbox is the start of the sorted schedule, within the plan limit; the alert reports kept and scheduled counts iff something was cut |
| Outbox.PlanCeilings | pages/autochase/outbox.tsx:30-33 | starter, empty or no plan keeps at most 50, pro 250, business everything; any other stored name keeps everything with no alert |
| Outbox.UnsentCount | pages/autochase/outbox.tsx:60 | the count is at most the outbox size |
| Outbox.MarkSentEffect | pages/autochase/outbox.tsx:42 | only `sentAt` of items with the sent id changes; all of them get the time; a non-empty time marks them sent |
| Outbox.MarkSentIdempotent | pages/autochase/outbox.tsx:42 | sending again at the same time changes nothing |
| Outbox.SendLowersCount | pages/autochase/outbox.tsx:42 | the unsent count falls by exactly the unsent items carrying the sent id |
| Outbox.UnsentWithIdPositive | pages/autochase/outbox.tsx:60 | that fall is positive iff an unsent item carries the id |
| Outbox.MarkSent | pages/autochase/outbox.tsx:42 | the sent stamp on matching items; `MarkSentEffect`, `MarkSentIdempotent` and `SendLowersCount` carry its promises |
| ItnAdmin.MatchingRows | pages/autochase/admin/itn.tsx:30-34 | exactly the rows matching the query are kept |
| ItnAdmin.FilteredMembers | pages/autochase/admin/itn.tsx:27-35 | an empty query shows all rows; any other exactly the rows with a column containing it, ignoring case |
| ItnAdmin.MatchingRowsAppend | pages/autochase/admin/itn.tsx:30 | filtering keeps the log's order |
| ItnAdmin.CaseInsensitive | pages/autochase/admin/itn.tsx:28 | a query and its upper- or lower-case forms show the same rows |
| ItnAdmin.NullRowsHidden | pages/autochase/admin/itn.tsx:31-33 | a row with all three searched columns null matches no non-empty query |
| ItnAdmin.OwnStatusFound | pages/autochase/admin/itn.tsx:31 | searching for a row's own payment status, in any case, finds it |
| ItnAdmin.Filtered | pages/autochase/admin/itn.tsx:27-35 | the admin filter; `FilteredMembers`, `CaseInsensitive` and `NullRowsHidden` carry its promises |

## Left out

- Persistence is not modelled. This covers the Supabase clients and
  queries, localStorage reads and writes, and the `fetch`-based
  `remote*` helpers. The webhook's settings upsert and audit insert are
  returned as values instead of being performed.
- The postback `fetch` is not performed. Its reply is the input
  `Postback`: either a failed request or an (ok, text) pair.
- MD5 (RFC 1321) is not modelled. It is a function parameter; one lemma
  assumes it has no collisions, and says so.
- Time zones and `Date` parsing leniency beyond YYYY-MM-DD are not
  modelled. Days are local day numbers with 09:00 as the anchor, and
  `now` is a parameter.
- `fmtMoney`, `toFixed(2)` and `parseFloat(...) * 100` are function
  parameters, because they involve locale formatting and floating
  point. The usage-meter percentage is not modelled.
- `crypto.randomUUID` and `Date.now` are parameters.
- `String.replace` special `$` patterns in replacement values are not
  modelled: replacement is literal.
- Case conversion covers only the ASCII letters. That is exact for
  `COMPLETE`, `true` and the header names.
- ItnAdmin.CaseInsensitive: holds for the ASCII case mapping only. In
  JavaScript `'ſ'.toUpperCase()` is `'S'` and `'ß'` upper-cases to
  `'SS'`, so a query and its upper-case form can show different rows.
- ItnAdmin.OwnStatusFound: holds for the ASCII case mapping only. A
  status such as `ß`, whose JavaScript upper case lower-cases to
  something else, is not found by its upper-cased form.
- Scheduler.ScheduleFailsIff: the JavaScript `Date` range of
  ±100,000,000 days is not modelled. An offset that moves a point
  outside it (for example an after offset of 100000000) gives an
  Invalid Date, which is not before `now` and makes `toISOString`
  throw. The model renders a reminder for it instead.
- Scheduler.SortByWhen: sorts by the numeric instant. The source
  compares `toISOString` strings. They agree for years 0 to 9999, but
  later years are written `+0YYYYY-…`, and that text order differs.
- Notify.Handle: body values are sequences of Unicode scalar values, so
  a lone UTF-16 surrogate cannot occur. In JavaScript such a value makes
  `encodeURIComponent` throw inside `signParams` (pages/api/payfast/notify.ts:14). That
  is outside any `try`, so the handler fails with no reply, postback or
  audit row, and "POST always gives 200" does not hold there.
- Plans.GetPlanLimit: a stored plan name that is an `Object.prototype`
  member (`toString`, `constructor`, …) reads a function from the table
  in JavaScript. The model treats it like any other unknown name.
- Sorting compares characters as code points. JavaScript compares
  UTF-16 code units, which agree below U+10000.
- The `sort` calls are modelled as insertion into a sorted sequence
  built afresh, not as an in-place sort of the array.
- The webhook reads `x-forwarded-for` as a single string; an array
  value is not modelled.
- The webhook body's values are strings. Non-string JSON values and
  their `String(v)` forms are not modelled.
- The stored settings row is a map from keys to strings.
- The webhook is modelled as one call that returns everything at once;
  the awaits between its steps are not modelled.
- Thrown errors caught in the webhook (`console.error`) are not
  modelled, and neither is logging.
- The CSV import reads one clock value for both the missing due date
  and `createdAt`, where the source reads the clock twice.
- CsvImport.ExportRoundTrip: proved only for invoices whose exported
  cells need no quoting and whose amount survives `toFixed(2)` and
  back. `exportCsv` does not quote cells, so other invoices do not
  round-trip.
- The `mailto:` link that `send` opens is not modelled (window
  handling), and neither are React state updates and rendering.
- The ITN log page's admin e-mail check and query are not modelled.
  The `payload` column is not searched and is not modelled.
- The remaining settings-form handlers (text fields, check boxes, plan
  selector) are the same `onChange` merge with a one-key patch; only
  the two day-list fields are spelled out.
- SettingsForm.Patch does not model a patch that sets a required key
  to `undefined`.
- Concurrency (`Promise.all`, async flows) is not modelled.
- UI components, routing, authentication pages, next.config.js and
  tailwind.config.ts are not modelled.
- The env and HTTP plumbing of pages/api/payfast/subscribe.ts and
  status.ts is not modelled.
