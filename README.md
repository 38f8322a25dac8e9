# tipbase core, modelled in Dafny

tipbase is a creator-tipping web application. A visitor sends an on-chain
USDC transfer to a creator and posts the transaction to the server, which
records it as a tip. Creators register a display name, which becomes their
vanity URL. They see their tips and analytics that merge the application's
own records with figures from the Bitquery chain indexer.

This project models the server-side core of that flow:

- `Common` (`common.dfy`): shared values.
  - `Option` and `Result`.
  - JavaScript truthiness of optional strings.
  - Integers that may be `NaN`, printed the way JavaScript prints them below 10^21.
  - The HTTP reply shape.
  - `Link`: the outcome of one call to the store.
  - `Where`, the row filter behind PostgREST's `.eq`.
- `Slug` (`slug.dfy`): the two-pass regex rewrite that turns a display name into a vanity URL.
- `Ledger` (`ledger.dfy`), the entities and the analytics fold of lib/database.ts:
  - the `User`, `CreatorProfile` and `Tip` rows;
  - `getCreatorTipAnalytics`'s fold (count, sum, distinct senders, earliest and latest timestamp, days active, the two guarded averages);
  - the newest-first order of `getCreatorTips`.
- `Database` (`database.dfy`): the Supabase tables as one class, `Tables`.
  - It has sequence fields `users`, `profiles` and `tips`, and an id counter.
  - The inserts `createUser`, `createCreatorProfile` and `recordTip` are methods that append a row.
  - The lookups are functions that read the tables.
  - `.single()` is modelled exactly: zero rows or several give the code `PGRST116`, which the lookups turn into `null`.
- `Bitquery` (`bitquery.dfy`): what lib/bitquery.ts does with an indexer response.
  - A failed fetch, a non-OK status or an unreadable body becomes a thrown error.
  - `verifyTransaction` picks the first transaction.
  - `getCreatorTips` falls back to an empty list.
  - `getTippingAnalytics` computes its window start and shapes its report.
- `Transactions` (`transactions.dfy`): `formatAddress`, with JavaScript's `String.prototype.slice` written out.
- `TipsRoute`, `AnalyticsRoute` and `ProfileRoute`: the `POST` and `GET` handlers of app/api/tips, app/api/analytics and app/api/profile.
  - Handlers that write are methods on `Tables`.
  - Handlers that only read are functions.

Everything outside the program is an argument:

- what a store call returns (`Link`: `Up`, or `Down(code)` with the error code the server sent);
- the indexer's response, as a function from the query's parameters to what came back;
- `parseFloat` and `parseInt`;
- the clock reading `now`, in milliseconds;
- whether `BITQUERY_API_KEY` is set.

Row ids, which the store generates as uuids, are fresh naturals taken from a counter.

Where the code does less than one might expect, the model does what the code does:

- The tip handler has no duplicate-hash check and no idempotent path.
  - A repeated hash is inserted again when the store accepts it (`TipsRoute.RepeatedHashIsRecordedTwice`).
  - When the store refuses the insert, the answer is a 500 like any other insert failure.
- A verification that finds no transaction blocks the tip, exactly as a failed transaction does.
- An amount of zero is refused only because it is falsy. A negative amount is never checked.
- A `days` parameter that `parseInt` cannot read is not replaced by 30.
  - The period reads `NaN days`.
  - The chain query then throws a `RangeError`, so the report is the ledger's alone.
- `source` is only ever `hybrid` or `database` (app/api/analytics/route.ts:49).

Two consequences of the code that the model makes explicit:

- Profile `POST` is not atomic. When the profile insert fails after the user was created, the new user row stays.
- `POST /api/profile` always inserts a new profile. Registering twice with the same wallet and display name leaves two profiles with the same vanity URL and the same user. From then on, `.single()` refuses both lookups and `GET` answers 404 (`ProfileRoute.RegisteringTwiceHidesTheProfile`). The source's tables may carry a uniqueness constraint that refuses the second insert instead; the schema is not part of this model.

## Model

| member | source | states |
|---|---|---|
| Common.Where | lib/database.ts:153 | the filtered rows are exactly the accepted rows, each with its multiplicity, and every row it returns is accepted and comes from the table |
| Common.WhereKeepsAll | lib/database.ts:115 | a filter that every row passes returns the table unchanged, in order |
| Common.NatToString | app/api/analytics/route.ts:50 | a non-empty string of decimal digits with no leading zero, as JavaScript prints a non-negative integer below 10^21 |
| Common.NatToStringRoundTrip | app/api/analytics/route.ts:50 | reading the printed digits back gives the number again |
| Common.IntToString | app/api/analytics/route.ts:50 | a negative integer prints as a minus sign followed by the digits of its magnitude, as JavaScript prints one of magnitude below 10^21 |
| Common.Truthy | app/api/tips/route.ts:17 | the definition of truthiness for an optional string: present and non-empty |
| Common.JsIntToString | app/api/analytics/route.ts:50 | the definition of `${days}`: `NaN` for NaN, `IntToString` otherwise (below 10^21) |
| Common.Average | lib/database.ts:193 | the guarded average times the count gives the total when the count is positive, and is 0 otherwise |
| Slug.LowerChar | lib/database.ts:88 | an upper-case ASCII letter becomes its lower-case letter; every other character is kept |
| Slug.ToLower | lib/database.ts:88 | the length is kept and each character is lower-cased in place |
| Slug.DropWhitespace | lib/database.ts:88 | returns a suffix that does not start with whitespace, with everything it dropped being whitespace |
| Slug.DashRuns | lib/database.ts:88 | the result has no whitespace and is no longer than its input |
| Slug.KeepSlugChars | lib/database.ts:88 | the result holds only `[a-z0-9-]` and is no longer than its input |
| Slug.Slugify | lib/database.ts:88 | a vanity URL holds only `[a-z0-9-]` and is no longer than the display name |
| Slug.ToLowerOfSlugChars | lib/database.ts:88 | lower-casing leaves a slug unchanged |
| Slug.DashRunsWithoutWhitespace | lib/database.ts:88 | the whitespace rewrite leaves a string without whitespace unchanged |
| Slug.KeepSlugCharsOfSlugChars | lib/database.ts:88 | the character filter leaves a slug unchanged |
| Slug.SlugFixedPoint | lib/database.ts:88 | a string is its own slug if and only if it holds only `[a-z0-9-]` |
| Slug.SlugIdempotent | lib/database.ts:88 | slugging a slug gives it back unchanged |
| Slug.DropWhitespaceOfRun | lib/database.ts:88 | consuming a whitespace run stops at the first non-whitespace character |
| Slug.WhitespaceRunBecomesOneDash | lib/database.ts:88 | a whole run of whitespace becomes one `-` |
| Slug.NonWhitespaceKept | lib/database.ts:88 | characters outside a whitespace run pass through the whitespace rewrite unchanged |
| Slug.SpacedPunctuationGivesTwoDashes | lib/database.ts:88 | `"a ! b"` slugs to `"a--b"`: adjacent dashes are not collapsed |
| Ledger.TipInput.WithId | lib/database.ts:132-137 | the stored tip carries every submitted field and the store's id |
| Ledger.Senders | lib/database.ts:176 | the set holds a sender exactly when some tip has that sender |
| Ledger.EarliestTimestamp | lib/database.ts:180 | a timestamp of one of the tips that is no later than any of them |
| Ledger.LatestTimestamp | lib/database.ts:181 | a timestamp of one of the tips that is no earlier than any of them |
| Ledger.CeilDiv | lib/database.ts:186 | the least integer `q` with `a <= q * b`, so `Math.ceil(a / b)` |
| Ledger.DaysBetween | lib/database.ts:184-187 | at least 1, and the span lies in `((d - 2) days, (d - 1) days]` |
| Ledger.SumAmounts | lib/database.ts:175 | the definition of the left-to-right sum; its properties are `SumAmountsWithout` and `SumAmountsPermutation` |
| Ledger.Summarize | lib/database.ts:174-198 | the definition of the fold; its properties are `CountsOfSummary`, `EmptySummary`, `NonEmptySummary`, `AveragesOfSummary` and `SummaryIgnoresOrder` |
| Ledger.SendersBound | lib/database.ts:176 | there are no more distinct senders than tips |
| Ledger.CountsOfSummary | lib/database.ts:174-176 | `totalTips` is the number of tips, `totalAmount` their sum, and `uniqueTippers` is at most `totalTips` and positive exactly when there is a tip |
| Ledger.EmptySummary | lib/database.ts:180-197 | with no tips, both timestamps are null and `daysActive` and both averages are 0 |
| Ledger.NonEmptySummary | lib/database.ts:179-187 | with tips, earliest ≤ latest, they bound every tip's timestamp, and `daysActive` is the ceiling of the span in days plus one, so at least 1 |
| Ledger.AveragesOfSummary | lib/database.ts:193-197 | both averages are the guarded quotients, and `daysActive` is 0 exactly when there are no tips |
| Ledger.SumAmountsWithout | lib/database.ts:175 | the sum is the sum without one tip plus that tip's amount |
| Ledger.SumAmountsPermutation | lib/database.ts:175 | the sum does not depend on the order of the rows |
| Ledger.SendersPermutation | lib/database.ts:176 | the sender set does not depend on the order of the rows |
| Ledger.TimestampsPermutation | lib/database.ts:179-181 | earliest and latest do not depend on the order of the rows |
| Ledger.SummaryIgnoresOrder | lib/database.ts:166-198 | the analytics depend only on which rows the store returns, not on their order |
| Ledger.InsertNewestFirst | lib/database.ts:154 | inserting into a newest-first list keeps it newest-first and adds exactly the one row |
| Ledger.SortNewestFirst | lib/database.ts:154 | the result is newest-first and a permutation of the rows |
| Database.Single | lib/database.ts:69 | one row gives that row; zero rows or several give `PGRST116`; a failed call gives its own code |
| Database.NullIfNotFound | lib/database.ts:71-74 | the not-found code becomes `null`; any other error is thrown on |
| Database.Tables.CreateUser | lib/database.ts:44-56 | on success exactly one user row with a fresh id is appended and returned; on failure the error is thrown and nothing changes |
| Database.Tables.CreateCreatorProfile | lib/database.ts:87-103 | on success exactly one profile whose vanity URL is the display name's slug is appended and returned; on failure nothing changes |
| Database.Tables.RecordTip | lib/database.ts:132-141 | on success exactly one row carrying the submitted tip and a fresh id is appended and returned; on failure nothing changes |
| Database.Tables.GetUserByAddress | lib/database.ts:64-77 | an error exactly when the call fails with a code other than `PGRST116`; the user exactly when one row has the address; `null` otherwise |
| Database.Tables.OwnerOf | lib/database.ts:114 | the embedded wallet address belongs to a user row with the profile's user id; `None` only when no such row exists |
| Database.Tables.GetCreatorProfileByVanityUrl | lib/database.ts:111-124 | an error exactly when the call fails with another code; the profile and its owner's address exactly when one row has the vanity URL; `null` otherwise |
| Database.Tables.GetProfileOfUser | app/api/profile/route.ts:66-70 | succeeds exactly when the user has exactly one profile, and returns it |
| Database.Tables.GetCreatorTips | lib/database.ts:149-158 | exactly the receiver's rows, each as often as stored, newest first; a failed call is thrown |
| Database.Tables.GetCreatorTipAnalytics | lib/database.ts:166-199 | the fold over exactly the receiver's rows; a failed call is thrown |
| Database.AnalyticsCountReceivedTips | lib/database.ts:174-176 | the analytics count exactly the receiver's stored tips, and `uniqueTippers` is positive exactly when one exists |
| Bitquery.Receive | lib/bitquery.ts:42-56 | a failed fetch, a non-OK status (with the `Bitquery API error: ` message) and an unreadable body are errors; otherwise the list |
| Bitquery.VerifyTransaction | lib/bitquery.ts:18-62 | the first transaction, or `null` exactly when the list is empty; every failure is raised again |
| Bitquery.GetCreatorTips | lib/bitquery.ts:72-127 | the `transfers` list, or the empty list when it is absent; every failure is raised again; the token defaults to USDC and the limit to 100 |
| Bitquery.WindowStart | lib/bitquery.ts:149 | the window starts `days` days before `now`, and is invalid exactly for NaN or a start outside the ECMAScript time range |
| Bitquery.ReportOf | lib/bitquery.ts:180-188 | count, senders, amount and days map to the report's fields, the currency defaults to USDC, and both averages are guarded quotients |
| Bitquery.ShapeAnalytics | lib/bitquery.ts:173-192 | failures are raised again; an empty list gives an all-zero USDC report; otherwise the first row's report |
| Bitquery.GetTippingAnalytics | lib/bitquery.ts:138-193 | an invalid window start throws before anything is fetched; otherwise the shaped answer to the query for that window; the token defaults to USDC and `days` to 30 |
| Bitquery.DefaultQueries | lib/bitquery.ts:72-76 | called with the address alone, the list query asks for at most 100 USDC transfers and the aggregate query for the 30 days before `now` in USDC |
| Bitquery.FailuresAreThrown | lib/bitquery.ts:42-61 | verification succeeds exactly on an OK response whose body has the expected shape |
| Bitquery.EmptyAnalytics | lib/bitquery.ts:178-188 | an empty answer gives counts, amount and days of 0 in `USDC` |
| Bitquery.WindowLength | lib/bitquery.ts:141-149 | a longer window starts earlier, and the default one starts 2,592,000,000 ms before `now` |
| Transactions.SliceIndex | lib/transactions.ts:51 | a negative index counts from the end, and every index is clamped to the string |
| Transactions.Slice | lib/transactions.ts:51 | a slice is never longer than the string |
| Transactions.FormatAddress | lib/transactions.ts:49-52 | `''` for an empty address; otherwise the clamped prefix of `length + 2` characters, `...` and the last `length` characters, the whole address when `length` is 0 |
| Transactions.DefaultFormatOfFullAddress | lib/transactions.ts:49-51 | a 42-character address formats to its first 6 and last 4 characters around `...`, 13 characters in all |
| Transactions.ShortAddressesAreClamped | lib/transactions.ts:51 | an address shorter than the prefix is shown whole, and one no longer than `length` is shown whole on both sides |
| TipsRoute.AmountTruthy | app/api/tips/route.ts:17 | the definition of `!amount` negated: an absent amount, the number 0 and the empty string are falsy; `AmountTruthiness` states the cases |
| TipsRoute.HasRequiredFields | app/api/tips/route.ts:17 | the definition of the validation: every field but `message` is truthy |
| TipsRoute.Blocks | app/api/tips/route.ts:27 | the definition of the blocking check: verification answered `null` or `success` false |
| TipsRoute.Admitted | app/api/tips/route.ts:17-36 | the definition of a body that passes validation and is not blocked; `Post` answers from it |
| TipsRoute.ParseAmount | app/api/tips/route.ts:42 | the definition of `parseFloat(amount)`: a number is kept, a string is parsed |
| TipsRoute.Submitted | app/api/tips/route.ts:39-47 | the row carries the submitted fields, the parsed amount and the server time |
| TipsRoute.Post | app/api/tips/route.ts:11-57 | 500 for an unreadable body; 400 and no insert when a required field is falsy or verification blocks; otherwise exactly one row is inserted and returned, or 500 with nothing inserted when the store refuses |
| TipsRoute.Get | app/api/tips/route.ts:62-83 | 400 without an address; 500 when the store fails; otherwise the store's answer unchanged, the receiver's tips newest first |
| TipsRoute.VerificationErrorDoesNotBlock | app/api/tips/route.ts:33-36 | a verification that throws for any reason (failed fetch, non-OK status, body of the wrong shape) lets a valid tip through |
| TipsRoute.UnconfirmedTransactionBlocks | app/api/tips/route.ts:26-32 | a transaction the indexer does not know, or reports as failed, blocks the tip |
| TipsRoute.AmountTruthiness | app/api/tips/route.ts:17 | the string `"0"` passes, the number `0` does not, and a negative number passes |
| TipsRoute.RepeatedHashIsRecordedTwice | app/api/tips/route.ts:39-49 | posting the same admitted body twice records two rows with the same hash and different ids |
| AnalyticsRoute.Days | app/api/analytics/route.ts:15 | the definition of the `days` rule: `parseInt` of a non-empty parameter, 30 otherwise; `DefaultPeriod` and `UnreadableDaysFallBack` state the cases |
| AnalyticsRoute.Merge | app/api/analytics/route.ts:39-51 | the definition of the spread; `Get` states its effect |
| AnalyticsRoute.OnChain | app/api/analytics/route.ts:28-36 | chain figures exist exactly when the key is set and the USDC query does not throw |
| AnalyticsRoute.Get | app/api/analytics/route.ts:11-61 | 400 without an address; 500 when the ledger fails; otherwise the four chain figures replace the ledger's exactly when the chain answered, the other ledger figures stay, `source` says which, and `period` is `days` followed by ` days` |
| AnalyticsRoute.DefaultPeriod | app/api/analytics/route.ts:15 | without the parameter the period is `30 days` and the window is the 30 days before `now` |
| AnalyticsRoute.UnreadableDaysFallBack | app/api/analytics/route.ts:15 | an unreadable `days` gives the period `NaN days` and a database-only report |
| AnalyticsRoute.ThreeTipsSummary | lib/database.ts:174-176 | three tips of 1, 5 and 10 give 3 tips, a total of 16 and at most 3 tippers |
| AnalyticsRoute.LedgerFallbackScenario | app/api/analytics/route.ts:25-51 | with no chain answer, three ledger tips of 1, 5 and 10 give a database report of 3 tips worth 16 |
| AnalyticsRoute.HybridOverrideScenario | app/api/analytics/route.ts:39-49 | a chain answer of 10 transfers from 7 senders worth 100 replaces those figures and the average per tip, tags `hybrid`, and keeps the ledger's `daysActive` |
| ProfileRoute.HasRequiredFields | app/api/profile/route.ts:16 | the definition of the validation: wallet address and display name are truthy |
| ProfileRoute.Registered | app/api/profile/route.ts:23-32 | the definition of the outcome of the store calls of `POST`, case by case; `Post` and `Register` promise it |
| ProfileRoute.Post | app/api/profile/route.ts:11-39 | 500 for an unreadable body; 400 and nothing created without wallet or display name; otherwise the outcome `Registered` describes, and a returned profile belongs to a user row with the submitted wallet |
| ProfileRoute.Register | app/api/profile/route.ts:23-32 | an existing user gets no second row; an unknown one gets exactly one, which stays if the profile insert fails; the profile carries that user's id |
| ProfileRoute.FindOrCreateUser | app/api/profile/route.ts:24-27 | the found user unchanged, or exactly one new user when none is found; a lookup error creates nothing |
| ProfileRoute.Get | app/api/profile/route.ts:46-93 | 400 without parameters; by vanity URL or else by address, the one matching profile; 500 only when the first lookup fails with another code; 404 in every other case, including a failed profile query |
| ProfileRoute.VanityUrlTakesPrecedence | app/api/profile/route.ts:61-63 | with a vanity URL the answer does not depend on the address parameter |
| ProfileRoute.RegisterOnEmptyTables | app/api/profile/route.ts:24-30 | a first registration creates one user and one profile of that user |
| ProfileRoute.RegisteringTwiceHidesTheProfile | app/api/profile/route.ts:61-83 | after a second registration with the same wallet and name, both lookups answer 404 |
| ProfileRoute.DuplicateProfilesAreHidden | app/api/profile/route.ts:61-83 | two profiles with one vanity URL and one user make both lookups answer 404 |

## Left out

- Network and process I/O are not modelled: `fetch`, the GraphQL query text, the `X-API-KEY` header, the Supabase client, `NextResponse` and `console.error`. Their outcomes are arguments.
- Floating point is not modelled: amounts and averages are exact reals. JavaScript's rounding of sums and quotients, and `NaN` amounts, are not represented.
- `parseFloat` and `parseInt` are arguments. `parseInt` gives an integer or `NaN`, and `parseFloat` gives a real.
- Dates are integers of milliseconds. ISO-8601 parsing and printing of `timestamp`, and the `Date` objects `earliestTip` and `latestTip`, are not modelled.
- `createdAt` is filled by the store, not by the source. The model uses the clock argument `now` for it.
- Row ids are naturals from a counter, standing in for the store's uuids.
- Common.NatToString: JavaScript prints an integer-valued number of magnitude 10^21 or more in exponent form (`1e+21`); the model prints every digit. `parseInt`'s rounding to a double above 2^53 is not modelled either, since the digits JavaScript prints then depend on that rounding.
- Common.IntToString: the same exponent form for negative numbers of magnitude 10^21 or more (`-1e+21`) is not modelled.
- AnalyticsRoute.Get: for a `days` of magnitude 10^21 or more, `period` here holds every digit, where the route prints the exponent form (`1e+21 days`).
- Slug.LowerChar: `toLowerCase` is modelled on ASCII letters only. Unicode case mapping of other letters is not modelled.
- Request bodies are typed records of optional strings. A JSON value of another type in a string field is not represented. A body that does not parse, or the JSON `null`, makes the destructuring throw and is the unreadable body, answered with 500. A number, string, boolean or array destructures to absent fields; it is the body whose fields are all `None`, answered with 400.
- Table constraints (uniqueness of a hash, a vanity URL or a wallet) are not part of the source. A refused insert is a `Down` outcome.
- Concurrency between requests is not modelled: each handler runs alone against the tables.
- Bitquery's `gasValue`, `gasPrice` and other fields that nothing reads are not modelled. The `limit` and the ordering of the transfers query are the indexer's concern, so they are only passed on.
- `createUSDCTransferCall` (lib/transactions.ts) is left out: it is a call into viem's encoding.
- `formatTimestamp` and `formatAmount` are left out: they are locale and `toFixed` formatting.
- The React pages, components and styling, and lib/turnkey.ts, are outside the core.
