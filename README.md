# VoltAI billing demo: in-memory backend and dashboard list updates

This project models the logic of the VoltAI utility-billing demo in Dafny:

- **Customer registry** (`server/simple-index.js`). The backend keeps a module-level `customers` array that starts with three seed records. `POST /customers` appends a record whose id is the current length plus one. `PUT /customers/:id/usage` overwrites the usage of the first record with that id and re-derives its alert. `DELETE /customers/:id` splices that record out. `GET /customers` and `GET /health` read the array. Every write sets the alert to `"High Usage"` exactly when the monthly usage is above 800 kWh. The model is the class `Registry.Server`: a `seq<Customer>` field, one method per route, and replies of type `Http.Response` (the body, or a 400 or 404 with the source's error message).
- **Bill calculator and anomaly detector** (same file), as pure functions in `Billing`. The bill is `usage × 0.15`, kept as an exact `real`. Its guard `!usage || isNaN(usage)` refuses missing, zero and non-numeric usage. The anomaly flag is `latest > 1.5 × mean`, and it needs a non-empty history.
- **Employee dashboard** (`client/voltai-employee/src/App.tsx`), in `Dashboard`. After each server reply, the dashboard rebuilds its local list with a spread, `filter` or `map`. It also has the add-customer form guard, the generated test customer, and the "Alerts" figure. The lemmas compare the local list with the server's table after the same request.
- `Decimal` models the two number/text conversions the core relies on: `${n}` for an integer and `parseInt`.

Properties proved:
- Every write keeps the alert consistent with usage.
- As long as only creates and updates happen, ids stay 1..n in list order.
- From a table whose ids are 1..n (as the seed's are, and as creates and updates keep them), deleting any record but the last makes the next create reuse an id that is still in the table (`Registry.DeleteThenCreateReusesId`, and the scenario from the seed in `Registry.SeedDeleteThenCreate`).
- `clearAlert` breaks the consistency the server keeps.
- The dashboard's filter and map-replace give back the server's new table when ids are unique. They diverge when the id in the request is held by more than one entry.

The rest of the code assumes that customer ids are unique. The dashboard keys each table row by `customer.id` (`client/voltai-employee/src/App.tsx:300`). It removes and replaces entries by id (`:156`, `:179-181`). The backend gives each new customer id `customers.length + 1`. Deletes and usage updates keep unique ids unique, because they never add a record or change an id. A create can break uniqueness, though. From a table whose ids are 1..n, deleting any record but the last makes the next create reuse an id that is still in the table. The model follows the backend as written. The dashboard lemmas show where the two parts then stop agreeing.

## Model

| member | source | states |
|---|---|---|
| `Registry.Server.constructor` | server/simple-index.js:12-16 | the table starts as the three seed records; they satisfy the alert rule (a missing alert counts as none), and their ids are 1, 2, 3 in order |
| `Registry.Server.GetCustomers` | server/simple-index.js:46-48 | GET /customers returns the whole table |
| `Registry.Server.HealthCount` | server/simple-index.js:143 | /health reports the number of records |
| `Registry.Server.PostCustomer` | server/simple-index.js:51-74 | a missing or empty name or address gives 400 and leaves the table unchanged; otherwise exactly one record is appended at the end and earlier records are untouched; alert consistency and sequential ids are preserved |
| `Registry.NewCustomer` | server/simple-index.js:58-65 | the new record's id is the old length plus one; its usage is `initialUsage \|\| 0`; name, address and timestamp are as given; its alert agrees with its usage |
| `Registry.Server.PutUsage` | server/simple-index.js:77-94 | an unknown id gives 404 and no change; otherwise only the first record with the id is replaced, by its usage-updated version; length and all other records are unchanged; alert consistency, sequential ids and unique ids are preserved |
| `Registry.WithUsage` | server/simple-index.js:86-87 | the updated record has the new usage and the alert that usage calls for; id, name, address and timestamp are unchanged |
| `Registry.FindIndex` | server/simple-index.js:100 | `findIndex`: the index of the first record with the id; `None` (the -1) exactly when no record has it |
| `Registry.Server.DeleteCustomer` | server/simple-index.js:97-111 | an unknown id gives 404 and no change; otherwise the first record with the id is removed and the rest keep their order; alert consistency and unique ids are preserved; after deleting a non-last record from a table with sequential ids, the next id to be allocated is already held by the last record |
| `Registry.SequentialIdsAreUnique` | server/simple-index.js:59 | ids 1..n in list order are pairwise distinct |
| `Registry.DeleteThenCreateReusesId` | server/simple-index.js:59 | with sequential ids, deleting any record but the last and then creating one gives the new record the id of the current last record, so ids are no longer unique |
| `Registry.SeedDeleteThenCreate` | server/simple-index.js:105 | from the seed, deleting id 1 and then creating a customer leaves a three-record table in which "Mike Johnson" (id 3) is followed by the new record, also id 3, so ids are no longer unique; its initial usage of 850 yields the "High Usage" alert |
| `Registry.SeedTwoDeletesThenCreate` | server/simple-index.js:59 | from the seed, deleting ids 1 and 2 and then creating a customer gives the new record id 2, which no remaining record holds, so the table's ids stay unique; id reuse needs ids 1..n before the delete |
| `Customers.ConsistentAlertIffHighUsage` | server/simple-index.js:87 | for a consistent record, the alert is truthy exactly when usage is above 800 |
| `Billing.CalculateBill` | server/simple-index.js:28-43 | missing, zero or non-numeric usage gives 400 with the source's message, and only those; otherwise the bill echoes the usage, the rate is 0.15, the amount is usage × rate, and the amount is a whole number of cents, so rounding to two decimals changes nothing |
| `Billing.BillMessageNamesUsage` | server/simple-index.js:41 | the message is "Bill calculated for " followed by text that `parseInt` reads back as the billed usage |
| `Billing.BillFor350` | server/simple-index.js:35-41 | 350 kWh gives amount 52.5, rate 0.15 and the message "Bill calculated for 350 kWh" |
| `Billing.DetectAnomalies` | server/simple-index.js:114-136 | a missing or empty history gives 400, and only that; otherwise the latest value is the last element, the average is the mean, and the flag holds exactly when latest > 1.5 × average; the message is the normal one exactly when there is no anomaly; the percentage change is undefined (JSON `null`) exactly when the average is 0, and otherwise is (latest − average) / average × 100; an anomalous message carries that percentage |
| `Billing.AnomalyIntegerCriterion` | server/simple-index.js:124 | over integers the flag is `2·n·latest > 3·sum` |
| `Billing.SingleReadingFlaggedIffNegative` | server/simple-index.js:121-124 | a one-value history is flagged exactly when the value is negative; a single non-negative value never is |
| `Billing.SteadyHistoryIsNormal` | server/simple-index.js:121-124 | a history of identical non-negative values is never flagged |
| `Billing.AnomalyIffOverFiftyPercent` | server/simple-index.js:124-125 | with a positive average, the flag holds exactly when the percentage change exceeds 50 |
| `Decimal.NoLeadingZero` | server/simple-index.js:41 | the decimal text of a positive number has no leading zero, as `${n}` gives |
| `Decimal.IntToString` | server/simple-index.js:41 | `${n}` gives non-empty text: digits, with a leading minus sign for negative values |
| `Decimal.ParseInt` | client/voltai-employee/src/App.tsx:89 | `parseInt` on text without leading whitespace or a `0x` prefix (all a number input can hold): `NaN` exactly when no decimal digit follows the optional sign; the sign of the result follows the leading minus |
| `Decimal.ParseIntRoundTrip` | client/voltai-employee/src/App.tsx:89 | `parseInt` of the decimal text of an integer gives the integer back |
| `Dashboard.AddCustomerBody` | client/voltai-employee/src/App.tsx:73-90 | with an empty name or address no request is sent, and only then; a sent body carries the form's name and address (so the server accepts it) and usage 0 for an empty usage field |
| `Dashboard.SubmittedUsageReachesServer` | client/voltai-employee/src/App.tsx:89 | a usage field holding the decimal text of `u` produces a server record with usage `u` |
| `Dashboard.TestCustomerBody` | client/voltai-employee/src/App.tsx:117-121 | the test customer has a non-empty name and address and an initial usage in 200..699 |
| `Dashboard.TestCustomerHasNoAlert` | client/voltai-employee/src/App.tsx:120 | the record the server creates for a test customer never has an alert |
| `Dashboard.AfterAdd` | client/voltai-employee/src/App.tsx:98-99 | on success the local list is the old list followed by the returned customer; on failure it is unchanged (addCustomer and addTestCustomer alike) |
| `Dashboard.ClearAlert` | client/voltai-employee/src/App.tsx:138-142 | length and order are preserved; entries with other ids are identical; entries with the id lose their alert and nothing else; no usage changes |
| `Dashboard.ClearAlertBreaksConsistency` | client/voltai-employee/src/App.tsx:140 | clearing the alert of a high-usage entry leaves the list inconsistent with the alert rule |
| `Dashboard.ClearAlertOnSeed` | client/voltai-employee/src/App.tsx:138-142 | the seed is consistent, and clearing customer 3's alert makes it inconsistent |
| `Dashboard.AlertCountAfterClear` | client/voltai-employee/src/App.tsx:235 | after `clearAlert(id)` the Alerts figure counts exactly the alerting entries with other ids |
| `Dashboard.WithoutId` | client/voltai-employee/src/App.tsx:156 | the filtered list is no longer than the old one and holds no entry with the id |
| `Dashboard.WithoutIdMembers` | client/voltai-employee/src/App.tsx:156 | an entry is in the filtered list exactly when it was in the old list with a different id |
| `Dashboard.WithoutIdDistributes` | client/voltai-employee/src/App.tsx:156 | the filter distributes over concatenation, so the remaining entries keep their original order |
| `Dashboard.AfterDelete` | client/voltai-employee/src/App.tsx:154-156 | on success the list is the filter of the old list: no entry with the id remains, and the others stay in their original order (see `WithoutIdMembers`, `WithoutIdDistributes`); on failure the list is unchanged |
| `Dashboard.DeleteMirrorsServer` | client/voltai-employee/src/App.tsx:154-156 | with unique ids, the local list after a successful delete equals the server's table after DELETE (the found record spliced out), and a 404 leaves both equal and unchanged |
| `Dashboard.DeleteDivergesOnDuplicateId` | client/voltai-employee/src/App.tsx:156 | with two entries of one id, the dashboard's filtered list differs from the server's table after DELETE |
| `Dashboard.DuplicateIdDeleteScenario` | client/voltai-employee/src/App.tsx:156 | from the seed, delete 1, add, then delete 3: the server still holds a record with id 3, while the dashboard shows none |
| `Dashboard.ReplaceId` | client/voltai-employee/src/App.tsx:179-181 | every entry with the id becomes the returned customer; length and the other entries are unchanged |
| `Dashboard.AfterUpdate` | client/voltai-employee/src/App.tsx:177-181 | length and the entries with other ids are unchanged; on success every entry with the id becomes the returned customer; on failure the whole list is unchanged |
| `Dashboard.UpdateMirrorsServer` | client/voltai-employee/src/App.tsx:177-181 | with unique ids, the local list after a successful update equals the server's table after PUT, and a 404 leaves both unchanged |
| `Dashboard.UpdateDivergesOnDuplicateId` | client/voltai-employee/src/App.tsx:179-181 | with two entries of one id, the dashboard overwrites the second with the first one's updated record, while the server leaves the second unchanged |
| `Dashboard.AlertCount` | client/voltai-employee/src/App.tsx:235 | the Alerts figure never exceeds the number of entries |
| `Dashboard.AlertCountOfConsistentList` | client/voltai-employee/src/App.tsx:235 | on a list that keeps the alert rule, the Alerts figure is the number of entries with usage above 800 |

## Left out

- `server/index.js` is not part of this model. Every operation there is a call to the Supabase client, and ids and ordering come from the database. Its alert rule and its name/address check are the same as the in-memory backend's. Against that backend the dashboard's `initialUsage` field would be ignored, because that backend reads `monthly_usage`.
- JavaScript coercions are not modelled. Route ids and usages are integers. `parseInt` on route parameters, numeric strings as usage, non-string names and fractional usages are not modelled.
- Decimal.ParseInt: does not skip leading whitespace, does not read a `0x`/`0X` prefix as hexadecimal (the source calls `parseInt` without a radix), and has unbounded precision. Its only caller reads a number input, whose text has neither.
- `Registry.Server.PutUsage`: a request without `usage` stores `undefined` in the source. The model always takes an integer usage.
- Floating point is not modelled. Amounts, averages and percentages are exact reals. `toFixed(2)` rounding of the average and the percentage is left out. For the bill amount, rounding is proved to change nothing. The anomaly message keeps the exact percentage instead of its two-decimal text. The dashboard's `calculateRevenue` and per-row amounts are float display values and are left out.
- Clocks and randomness become parameters: `created_at` is the `now` argument, and the test customer's usage draw is `roll`. The `/health` timestamp and status, `GET /` server info, the success messages, Express/CORS wiring and `app.listen` are left out.
- Response objects are left out. In the source, the record returned by PUT is the same object as the one in the table. The model copies it. The difference is not observable, because the reply is serialised at once.
- Concurrency is not modelled. Requests run one at a time, so the race between concurrent creates is outside the model.
- React state and hooks are left out, along with fetch, `confirm`/`prompt` dialogs, popups, the error banner, the form reset after a successful add, `fetchCustomers` (which replaces the local list with the server's), login and logout. `mobile/VoltAICustomer/App.tsx` and `Login.tsx` are not part of this model.
