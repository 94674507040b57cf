# FleetPulse core, modelled in Dafny

FleetPulse tracks a user's vehicles. The server keeps the vehicles and the user
accounts. The browser keeps each vehicle's logs in `localStorage` under keys of
the form `<prefix><vehicleId>`:

- fuel logs, under `fuelLogs:`;
- maintenance logs, under `maintenanceLogs:`;
- insurance policies, under `insuranceLogs:`;
- service reminders, under `reminders:`;
- the latest odometer record, under `odometer:`.

This project models the logic under the pages and handlers. In the browser:

- the per-vehicle stores: read, overwrite, prepend-then-sort;
- reminders: add, delete and status toggle, the due check and the list of due reminders;
- the log summary: date-range filter, mileage figures and cost totals;
- the add-entry handlers of the three log pages, including the maintenance page's follow-up reminder;
- the odometer card's validation, confirmation, save and cancel;
- the profile form's checks;
- the migration helpers: check, restore and export.

On the server:

- the vehicle schema as a validator;
- the ownership-checked vehicle handlers;
- the account handlers: register, login, profile update, token refresh and logout.

Layout, one module per file:

- `JsValues`: JavaScript values as a datatype.
  - `Num` is an exact `real`, and `NaN` is its own value.
  - Objects are maps, and property access gives `None` for `undefined`.
  - Also here: `JSON.stringify`/`JSON.parse` (`JsonCopy`, where NaN becomes null), `Number(...)` of form text (`ToNumber`), and `YYYY-MM-DD` dates as day numbers.
- `LocalStorage`: the `Storage` class.
  - It holds a `map<string, Stored>`. A stored text is represented by what `JSON.parse` makes of it, or by `Corrupt`.
  - `Seqs` holds the generic `filter`/`map`/`reduce` lemmas.
- `LogOrder`: the comparator sort `new Date(b[f]) - new Date(a[f])`, as a stable insertion sort.
  - `LogStore` holds the shape the three log stores share.
  - `FuelLogs`, `MaintenanceLogs`, `InsuranceLogs`, `Odometer` and `Reminders` are the five stores.
- Page and handler modules:
  - `FuelLogsPage`, `InsuranceLogsPage`, `MaintenanceLogsPage`, `OdometerCard`, `LogSummary` and `EditProfilePage`: classes whose fields are the component state and whose methods are the handlers.
  - `Migration`: the migration helpers.
  - `VehicleModel` and `VehicleController`: the schema, and the vehicle collection as a class.
  - `AuthController`: the user collection as a class.

Inputs the source reads from outside are parameters:

- clock readings: `Date.now()`, ISO timestamps, and "today" as a day number;
- the user's answer to `window.confirm`;
- the outcome of the profile request;
- the id a verified refresh token carries;
- the password check against the stored password.

A bcrypt hash is a `Digest` that compares equal only to its own text.

`updateVehicle` uses `findByIdAndUpdate` with the request body. That sets the schema paths present in the body and keeps the others; it does not replace the whole document.

## Model

| member | source | states |
|---|---|---|
| JsValues.JsonCopy | fleetpulse/src/utils/fuelLogs.js:26 | `JSON.parse(JSON.stringify(v))` is JSON-safe and keeps arrays as arrays of the same length and objects as objects with the same keys |
| JsValues.JsonCopyOfSafe | fleetpulse/src/utils/fuelLogs.js:14-15 | a value without NaN reads back from JSON as exactly itself |
| JsValues.JsonCopyIdempotent | fleetpulse/src/utils/fuelLogs.js:26 | writing a value read back from JSON and reading it again changes nothing |
| JsValues.ToNumber | fleetpulse/src/pages/FuelLogsPage.jsx:77-79 | `Number('')` is 0; a number written without a minus sign is never negative |
| JsValues.NumOrZero | fleetpulse/src/pages/LogSummaryPage.jsx:185 | `Number(x) \|\| 0` is the number when `Number(x)` is one, and 0 when it is NaN |
| JsValues.Minus | fleetpulse/src/utils/reminders.js:95 | a difference is a number exactly when both operands convert to numbers, and it is their difference |
| JsValues.IntTextRoundTrip | fleetpulse/src/components/OdometerCard.jsx:48 | `Number` of an integer's decimal text is that integer |
| JsValues.DayOf | fleetpulse/src/pages/LogSummaryPage.jsx:107-108 | the day of a date is defined exactly when the date is valid, and the date's time lies within that day |
| LocalStorage.Storage.GetItem | fleetpulse/src/utils/fuelLogs.js:10 | `getItem` gives the stored entry exactly when the key is present, and `null` otherwise |
| LocalStorage.Storage.SetItem | fleetpulse/src/utils/fuelLogs.js:26 | `setItem` replaces exactly that key's entry |
| LocalStorage.Storage.SetJson | fleetpulse/src/utils/fuelLogs.js:26 | `setItem(key, JSON.stringify(v))` stores the JSON copy of v under key and nothing else |
| LocalStorage.ArrayAt | fleetpulse/src/utils/fuelLogs.js:10-19 | the stored array, or [] when the key is absent, the text is empty or unparsable, or the value is not an array |
| LocalStorage.JsonCopyOfSafeList | fleetpulse/src/utils/fuelLogs.js:14-15 | a list of NaN-free entries reads back from JSON as itself |
| LogOrder.Insert | fleetpulse/src/utils/fuelLogs.js:34 | inserting is one entry longer and a permutation of the entry plus the list |
| LogOrder.NewestFirstPermutation | fleetpulse/src/utils/fuelLogs.js:34 | the sort permutes its input |
| LogOrder.InsertPosition | fleetpulse/src/utils/fuelLogs.js:34 | the entry lands right after the entries strictly later than it and before the first that is not |
| LogOrder.InsertNewestFirst | fleetpulse/src/utils/fuelLogs.js:34 | inserting a dated entry into a dated newest-first list keeps it newest first |
| LogOrder.NewestFirstOrdered | fleetpulse/src/utils/fuelLogs.js:34 | when every entry has a valid date, the sorted list is newest first |
| LogOrder.InsertStable | fleetpulse/src/utils/fuelLogs.js:34 | inserting keeps the relative order of entries sharing any one date |
| LogOrder.NewestFirstStable | fleetpulse/src/utils/fuelLogs.js:34 | the sort is stable: entries with equal dates, and the undated ones, keep their input order |
| LogOrder.PrependedFirstAmongEqual | fleetpulse/src/utils/fuelLogs.js:34 | a prepended entry ends up after exactly the strictly later entries, so it precedes every other entry with its date |
| LogStore.StoredLogs | fleetpulse/src/utils/fuelLogs.js:5-20 | [] for an empty vehicle id, otherwise the array under prefix + id, with [] for an absent, corrupt or non-array entry |
| LogStore.SaveLogs | fleetpulse/src/utils/fuelLogs.js:22-27 | no write for an empty vehicle id; otherwise only prefix + id changes, to the JSON of the list |
| LogStore.AddLog | fleetpulse/src/utils/fuelLogs.js:29-37 | [] and no write for an empty id; otherwise the stored list with the entry prepended, sorted newest first, is saved and returned |
| LogStore.SaveThenGet | fleetpulse/src/utils/fuelLogs.js:10-26 | after a save the getter returns the saved list (for NaN-free entries), and every other key reads as before |
| LogStore.AddedList | fleetpulse/src/utils/fuelLogs.js:33-34 | the added list is one longer and a permutation of [log] + current; it is newest first when all are dated; the new entry precedes older entries with the same date |
| LogStore.AddedListReadsBack | fleetpulse/src/utils/fuelLogs.js:34-35 | the list written to storage reads back as the returned list when the entries are NaN-free |
| FuelLogs.GetFuelLogs | fleetpulse/src/utils/fuelLogs.js:5-20 | `getFuelLogs`: [] for an empty id, else the array under `fuelLogs:<id>` or [] |
| FuelLogs.SaveFuelLogs | fleetpulse/src/utils/fuelLogs.js:22-27 | `saveFuelLogs`: no write for an empty id, else only `fuelLogs:<id>` changes, and it reads back as the JSON copy |
| FuelLogs.AddFuelLog | fleetpulse/src/utils/fuelLogs.js:29-37 | `addFuelLog`: prepend, sort by `date` newest first, save exactly the returned list under `fuelLogs:<id>` |
| MaintenanceLogs.GetMaintenanceLogs | fleetpulse/src/utils/maintenanceLogs.js:5-20 | `getMaintenanceLogs`: [] for an empty id, else the array under `maintenanceLogs:<id>` or [] |
| MaintenanceLogs.SaveMaintenanceLogs | fleetpulse/src/utils/maintenanceLogs.js:22-27 | `saveMaintenanceLogs`: no write for an empty id, else only `maintenanceLogs:<id>` changes |
| MaintenanceLogs.AddMaintenanceLog | fleetpulse/src/utils/maintenanceLogs.js:29-37 | `addMaintenanceLog`: prepend, sort by `date` newest first, save exactly the returned list |
| InsuranceLogs.GetInsuranceLogs | fleetpulse/src/utils/insuranceLogs.js:5-20 | `getInsuranceLogs`: [] for an empty id, else the array under `insuranceLogs:<id>` or [] |
| InsuranceLogs.SaveInsuranceLogs | fleetpulse/src/utils/insuranceLogs.js:22-27 | `saveInsuranceLogs`: no write for an empty id, else only `insuranceLogs:<id>` changes |
| InsuranceLogs.AddInsuranceLog | fleetpulse/src/utils/insuranceLogs.js:29-37 | `addInsuranceLog`: prepend, sort by `startDate` newest first, save exactly the returned list |
| Odometer.GetOdometer | fleetpulse/src/utils/odometer.js:5-20 | null for an empty id, a missing key or corrupt text; otherwise the parsed value as it is, with no shape check |
| Odometer.SaveOdometer | fleetpulse/src/utils/odometer.js:22-27 | no write for an empty id; otherwise only `odometer:<id>` changes |
| Odometer.OdometerRecord | fleetpulse/src/utils/odometer.js:33-37 | the record has exactly reading = `Number(reading)`, date = the given date or today's `YYYY-MM-DD` when it is falsy, and lastUpdated |
| Odometer.UpdateOdometer | fleetpulse/src/utils/odometer.js:29-40 | null and no write for an empty id; otherwise the record is saved under `odometer:<id>` and returned |
| Odometer.UpdateThenGet | fleetpulse/src/utils/odometer.js:38-39 | reading right after an update gives the returned record, and other vehicles' records are untouched |
| Odometer.LatestUpdateWins | fleetpulse/src/utils/odometer.js:26-38 | a second update hides the first completely: only the latest record is kept |
| Reminders.GetReminders | fleetpulse/src/utils/reminders.js:5-20 | [] for an empty id, a missing key, corrupt text or a non-array; otherwise the stored array |
| Reminders.SaveReminders | fleetpulse/src/utils/reminders.js:22-27 | no write for an empty id; otherwise only `reminders:<id>` changes |
| Reminders.NewReminder | fleetpulse/src/utils/reminders.js:34-39 | the stored reminder has the input's keys plus id, createdAt and isActive; isActive is true and createdAt fresh whatever the input held; the clock id is used only when the input has none |
| Reminders.AddReminder | fleetpulse/src/utils/reminders.js:29-43 | null and no write for an empty id; otherwise the new reminder is returned and stored in front of the stored list |
| Reminders.NewReminderKeeps | fleetpulse/src/utils/reminders.js:34-39 | every input field except createdAt and isActive is kept, and the new reminder is active |
| Reminders.NewReminderJsonSafe | fleetpulse/src/utils/reminders.js:34-41 | a reminder built from a JSON value survives JSON unchanged |
| Reminders.AddedInFront | fleetpulse/src/utils/reminders.js:40-41 | reading back after an add gives the new active reminder at index 0 and the earlier ones after it, in order |
| Reminders.WithoutReminder | fleetpulse/src/utils/reminders.js:50 | the filtered list is never longer than the stored one |
| Reminders.DeleteReminder | fleetpulse/src/utils/reminders.js:45-53 | [] and no write for an empty id; otherwise the filtered list is saved and returned |
| Reminders.DeleteRemovesExactly | fleetpulse/src/utils/reminders.js:50 | every entry whose id is `===` the given id is removed, every occurrence, and every other entry keeps its count |
| Reminders.DeleteKeepsOrder | fleetpulse/src/utils/reminders.js:50 | deleting distributes over concatenation, so the kept entries stay in order |
| Reminders.DeleteIdempotent | fleetpulse/src/utils/reminders.js:50 | deleting twice equals deleting once |
| Reminders.WithStatus | fleetpulse/src/utils/reminders.js:60-62 | same length; a matching entry gets the new isActive and keeps every other field; a non-matching entry is unchanged |
| Reminders.UpdateReminderStatus | fleetpulse/src/utils/reminders.js:55-65 | [] and no write for an empty id; otherwise the mapped list is saved and returned |
| Reminders.CheckReminder | fleetpulse/src/utils/reminders.js:68-111 | an inactive reminder never alerts; only an active one can alert; `daysOverdue` is never negative; a known `daysUntil` is positive |
| Reminders.CheckValue | fleetpulse/src/utils/reminders.js:70-110 | the object returned always carries `shouldAlert`, true exactly for the two due results |
| Reminders.DateRule | fleetpulse/src/utils/reminders.js:76-92 | an active date reminder alerts iff today is on or after its day, with daysOverdue = today − day; otherwise daysUntil = day − today |
| Reminders.OdometerRule | fleetpulse/src/utils/reminders.js:93-107 | an active odometer reminder alerts iff a record exists and reading ≥ target, with kmOverdue = reading − target; with no record it is quiet |
| Reminders.OtherTypeQuiet | fleetpulse/src/utils/reminders.js:108-110 | a reminder of any other type never alerts |
| Reminders.DateDueStaysDue | fleetpulse/src/utils/reminders.js:80 | once a date reminder is due it stays due on every later day |
| Reminders.OdometerDueStaysDue | fleetpulse/src/utils/reminders.js:94 | an odometer reminder due at one reading is due at every higher reading |
| Reminders.ActiveAmong | fleetpulse/src/utils/reminders.js:116-126 | the due list is never longer than the stored list |
| Reminders.GetActiveReminders | fleetpulse/src/utils/reminders.js:114-127 | an empty vehicle id has no due reminders |
| Reminders.ActiveExactly | fleetpulse/src/utils/reminders.js:116-126 | an entry is in the due list iff it is a stored reminder whose check alerts, spread with `alert` set to that check |
| Reminders.ActiveCarryAlert | fleetpulse/src/utils/reminders.js:123-126 | every entry returned carries an `alert` object with `shouldAlert: true` |
| Reminders.ActiveKeepsOrder | fleetpulse/src/utils/reminders.js:116-126 | the due list keeps stored order: the due list of a concatenation is the concatenation of the due lists |
| FuelLogsPage.NewFuelLog | fleetpulse/src/pages/FuelLogsPage.jsx:74-81 | the new entry has exactly id, date as typed, `Number` of liters, price and odometer, and createdAt |
| FuelLogsPage.NewFuelLogJsonSafe | fleetpulse/src/pages/FuelLogsPage.jsx:77-79 | the entry survives JSON iff none of its three numbers is NaN |
| FuelLogsPage.FuelLogsPage.constructor | fleetpulse/src/pages/FuelLogsPage.jsx:52-57 | mounting loads the stored fuel logs for a non-empty id; the form starts empty |
| FuelLogsPage.FuelLogsPage.HandleAddLog | fleetpulse/src/pages/FuelLogsPage.jsx:68-93 | nothing changes without an id; otherwise the list becomes the new entry prepended and sorted by date, one longer, saved as shown, and the form is emptied |
| FuelLogsPage.SubmitReadsBack | fleetpulse/src/pages/FuelLogsPage.jsx:83-85 | when the numbers parse, the list saved reads back as exactly the list shown |
| InsuranceLogsPage.NewInsuranceLog | fleetpulse/src/pages/InsuranceLogsPage.jsx:75-83 | the new policy copies provider, policy number and both dates, and has `Number(cost)` |
| InsuranceLogsPage.NewInsuranceLogJsonSafe | fleetpulse/src/pages/InsuranceLogsPage.jsx:81 | the policy survives JSON iff its cost parses |
| InsuranceLogsPage.InsuranceLogsPage.constructor | fleetpulse/src/pages/InsuranceLogsPage.jsx:53-58 | mounting loads the stored policies for a non-empty id; the form starts empty |
| InsuranceLogsPage.InsuranceLogsPage.HandleAddLog | fleetpulse/src/pages/InsuranceLogsPage.jsx:69-96 | nothing changes without an id; otherwise the new policy is prepended, the list sorted by startDate, one longer, saved as shown, and the form is emptied |
| InsuranceLogsPage.SubmitReadsBack | fleetpulse/src/pages/InsuranceLogsPage.jsx:85-87 | when the cost parses, the list saved reads back as exactly the list shown |
| MaintenanceLogsPage.NewMaintenanceLog | fleetpulse/src/pages/MaintenanceLogsPage.jsx:86-93 | the new entry has date and type as typed and numeric cost and odometer |
| MaintenanceLogsPage.ReminderRequest | fleetpulse/src/pages/MaintenanceLogsPage.jsx:100-119 | a reminder is requested iff the type is date with a non-empty date, or odometer with a non-empty reading |
| MaintenanceLogsPage.ReminderRequestFields | fleetpulse/src/pages/MaintenanceLogsPage.jsx:102-118 | the request has the type, logId = the new entry's id, category maintenance, description "Next <type>", and either the date text or `Number` of the reading |
| MaintenanceLogsPage.MaintenanceLogsPage.constructor | fleetpulse/src/pages/MaintenanceLogsPage.jsx:59-69 | mounting loads the stored entries and the reminders due with the stored odometer record |
| MaintenanceLogsPage.MaintenanceLogsPage.HandleAddLog | fleetpulse/src/pages/MaintenanceLogsPage.jsx:80-138 | nothing changes without an id; otherwise the entry is prepended, sorted and saved; at most one reminder is added; the due list is refreshed when reminders are enabled; the form is reset |
| MaintenanceLogsPage.MaintenanceLogsPage.Submit | fleetpulse/src/pages/MaintenanceLogsPage.jsx:86-137 | the storage after a submit holds the sorted entries and, when one was requested, the new reminder in front of the stored ones |
| MaintenanceLogsPage.MaintenanceLogsPage.SaveNewLog | fleetpulse/src/pages/MaintenanceLogsPage.jsx:86-97 | the list shown is the new entry prepended and sorted by date, and exactly that list is saved |
| MaintenanceLogsPage.MaintenanceLogsPage.FinishSubmit | fleetpulse/src/pages/MaintenanceLogsPage.jsx:99-137 | adds the requested reminder, refreshes the due list only when reminders were enabled, then resets the form |
| MaintenanceLogsPage.MaintenanceLogsPage.AddRequestedReminder | fleetpulse/src/pages/MaintenanceLogsPage.jsx:100-119 | writes `reminders:<id>` only when a reminder was requested |
| MaintenanceLogsPage.MaintenanceLogsPage.ResetForm | fleetpulse/src/pages/MaintenanceLogsPage.jsx:128-137 | empty form, reminders disabled, type date, empty reminder date and reading |
| MaintenanceLogsPage.MaintenanceLogsPage.HandleDismissReminder | fleetpulse/src/pages/MaintenanceLogsPage.jsx:140-145 | deletes that reminder id, then recomputes the due list from storage and the stored odometer record |
| MaintenanceLogsPage.IsoDayOf | fleetpulse/src/utils/reminders.js:77-78 | a `YYYY-MM-DD` date normalised to midnight is the day it names |
| MaintenanceLogsPage.CreatedDateReminder | fleetpulse/src/pages/MaintenanceLogsPage.jsx:102-109 | a created date reminder is active, of type date, keeps the chosen date and announces "Next <type>" |
| MaintenanceLogsPage.DescribedMessage | fleetpulse/src/utils/reminders.js:83 | a reminder with a non-empty description is announced by that description |
| MaintenanceLogsPage.CreatedDateReminderDue | fleetpulse/src/pages/MaintenanceLogsPage.jsx:101-109 | a date reminder from the form alerts exactly from the chosen day on, with the message naming the service type |
| MaintenanceLogsPage.CreatedOdometerReminderDue | fleetpulse/src/pages/MaintenanceLogsPage.jsx:110-118 | an odometer reminder from the form alerts iff the reading reaches the typed target; a non-numeric target never alerts |
| MaintenanceLogsPage.OdometerTargetRule | fleetpulse/src/utils/reminders.js:94 | an active odometer reminder with a numeric or NaN target alerts iff the target is a number the reading reaches |
| MaintenanceLogsPage.ReadingAtLeastTarget | fleetpulse/src/utils/reminders.js:94 | `reading >= target` holds iff the target is a number at most the reading (NaN compares false) |
| OdometerCard.Validate | fleetpulse/src/components/OdometerCard.jsx:43-52 | an empty field gives 'Please fill in all fields.'; otherwise a NaN or negative reading gives the invalid-reading error; accepted iff both filled and the reading is a number ≥ 0 |
| OdometerCard.WholeReadingAccepted | fleetpulse/src/components/OdometerCard.jsx:48-52 | any whole non-negative reading typed with a date is accepted as exactly that number |
| OdometerCard.NegativeReadingRejected | fleetpulse/src/components/OdometerCard.jsx:48-52 | any negative whole reading is refused with the invalid-reading error |
| OdometerCard.RestoredForm | fleetpulse/src/components/OdometerCard.jsx:74-80 | the form restores from a record exactly when its reading is defined and not null; a falsy date restores as '' |
| OdometerCard.CancelRestoresSaved | fleetpulse/src/components/OdometerCard.jsx:74-80 | after saving a whole reading with a date, cancelling restores exactly those texts, which validate again to the same reading |
| OdometerCard.OdometerCard.constructor | fleetpulse/src/components/OdometerCard.jsx:6-12 | the card starts not editing, with no banner |
| OdometerCard.OdometerCard.HandleChange | fleetpulse/src/components/OdometerCard.jsx:34-38 | one field takes the typed text, and the banner is cleared |
| OdometerCard.OdometerCard.HandleSubmit | fleetpulse/src/components/OdometerCard.jsx:40-72 | a rejected form sets the error and writes nothing; a lower reading asks, and declining changes nothing; otherwise the record is saved, shown, editing ends and success is set |
| OdometerCard.OdometerCard.SaveReading | fleetpulse/src/components/OdometerCard.jsx:63-66 | the shown record is the one `updateOdometer` saved and returns, and it reads back from storage |
| OdometerCard.OdometerCard.HandleCancel | fleetpulse/src/components/OdometerCard.jsx:74-83 | restores the form from a shown record, ends editing, clears the banner, never writes storage |
| LogSummary.FilterByDate | fleetpulse/src/pages/LogSummaryPage.jsx:98-132 | with no bound set the list is returned unchanged; the result is never longer |
| LogSummary.InRangeByDay | fleetpulse/src/pages/LogSummaryPage.jsx:103-131 | with a bound set, an entry is kept iff it has a date and its day lies between the start day and the end day, both inclusive |
| LogSummary.UndatedDropped | fleetpulse/src/pages/LogSummaryPage.jsx:104-105 | with a bound set, an entry without a date is dropped |
| LogSummary.FilteredSortedSpec | fleetpulse/src/pages/LogSummaryPage.jsx:134-136 | the list shown is a permutation of the kept entries, a sub-multiset of the input, and newest first when a bound is set |
| LogSummary.Readings | fleetpulse/src/pages/LogSummaryPage.jsx:194 | every odometer reading kept is positive |
| LogSummary.SeqMin | fleetpulse/src/pages/LogSummaryPage.jsx:202 | `Math.min` is an element at most every element |
| LogSummary.SeqMax | fleetpulse/src/pages/LogSummaryPage.jsx:203 | `Math.max` is an element at least every element |
| LogSummary.MileageOf | fleetpulse/src/pages/LogSummaryPage.jsx:173-244 | a failure is one of the four messages; "no fuel logs" iff the list is empty; success has positive fuel and distance |
| LogSummary.MileageErrors | fleetpulse/src/pages/LogSummaryPage.jsx:178-210 | each error is reported iff every earlier check passes and its own fails: no fuel, fewer than 2 positive readings, all readings equal |
| LogSummary.MileageFigures | fleetpulse/src/pages/LogSummaryPage.jsx:194-219 | on success min and max are positive readings bounding every reading, min < max, and the figures come from the fuel and price totals |
| LogSummary.FiguresRatios | fleetpulse/src/pages/LogSummaryPage.jsx:212-226 | fuel × mileage = distance, cost per km × distance = fuel cost, costToTravel = totalFuel × average price, null without a positive price |
| LogSummary.CalculateSummary | fleetpulse/src/pages/LogSummaryPage.jsx:247-270 | totalCost is the sum of the three totals; each count is its list's length; average × litres = fuel cost |
| LogSummary.SummaryIgnoresOrder | fleetpulse/src/pages/LogSummaryPage.jsx:252-256 | the summary depends only on the multisets of entries, so sorting changes nothing |
| LogSummary.FilteredCostAtMost | fleetpulse/src/pages/LogSummaryPage.jsx:255-256 | with non-negative costs, filtering never raises a cost total |
| LogSummary.SummaryView.constructor | fleetpulse/src/pages/LogSummaryPage.jsx:84-94 | mounting loads the three stored lists for a non-empty id; nothing is filtered yet |
| LogSummary.SummaryView.ApplyFilter | fleetpulse/src/pages/LogSummaryPage.jsx:96-143 | each list is filtered and sorted by its own date field (startDate for insurance); the stored lists are untouched |
| LogSummary.SummaryView.CalculateMileage | fleetpulse/src/pages/LogSummaryPage.jsx:173-244 | the first error clears the figures, or the figures are stored and the error is cleared |
| LogSummary.SummaryView.AutoCalculate | fleetpulse/src/pages/LogSummaryPage.jsx:146-161 | runs the calculation only with entries and a positive average price; with no entries it clears both; it never sets the first two errors |
| LogSummary.AutoCalcSkipsEarlyErrors | fleetpulse/src/pages/LogSummaryPage.jsx:147-155 | when the auto-calculation runs, it can fail only on the odometer checks |
| Migration.SomePrefixAt | fleetpulse/src/utils/migration.js:106 | a key starting with any of the prefixes matches |
| Migration.SomePrefixWitness | fleetpulse/src/utils/migration.js:106 | a key matches only through one of the prefixes |
| Migration.StoreKeysMigratable | fleetpulse/src/utils/migration.js:93-99 | every key the five stores write is moved by the helpers |
| Migration.DigitKeysNotMigratable | fleetpulse/src/utils/migration.js:106 | a key starting with a digit is never moved |
| Migration.MigrateCheck | fleetpulse/src/utils/migration.js:27-79 | counts are 0; 'Data already exists' iff some stored key has a prefix, 'Manual migration required' otherwise; nothing is written |
| Migration.RestoredItems | fleetpulse/src/utils/migration.js:104-124 | a restore writes exactly the prefixed keys of the data |
| Migration.RestoreFromJson | fleetpulse/src/utils/migration.js:87-131 | non-objects and null are rejected with no write; an object's prefixed keys are written, strings as they are and other values as JSON; migrated + skipped = number of keys |
| Migration.RestoreFields | fleetpulse/src/utils/migration.js:104-124 | the loop writes exactly the restored entries over storage and counts migrated = written keys, migrated + skipped = keys |
| Migration.RestoreKey | fleetpulse/src/utils/migration.js:106-123 | one key is written and counted as migrated when prefixed, else counted as skipped |
| Migration.ArrayKeysSkipped | fleetpulse/src/utils/migration.js:104-124 | an array's index keys never carry a prefix, so all are skipped |
| Migration.Exported | fleetpulse/src/utils/migration.js:146-153 | the export holds exactly the prefixed keys, each with what is stored under it |
| Migration.ExportData | fleetpulse/src/utils/migration.js:146-153 | the key-collecting loop builds exactly the export and writes nothing |
| Migration.RestoreExported | fleetpulse/src/utils/migration.js:110-114 | restoring an export writes back exactly the exported entries |
| VehicleModel.TrimStart | server/models/Vehicle.js:7 | drops exactly the leading white space |
| VehicleModel.TrimEnd | server/models/Vehicle.js:7 | drops exactly the trailing white space |
| VehicleModel.Trim | server/models/Vehicle.js:7 | the trimmed text is a slice of the input with no white space at either end |
| VehicleModel.TrimCutsOnlySpace | server/models/Vehicle.js:7 | everything trimming cuts off is white space |
| VehicleModel.TrimOfTrimmed | server/models/Vehicle.js:7 | a trimmed text is its own trim |
| VehicleModel.TrimIdempotent | server/models/Vehicle.js:7 | trimming twice is trimming once |
| VehicleModel.BlankTrimsToEmpty | server/models/Vehicle.js:4-8 | an all-white-space value trims to '' and so fails `required` |
| VehicleModel.CastString | server/models/Vehicle.js:4-8 | a string is stored as it is, or trimmed on a trimming path; a cast on a trimming path is always trimmed |
| VehicleModel.CastNumber | server/models/Vehicle.js:9-12 | a number casts to itself; '' casts to null; any other string casts iff `Number` of it is a number, and then to that number |
| VehicleModel.CastBoolean | server/models/Vehicle.js:22-25 | a boolean casts to itself |
| VehicleModel.Build | server/models/Vehicle.js:3-52 | invalid iff some path fails; a valid document is well formed, owned by the given user, with imageUrl '' and isFavorited false when absent |
| VehicleModel.BuildStoresString | server/models/Vehicle.js:4-8 | each required String path of a new document (name, location, fuelType, registeredName, transmissionType, registrationNo) is present in the body and holds its value cast to text; a string is stored trimmed |
| VehicleModel.BuildStoresYear | server/models/Vehicle.js:9-12 | a new document's year is the body's year: a number as it is, a string through `Number(...)` |
| VehicleModel.BuildStoresOptional | server/models/Vehicle.js:18-25 | a given imageUrl and isFavorited are stored as given, and null as None |
| VehicleModel.MissingRequiredRejected | server/models/Vehicle.js:4-51 | a document missing any required path is rejected, naming that path |
| VehicleModel.BuildTrims | server/models/Vehicle.js:41-46 | the stored registration number is the trimmed input |
| VehicleModel.ApplyUpdate | server/controllers/vehicleController.js:79 | invalid iff a present path fails; an update keeps the document well formed, keeps the owner unless `user` is set, and ignores non-schema keys |
| VehicleModel.UpdateString | server/controllers/vehicleController.js:79 | on an update, a trimmed String path present in the body takes the body's value cast to text (a string trimmed); an absent one keeps the document's value |
| VehicleModel.UpdateOthers | server/controllers/vehicleController.js:79 | on an update, year, imageUrl, isFavorited and user take the body's value when present (null as None) and keep the document's value when absent |
| VehicleModel.WriteKeepsUnique | server/models/Vehicle.js:44 | writing a vehicle whose number no other vehicle has keeps numbers unique |
| VehicleController.OwnedBy | server/controllers/vehicleController.js:9 | exactly the vehicles whose owner is the user |
| VehicleController.Pick | server/controllers/vehicleController.js:21 | exactly the body's keys among the named paths |
| VehicleController.AsWrittenCreateRejects | server/controllers/vehicleController.js:21-37 | whatever the body, the document `createVehicle` builds fails validation on fuelType |
| VehicleController.CreateAccepts | server/controllers/vehicleController.js:21-37 | taking every schema path, a valid body builds the vehicle owned by the requester with the trimmed number |
| VehicleController.VehicleCollection.GetVehicles | server/controllers/vehicleController.js:6-15 | returns exactly the requester's vehicles |
| VehicleController.VehicleCollection.GetVehicleById | server/controllers/vehicleController.js:43-61 | 404 for a missing id, 401 for another owner's vehicle, the vehicle otherwise |
| VehicleController.VehicleCollection.Insert | server/controllers/vehicleController.js:24-37 | 400 and no write when validation fails or the number is taken; otherwise 201 and exactly the new vehicle is added |
| VehicleController.VehicleCollection.Store | server/models/Vehicle.js:44 | the write happens iff no other vehicle has the number, and keeps numbers unique |
| VehicleController.VehicleCollection.CreateVehicleAsWritten | server/controllers/vehicleController.js:20-38 | always answers 400 'Invalid vehicle data' and stores nothing |
| VehicleController.VehicleCollection.CreateVehicle | server/controllers/vehicleController.js:20-38 | 400 and no write on a failing or duplicate body; otherwise 201 and the vehicle owned by the requester is added |
| VehicleController.VehicleCollection.UpdateVehicle | server/controllers/vehicleController.js:66-86 | 404 and 401 before any write; 400 and no write for a failing or duplicate update; otherwise only that vehicle changes and the updated document is returned |
| VehicleController.VehicleCollection.DeleteVehicle | server/controllers/vehicleController.js:91-111 | 404 and 401 as for reads; otherwise only that vehicle is removed and 'Vehicle removed' is answered |
| AuthController.FirstIndex | server/controllers/authController.js:194 | `findOne` finds the first user in natural order that satisfies the filter, and None only when none does |
| AuthController.Refresh | server/controllers/authController.js:156-185 | 401 without a cookie; a new access token iff the token verifies, names a user and matches that user's digest; any other case is 403 with the cookie cleared |
| AuthController.LogoutAsWritten | server/controllers/authController.js:187-210 | 204 without a cookie; at most a user holding the cookie's token loses it; no user is added or removed, and only refresh tokens change |
| AuthController.Logout | server/controllers/authController.js:187-210 | 204 without a cookie; with one, the cookie is always cleared; no user is added or removed, and only refresh tokens change |
| AuthController.LogoutRevokes | server/controllers/authController.js:194-205 | after the intended logout no user holds the token, all others are unchanged, and refreshing with that token fails |
| AuthController.LogoutAsWrittenKeepsOtherSession | server/controllers/authController.js:194-205 | with two logged-in users, the second user's logout as written keeps that user's digest and token valid |
| AuthController.SavedProfile | server/controllers/authController.js:126-139 | the username changes only to a non-empty different name, the phone iff provided, the password iff non-empty; email and token stay |
| AuthController.SavedKeepsUsernamesUnique | server/controllers/authController.js:126-131 | a rename that passes the check keeps usernames unique |
| AuthController.UserStore.RegisterUser | server/controllers/authController.js:24-67 | a taken email gives 400 first, then a taken username; otherwise the user is stored with a digest of the refresh token, and the cookie and 201 are answered |
| AuthController.UserStore.LoginUser | server/controllers/authController.js:69-104 | the same 400 'Invalid credentials' for an unknown email and a wrong password, with no write; otherwise the digest is replaced by one of the new token |
| AuthController.UserStore.UpdateUserProfile | server/controllers/authController.js:119-154 | 404 for a missing user; 400 and no write for a taken new username; otherwise the saved profile is stored and returned |
| AuthController.UserStore.RefreshAccessToken | server/controllers/authController.js:156-185 | the handler answers as the refresh rule says and never writes |
| AuthController.UserStore.LogoutUserAsWritten | server/controllers/authController.js:187-210 | the store changes as the as-written logout says |
| AuthController.UserStore.LogoutUser | server/controllers/authController.js:187-210 | the store changes as the intended logout says |
| EditProfilePage.ValidateProfile | fleetpulse/src/pages/EditProfilePage.jsx:52-65 | the checks in order, first failure wins: empty username, passwords differ, non-empty password shorter than 6; sent iff all pass |
| EditProfilePage.SentProfileSaved | fleetpulse/src/pages/EditProfilePage.jsx:73 | for a request that passes the checks, the server keeps the old password when both fields are empty and stores a password of at least 6 otherwise |
| EditProfilePage.EditProfilePage.constructor | fleetpulse/src/pages/EditProfilePage.jsx:22-26 | the form starts from the loaded name and phone number |
| EditProfilePage.EditProfilePage.HandleSubmit | fleetpulse/src/pages/EditProfilePage.jsx:47-97 | a failed check shows its message and sends nothing; a saved profile clears both password fields and shows success; a rejection shows the server message or the default; no answer shows the connection message |

## Left out

- JsValues.ToNumber: reads '' (as 0) and an optional `+` or `-` followed by a decimal: `ddd`, `ddd.`, `.ddd` or `ddd.ddd`. Leading or trailing white space, exponents, hexadecimal and `Infinity` are taken as NaN, where JavaScript's `Number` accepts them.
- JsValues.NumberOf: `Number` of an array is NaN in the model, where JavaScript gives 0 for `[]` and `Number(x)` for `[x]`. JsValues.Spread: spreading a string or an array gives `{}` in the model, where JavaScript spreads its indexed elements. Neither case arises for values the pages write.
- JsValues: numbers are exact `real`s. Floating-point rounding, `toFixed`, and `Infinity` are not modelled. `JsonCopy` writes NaN as null, as `JSON.stringify` does. A division by zero in the summary is reported as no number (`None`).
- JsValues.DayOf: dates are read as `YYYY-MM-DD` text only, as UTC day numbers. The time zone and daylight-saving effects of `new Date(...)` and `setHours` are not modelled, and other date formats count as Invalid Date.
- JsValues.DisplayText: the text of an array is '' in the model, where JavaScript joins the elements' texts with commas. An object gives `[object Object]`, as in JavaScript.
- JsValues.Prop: reading a field of a null entry throws a TypeError in JavaScript, and the model reads it as undefined. Such entries can only come from a stored list holding null, for example one restored by the migration helper. This covers the newest-first sorts of the three log stores and the log pages, the summary's date filter, the cost totals, and the `r.id` reads of reminder delete and status toggle. On such input the model returns and saves a list where the source throws.
- String length counts Dafny characters. JavaScript counts UTF-16 code units, which only matters for the six-character password check.
- LogOrder.NewestFirst: ordering is proved only for lists where every entry has a valid date. With undated entries the comparator is inconsistent, and JavaScript's result depends on the engine. The model gives the stable insertion order.
- LogSummary.SummaryView.ApplyFilter: without a bound, the source sorts the state arrays in place, so those arrays are reordered too. The model leaves them unchanged; the shown lists are the same.
- LogSummary.CalculateSummary: `log.price || 0` on a stored string would concatenate text. The model counts any non-number as 0. Entries written by the pages hold numbers, or null for NaN.
- LogSummary.SummaryView.CalculateMileage: the catch branch is not modelled (a null entry in a stored list, or a spread too large for `Math.min`).
- EditProfilePage.EditProfilePage.constructor: a loaded phone number that is truthy but not a string shows as '' in the model, where `userData.phoneNumber || ''` keeps the value as it is. The form field holds text, and the profile handler stores what the form sent.
- Reminders.CheckReminder: a stored null reminder makes `reminder.isActive` throw. The model treats it as inactive.
- LogSummary: `handleDateRangeChange` and `clearDateFilter` only assign the date range. The model takes the range as a field of `SummaryView`.
- Each page's `handleChange` for the log forms is a plain field assignment and is not modelled. The odometer card's is.
- Vehicle and user fetches, `navigate`, `clearTokens` on 401, the `setTimeout` calls and JSX rendering are not modelled. This covers the odometer card's banner clearing and the profile page's redirect.
- OdometerCard.OdometerCard.constructor: takes the form as a parameter. The mount effect that fills it from the stored record, or from today's date, is not modelled.
- `window.confirm` is the boolean `confirmed`. `Date.now()` and `toISOString()` readings, and "today", are parameters, so ids never collide in the model.
- The network client `fleetpulse/src/utils/api.js` and the formatter `fleetpulse/src/utils/currency.js` are not part of this model.
- Migration.RestoreFromJson: `setItem` is taken never to throw, so the quota-error branch, which counts a key as skipped, is not modelled. The console output and the Blob download of the export are left out.
- Storage: `setItem` quota errors are not modelled anywhere.
- VehicleModel: Mongoose casting is simplified.
  - `user` is a non-empty string rather than an ObjectId.
  - A malformed id (CastError) is treated as a missing vehicle.
  - `timestamps` are not stored.
- VehicleController.VehicleCollection.GetVehicles: the result is a map, so the order of `find` results is not modelled.
- AuthController: bcrypt is a `Digest` of its text, and the salt is a parameter. JWT signing and verification are parameters.
  - The user model is not shown, so any pre-save hashing of `password` is not modelled.
  - `registerUser`'s first save, without a token, is merged with its second save.
  - Lookups with an `undefined` field value are not modelled.
- AuthController.UserStore.LoginUser: the password check is a parameter `passwordMatches`.
- `getUserProfile` only echoes the authenticated user and is not modelled.
- The catch-all 500 answers are not modelled: server errors and a failed database.

## Findings

| source | as written | input that shows it | evidently intended | confidence | as-written member | corrected member |
|---|---|---|---|---|---|---|
| server/controllers/vehicleController.js:21-37 | `createVehicle` passes only name, year, location and imageUrl to the new document, and the schema requires fuelType, registeredName, transmissionType and registrationNo | any body, for example one holding every field the add-vehicle form sends | take the schema's required fields from the body too, so a valid body is stored and answered with 201 | not executed | VehicleController.VehicleCollection.CreateVehicleAsWritten | VehicleController.VehicleCollection.CreateVehicle |
| server/controllers/authController.js:194-205 | `logoutUser` compares the cookie's token with the digest of the first user holding any refresh token, not of the user the token belongs to | users a then b both logged in; b logs out with b's token: the comparison with a's digest fails, nothing is cleared, and b's token still refreshes | clear the digest of the user whose stored digest matches the cookie's token | not executed | AuthController.LogoutAsWrittenKeepsOtherSession | AuthController.LogoutRevokes |
