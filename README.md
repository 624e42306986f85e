# Sales analytics dashboard and Firebase start-up configuration: a Dafny model

This project models the two pieces of real logic in the retail billing client.

- **Analytics** (`analytics.dfy`) models the analytics dashboard.
  - The real-time listener on the `bills` collection sets the bill count to the snapshot size.
  - It accumulates every dated bill's total into a per-day object, `dailySales`.
  - It turns that object into `{date, total}` entries, sorts them by day and keeps the last seven.
  - The module also models the summary figures the dashboard derives: average sale per bill, product count, the status of each low-stock row, the critical and warning counts, and the scale of the sales chart.
- **FirebaseConfig** (`firebase.dfy`) models module initialisation of the Firebase client.
  - It tries to load a local secrets file and falls back to `null` when that fails.
  - It uses the local configuration only when it has a truthy `apiKey`, and the environment configuration otherwise.
  - It collects the missing required fields (`apiKey`, `projectId`, `appId`, in that order) and refuses to start when any is missing.
- **Wrappers** (`wrappers.dfy`) holds the `Option` and `Result` types both modules use.

Modelling choices:

- Money is integer cents.
- A bill is an optional day plus an optional total. `None` stands for a missing or falsy JavaScript value.
- Days are integers (day numbers). Every date string is taken to parse to one day, and distinct strings to distinct days.
- The `dailySales` object is an association list in insertion order, which is the order `Object.entries` gives for such keys.
  - `Lookup` is `dailySales[d] || 0`.
  - `Put` is the assignment `dailySales[d] = v`.
- The JavaScript sort is modelled by an insertion sort. Any correct sort gives the same result, because the days are distinct.
- The bills listener is the method `OnBillsSnapshot`. Its loop runs over the snapshot as `forEach` does. It is proved equal to the functional definition `SalesSeries`, and the properties are proved about that function.
- Firebase configuration values are `Option<string>`. A value is truthy when it is defined and not empty.
- The outcome of the `require` of the secrets file is an input. It either throws or returns a module value, which may be falsy.
- When that value is falsy, `localConfig` keeps it (for example `undefined`) rather than becoming `null`. Every later use treats the two alike, so the model writes both as `None`.
- The thrown error of the missing-field check is the `Failure` case of a `Result`. It carries the list of missing fields, and `Hint` gives the text recorded for each one.

Behaviour of the code worth noting:

- The warning count is every listed item with quantity > 0, with no upper threshold. The list itself comes from a low-stock query whose code is not part of this model.
- The average sale per bill divides the total from the one-shot sales query by the bill count from the live listener. The model therefore takes both as inputs.
- A bill with no total counts as 0; only a bill with no date is left out of the buckets.
- An item with a negative quantity is shown as LOW STOCK but is counted in neither the critical nor the warning count. `StockCountsPartition` states this exactly.

## Model

| member | source | states |
|---|---|---|
| Analytics.Lookup | client/src/components/Dashboard/Analytics.js:58 | Reading a day that has not been seen yet gives 0. |
| Analytics.Put | client/src/components/Dashboard/Analytics.js:58 | After assigning to a day: that day reads back the new value, every other day keeps its value, the key set gains the day, and keys stay distinct. |
| Analytics.TotalOrZero | client/src/components/Dashboard/Analytics.js:58 | `total \|\| 0`: a bill's contribution, 0 when the total is missing or falsy. `DailySalesBuckets` uses it in each day's sum. |
| Analytics.Accumulate | client/src/components/Dashboard/Analytics.js:56-58 | One run of the per-bill callback: every day's running total grows by exactly what the bill adds to that day, and the key set gains the bill's day when it has one. |
| Analytics.DailySales | client/src/components/Dashboard/Analytics.js:54-60 | The per-day object built over a snapshot never holds a day twice. |
| Analytics.DailySalesBuckets | client/src/components/Dashboard/Analytics.js:54-60 | The buckets are exactly the days that carry at least one dated bill. Each bucket holds the sum of `total` over that day's bills, with a missing total adding 0. |
| Analytics.DailySalesEntries | client/src/components/Dashboard/Analytics.js:54-64 | An entry `{date, total}` is produced if and only if its day carries a bill and its total is that day's sum. |
| Analytics.Insert | client/src/components/Dashboard/Analytics.js:65 | One step of the sort adds exactly the inserted entry: no entry is lost or duplicated. |
| Analytics.InsertOrdered | client/src/components/Dashboard/Analytics.js:65 | Inserting an entry for a new day into a day-ordered list keeps it strictly ordered and adds exactly that day. |
| Analytics.SortByDate | client/src/components/Dashboard/Analytics.js:65 | The sorted entries are strictly ascending by day and are a permutation of the input entries. |
| Analytics.LastWeek | client/src/components/Dashboard/Analytics.js:66 | `slice(-7)` gives the suffix of length min(7, n). |
| Analytics.SalesSeries | client/src/components/Dashboard/Analytics.js:63-66 | The entries/map/sort/slice chain over the per-day totals. `SalesSeriesWindow` and `SalesSeriesOrderIndependent` state what it yields. |
| Analytics.OnBillsSnapshot | client/src/components/Dashboard/Analytics.js:50-69 | The bill count is the snapshot size, undated bills included. The series computed by the imperative `forEach` accumulation equals `SalesSeries` of the snapshot. |
| Analytics.SalesSeriesWindow | client/src/components/Dashboard/Analytics.js:54-66 | The series is strictly ascending by day, with one entry per day. It has min(7, number of days) entries, each the full sum of its day. With 7 days or fewer every day is present. With more, every dropped day is earlier than every kept day. |
| Analytics.UndatedBillIgnored | client/src/components/Dashboard/Analytics.js:56-57 | A bill with a missing or falsy date changes no bucket. |
| Analytics.EmptySnapshot | client/src/components/Dashboard/Analytics.js:51-68 | An empty snapshot gives an empty series. Its bill count of 0 follows from `OnBillsSnapshot`. |
| Analytics.SumOnDatePermutation | client/src/components/Dashboard/Analytics.js:55-59 | A day's sum is the same for every ordering of the snapshot's bills. |
| Analytics.AscendingUnique | client/src/components/Dashboard/Analytics.js:63-65 | Two strictly day-ordered lists with the same entries are equal, so the sorted result does not depend on insertion order. |
| Analytics.SalesSeriesOrderIndependent | client/src/components/Dashboard/Analytics.js:49-66 | Any reordering of the snapshot's bills gives the same series, so the query's `createdAt` order is irrelevant. |
| Analytics.AverageSalePerBill | client/src/components/Dashboard/Analytics.js:228 | The average is 0 when there are no bills. Otherwise it is the exact quotient: multiplied by the bill count it gives the total sales. It never divides by zero. |
| Analytics.CountReduce | client/src/components/Dashboard/Analytics.js:232 | Folding `acc + 1` over a list from `acc` yields `acc` plus the list's length. |
| Analytics.ProductCount | client/src/components/Dashboard/Analytics.js:232 | The product count equals the number of top-selling entries. |
| Analytics.MaxTotal | client/src/components/Dashboard/Analytics.js:128 | `Math.max` over a non-empty series' totals bounds every total and is one of them. |
| Analytics.ChartMax | client/src/components/Dashboard/Analytics.js:128 | The chart scale is never 0 and bounds every total. It is the largest total, or 1 when the largest total is 0. |
| Analytics.Filter | client/src/components/Dashboard/Analytics.js:236-243 | `filter` keeps each item that satisfies the test as many times as it occurs, and drops the rest. |
| Analytics.StatusMatchesCounts | client/src/components/Dashboard/Analytics.js:196-210 | The items counted as critical are exactly the listed rows labelled "OUT OF STOCK" (quantity 0). The items counted as warnings are exactly the rows labelled "LOW STOCK" with a positive quantity. |
| Analytics.Status | client/src/components/Dashboard/Analytics.js:196-210 | A row's status: OUT OF STOCK when `quantity === 0`, LOW STOCK otherwise. `StatusMatchesCounts` ties it to the counts. |
| Analytics.CriticalCount | client/src/components/Dashboard/Analytics.js:236-238 | The "Critical Alerts" figure, the length of the `quantity === 0` filter. `StatusMatchesCounts` and `StockCountsPartition` state what it counts. |
| Analytics.WarningCount | client/src/components/Dashboard/Analytics.js:242-243 | The "Warning Count" figure, the length of the `quantity > 0` filter. `StatusMatchesCounts` and `StockCountsPartition` state what it counts. |
| Analytics.StockCountsPartition | client/src/components/Dashboard/Analytics.js:236-243 | The critical count, the warning count and the number of negative-quantity items add up to the list length. With non-negative quantities, critical plus warning equals the length. |
| FirebaseConfig.LocalConfig | client/src/firebase.js:22-36 | `localConfig` after the guarded load: `None` when the load throws or yields null or another falsy value, otherwise the default export or the module object. Its meaning is stated by `LoadFailureUsesEnv`, `LocalConfigFallback` and `LoadedSecretsWin`. |
| FirebaseConfig.LocalConfigFallback | client/src/firebase.js:22-38 | Whenever the local configuration is not used (the load threw, gave a falsy value, or gave a configuration without a truthy apiKey), the environment configuration is chosen and validated alone. |
| FirebaseConfig.LoadedSecretsWin | client/src/firebase.js:32-38 | A loaded secrets module whose configuration has a truthy apiKey is always used, whatever the environment holds. |
| FirebaseConfig.ChooseConfig | client/src/firebase.js:38 | The local configuration is chosen exactly when it is non-null and has a truthy apiKey. Otherwise the environment configuration is chosen. The chosen configuration has a truthy apiKey if and only if one of the two sources offers one. |
| FirebaseConfig.MissingFields | client/src/firebase.js:41-44 | The missing list holds exactly the falsy fields among apiKey, projectId and appId. Each appears once, in that order, so there are at most 3. |
| FirebaseConfig.InitializeConfig | client/src/firebase.js:22-48 | Initialisation fails if and only if the missing list of the chosen configuration is non-empty, and the failure carries that list. On success the chosen configuration is used and all three required fields are truthy. When the local configuration is not used, the outcome is that of validating the environment configuration alone. |
| FirebaseConfig.Hint | client/src/firebase.js:42-44 | The text recorded in the missing list for each absent field. `MissingFields` states which fields are listed and in what order. |
| FirebaseConfig.LoadFailureUsesEnv | client/src/firebase.js:22-38 | When loading the secrets throws, `localConfig` is null and the environment configuration is used. |
| FirebaseConfig.LocalChoiceHasApiKey | client/src/firebase.js:38-42 | When the local configuration is chosen, apiKey is never reported missing. |
| FirebaseConfig.OptionalFieldsIrrelevant | client/src/firebase.js:41-44 | Configurations that agree on apiKey, projectId and appId get the same missing list. authDomain, storageBucket, messagingSenderId and measurementId never cause a failure. |

## Left out

- The one-shot queries at client/src/components/Dashboard/Analytics.js:23-35 (top sellers, low-stock list, inventory value, total sales): their code is not part of this model. Their results are inputs to the summary functions.
- client/src/components/FirebaseExamples.js: a demo screen whose handlers only call services that are not part of this model.
- Firestore and Firebase I/O is not modelled: `onSnapshot`, `query`, unsubscribing, `initializeApp`, `getAuth`, `getFirestore`, `enableIndexedDbPersistence` and its error branches, and `getAnalytics`. The `require` of the secrets file is modelled only by its outcome.
- React state, effects and the loading flag are not modelled. The listener's two `set…` calls are the outputs of `OnBillsSnapshot`.
- Console messages and the exact text of the thrown error are not modelled. The failure carries the list of missing fields, and `Hint` gives each entry's text.
- Presentation is not modelled: bar percentages, the `/1000` "K" display, `toFixed` rounding, `toLocaleDateString`, and the CSS badge classes.
- JavaScript `Date` parsing is not modelled. Days are integers, and an unparsable date string (a NaN comparison) has no modelled behaviour.
- JavaScript floating-point addition is not modelled. Totals are exact integer cents, and the average is an exact rational.
- Analytics.SortByDate: requires distinct days, which the object keys it sorts always have. Sorting a list with repeated days is not modelled.
- Analytics.ChartMax: requires a non-empty series. The dashboard evaluates it only inside the bars of a non-empty series, so `Math.max` of nothing (-Infinity) is never reached.
