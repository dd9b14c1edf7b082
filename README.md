# Workshop administration: the business rules, modelled and proved

This project models the in-memory business logic of a tailoring and uniform
workshop application. The application is written in TypeScript and React. It
keeps clients and orders, and each order has line items (garment, gender,
size, colour, quantity). The orders move through fifteen production
statuses.

The model covers the following parts:

- **Records** (`types.dfy`): clients, orders and their items, order statuses,
  priorities and genders.
- **Analytics engine** of the statistics view:
  - reporting periods (`stats_period.dfy`);
  - the service classifier (`stats_category.dfy`);
  - the order set of a window and the headline metrics (`stats_metrics.dfy`);
  - the production funnel and material estimates (`stats_production.dfy`);
  - the size histogram (`stats_sizes.dfy`);
  - the financial breakdown (`stats_financial.dfy`);
  - the ten-bucket market ranking (`stats_market.dfy`);
  - the revenue trend and best weekday (`stats_trend.dfy`);
  - CRM segmentation (`stats_crm.dfy`).
- **Order list rules** (`orders_rules.dfy`): size weights, status groups,
  the category filter, edit-mode detection, the chip counts and the filtered
  list.
- **Order form** (`orders_form.dfy`): adding and removing lines and reference
  images.
- **Consumption note** (`annotation.dfy`): the `[Consumo Estimado: X mts]`
  note written into a description and read back.
- **Client list** (`clients_view.dfy`, `clients_personnel.dfy`): the
  per-client card, the client list, avatar colours and the personnel
  measurement sheets.
- **Dashboard** (`dashboard.dfy`).
- **Storage service** (`storage.dfy`) and the **application shell**
  (`app.dfy`), which keep the client and order lists.

Shared pieces:

- `text.dfy` models the JavaScript string and number built-ins the code
  uses: `trim`, `toUpperCase`, `includes`, `Number`, `parseFloat`,
  `parseInt`, `padStart` and `Math.round`.
- `folds.dfy` models `filter`, counting and `reduce` sums.
- `ranking.dfy` models a `Map` used as a tally (insertion-ordered entries),
  the stable sort by value, largest first, and `slice(0, n)`.
- `calendar.dfy` gives the local calendar as data: now, today's midnight,
  the weekday, and the first instants of the month and year.

Where the code updates state step by step, the model does too:

- `forEach` accumulators and `Map.set` tallies become methods with loops.
  Each method is proved equal to a fold function, and the properties are
  proved about that function.
- The in-place `sort` becomes an insertion sort on an `array`.
- The form, the storage service, the personnel sheets and the application
  shell are classes whose methods update their fields.

Money is `real`, and quantities and timestamps (milliseconds) are `int`.

## Model

| member | source | states |
|---|---|---|
| Types.AllStatuses | types.ts:15-31 | There are exactly fifteen order statuses, pairwise different. |
| Types.AllStatusesComplete | types.ts:15-31 | Every status is among the fifteen listed. |
| Types.StatusFromLabel | types.ts:15-31 | A stored string read back as a status is one whose string value is that string. |
| Types.FindLabel | types.ts:15-31 | Looking a string value up among statuses finds one with that value, or none when no status has it. |
| Types.StatusLabelRoundTrip | types.ts:15-31 | The fifteen string values are distinct, so reading back a stored status gives that same status. |
| Types.LabelsDiffer | types.ts:15-31 | Two different statuses have different string values. |
| Types.UrgentIffNotNormal | types.ts:33 | A priority is not `Normal` exactly when its label contains "Urgente", so the "rush" test of the statistics and the "urgent" test of the dashboard agree. |
| Types.TotalQuantityAppend | src/components/StatsView.tsx:169 | The garment count of two item lists joined is the sum of their counts. |
| Types.OrElse | src/components/StatsView.tsx:288 | `s \|\| fallback` is one of the two, and `s` whenever it is non-empty. |
| Types.DisplayName | src/components/StatsView.tsx:467 | A client is shown by business name when it has a non-empty one, otherwise by contact name. |
| Calendar.DaysSinceMonday | src/components/StatsView.tsx:120-123 | The Monday of the week is 0 to 6 days back, and stepping back that far from the weekday lands on a Monday (Sunday steps back 6). |
| Calendar.StartOfWeek | src/components/StatsView.tsx:119-124 | The week starts at a midnight at most six days before today's. |
| StatsPeriods.ResolvePeriods | src/components/StatsView.tsx:114-141 | For every time frame the current window ends now and the previous one ends 1 ms before the current one starts. |
| StatsPeriods.WindowsAdjacent | src/components/StatsView.tsx:114-141 | On a real calendar, no instant is in both windows, both are non-empty, and the previous window lies wholly before the current one. |
| StatsPeriods.TodayWindows | src/components/StatsView.tsx:115-118 | `today` starts at midnight; the previous window starts 86400000 ms before its end. |
| StatsPeriods.WeekWindows | src/components/StatsView.tsx:119-126 | `week` starts on a Monday midnight at most six days back; the previous window starts seven days before its end. |
| StatsPeriods.MonthWindows | src/components/StatsView.tsx:127-131 | `month` starts on day 1; the previous window starts on day 1 of last month. |
| StatsPeriods.AllTimeIsYear | src/components/StatsView.tsx:132-141 | `all` gives exactly the windows of `year`: the current window from 1 January, the previous one from 1 January last year. |
| StatsCategory.Sentinel | src/components/StatsView.tsx:58-61 | Exactly the four "Otro (…)" model names are sentinels, and each names a service. |
| StatsCategory.AllAcceptsEverything | src/components/StatsView.tsx:55 | The `all` filter accepts every order. |
| StatsCategory.SentinelDecides | src/components/StatsView.tsx:58-61 | A sentinel model puts the order in its own service and in no other. |
| StatsCategory.ConfeccionIsTheRest | src/components/StatsView.tsx:63-72 | Without a sentinel, an order is confección exactly when it is none of embroidery, sublimation or sewing. |
| StatsCategory.ServicesWithoutSentinel | src/components/StatsView.tsx:63-75 | Without a sentinel, each service is decided by its own keyword test. |
| StatsCategory.SomeServiceHolds | src/components/StatsView.tsx:54-77 | Every order is in at least one of the four services. |
| StatsCategory.ServicesOverlap | src/components/StatsView.tsx:66-67 | The services are not exclusive: one order is both embroidery and sublimation. |
| StatsCategory.RevenueCategory | src/components/StatsView.tsx:277-280 | The financial breakdown picks the first service of the chain (confección, bordado, sublimación, costura) that holds, having rejected the earlier ones. |
| StatsCategory.RevenueCategoryTotal | src/components/StatsView.tsx:277-280 | The chain always picks a service, so no revenue falls through. |
| StatsCategory.EstimateFabric | src/components/StatsView.tsx:80-91 | The cloth per garment is one of the table's values; it is 0.5 exactly when no fabric keyword is mentioned. |
| StatsCategory.EstimateFabricFirstKeyword | src/components/StatsView.tsx:80-91 | The cloth per garment is the coefficient of the first keyword, in the order of the chain, that the lower-cased item type mentions: "chaqueta camisa" gets 1.5, not 1.4. |
| StatsMetrics.FilterSet | src/components/StatsView.tsx:144-149 | The set of a window holds only orders that are selected (in the window, of the service, not in the bin), and is no larger than the order list. |
| StatsMetrics.FilterSetMembers | src/components/StatsView.tsx:144-149 | An order is in the set exactly when it is an order created in `[s, e]` (both ends included), of the service, and not in the bin. |
| StatsMetrics.AvgTicket | src/components/StatsView.tsx:170 | The average ticket is 0 for an empty set and otherwise times the count gives the potential revenue. |
| StatsMetrics.CalculateMetrics | src/components/StatsView.tsx:155-190 | `totalCount` is the size of the set, total demand is potential plus lost revenue, and the average ticket is as above. |
| StatsMetrics.MetricsReconcile | src/components/StatsView.tsx:155-167 | Delivered, active, ready and cancelled counts plus the returned orders make up the set; total demand plus returned revenue is all revenue. |
| StatsMetrics.StatusClassesExclusive | src/components/StatsView.tsx:157-160 | Every order is in exactly one of delivered, active, ready, cancelled or returned; "active" excludes returned orders. |
| StatsMetrics.StatusPartition | src/components/StatsView.tsx:157-165 | Counted and summed over a set, those five classes add up to the whole set. |
| StatsMetrics.ServiceRevenueOf | src/components/StatsView.tsx:393-398 | With non-negative amounts the four service revenues cover at least the total revenue. |
| StatsMetrics.ServicesCoverRevenue | src/components/StatsView.tsx:393-398 | Each order counts in at least one service, so the service revenues together are at least the total. Services overlap, so they can be more. |
| StatsMetrics.ServiceDistribution | src/components/StatsView.tsx:400-405 | Each of Bordado, Sublimación, Costura and Confección appears under its name with its revenue exactly when that revenue is positive; there are at most four slices, each positive. |
| StatsMetrics.ServiceDistributionSlices | src/components/StatsView.tsx:400-405 | The slices come in the order Bordado, Sublimación, Costura, Confección, each one only when positive; with no negative revenue they add up to the four services' revenue. |
| StatsMetrics.UniqueClients | src/components/StatsView.tsx:308 | The number of distinct client ids is at most the number of orders, and 0 only for no orders. |
| StatsMetrics.ClientIdsBound | src/components/StatsView.tsx:308 | A set of ids taken from a list is no larger than the list and contains its first id. |
| StatsMetrics.CompletionRate | src/components/StatsView.tsx:860 | "Tasa Completado" is a rounded percentage in 0..100, and 0 for an empty set. |
| StatsMetrics.CompletionRateOfSet | src/components/StatsView.tsx:860 | On any set, delivered plus ready orders never exceed the set, so the rate is a percentage. |
| StatsMetrics.TrendOf | src/components/StatsView.tsx:529-541 | With no comparison the trend is flat 0. Otherwise it is the relative change in percent, or 100 when growing from 0. It points up exactly for a positive percentage and down exactly for a negative one. |
| StatsMetrics.TrendFollowsGrowth | src/components/StatsView.tsx:534-540 | Against a positive comparison value the badge points up exactly when the value grew, and down exactly when it fell. |
| StatsProduction.FunnelOf | src/components/StatsView.tsx:198-204 | The five funnel stages together hold at most the whole set. |
| StatsProduction.FunnelPartition | src/components/StatsView.tsx:198-204 | The stages are disjoint and, with the paused, cancelled, returned and binned orders, cover the set. |
| StatsProduction.NotedMetersValue | src/components/StatsView.tsx:209-210 | A description with no note, or with an unparsable amount in it, adds 0 metres. |
| StatsProduction.EstimateMaterials | src/components/StatsView.tsx:206-222 | The estimate loop computes the four accumulators of the fold over the set. |
| StatsProduction.EstimateItems | src/components/StatsView.tsx:212-221 | The inner loop computes the order's cloth, thread and sublimation jobs. |
| StatsProduction.ItemsStep | src/components/StatsView.tsx:212-221 | One more item adds its cloth, thread and jobs. |
| StatsProduction.ItemsThreadPerGarment | src/components/StatsView.tsx:216 | The thread of an order's items is 250 m per garment. |
| StatsProduction.ThreadPerGarment | src/components/StatsView.tsx:216 | The thread of the set is 250 m times its garment count. |
| StatsProduction.ItemsFabricNone | src/components/StatsView.tsx:213-215 | The items of an order that is not confección add no cloth. |
| StatsProduction.FabricOnlyConfeccion | src/components/StatsView.tsx:213-215 | The cloth of the set is that of its confección orders alone. |
| StatsProduction.LeadTimes | src/components/StatsView.tsx:238-243 | Only positive lead times are collected, at most one per order. |
| StatsProduction.LeadTimesStep | src/components/StatsView.tsx:239-243 | One more order adds its lead time when it is positive. |
| StatsProduction.AverageLeadTime | src/components/StatsView.tsx:235-244 | The loop computes the average of the positive lead times of the delivered orders. |
| StatsProduction.AverageLeadTimeSign | src/components/StatsView.tsx:244 | The average is 0 when there are no positive durations and positive otherwise. |
| StatsProduction.SumPositive | src/components/StatsView.tsx:242 | A non-empty sum of positive durations is positive. |
| StatsProduction.OverdueCount | src/components/StatsView.tsx:245-246 | The count is the number of open orders (not delivered, cancelled or binned) whose deadline lies before `now`, the same as filtering the open orders first and then by deadline; it is zero exactly when no open order is late, and never more than the open orders. |
| StatsProduction.OverdueCountStep | src/components/StatsView.tsx:245-246 | One more order adds exactly one when it is open and its deadline lies before `now`, and nothing otherwise. |
| StatsProduction.OverdueCountGrows | src/components/StatsView.tsx:245-246 | A later clock never makes fewer orders overdue. |
| StatsProduction.QualityRate | src/components/StatsView.tsx:247 | The quality rate is 100 for an empty set and lies in 0..100; it is 100 exactly when nothing was returned. |
| StatsProduction.CountGenders | src/components/StatsView.tsx:254-261 | The gender loop computes the garments of men, women and children over the confección orders. |
| StatsProduction.GenderStep | src/components/StatsView.tsx:255-260 | One more order adds its garments of the genders when it is confección. |
| StatsProduction.ItemsGenderStep | src/components/StatsView.tsx:256-259 | One more item adds its quantity when its gender is one of them. |
| StatsProduction.ItemsOfAllGenders | src/components/StatsView.tsx:257-259 | Every item is counted under exactly one of the three groups. |
| StatsProduction.GendersCoverConfeccion | src/components/StatsView.tsx:254-261 | The three counts add up to the garments of the confección orders. |
| StatsSizes.TallyItems | src/components/StatsView.tsx:226-231 | Tallying sizes keeps every size once. |
| StatsSizes.SizeTally | src/components/StatsView.tsx:224-232 | The size map names every size once. |
| StatsSizes.SizeHistogram | src/components/StatsView.tsx:224-233 | The histogram is the eight largest tallies: at most 8 entries, non-increasing, each taken from the tally. |
| StatsSizes.TallyOrder | src/components/StatsView.tsx:226-231 | The inner loop computes the tally of one order's items. |
| StatsSizes.SizeTokenShape | src/components/StatsView.tsx:227-228 | A kept size token is trimmed and already upper-case. |
| StatsSizes.UpperOfTrimmed | src/components/StatsView.tsx:227 | Upper-casing a trimmed size keeps it trimmed, and a second upper-casing changes nothing. |
| StatsSizes.TallyItemsTokens | src/components/StatsView.tsx:226-231 | Tallying items adds only kept, trimmed, upper-case tokens. |
| StatsSizes.SizeTallyTokens | src/components/StatsView.tsx:224-232 | Every size in the histogram is a kept, trimmed, upper-case token. |
| StatsSizes.TallyItemsTotal | src/components/StatsView.tsx:228-229 | Tallying items adds exactly the quantity of those with a kept size. |
| StatsSizes.SizeTallyTotal | src/components/StatsView.tsx:224-232 | The tally loses no garment of a kept size and counts no other. |
| StatsFinancial.AddToBucket | src/components/StatsView.tsx:277-280 | The amount is added to the chosen category's bucket and no other. |
| StatsFinancial.ClientRevenue | src/components/StatsView.tsx:274 | The client tally names every client once. |
| StatsFinancial.AvgPrice | src/components/StatsView.tsx:284-285 | The average price times the garment count is the order's amount, and it is 0 for an order without garments. |
| StatsFinancial.ShareItems | src/components/StatsView.tsx:287-290 | The product tally names every product once. |
| StatsFinancial.ProductRevenue | src/components/StatsView.tsx:267-292 | The product tally of the set names every product once. |
| StatsFinancial.Breakdown | src/components/StatsView.tsx:300-305 | The breakdown is Confección, Bordado, Sublimación, Costura in that order, each slice present only when its revenue is positive; at most four slices, each positive. |
| StatsFinancial.FinancialDeepDive | src/components/StatsView.tsx:265-306 | The loop builds the three tallies. Top clients and top products are each at most 5 entries, sorted non-increasing, and the breakdown is that of the category tally. |
| StatsFinancial.AddCategory | src/components/StatsView.tsx:277-280 | The category step adds the amount to the bucket the if/else chain chooses. |
| StatsFinancial.ShareOrder | src/components/StatsView.tsx:287-290 | The inner loop computes the shares of one order's items. |
| StatsFinancial.CategoryBucket | src/components/StatsView.tsx:269-281 | Each category bucket is the revenue of the non-cancelled orders for which that category is the first match. |
| StatsFinancial.CategoryRevenueSum | src/components/StatsView.tsx:269-281 | The four buckets together hold every non-cancelled order's amount once. |
| StatsFinancial.BillableRevenue | src/components/StatsView.tsx:270 | Non-cancelled revenue is the potential revenue of the metrics plus that of the returned orders. |
| StatsFinancial.ClientRevenueOf | src/components/StatsView.tsx:274 | Each client's tally is the revenue of that client's non-cancelled orders. |
| StatsFinancial.ClientRevenueTotal | src/components/StatsView.tsx:274 | The client tally holds all non-cancelled revenue. |
| StatsFinancial.ShareItemsTotal | src/components/StatsView.tsx:287-290 | Sharing an order's items adds exactly their shares to the product tally's total. |
| StatsFinancial.ItemSharesTotal | src/components/StatsView.tsx:287-290 | Summed item by item, the shares are the price times the order's garment count. |
| StatsFinancial.AvgPriceShares | src/components/StatsView.tsx:284-290 | The shares of an order at its average price add up exactly to its amount, or to 0 without garments. |
| StatsFinancial.ProductRevenueTotal | src/components/StatsView.tsx:282-290 | The product tally holds the revenue of every non-cancelled order that has garments; an order without garments loses its amount. |
| StatsFinancial.BreakdownTotal | src/components/StatsView.tsx:300-305 | With no negative bucket, dropping the empty slices keeps the whole sum. |
| StatsMarket.AllBucketsListed | src/components/StatsView.tsx:314-325 | The ten buckets are all listed. |
| StatsMarket.AllBucketsDistinct | src/components/StatsView.tsx:314-325 | The ten buckets are listed once each. |
| StatsMarket.EmptyBreakdown | src/components/StatsView.tsx:314-325 | The starting breakdown is well formed: each of the ten buckets has a tally that names no product twice. |
| StatsMarket.AddItem | src/components/StatsView.tsx:335-351 | Adding a product to its bucket keeps every tally well formed. |
| StatsMarket.TallyItems | src/components/StatsView.tsx:328-352 | The overall tally and the breakdown stay well formed over an order's items. |
| StatsMarket.Tally | src/components/StatsView.tsx:327-353 | The same holds over the whole set. |
| StatsMarket.ComputeMarketStats | src/components/StatsView.tsx:327-369 | The loop and `toSortedArray` give every one of the ten buckets, and the overall ranking, as its five largest entries, sorted non-increasing. |
| StatsMarket.TallyOrder | src/components/StatsView.tsx:328-352 | The inner loop computes the tallies after one order's items. |
| StatsMarket.AddItemKeeps | src/components/StatsView.tsx:333-351 | Adding an item keeps each bucket's entries in that bucket, with the same count as in the overall tally. |
| StatsMarket.TallyItemsKeeps | src/components/StatsView.tsx:328-352 | The same holds after all of an order's items. |
| StatsMarket.MarketSplitsProducts | src/components/StatsView.tsx:327-353 | Every product is tallied only in the bucket its name classifies to, with the same count there as in the overall ranking. |
| StatsMarket.BucketsTotalUpdate | src/components/StatsView.tsx:335 | Replacing one bucket's tally changes the ten-bucket total by the difference. |
| StatsMarket.BucketsTotalEmpty | src/components/StatsView.tsx:314-325 | Empty buckets total 0. |
| StatsMarket.TallyItemsOverall | src/components/StatsView.tsx:333 | The overall tally grows by the items' quantity. |
| StatsMarket.TallyItemsBuckets | src/components/StatsView.tsx:335-351 | The buckets together grow by the items' quantity too. |
| StatsMarket.MarketTotals | src/components/StatsView.tsx:327-353 | Every garment is counted once overall and once in exactly one bucket. |
| StatsTrend.TallyBy | src/components/StatsView.tsx:374-385 | The revenue tally by key names each key once. |
| StatsTrend.RevenueByDay | src/components/StatsView.tsx:374-385 | The loop fills the date tally and the weekday tally from the non-cancelled orders. |
| StatsTrend.TallyByValue | src/components/StatsView.tsx:380-383 | Each key's revenue is that of the non-cancelled orders created under it. |
| StatsTrend.TallyByTotal | src/components/StatsView.tsx:380-383 | Whatever the keys, the trend holds all non-cancelled revenue. |
| StatsTrend.BestDayOf | src/components/StatsView.tsx:389-391 | The best day's revenue is never negative. |
| StatsTrend.BestDay | src/components/StatsView.tsx:389-391 | The loop computes the best day and its revenue. |
| StatsTrend.BestDayIsFirstMax | src/components/StatsView.tsx:389-391 | The best day has the largest revenue and is the first day to reach it; with no positive revenue it is "-". |
| StatsCrm.ClientOrders | src/components/StatsView.tsx:430 | A client's orders are theirs and not cancelled. |
| StatsCrm.LastOrderDate | src/components/StatsView.tsx:433 | There is a last order date exactly when there are orders. |
| StatsCrm.LastOrderDateIsMax | src/components/StatsView.tsx:433 | The last order date is the latest creation time among the orders. |
| StatsCrm.GetClientStats | src/components/StatsView.tsx:429-446 | A client without orders has spent 0 and counts 999 days since the last order. |
| StatsCrm.SegmentOf | src/components/StatsView.tsx:438-443 | Champion holds exactly when spend exceeds 1000 or there are at least 10 orders; Leal and En Riesgo follow in rule order. |
| StatsCrm.InactivoUnreachable | src/components/StatsView.tsx:441-442 | `Inactivo` is never assigned: a client past 180 days with orders is already `En Riesgo`. |
| StatsCrm.NoOrdersIsLead | src/components/StatsView.tsx:436-443 | A client with no orders is `Prometedor`. |
| StatsCrm.Ceil | src/components/StatsView.tsx:485 | `Math.ceil` gives the least integer not below its argument. |
| StatsCrm.Visit | src/components/StatsView.tsx:461-490 | One client's visit keeps the month keys distinct. |
| StatsCrm.Gather | src/components/StatsView.tsx:448-490 | After the loop the six month slots keep distinct keys. |
| StatsCrm.RetentionBounds | src/components/StatsView.tsx:501-503 | The retention rate is in 0..100, and 0 when no client has orders. |
| StatsCrm.SegmentationChart | src/components/StatsView.tsx:493-499 | Each of Champions, Leales, Nuevos/Leads, En Riesgo and Inactivos appears under its name with its count exactly when that count is positive; there are at most five slices, each positive. |
| StatsCrm.SegmentationSlices | src/components/StatsView.tsx:493-499 | The slices come in the order of the five segments, each one only when non-empty, and they add up to the number of classified clients. |
| StatsCrm.SegmentationCoversClients | src/components/StatsView.tsx:493-499 | The slices of the gathered segments add up to the number of clients: every client is drawn exactly once. |
| StatsCrm.CrmAnalytics | src/components/StatsView.tsx:427-516 | The analysis returns the gathered figures. The top spenders are at most 5, sorted by non-increasing spend. Retention is a percentage, the total is the number of clients, and the active clients are Champion, Leal and Prometedor. |
| StatsCrm.GatherClients | src/components/StatsView.tsx:461-490 | The loop over the clients computes segments, scatter points, spenders and month counts as the fold does. |
| StatsCrm.TakeSorted | src/components/StatsView.tsx:505-511 | The first five of a sorted list are sorted. |
| StatsCrm.AddSegmentCounts | src/components/StatsView.tsx:463 | Counting a client's segment adds one to the total. |
| StatsCrm.GatherSegments | src/components/StatsView.tsx:461-463 | Every client is in exactly one segment: the counts sum to the number of clients. |
| StatsCrm.GatherScatter | src/components/StatsView.tsx:465-473 | The scatter has one point per client with orders. |
| StatsCrm.GatherMonths | src/components/StatsView.tsx:484-489 | The month slots keep their keys and count each client at most once. |
| StatsCrm.SpendersAreBillable | src/components/StatsView.tsx:475-482 | Every spender row has a positive spend equal to the client's non-cancelled revenue. |
| StatsCrm.ActiveClients | src/components/StatsView.tsx:514 | The active clients are all clients except those `En Riesgo` or `Inactivo`. |
| StatsCrm.RecentlyCreatedWithin | src/components/StatsView.tsx:484-486 | A client counts as recent exactly when created at most 180 days from now, with part of a day counted as a whole one. |
| Ranking.Names | src/components/StatsView.tsx:294 | The keys of a tally, one per entry, in the order of its entries. |
| Ranking.Bump | src/components/StatsView.tsx:274 | `map.set(name, (map.get(name) \|\| 0) + v)` keeps names unique and adds a name at the end only when it is new. |
| Ranking.TotalUpdate | src/components/StatsView.tsx:274 | Replacing one entry changes the total by the difference. |
| Ranking.ValueOfUpdate | src/components/StatsView.tsx:274 | Replacing one entry's value changes only that name's value. |
| Ranking.ValueOfAbsent | src/components/StatsView.tsx:274 | An absent name has value 0 (`\|\| 0`). |
| Ranking.BumpAdds | src/components/StatsView.tsx:274 | A bump adds `v` to the total and to the bumped name's value, and changes no other value. |
| Ranking.BumpExisting | src/components/StatsView.tsx:274 | The same for a name already present. |
| Ranking.ValueOfAt | src/components/StatsView.tsx:274 | The value of a name is that of its entry. |
| Ranking.Chart | src/components/StatsView.tsx:305 | A chart drawn from a list of slices is no longer than the list and shows only positive slices. |
| Ranking.ChartMembership | src/components/StatsView.tsx:305 | An entry is drawn exactly when it is in the list and its value is positive. |
| Ranking.ChartAppend | src/components/StatsView.tsx:305 | The chart keeps the list's order: the chart of two lists joined is the two charts joined. |
| Ranking.ChartOne | src/components/StatsView.tsx:305 | A one-entry list draws that entry exactly when it is positive. |
| Ranking.ChartSnoc | src/components/StatsView.tsx:305 | One more entry at the end of the list adds its slice at the end of the chart. |
| Ranking.ChartOfFour | src/components/StatsView.tsx:300-305 | A chart of four slices is the four slices, each kept only when positive, in order. |
| Ranking.ChartOfFive | src/components/StatsView.tsx:493-499 | The same for five slices. |
| Ranking.ChartTotal | src/components/StatsView.tsx:305 | With no negative value in the list, dropping the empty slices keeps the whole total. |
| Ranking.Insert | src/components/StatsView.tsx:294 | Insertion adds one element. |
| Ranking.SortDesc | src/components/StatsView.tsx:294 | The stable sort keeps the length. |
| Ranking.InsertAt | src/components/StatsView.tsx:294 | Insertion places the element after the keys not below it and before the smaller ones. |
| Ranking.InsertPermutation | src/components/StatsView.tsx:294 | Insertion adds the element and keeps every other. |
| Ranking.InsertSorted | src/components/StatsView.tsx:294 | Insertion into a non-increasing list keeps it non-increasing. |
| Ranking.SortDescSortedPermutation | src/components/StatsView.tsx:294 | The sort gives a non-increasing permutation of its input. |
| Ranking.SortInPlace | src/components/StatsView.tsx:505 | The in-place array sort leaves the array equal to the stable sort of its old contents. |
| Ranking.InsertLast | src/components/StatsView.tsx:505 | One insertion step moves `a[i]` into place in the prefix and leaves the rest of the array alone. |
| Ranking.Take | src/components/StatsView.tsx:294 | `slice(0, n)` gives the first `min(n, length)` elements. |
| Ranking.TopN | src/components/StatsView.tsx:294 | The top-n list has at most n entries, sorted non-increasing, taken from the tally. |
| Ranking.TakeSortedSub | src/components/StatsView.tsx:294 | A prefix of a sorted tally is sorted and a sub-multiset. |
| OrdersRules.SizeWeightUnlisted | components/OrdersView.tsx:109-118 | A size that is neither a number nor listed weighs 999. |
| OrdersRules.SizeWeightBlank | components/OrdersView.tsx:110-111 | A blank size is the number 0, so it weighs 0. |
| OrdersRules.PlainSize | components/OrdersView.tsx:110 | Upper-case letters and digits are left as they are by upper-casing and trimming. |
| OrdersRules.DigitsNumber | components/OrdersView.tsx:111 | `Number` reads a string of decimal digits as its value. |
| OrdersRules.SizeWeightNumeric | components/OrdersView.tsx:110-111 | A size of decimal digits weighs its numeric value. |
| OrdersRules.NotANumber | components/OrdersView.tsx:111 | A size with a letter at position 0 or 1, after digits, is not a number. |
| OrdersRules.LetterStopsScan | components/OrdersView.tsx:111 | The numeric scan of such a size stops at the letter. |
| OrdersRules.SizeWeightListed | components/OrdersView.tsx:112-117 | A listed size weighs its table value (so XXL = 2XL = 70, XXXL = 3XL = 80). |
| OrdersRules.ListedNotNumber | components/OrdersView.tsx:112-116 | No listed size reads as a number. |
| OrdersRules.BySizeAscending | components/OrdersView.tsx:311-313 | Sorting a print-sheet group by size weight keeps exactly its items and puts the lightest size first. |
| OrdersRules.GroupOf | components/OrdersView.tsx:149-156 | Every status belongs to one of the five groups. |
| OrdersRules.StatusGroupsPartition | components/OrdersView.tsx:149-156 | The five groups partition the fifteen statuses: each status is in exactly one. |
| OrdersRules.AllIsEveryGroupButTrash | components/OrdersView.tsx:189-195 | `all` holds exactly for orders outside the bin group. |
| OrdersRules.SentinelCategory | components/OrdersView.tsx:171-174 | A sentinel names a definite category. |
| OrdersRules.SentinelDecides | components/OrdersView.tsx:171-174 | A sentinel model decides the category on its own. |
| OrdersRules.GeneralIsNoneOfThree | components/OrdersView.tsx:176-181 | Away from the sentinels, `general` holds exactly when the order is none of embroidery, sublimation or sewing. |
| OrdersRules.OptionListDecides | components/OrdersView.tsx:176-178 | A model from a service's option list puts the order in that service and out of `general`. |
| OrdersRules.SomeItemMentionsWider | components/OrdersView.tsx:632 | An item that mentions ruedo or costura passes the filter's wider sewing test. |
| OrdersRules.SomeItemMentionsNarrower | components/OrdersView.tsx:178 | An item that passes the wider test but not the narrower one mentions "ajuste". |
| OrdersRules.DetectModeAgreesWithFilter | components/OrdersView.tsx:623-634 | The detected service mode is a category the filter also accepts. A general mode means the order is general, or its sewing shows only through "ajuste", which detection omits. |
| OrdersRules.StatusChipsCoverOrders | components/OrdersView.tsx:769-773 | The five status chips count every order once. |
| OrdersRules.ChipCountsCoverOrders | components/OrdersView.tsx:764-775 | Through the chip counts, start, production, finish, attention and bin add up to all orders. |
| OrdersRules.FilteredOrders | components/OrdersView.tsx:777-790 | The filtered list is no longer than the order list. |
| OrdersRules.FilteredOrdersMembers | components/OrdersView.tsx:777-790 | The list holds exactly the orders that pass the search, status, category and time filters. |
| OrdersRules.WeekWithinMonth | components/OrdersView.tsx:785-788 | Narrowing from a month to a week never adds an order. |
| OrdersForm.PlanItem | components/OrdersView.tsx:480-493 | The line's size, gender and note: the custom or chosen size in general mode, or the dimensions (or "Estándar") and location in service mode. It stops exactly when the size is empty, or when both service fields are empty. |
| OrdersForm.EffectiveColor | components/OrdersView.tsx:494 | The line colour is the specific colour when one is chosen and not blank, otherwise the fabric colour or "Base"; it is never empty. |
| OrdersForm.TotalQuantityUpdate | components/OrdersView.tsx:503 | Changing one line's quantity changes the total by the difference. |
| OrdersForm.MergeTotal | components/OrdersView.tsx:495-514 | Either way, the lines hold exactly `tempQty` more garments. |
| OrdersForm.MergeJoinsFirstLine | components/OrdersView.tsx:495-514 | The draft joins the first matching line, which grows by `tempQty`; with no match one new line is appended. |
| OrdersForm.SpliceStart | components/OrdersView.tsx:543 | `splice` starts within the list. |
| OrdersForm.SplicedRemovesOne | components/OrdersView.tsx:541-545 | An index inside the list removes exactly that element and keeps the order of the rest. A negative index counts from the end. An index past the end removes nothing. |
| OrdersForm.OrderForm.constructor | components/OrdersView.tsx:420-440 | The form opens with no lines, in general mode, one garment of size M for a gentleman, and every other field empty. |
| OrdersForm.OrderForm.AddItem | components/OrdersView.tsx:476-520 | Without a ready form, a positive quantity and a size, nothing changes. Otherwise the lines become the merge, which holds exactly `tempQty` more garments, and the quantity and service fields reset. |
| OrdersForm.OrderForm.CommitLines | components/OrdersView.tsx:515-519 | The accepted add sets the lines, resets the quantity to 1, clears a custom size and the service fields, and leaves the rest. |
| OrdersForm.OrderForm.RemoveItem | components/OrdersView.tsx:522 | Every line with the id goes, and the others keep their order. Every other field of the form keeps its value. |
| OrdersForm.OrderForm.AddImage | components/OrdersView.tsx:528-533 | A non-empty image read is appended to the reference images; an empty read changes nothing. Every other field of the form keeps its value. |
| OrdersForm.OrderForm.RemoveImage | components/OrdersView.tsx:541-545 | The image list becomes the list with `splice(index, 1)` applied: exactly that element goes. Every other field of the form keeps its value. |
| Annotation.GroupEnd | components/OrdersView.tsx:640 | The lazy group ends at an occurrence of " mts]". |
| Annotation.GroupEndShortest | components/OrdersView.tsx:640 | The lazy group is the shortest: it crosses no line terminator and no earlier " mts]". |
| Annotation.MatchAt | components/OrdersView.tsx:640 | A match at a position starts with the prefix and ends inside the text. |
| Annotation.FirstMatch | components/OrdersView.tsx:640 | `match` finds a match at or after the search start. |
| Annotation.FirstMatchLeftmost | components/OrdersView.tsx:640 | That match is the leftmost one. |
| Annotation.StripAll | components/OrdersView.tsx:565 | The global replace never lengthens the text. |
| Annotation.StripAllNoMatch | components/OrdersView.tsx:565 | A text with no note is left as it is. |
| Annotation.StripAllShortens | components/OrdersView.tsx:565 | A text with a note gets shorter. |
| Annotation.IndexOf | components/OrdersView.tsx:643 | A literal search finds an occurrence at or after the start. |
| Annotation.IndexOfLeftmost | components/OrdersView.tsx:643 | That occurrence is the first one. |
| Annotation.RemoveFirst | components/OrdersView.tsx:643 | `replace` with a string pattern shortens the text by the pattern's length when it occurs, and leaves the text as it is when it does not. |
| Annotation.SaveDescription | components/OrdersView.tsx:563-567 | The stored description is trimmed. Without sublimation metres it is the trimmed description. |
| Annotation.DecodeDescription | components/OrdersView.tsx:637-645 | Outside sublimation mode, or without a note, the description comes back unchanged with no metres. |
| Annotation.NotedMeters | src/components/StatsView.tsx:209-210 | Metres are read only from a non-empty group of a note. |
| Annotation.NoOccurrenceAcrossBreak | components/OrdersView.tsx:640 | A text without line terminators cannot occur across one. |
| Annotation.SuffixNoBorder | components/OrdersView.tsx:640 | " mts]" never occurs again less than five characters after itself. |
| Annotation.NoteMatches | components/OrdersView.tsx:640 | Where a note for writable metres stands, the expression matches exactly that note. |
| Annotation.NotePieces | components/OrdersView.tsx:566 | A note is its prefix, its metres and its suffix, in that order. |
| Annotation.GroupOverMeters | components/OrdersView.tsx:640 | The lazy group runs over writable metres up to the suffix that follows them. |
| Annotation.SuffixNotInMeters | components/OrdersView.tsx:640 | Metres without " mts]" hold no occurrence of it. |
| Annotation.GroupEndIs | components/OrdersView.tsx:640 | The group ends at the first suffix not preceded by a line terminator. |
| Annotation.MatchBeforeBreak | components/OrdersView.tsx:640 | Nothing can match across a line terminator. |
| Annotation.GroupEndBeforeBreak | components/OrdersView.tsx:640 | A group that starts before a line terminator ends before it, or not at all. |
| Annotation.FirstMatchIs | components/OrdersView.tsx:640 | A match with none before it is the first match. |
| Annotation.IndexOfIs | components/OrdersView.tsx:643 | An occurrence with none before it is what `indexOf` finds. |
| Annotation.SavedIsFramed | components/OrdersView.tsx:563-567 | With metres, the saved description is the cleaned text, a blank line and the note, or the note alone for an empty text. |
| Annotation.FrameNote | components/OrdersView.tsx:565-566 | Trimming a trimmed text joined to a blank line and a note gives that framed form. |
| Annotation.TrimFrame | components/OrdersView.tsx:566 | Trimming a trimmed text, a blank line and a trimmed note keeps all three, or only the note when the text is empty. |
| Annotation.FramedNoEarlyMatch | components/OrdersView.tsx:640 | No match starts inside the cleaned text or the blank line after it. |
| Annotation.NoteFirst | components/OrdersView.tsx:640-643 | A writable note with no match before it is both the first match and the first occurrence of itself. |
| Annotation.FramedParts | components/OrdersView.tsx:566 | The stored text ends with the note, after the cleaned text and a blank line. |
| Annotation.FramedFirstNote | components/OrdersView.tsx:640-643 | In the stored text the note is the first match and the first occurrence of itself. |
| Annotation.FramedRemoveNote | components/OrdersView.tsx:643 | Removing the note leaves the cleaned text and its blank line. |
| Annotation.NoteGroup | components/OrdersView.tsx:640-642 | The group of the matched note is its metres, and the match is the note. |
| Annotation.DecodeFramed | components/OrdersView.tsx:637-645 | Editing a stored text of that form gives back the metres and the cleaned text. |
| Annotation.DecodeFirstNote | components/OrdersView.tsx:637-645 | A text whose first match is a note gives that note's metres and the trimmed rest. |
| Annotation.TrimBody | components/OrdersView.tsx:643 | Trimming the cleaned text with its blank line gives the cleaned text back. |
| Annotation.NoteRoundTrip | components/OrdersView.tsx:563-645 | Saving writable metres and opening the order again gives back those metres and the cleaned description. This needs the metres to be non-empty with no line break and no " mts]", and the cleaned description to hold no note. |
| ClientsView.GetClientStats | components/ClientsView.tsx:74-83 | The card is VIP exactly when spend exceeds 500 or there are at least 5 orders. It counts at most all orders, and has a last date exactly when it has orders. |
| ClientsView.ClientStatsCounts | components/ClientsView.tsx:75-77 | The card counts and sums exactly the client's orders that are not cancelled. |
| ClientsView.ClientStatsLastDate | components/ClientsView.tsx:78 | The last date is the latest creation date of those orders. |
| ClientsView.DateRange | components/ClientsView.tsx:86-107 | Every range ends now. `all` starts at 0, `today` at midnight, `week` on Monday, `month` on day 1, `year` on 1 January. |
| ClientsView.DateRangesNest | components/ClientsView.tsx:86-107 | On a real calendar the ranges are non-empty and nest: year ⊇ month ⊇ today and week ⊇ today. |
| ClientsView.FilteredClients | components/ClientsView.tsx:109-130 | The filter-and-sort computes the matching clients in the chosen order. |
| ClientsView.ClientListMembers | components/ClientsView.tsx:112-120 | The list is a permutation of the matching clients: exactly those that match the search and were created in `[start, end]`. |
| ClientsView.ClientListSorted | components/ClientsView.tsx:122-128 | `spent` sorts by non-increasing spend, `newest` by non-increasing creation time, `az` by the collation rank. |
| ClientsView.ToInt32 | components/ClientsView.tsx:49 | The hash wraps to a signed 32-bit integer congruent to the exact value. |
| ClientsView.ShiftLeft5 | components/ClientsView.tsx:49 | `hash << 5` is a signed 32-bit integer. |
| ClientsView.AvatarHash | components/ClientsView.tsx:47-50 | The loop computes the hash of the name. |
| ClientsView.AvatarColor | components/ClientsView.tsx:38-52 | The colour is determined by the name and is one of the six palette entries. |
| ClientsView.HashBound | components/ClientsView.tsx:47-50 | The hash grows by less than 2^32 per character. |
| ClientsView.HashExact | components/ClientsView.tsx:47-50 | For names shorter than 2^21 characters the hash stays below 2^53, so double arithmetic computes it exactly. |
| ClientsView.NewClients | components/ClientsView.tsx:619 | "Nuevos (Mes)" counts at most all clients. |
| ClientsView.VipClients | components/ClientsView.tsx:623 | "Clientes VIP" counts at most all clients. |
| ClientsView.NewClientsThirtyDays | components/ClientsView.tsx:619 | The "new" window is exactly thirty days, and the count never grows as time passes. |
| ClientsView.FiveOrdersMakeVip | components/ClientsView.tsx:80 | Five orders that are not cancelled make a client VIP, whatever they spent. |
| ClientsPersonnel.Apply | components/ClientsView.tsx:296 | Updating a field sets that field and keeps the others. |
| ClientsPersonnel.UpdateWhere | components/ClientsView.tsx:296 | Only profiles with the id change, and the list keeps its length. |
| ClientsPersonnel.FindProfile | components/ClientsView.tsx:301 | `find` gives the first profile with the id, or none when no profile has it. |
| ClientsPersonnel.Personnel.constructor | components/ClientsView.tsx:229-230 | The sheet opens with no profiles and none shown. |
| ClientsPersonnel.Personnel.AddPerson | components/ClientsView.tsx:273-284 | One empty profile is appended and becomes the active one. |
| ClientsPersonnel.Personnel.RemovePerson | components/ClientsView.tsx:286-293 | On confirmation, exactly the profiles with the id go and the first remaining profile (or none) becomes active. Without confirmation nothing changes. |
| ClientsPersonnel.Personnel.UpdatePersonField | components/ClientsView.tsx:295-298 | Profiles with the id get the new field value, and nothing else changes. |
| ClientsPersonnel.Personnel.UpdatePersonValue | components/ClientsView.tsx:300-306 | The measurement key of the profile found is set, or nothing changes when no profile has the id. |
| ClientsPersonnel.UpdateValueTouchesOneKey | components/ClientsView.tsx:300-306 | For a unique id, only that profile's one key changes. Its other keys and fields and every other profile stay the same. |
| Dashboard.OperationalMetrics | components/DashboardView.tsx:20-41 | Urgent orders are among the open ones, which are among all orders. The three deadline buckets together hold at most the open orders. |
| Dashboard.DeadlineBucketsFit | components/DashboardView.tsx:35-37 | The three buckets of any list hold at most that list. |
| Dashboard.DeadlineBucketsDisjoint | components/DashboardView.tsx:26-37 | Each bucket holds only open orders, and no order is in two buckets. |
| Dashboard.UrgentCountsBothLevels | components/DashboardView.tsx:32 | The urgent count counts both "Urgente" and "Muy Urgente": every open order whose priority is not normal. |
| Dashboard.DateRange | components/DashboardView.tsx:44-73 | `today` runs from midnight to 23:59:59, and `all` from 0 to now. `custom` ends 86399999 ms after the end date, or admits nothing when a date does not parse. The other ranges end now. |
| Dashboard.CustomDayIsWholeDay | components/DashboardView.tsx:66-69 | A one-day custom range admits exactly that day. |
| Dashboard.NaNRangeAdmitsNothing | components/DashboardView.tsx:75-81 | An unparsable custom date empties both lists. |
| Dashboard.NothingPasses | components/DashboardView.tsx:78-79 | A filter nothing passes gives the empty list. |
| Dashboard.FilteredMembers | components/DashboardView.tsx:78-79 | The filtered clients and orders are exactly those created in the range, both ends included. |
| Dashboard.MetricsOf | components/DashboardView.tsx:83-94 | The totals are the sizes of the filtered lists, and the pending and completed counts are at most the total. |
| Dashboard.ReadyCountsTwice | components/DashboardView.tsx:84-85 | A ready order is both pending and completed: pending plus completed is the non-cancelled count plus the ready count. |
| Dashboard.PendingCompletedSplit | components/DashboardView.tsx:84-85 | The same, counted over any list. |
| Dashboard.Efficiency | components/DashboardView.tsx:206 | The efficiency is 0 without orders. |
| Dashboard.EfficiencyIsPercentage | components/DashboardView.tsx:206 | On the dashboard's figures the efficiency is a rounded percentage in 0..100, and 100 when every order is completed. |
| Storage.Numbers | services/storage.ts:78-81 | Each order number is read with `parseInt` after dropping "PED-". |
| Storage.MaxNumber | services/storage.ts:78-81 | The maximum starts at 25 and is never below it. |
| Storage.NextNumber | services/storage.ts:83 | The next number is at least 26. |
| Storage.MaxNumberIsMax | services/storage.ts:78-81 | The maximum bounds every parsed number and is one of them unless it is 25. Unparsable numbers are ignored. |
| Storage.EmptyCaseAgrees | services/storage.ts:76 | The "PED-026" of an empty list is what the general rule gives too. |
| Storage.NumbersBelowMax | services/storage.ts:78-81 | Every parsable order number is at most the maximum. |
| Storage.NextIsSuccessor | services/storage.ts:74-84 | The next order number is always the formatted successor of the maximum. |
| Storage.SuccessorIsFresh | services/storage.ts:74-84 | The next number reads back as itself and is greater than every existing parsable number, so it never repeats one. |
| Storage.StripPrefix | services/storage.ts:79 | Dropping "PED-" from a formatted number leaves its padded digits. |
| Storage.FormatReadsBack | services/storage.ts:83 | A formatted number parses back to itself. It is padded to at least three digits and never cut. |
| Storage.Store.AddClient | services/storage.ts:23-27 | The client is appended at the end, and the other lists are unchanged. |
| Storage.Store.UpdateClient | services/storage.ts:29-36 | The first client with the id is replaced. Without one nothing changes. |
| Storage.Store.DeleteClient | services/storage.ts:38-42 | Every client with the id goes and the rest keep their order. |
| Storage.Store.SaveOrders | services/storage.ts:54-56 | The order list is replaced, and nothing else changes. |
| Storage.Store.SaveTemplate | services/storage.ts:68-72 | Exactly one template is appended. |
| Storage.Store.GetNextOrderNumber | services/storage.ts:74-84 | The number returned is the formatted successor of the largest stored order number. |
| Storage.UpdateReplacesFirst | services/storage.ts:31 | `findIndex` finds the first client with the id. |
| Storage.DeleteKeepsOthers | services/storage.ts:40 | Deleting keeps exactly the clients with another id. |
| App.ReplaceOrderSpec | App.tsx:46-50 | Replacing keeps the length and every id. Orders with the id become the new one and the others stay. Replacing twice is replacing once. |
| App.ReplaceUnknownIsNoOp | App.tsx:47 | An update whose id matches no order leaves the list as it was. |
| App.SetStatusSpec | App.tsx:52-56 | A status change alters only the status, and only of orders with the id. |
| App.SetStatusTwice | App.tsx:53 | Setting a status twice is setting the second one. |
| App.Screen.constructor | App.tsx:13-20 | On mount both lists are read from storage, so the screen starts in sync with it. |
| App.Screen.AddClient | App.tsx:24-27 | Storage appends the client and the list on screen is read back from it. |
| App.Screen.UpdateClient | App.tsx:29-32 | Storage replaces the first client with the id and the list on screen is read back from it. |
| App.Screen.DeleteClient | App.tsx:34-37 | Storage drops the clients with the id and the list on screen is read back from it. |
| App.Screen.AddOrder | App.tsx:40-44 | The order list becomes the old list plus the order, and that same list is saved. |
| App.Screen.UpdateOrder | App.tsx:46-50 | The replaced list is both saved and kept on screen. |
| App.Screen.UpdateOrderStatus | App.tsx:52-56 | The list with the new status is both saved and kept on screen. |
| Text.Lower | components/ClientsView.tsx:113-115 | `toLowerCase` maps each character and keeps the length. |
| Text.Upper | components/OrdersView.tsx:110 | `toUpperCase` on ASCII and the Latin-1 letters with a Latin-1 capital: each character is mapped on its own and the length is kept (ß, µ and ÿ excepted, see Left out). |
| Text.Trim | components/OrdersView.tsx:110 | `trim` gives a trimmed string no longer than its input. |
| Text.ToNumber | components/OrdersView.tsx:111 | `Number` of a blank string is 0. |
| Text.ToNumberWhole | components/OrdersView.tsx:111 | A trimmed string that scans whole is the number it scans to. |
| Text.ScanDigits | components/OrdersView.tsx:111 | A run of decimal digits scans whole, to its value. |
| Text.ParseFloat | src/components/StatsView.tsx:210 | `parseFloat` with no numeric prefix is NaN. |
| Text.TrimStartSpaces | src/components/StatsView.tsx:210 | The white space in front of a string is exactly what is skipped before the number. |
| Text.ParseFloatDigits | src/components/StatsView.tsx:210 | A run of decimal digits after leading white space parses to its value. |
| Text.ParseIntDecimal | services/storage.ts:79 | `parseInt` of a plain decimal numeral is its value. |
| Text.ParseIntPadded | services/storage.ts:79-83 | `parseInt` reads a zero-padded decimal numeral back exactly. |
| Text.PadStart | services/storage.ts:83 | `padStart` pads with the fill character to the width and never cuts. |
| Text.DecimalString | services/storage.ts:83 | `String(n)` is a non-empty run of decimal digits. |
| Text.DecimalStringValue | services/storage.ts:83 | `String(n)` reads back as n. |
| Text.LeadingZerosValue | services/storage.ts:83 | Leading zeros do not change the value of a numeral. |
| Text.Round | components/DashboardView.tsx:206 | `Math.round` gives the nearest integer, rounding halves up. |
| Text.RoundedPercentBounds | components/DashboardView.tsx:206 | A rounded share of a whole is a percentage in 0..100. |
| Text.ComplementPercent | src/components/StatsView.tsx:247 | What is left of 100 after a share is in 0..100, and is 100 exactly when the share is 0. |
| Text.RoundedWholePercent | components/DashboardView.tsx:206 | The whole as a share of itself is exactly 100. |
| Text.UpperCharKeepsSpaces | src/components/StatsView.tsx:227 | Upper-casing keeps white space and is idempotent on a character. |

## Left out

- Browser storage (`localStorage`) and JSON encoding are not modelled. The
  storage service keeps each list as a field of `Storage.Store`, so read
  errors and corrupt data are not modelled. The seeding of sample data
  (`seedData`) and the mount effect's call to it are left out.
- The measurement-JSON migration of the client detail (components/ClientsView.tsx:233-271)
  is left out, because it is JSON parsing of legacy data.
- `crypto.randomUUID()`, `Date.now()` and `new Date()` are parameters:
  - a new id;
  - `now`;
  - a `Calendar.Clock` holding today's midnight, the weekday, and the first
    instants of the month and year.
- Days are exactly 86400000 ms. Time zones and daylight saving are not
  modelled.
- Locale-dependent text is left out:
  - the keys of the revenue trend and of the acquisition months
    (`toLocaleDateString`) are given as functions from an instant to a key;
  - alphabetical client order (`localeCompare`) is given as a collation
    rank;
  - date formatting for display is left out.
- Case mapping covers ASCII and the Latin-1 letters that have a Latin-1
  counterpart. Other Unicode case mappings are not modelled. Strings are
  sequences of characters, not UTF-16 code units.
- Text.Upper: does not model the upper-casing of ß (U+00DF, "SS" in
  JavaScript), µ (U+00B5, U+039C) or ÿ (U+00FF, U+0178). The model leaves
  these three unchanged and keeps the length. A size such as "ßßß" is
  therefore kept by `StatsSizes.Kept` with length 3, where the code would
  see "SSSSSS" and drop it. Sizes and item types are upper-cased the same
  way, so this reaches components/OrdersView.tsx:110 and :485 and
  src/components/StatsView.tsx:227-228 alike. Modelling a mapping that
  changes the length would break the per-character form every lemma
  about `Upper` relies on.
- Numbers are exact (`int` and `real`), so floating-point rounding is not
  modelled.
- Text.ToNumber: does not accept hexadecimal, binary or octal numerals,
  exponents or `Infinity`. Such a size reads as no number, and then weighs
  999 unless listed.
- Text.ParseFloat: does not read exponents or `Infinity`. A note with such
  metres adds the decimal prefix only.
- ClientsView.AvatarHash: the hash is exact on unbounded integers. It agrees
  with the double arithmetic of the source only for names under 2^21
  characters (`ClientsView.HashExact`).
- OrdersForm.OrderForm.AddItem: models the item list as values. In the
  source, `updatedItems[existingIndex].quantity += tempQty` also mutates
  the item object shared with the previous state.
- The following parts of the order form are not modelled:
  - the "quick service" shortcut (`handleQuickService`);
  - the form reset;
  - the save handler's other fields (deadline parsing, custom fabric and
    model, client display name). Its description rewriting is modelled in
    `Annotation.SaveDescription`.
  - PDF and print generation, except the size order of the print sheet.
  - all JSX, Recharts and other rendering.
- `src/App.tsx` calls storage methods (`addOrder`, `updateOrder`,
  `deleteOrder`) that the storage service does not define. It is not part
  of this model; the shell modelled is `App.tsx`.
- The AI chat, social media, layout and recycle-bin views are not part of
  this model.
- The header comparison badge (`formatDate` of the windows) is display
  only, and is left out.

## Notes on the code

Behaviour worth knowing:

- The segment rules test "more than 90 days" before "more than 180 days".
  As a result `Inactivo` is never assigned (`StatsCrm.InactivoUnreachable`).
  The rule order is kept as written.
- The segment counts sum to the number of all clients, including those
  without orders, who are `Prometedor`.
- The four revenue categories sum to the revenue of every non-cancelled
  order. That is the potential revenue plus the revenue of returned orders
  (`StatsFinancial.BillableRevenue`), not the potential revenue alone.
- The comment at components/ClientsView.tsx:79 says "more than 5 orders",
  but the code tests `orderCount >= 5`. The model follows the code.
- A `lastOrderDate` of 0 is falsy in JavaScript, so such a client counts 999
  days since their last order. The model keeps this.
