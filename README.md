# EV Charge Pro admin dashboard — a Dafny model

The repository is an admin dashboard for an electric-vehicle charging
network, written as React components. Each list view holds a fixed array
of records: stations, users, chargers, charge-point operators (CPOs),
transactions and settlements, support tickets, tariffs and promotions,
and platform fees. It shows the records through a search box and
dropdown filters. Its action menus only select a record for a detail
dialog, raise a toast or write a console line. The records never change.
The dashboard adds a live-session counter that a timer moves at random
within fixed bounds. The shell routes a view key to a view, and the
sidebar holds the navigation menu and the light/dark theme switch.

The model has one module per component, plus shared modules:

- `JsText`: the string operations the components use. These are ASCII
  `toLowerCase`/`toUpperCase`, `includes`, `split`/`join` on one
  character, `replace` of the first occurrence of a character, and
  integer-to-text for template strings.
- `Collections`: one generic `Filter` used by every view's list, plus
  `find`, `slice(0, n)` and `reduce` sums.
- `Display`: rendered text as pieces, JavaScript truthiness of optional
  fields, `a || b` on optional strings, the badge colour families and the
  zero-guarded averages.
- `Notices` and `ViewState`: the toasts and console lines the handlers
  produce, and the selection/dialog state.

The state the components change is modelled by classes:

- `ViewState.MasterDetail` holds `selectedX` and `isDetailsOpen`.
- `ViewState.NullableDetail` models the dashboard dialogs, whose open
  state is the nullable selection itself.
- `ViewState.Refresher` models the refresh flag.
- `Fees.FeeView` and `Fees.CreateFeeForm` model the fee view and its
  create form.
- `Dashboard.LiveSessionCounter` models the live-session counter.
- `App.AppShell` holds the active view.
- `App.Browser` models the page: the root element's `dark` class, the
  saved `theme` entry and the system colour preference.
- `Sidebar.ThemeSwitch` models the sidebar's `isDark` flag.

The action handlers are functions from the records, an id and an action
name to an `Outcome`: ignored, show the record's details, or a notice.
A `MasterDetail` applies that outcome with `Apply`.

Three display rules are predicates without a contract of their own:

- `Chargers.ActiveSessionShown`: the session panel appears only while
  the charger is charging (src/components/ChargerManagement.tsx:378).
- `Payments.BreakdownShown`: the amount breakdown appears only for
  payments (src/components/PaymentsWallets.tsx:601).
- `Payments.NoteShown`: the settlement note appears only when it is
  non-empty (src/components/PaymentsWallets.tsx:472).

CustomerSupport.tsx:461,467 and PaymentsWallets.tsx:352 apply the same
first-underscore `replace` that `Pricing.Humanize` models.

## Model

| member | source | states |
|---|---|---|
| JsText.LowerChar | src/components/StationManagement.tsx:164 | ASCII lower-casing of one character: upper-case letters move down by 32, every other character is kept, and no upper-case letter remains |
| JsText.UpperChar | src/components/UserManagement.tsx:211 | ASCII upper-casing of one character, the mirror of LowerChar |
| JsText.ToLower | src/components/StationManagement.tsx:164 | `toLowerCase` keeps the length and lower-cases each character in place |
| JsText.ToUpper | src/components/UserManagement.tsx:211 | `toUpperCase` keeps the length and upper-cases each character in place |
| JsText.ToLowerIdempotent | src/components/StationManagement.tsx:164 | lower-casing twice is lower-casing once |
| JsText.Includes | src/components/StationManagement.tsx:164 | `includes` holds exactly when the search occurs at some index of the field |
| JsText.IncludesEmpty | src/components/StationManagement.tsx:164 | the empty search occurs in every string |
| JsText.IncludesIgnoringCaseOfSearch | src/components/StationManagement.tsx:164 | the case-insensitive match does not depend on the case of the search |
| JsText.IncludesIgnoringCaseOfField | src/components/StationManagement.tsx:164 | nor on the case of the field |
| JsText.SplitFrom | src/components/UserManagement.tsx:211 | splitting always yields at least one part |
| JsText.Split | src/components/UserManagement.tsx:211 | `split(' ')` yields at least one part |
| JsText.JoinSplitFrom | src/components/UserManagement.tsx:211 | joining the parts with the separator gives back the pending part followed by the input |
| JsText.JoinSplit | src/components/UserManagement.tsx:211 | joining the parts of a split gives back the string |
| JsText.SplitFromHasNoSeparator | src/components/UserManagement.tsx:211 | no part of a split contains the separator, when the pending part does not |
| JsText.SplitHasNoSeparator | src/components/UserManagement.tsx:211 | no part of `split(' ')` contains a space |
| JsText.IndexOf | src/components/PricingTariffs.tsx:530 | the first index of a character, -1 exactly when it is absent |
| JsText.ReplaceFirst | src/components/PricingTariffs.tsx:530 | `replace` with a string pattern: same length; unchanged without the character; otherwise only its first occurrence is replaced |
| JsText.CountChar | src/components/PricingTariffs.tsx:530 | the number of occurrences is at most the length, and zero exactly when the character is absent |
| JsText.ReplaceFirstCount | src/components/PricingTariffs.tsx:530 | replacing the first occurrence removes exactly one occurrence, or none if there is none |
| JsText.NatToString | src/components/DashboardOverview.tsx:280 | the decimal text of a natural number: digits only, denoting exactly that number, with no leading zero |
| JsText.NatToStringInjective | src/components/DashboardOverview.tsx:280 | two different numbers never render as the same text |
| JsText.IntToString | src/components/DashboardOverview.tsx:280 | the text of an integer starts with '-' exactly when it is negative; the rest is the decimal text of its magnitude, with no leading zero |
| JsText.PrefixCancel | src/components/ChargerManagement.tsx:180-194 | two console lines with the same prefix are equal only if their suffixes are |
| Collections.Filter | src/components/StationManagement.tsx:163-170 | `filter` keeps exactly the records that satisfy the predicate, and never more records than it was given |
| Collections.KeepMask | src/components/StationManagement.tsx:163-170 | the mask marks each record by the predicate |
| Collections.FilterPicksKeepMask | src/components/StationManagement.tsx:163-170 | filtering picks the records the mask marks, in order |
| Collections.FilterIsSubsequence | src/components/StationManagement.tsx:163-170 | the filtered list is an order-preserving subsequence of the records |
| Collections.FilterKeepsAll | src/components/StationManagement.tsx:163-170 | when every record satisfies the predicate, the list is returned unchanged |
| Collections.FilterIdempotent | src/components/StationManagement.tsx:163-170 | filtering a filtered list again changes nothing |
| Collections.FilterConjunction | src/components/StationManagement.tsx:163-170 | filtering by a conjunction is filtering by one conjunct and then by the other |
| Collections.FilterAppend | src/components/StationManagement.tsx:163-170 | filtering distributes over concatenation |
| Collections.FindIndex | src/components/StationManagement.tsx:200 | the index of the first record satisfying the predicate, or -1 when none does |
| Collections.Find | src/components/StationManagement.tsx:200 | `find` returns the first record satisfying the predicate, and nothing exactly when none does |
| Collections.SumOfAppend | src/components/StationManagement.tsx:323 | a `reduce` sum over a concatenation is the sum of the sums |
| Collections.SumOfPartition | src/components/StationManagement.tsx:323 | a sum splits over a predicate and its negation |
| Collections.SumOfNonNegative | src/components/StationManagement.tsx:323-326 | with no negative summand the total is non-negative and no summand exceeds it |
| Collections.SumOfMonotone | src/components/StationManagement.tsx:323-326 | a pointwise smaller summand gives a smaller sum |
| Collections.Take | src/components/DashboardOverview.tsx:409 | `slice(0, n)` keeps the first min(n, length) records, unchanged and in order |
| Collections.TakeIsPrefix | src/components/DashboardOverview.tsx:409 | the slice is a subsequence, and the whole list when it is short enough |
| Collections.PickPrefix | src/components/DashboardOverview.tsx:409 | picking with a mask that marks the first k records gives the first k records |
| Display.Show | src/components/PlatformFeeManagement.tsx:200-208 | `${x}` of an optional number renders the word for a missing value exactly when it is absent, and the number itself when present |
| Display.StrOr | src/components/PaymentsWallets.tsx:341 | the logical or of two optional strings: the first value when it is truthy, otherwise the second, and truthy when either is |
| Display.GuardedAverage | src/components/PricingTariffs.tsx:622 | a quotient exactly when the count is positive, and the quotient times the count is the total; otherwise the literal '0.00' |
| ViewState.MasterDetail.constructor | src/components/StationManagement.tsx:70-71 | a view starts with nothing selected and the dialog closed |
| ViewState.MasterDetail.Select | src/components/CustomerSupport.tsx:500-503 | selecting replaces any earlier selection and opens the dialog on that record |
| ViewState.MasterDetail.SetDetailsOpen | src/components/CustomerSupport.tsx:824 | `onOpenChange` and Close change only the flag and keep the selection |
| ViewState.MasterDetail.Apply | src/components/StationManagement.tsx:203-207 | only a show-details outcome changes the state; a notice is passed on and nothing else happens |
| ViewState.NullableDetail.constructor | src/components/DashboardOverview.tsx:63 | the dashboard dialog starts closed with nothing selected |
| ViewState.NullableDetail.Select | src/components/DashboardOverview.tsx:456 | selecting a session opens its dialog |
| ViewState.NullableDetail.OnOpenChange | src/components/DashboardOverview.tsx:623 | any open-change clears the selection, which closes the dialog |
| ViewState.Refresher.constructor | src/components/StationManagement.tsx:73 | the refresh flag starts false |
| ViewState.Refresher.BeginRefresh | src/components/StationManagement.tsx:228 | a refresh sets the flag |
| ViewState.Refresher.FinishRefresh | src/components/StationManagement.tsx:227-232 | the end of a refresh clears the flag and raises the success toast |
| Stations.FilteredStations | src/components/StationManagement.tsx:163-170 | a station is listed iff its name, location or address contains the search ignoring case and each dropdown is 'all' or equal to its field; the list is a subsequence |
| Stations.HeaderCount | src/components/StationManagement.tsx:393 | the header counts the filtered list: at most all stations, and all of them with no criteria |
| Stations.NoCriteriaShowsAllStations | src/components/StationManagement.tsx:163-170 | an empty search with both dropdowns at 'all' lists every station in its order |
| Stations.FilteredStationsIdempotent | src/components/StationManagement.tsx:163-170 | filtering the list again changes nothing |
| Stations.LocationFilterIsCaseSensitive | src/components/StationManagement.tsx:164-168 | a station in 'Delhi' matches the search 'delhi' but not the location filter 'delhi' |
| Stations.MaintenanceFilterScenario | src/components/StationManagement.tsx:163-170 | with one maintenance station, the 'maintenance' filter lists exactly it and 'online' hides it |
| Stations.OnlyOneCandidate | src/components/StationManagement.tsx:163-170 | a filter that only one station can pass lists exactly that station |
| Stations.NoneKept | src/components/StationManagement.tsx:163-170 | a filter no station passes lists nothing |
| Stations.StationAction | src/components/StationManagement.tsx:199-225 | an unknown id is ignored and a known one never is; 'view' shows the found station's details; any other action on a known station notifies, with a toast exactly for edit, maintenance, restart, contact and delete and a console line otherwise |
| Stations.HandleStationAction | src/components/StationManagement.tsx:199-225 | the handler selects and opens only on 'view' of a known station; otherwise the selection and the dialog are unchanged |
| Stations.ActiveChargersTotal | src/components/StationManagement.tsx:322-324 | the 'Active Chargers' card is 0 for no stations; with no negative counts it is non-negative and at least each station's active chargers |
| Stations.TotalChargersTotal | src/components/StationManagement.tsx:325-327 | the '... total' line is 0 for no stations; with no negative counts it is non-negative and at least each station's charger count |
| Stations.RevenueTotal | src/components/StationManagement.tsx:339-341 | the 'Total Revenue' card is 0 for no stations; with no negative revenue it is non-negative and at least each station's revenue |
| Stations.RevenueCard | src/components/StationManagement.tsx:339-341 | the revenue card is the online stations' revenue plus the others' |
| Stations.ActiveChargersCard | src/components/StationManagement.tsx:323-326 | the active-chargers card is the online stations' share plus the others'; it is at most the total card when each station's data is consistent |
| Stations.ChargerSlots | src/components/StationManagement.tsx:672-679 | the chargers tab shows `totalChargers` slots (none for a negative count), slot i Active iff i < activeChargers |
| Stations.ChargerSlotsActiveCount | src/components/StationManagement.tsx:672-679 | the number of Active slots is activeChargers clamped to the number of slots |
| Stations.ActivePrefixCount | src/components/StationManagement.tsx:672-679 | slots that are Active exactly below a index contain a Active slots |
| Users.FilteredUsers | src/components/UserManagement.tsx:147-154 | a user is listed iff the name or e-mail contains the search ignoring case, or the phone contains it as typed, and both dropdowns match |
| Users.NoCriteriaShowsAllUsers | src/components/UserManagement.tsx:147-154 | no criteria lists every user in order |
| Users.FilteredUsersIdempotent | src/components/UserManagement.tsx:147-154 | filtering again changes nothing |
| Users.PhoneSearchIsCaseSensitive | src/components/UserManagement.tsx:150 | a phone containing 'ext' matches the search 'ext' but not 'EXT' |
| Users.UserAction | src/components/UserManagement.tsx:174-203 | an unknown id is ignored and a known one never is; 'view' shows the user; any other action on a known user notifies, with a toast exactly for edit, contact, suspend, activate, reward and delete and a console line otherwise |
| Users.HandleUserAction | src/components/UserManagement.tsx:174-203 | the handler selects and opens only on 'view' of a known user, otherwise the state is unchanged |
| Users.StatusMenuAction | src/components/UserManagement.tsx:446-456 | the menu offers 'suspend' iff the user is active, otherwise 'activate' |
| Users.StatusMenuActionNotifies | src/components/UserManagement.tsx:446-456 | that menu entry always raises a toast |
| Users.WordStarts | src/components/UserManagement.tsx:210-212 | the reference definition of initials: the characters that start a word, none of them a space |
| Users.FirstCharsAppend | src/components/UserManagement.tsx:211 | first characters of concatenated word lists concatenate |
| Users.FirstCharsSplitFrom | src/components/UserManagement.tsx:211 | the first characters of the split words are the word starts |
| Users.Initials | src/components/UserManagement.tsx:210-212 | `getInitials` gives at most one character per character of the name, none of them a space or a lower-case letter |
| Users.InitialsAreWordStarts | src/components/UserManagement.tsx:210-212 | `getInitials` is the upper-cased first character of each word, in order; empty words give nothing |
| Users.InitialsExample | src/components/UserManagement.tsx:210-212 | 'Jo Li' gives 'JL' |
| Users.ActiveUserCount | src/components/UserManagement.tsx:276 | the active-user count is at most the number of users |
| Users.AverageSessions | src/components/UserManagement.tsx:310 | `Math.round(total / n)`: absent for no users, else the integer within half a session of the mean, rounding halves up |
| Users.AverageSessionsIsNearest | src/components/UserManagement.tsx:310 | no other integer is nearer the mean |
| Chargers.FilteredChargers | src/components/ChargerManagement.tsx:151-158 | a charger is listed iff its id, station or location contains the search ignoring case, the status matches, and `stationId` (not the name) matches the station filter |
| Chargers.NoCriteriaShowsAllChargers | src/components/ChargerManagement.tsx:151-158 | no criteria lists every charger |
| Chargers.FilteredChargersIdempotent | src/components/ChargerManagement.tsx:151-158 | filtering again changes nothing |
| Chargers.StationFilterNarrows | src/components/ChargerManagement.tsx:151-158 | a station filter only removes chargers from the status-filtered list, keeping order |
| Chargers.StatusTone | src/components/ChargerManagement.tsx:160-168 | each status has its colour, and every other status is gray |
| Chargers.CommandLog | src/components/ChargerManagement.tsx:180-194 | the reset, enable, disable and maintenance handlers only write a console line |
| Chargers.CommandLogInjective | src/components/ChargerManagement.tsx:180-194 | the line tells which command ran on which charger |
| Chargers.ChargerMenu | src/components/ChargerManagement.tsx:325-350 | the menu has five entries; 'Disable' iff available or charging, otherwise 'Enable' |
| Chargers.TemperatureTone | src/components/ChargerManagement.tsx:542 | the temperature is red iff strictly above 40 |
| Cpo.FilteredOperators | src/components/CPOIntegration.tsx:158-164 | an operator is listed iff name, contact or e-mail contains the search ignoring case and the status matches |
| Cpo.NoCriteriaShowsAllOperators | src/components/CPOIntegration.tsx:158-164 | no criteria lists every operator |
| Cpo.FilteredOperatorsIdempotent | src/components/CPOIntegration.tsx:158-164 | filtering again changes nothing |
| Cpo.StatusTone | src/components/CPOIntegration.tsx:166-174 | connected green, error red, testing yellow; 'disconnected' and every unknown status gray |
| Cpo.HealthTone | src/components/CPOIntegration.tsx:186-190 | green from 95, yellow in [80, 95), red below 80; the three cover every value |
| Cpo.HealthToneMonotone | src/components/CPOIntegration.tsx:186-190 | better health never gives a worse colour |
| Cpo.ErrorBanner | src/components/CPOIntegration.tsx:456 | the banner shows iff the status is 'error' and a non-empty message exists, and it shows that message |
| Cpo.CommandLog | src/components/CPOIntegration.tsx:192-202 | test, sync and regenerate only write a console line |
| Cpo.CommandLogInjective | src/components/CPOIntegration.tsx:192-202 | the line tells which command ran on which operator |
| Payments.FilteredTransactions | src/components/PaymentsWallets.tsx:206-212 | a transaction is listed iff its id, user or operator contains the search ignoring case, a missing field never matching, and the status matches |
| Payments.NoCriteriaShowsAllTransactions | src/components/PaymentsWallets.tsx:207 | every transaction has an id, so no criteria lists all of them |
| Payments.FilteredTransactionsIdempotent | src/components/PaymentsWallets.tsx:206-212 | filtering again changes nothing |
| Payments.MissingPartiesMatchById | src/components/PaymentsWallets.tsx:206-212 | without user and operator only the id is searched |
| Payments.StatusTone | src/components/PaymentsWallets.tsx:173-182 | each status has its colour and every other status is gray |
| Payments.Party | src/components/PaymentsWallets.tsx:341 | the subtitle is the user when present, otherwise the operator |
| Payments.PayoutShowsOperator | src/components/PaymentsWallets.tsx:341 | a payout row, which has no user, shows its operator |
| Payments.CommandLog | src/components/PaymentsWallets.tsx:194-204 | refund, payout and invoice only write a console line |
| Payments.CommandLogInjective | src/components/PaymentsWallets.tsx:194-204 | the line tells which command ran on which record |
| Payments.TransactionMenu | src/components/PaymentsWallets.tsx:362-378 | the menu offers a refund iff the transaction is a payment, and never a payout |
| Payments.PayoutButton | src/components/PaymentsWallets.tsx:465-469 | 'Process Payout' appears iff the settlement is pending |
| Payments.SettlementFooter | src/components/PaymentsWallets.tsx:482-483 | 'Processed' iff completed, otherwise 'Scheduled'; the time is processedAt when present, otherwise scheduledAt |
| Payments.HeldSettlementFooter | src/components/PaymentsWallets.tsx:482-483 | a held settlement without times reads 'Scheduled' with no time |
| Support.FilteredTickets | src/components/CustomerSupport.tsx:211-218 | a ticket is listed iff subject, customer name or id contains the search ignoring case and both dropdowns match |
| Support.NoCriteriaShowsAllTickets | src/components/CustomerSupport.tsx:211-218 | no criteria lists every ticket |
| Support.FilteredTicketsIdempotent | src/components/CustomerSupport.tsx:211-218 | filtering again changes nothing |
| Support.StatusThenPriority | src/components/CustomerSupport.tsx:211-218 | the priority dropdown only narrows the status-filtered list, keeping order |
| Support.StatusTone | src/components/CustomerSupport.tsx:220-228 | each status has its colour; 'closed' and unknown statuses are gray |
| Support.PriorityTone | src/components/CustomerSupport.tsx:230-237 | high red, medium yellow, low green, anything else gray |
| Support.CategoryTone | src/components/CustomerSupport.tsx:239-247 | technical purple, billing orange, feature_request blue; 'general' and the rest gray |
| Support.CommandLog | src/components/CustomerSupport.tsx:250-260 | assign, update-status and escalate only write a console line |
| Support.CommandLogKinds | src/components/CustomerSupport.tsx:250-260 | the line tells which kind of command ran, and for an escalation on which ticket |
| Support.TakeAction | src/components/CustomerSupport.tsx:543-546 | 'Take Action' appears iff the ticket is open, and it asks for 'in_progress' |
| Support.TakeActionLog | src/components/CustomerSupport.tsx:543-546 | the button only logs the status update of that ticket |
| Support.OpenTicket | src/components/CustomerSupport.tsx:500-503 | View Details and Reply select the ticket and open the dialog |
| Support.CloseTicket | src/components/CustomerSupport.tsx:824 | Close hides the dialog and keeps the ticket selected |
| Support.ReopenAfterClose | src/components/CustomerSupport.tsx:536-539 | a later selection replaces an earlier one, and reopening after Close shows it again |
| Pricing.FilteredTariffs | src/components/PricingTariffs.tsx:277-283 | a tariff is listed iff name or connector type contains the search ignoring case and both dropdowns match |
| Pricing.NoCriteriaShowsAllTariffs | src/components/PricingTariffs.tsx:277-283 | no criteria lists every tariff |
| Pricing.FilteredTariffsIdempotent | src/components/PricingTariffs.tsx:277-283 | filtering again changes nothing |
| Pricing.StatusTone | src/components/PricingTariffs.tsx:285-293 | active green, scheduled blue, expired red, the rest gray |
| Pricing.TypeTone | src/components/PricingTariffs.tsx:295-304 | each tariff type has its colour, the rest gray |
| Pricing.TariffAction | src/components/PricingTariffs.tsx:306-330 | an unknown id is ignored; no action opens a dialog; a toast iff the action is a known one |
| Pricing.PromotionAction | src/components/PricingTariffs.tsx:332-351 | the same for promotions |
| Pricing.TariffMenu | src/components/PricingTariffs.tsx:566-591 | 'deactivate' iff active, otherwise 'activate', beside view, edit, duplicate and delete |
| Pricing.PromotionMenu | src/components/PricingTariffs.tsx:829-854 | 'pause' iff active, otherwise 'activate'; no delete |
| Pricing.TariffMenuRaisesToasts | src/components/PricingTariffs.tsx:566-591 | every action the tariff menu offers raises a toast |
| Pricing.PromotionMenuRaisesToasts | src/components/PricingTariffs.tsx:829-854 | every action the promotion menu offers raises a toast |
| Pricing.AverageValue | src/components/PricingTariffs.tsx:622 | revenue per use when used at all, otherwise '0.00'; never a division by zero |
| Pricing.StationsLabel | src/components/PricingTariffs.tsx:545-547 | 'All Stations' iff the list is exactly that one entry, otherwise the count of entries |
| Pricing.AllStationsAmongOthers | src/components/PricingTariffs.tsx:545-547 | 'All Stations' with another entry is counted as two stations |
| Pricing.TimeRatesBlock | src/components/PricingTariffs.tsx:628 | the time-based block shows iff rates exist and there is more than one |
| Pricing.Humanize | src/components/PricingTariffs.tsx:530 | `replace('_', ' ')` removes exactly one underscore when there is one, else changes nothing |
| Pricing.HumanizeKeepsSecondUnderscore | src/components/PricingTariffs.tsx:803 | 'a_b_c' becomes 'a b_c' |
| Pricing.UsageBarWidth | src/components/PricingTariffs.tsx:817 | the width is capped at 100%, is exact below the cap, and is NaN for 0 of 0 |
| Pricing.ValueLabel | src/components/PricingTariffs.tsx:797-799 | percentage 'v%', fixed '₹v', otherwise 'v type' |
| Fees.FilteredFees | src/components/PlatformFeeManagement.tsx:171-177 | a fee is listed iff its name, or its target when present, contains the search ignoring case and both dropdowns match |
| Fees.NoCriteriaShowsAllFees | src/components/PlatformFeeManagement.tsx:171-177 | no criteria lists every fee |
| Fees.FilteredFeesIdempotent | src/components/PlatformFeeManagement.tsx:171-177 | filtering again changes nothing |
| Fees.ApplicationTone | src/components/PlatformFeeManagement.tsx:189-198 | each application type has its colour, the rest gray |
| Fees.FormatFeeStructure | src/components/PlatformFeeManagement.tsx:200-208 | percentage: exactly 'p%', then ' (min ₹' min ')' when the minimum is truthy, then ' (max ₹' max ')' when the maximum is, and nothing else; fixed '₹f flat'; any other type 'p% + ₹f' without limits |
| Fees.FormatIgnoresLimitsUnlessPercentage | src/components/PlatformFeeManagement.tsx:203-207 | outside percentage fees, the limits never change the text |
| Fees.ZeroMinimumIsNotShown | src/components/PlatformFeeManagement.tsx:201-202 | a zero minimum is shown as if absent |
| Fees.AverageFee | src/components/PlatformFeeManagement.tsx:465 | revenue per transaction when there are any, otherwise '0.00' |
| Fees.JsxAnd | src/components/PlatformFeeManagement.tsx:736-745 | `{x && content}` renders the content for a truthy number, nothing for a missing one and '0' for zero |
| Fees.NumOr | src/components/PlatformFeeManagement.tsx:736 | the logical or of two optional numbers is truthy iff either is, and is the second when the first is falsy |
| Fees.FeeLimitsAsWritten | src/components/PlatformFeeManagement.tsx:736-745 | the limits block as written renders nothing when both limits are falsy |
| Fees.FeeLimitsAsWrittenShowsZeros | src/components/PlatformFeeManagement.tsx:736-745 | with a zero minimum it renders stray '0's |
| Fees.FeeLimits | src/components/PlatformFeeManagement.tsx:736-745 | the block shows iff a limit is truthy, each limit iff it is truthy, the separator iff both are, and never a stray '0' |
| Fees.FeeLimitsAsWrittenAgreement | src/components/PlatformFeeManagement.tsx:736-745 | the written block equals the intended one exactly when no zero limit leaks through |
| Fees.FeeView.constructor | src/components/PlatformFeeManagement.tsx:62-65 | nothing selected and every dialog closed |
| Fees.FeeView.ViewDetails | src/components/PlatformFeeManagement.tsx:421-423 | selects the fee and opens the details dialog, other dialogs unchanged |
| Fees.FeeView.HandleEdit | src/components/PlatformFeeManagement.tsx:210-213 | selects the fee and sets the edit flag, other dialogs unchanged |
| Fees.FeeView.SetDetailsOpen | src/components/PlatformFeeManagement.tsx:497-498 | only the details flag changes |
| Fees.FeeView.SetCreateOpen | src/components/PlatformFeeManagement.tsx:255 | only the create flag changes |
| Fees.CommandLog | src/components/PlatformFeeManagement.tsx:215-223 | duplicate and delete only write a console line |
| Fees.CommandLogInjective | src/components/PlatformFeeManagement.tsx:215-223 | the line tells which command ran on which fee |
| Fees.InitialForm | src/components/PlatformFeeManagement.tsx:517-529 | the form starts as a global percentage fee with every other field empty |
| Fees.With | src/components/PlatformFeeManagement.tsx:540 | an `onChange` sets its one field and leaves every other field as it was |
| Fees.FormExtensionality | src/components/PlatformFeeManagement.tsx:517-529 | two forms with the same fields are the same form |
| Fees.WithLaws | src/components/PlatformFeeManagement.tsx:540 | writing a field's own value changes nothing; a second write to a field overrides the first |
| Fees.WithCommutes | src/components/PlatformFeeManagement.tsx:540 | edits to different fields commute |
| Fees.VisibleFields | src/components/PlatformFeeManagement.tsx:558-623 | percentage inputs iff percentage or hybrid, fixed input iff fixed or hybrid, target iff not global |
| Fees.InitialVisibility | src/components/PlatformFeeManagement.tsx:558-623 | the new form shows the percentage input, not the fixed one or the target; hybrid shows both |
| Fees.VisibilityDependsOnTwoInputs | src/components/PlatformFeeManagement.tsx:558-623 | only the type and application-type inputs change which inputs are visible |
| Fees.CreateFeeForm.constructor | src/components/PlatformFeeManagement.tsx:517-529 | the form state starts as the initial form |
| Fees.CreateFeeForm.Update | src/components/PlatformFeeManagement.tsx:540 | one input's change replaces exactly its field |
| Dashboard.ClampSessions | src/components/DashboardOverview.tsx:72 | `max(300, min(400, prev + change))` lies in [300, 400], is the sum when the sum does, else the nearer bound |
| Dashboard.TickChange | src/components/DashboardOverview.tsx:71 | `floor(random * 5) - 2` is an integer in [-2, 2], the floor of the scaled draw |
| Dashboard.ClampStepBound | src/components/DashboardOverview.tsx:70-73 | from a value in range a tick moves the counter by at most two, in the direction of the change |
| Dashboard.SessionsAfter | src/components/DashboardOverview.tsx:67-76 | after at least one tick the counter is in [300, 400] |
| Dashboard.SessionsAfterStaysInRange | src/components/DashboardOverview.tsx:67-76 | from 342 or any start in range, every run of ticks stays in [300, 400] and moves at most two per tick |
| Dashboard.LiveSessionCounter.constructor | src/components/DashboardOverview.tsx:62 | the counter starts at 342, inside the range |
| Dashboard.LiveSessionCounter.Tick | src/components/DashboardOverview.tsx:70-73 | a tick stores the clamped sum, stays in range and moves at most two |
| Dashboard.VisibleSessions | src/components/DashboardOverview.tsx:409 | at most the first four sessions, in order, all of them when there are four or fewer |
| Dashboard.VisibleActivities | src/components/DashboardOverview.tsx:505 | at most the first three activities, in order |
| Dashboard.SessionAction | src/components/DashboardOverview.tsx:249-265 | an unknown id is ignored; contact, stop and restart raise toasts, anything else a console line |
| Dashboard.ActivityAction | src/components/DashboardOverview.tsx:267-282 | an unknown id is ignored; acknowledge and escalate raise toasts, anything else a console line |
| Dashboard.SessionMenu | src/components/DashboardOverview.tsx:456-470 | 'Stop Session' iff the session is charging |
| Dashboard.SessionMenuRaisesToasts | src/components/DashboardOverview.tsx:456-470 | every action the session menu offers raises a toast |
| Dashboard.MarkResolvedToast | src/components/DashboardOverview.tsx:540 | Mark Resolved on a listed activity raises the 'resolved' success toast |
| Dashboard.SeverityBadge | src/components/DashboardOverview.tsx:515 | the badge shows the severity iff it is not 'low' |
| App.Key | src/App.tsx:30-57 | every view's key is one the router handles |
| App.RenderActiveView | src/App.tsx:30-57 | a known key renders the view with that key; any other key renders the dashboard |
| App.RenderKeyRoundTrip | src/App.tsx:30-57 | every view is reached by its own key |
| App.KeyInjective | src/App.tsx:30-57 | no two views share a key |
| App.DashboardIsTheDefault | src/App.tsx:54-55 | the dashboard shows exactly for its own key and for unknown keys |
| App.AppShell.constructor | src/App.tsx:18 | the application starts on 'dashboard', which renders the dashboard |
| App.AppShell.Rendered | src/App.tsx:65 | the rendered view has the active key when that key is known |
| App.AppShell.SetActiveView | src/App.tsx:62 | the sidebar callback stores the key, and a known key is then rendered |
| App.Browser.constructor | src/App.tsx:22-23 | the page state as the startup effect finds it |
| App.StartupWantsDark | src/App.tsx:25 | dark iff 'dark' is saved, or nothing (or an empty string) is saved and the system prefers dark |
| App.SavedThemeOverridesSystem | src/App.tsx:25 | a saved 'light' or 'dark' wins over the system preference |
| App.ApplyStartupTheme | src/App.tsx:21-28 | the startup effect only adds the class, when the condition holds, and never writes the storage |
| Sidebar.Flatten | src/components/AppSidebar.tsx:112-119 | the sidebar lists every item of every group and nothing else |
| Sidebar.AllItems | src/components/AppSidebar.tsx:39-71 | the sidebar has eleven items |
| Sidebar.AllItemIds | src/components/AppSidebar.tsx:39-71 | the item ids, in order |
| Sidebar.EveryViewHasAnItem | src/components/AppSidebar.tsx:39-71 | every view's key is an item id |
| Sidebar.MenuIdsAreRouterKeys | src/components/AppSidebar.tsx:39-71 | the eleven ids are pairwise distinct and are exactly the router's keys |
| Sidebar.DistinctByPosition | src/components/AppSidebar.tsx:39-71 | the ids are pairwise distinct |
| Sidebar.ClickActivatesOnlyThatItem | src/components/AppSidebar.tsx:122-124 | after a click exactly the clicked item is active and its view is rendered |
| Sidebar.UnknownViewMarksNothing | src/components/AppSidebar.tsx:123 | an unknown active view marks no item and renders the dashboard |
| Sidebar.StoredTheme | src/components/AppSidebar.tsx:86-89 | the toggle saves 'dark' iff the new flag is set, otherwise 'light' |
| Sidebar.StoredThemeSurvivesReload | src/components/AppSidebar.tsx:80-91 | what the toggle saves is what the next startup restores, whatever the system prefers |
| Sidebar.ThemeSwitch.constructor | src/components/AppSidebar.tsx:74 | the flag starts false |
| Sidebar.ThemeSwitch.Mount | src/components/AppSidebar.tsx:76-78 | on mount the flag is read from the root element's class |
| Sidebar.ThemeSwitch.ToggleTheme | src/components/AppSidebar.tsx:80-91 | the flag flips, the class follows it and the storage holds the matching word |
| Sidebar.ThemeSwitch.ToggleTwice | src/components/AppSidebar.tsx:80-91 | two clicks restore the flag, and the class too when it agreed with the flag; the storage holds the final value |
| Sidebar.StartPage | src/components/AppSidebar.tsx:76-78 | with the shell's effect first, the switch agrees with the page from the start |
| Sidebar.StartPageAsWritten | src/components/AppSidebar.tsx:76-78 | in React's child-first effect order the switch reads the page before the shell darkens it |
| Sidebar.FirstToggleAsWritten | src/components/AppSidebar.tsx:80-91 | with 'dark' saved, the page starts dark, the switch says light, and the first click leaves the page dark |
| Sidebar.FirstToggle | src/components/AppSidebar.tsx:80-91 | in the intended order the same page starts dark with the switch set, and the first click turns it light |

## Left out

- src/components/Analytics.tsx, src/components/Settings.tsx and src/components/ui/ are not part of this model: they are charts, form markup and wrappers with no logic of their own.
- Markup, Tailwind classes and icons are not modelled. Toasts and console lines are values (`Notices.Notice`) returned to the caller, not side effects.
- Number formatting (`toFixed`, `toLocaleString`, `${n}` of a real) is not modelled: a number is rendered as an abstract `Num` piece. Only integers written into console lines (`JsText.IntToString`) are spelled out.
- Case mapping covers ASCII only; JavaScript's full Unicode `toLowerCase`/`toUpperCase` is not modelled.
- Timers, `Math.random`, `setTimeout` and `await`: the dashboard tick takes its random draw as a parameter. The 1.5 second refresh wait is the gap between `Refresher.BeginRefresh` and `Refresher.FinishRefresh`.
- localStorage, `matchMedia` and the root element's class list are the fields of `App.Browser`, not real I/O. The system preference is a constant of the page.
- The record arrays are constants, as they are in the source. The create and edit dialogs of the other views submit nothing, so they are not modelled beyond their open flags.
- The charger and CPO views keep their selection in the same `selectedX`/`isDetailsOpen` pair as the station view (`ViewState.MasterDetail`); they have no per-view method of their own.
- The fee edit flag (`isEditOpen`) is set by `handleEdit` but no dialog in the file reads it; the model keeps the flag and nothing more.
- The export and import buttons of the fee view (src/components/PlatformFeeManagement.tsx:225-232) only log a fixed line and are not modelled.
- Pricing.UsageBarWidth: `maxUsage` and `currentUsage` are taken as non-negative integers (the source types them as `number`); a negative usage, which would give a negative width through `Math.min`, is not modelled.
- Stations.ActiveChargersCard: the card's bound `active <= total` is proved only under the per-station assumption `activeChargers <= totalChargers`, which the code never checks.
- React's rendering and scheduling are reduced to the order of the calls in each method; `Sidebar.StartPageAsWritten` fixes the two mount effects in React's child-first order.

## Findings

| source | as written | input that shows it | evidently intended | confidence | as-written member | corrected member |
|---|---|---|---|---|---|---|
| src/components/PlatformFeeManagement.tsx:736-745 | `{fee.minimumFee && ...}` and `{fee.minimumFee && fee.maximumFee && ' • '}` render a numeric 0 as the text '0' | minimumFee 0 and maximumFee 500 render 'Fee Limits' followed by '00Max: ₹500' | a zero limit is treated as absent and nothing stray is rendered | not executed; React renders a numeric 0 from `&&` | Fees.FeeLimitsAsWrittenShowsZeros | Fees.FeeLimits |
| src/components/AppSidebar.tsx:76-78 | the sidebar reads the `dark` class in its mount effect, which React runs before the parent App's effect adds the class | 'dark' saved and a light page: the page turns dark but `isDark` stays false, so the first click adds the class again and leaves the page dark | the switch reflects the theme the startup chose, so every click changes the page | not executed; depends on React running a child's effects before its parent's, as it does outside development double-invocation | Sidebar.FirstToggleAsWritten | Sidebar.StartPage |
