# defi-yield-agent in Dafny

A verified model of the logic behind the defi-yield-agent dashboard. This is a
React front end that shows DeFi yield markets, a user's positions, a
transaction history, portfolio analytics and an onboarding flow, all over
mock data. Markup and styling are not modelled. The model covers what the
screens compute and how their state changes:

- **The market table** (`YieldData`, `YieldMonitorState`, `YieldMetrics`, `RiskAnalyzer`, `GasCostAnalyzer`, `PositionManagement`):
  - the search, chain and APY-bound filter, followed by the sort on a chosen column;
  - the chain selector and the three best pools;
  - the monitor's sort, expansion and filter state;
  - the metric cards, the risk badge and its factors;
  - the gas-cost badge;
  - the stake/unstake dialog.
- **The transaction history** (`Transactions`, `AdvancedFilters`, `TimelineView`, `TransactionAnalytics`, `TransactionDetails`):
  - the filter with its inclusive ranges and named presets;
  - the advanced panel's partial updates, badge removal and active-filter count;
  - grouping by day;
  - the analytics totals and series;
  - the per-transaction gas analysis.
- **Stores** kept by the React contexts and hooks (`Notifications`, `NotificationPanel`, `UserPreferences`, `AgentSettings`):
  - each is modelled as a class whose methods are specified by pure transition functions.
- **The portfolio side** (`PortfolioIntegration`, `RiskAssessmentDashboard`):
  - migration recommendations, portfolio totals and the risk distribution;
  - the weighted risk score and its level.
- **Synthetic chart series** (`SeriesTime`, `PortfolioDataService`, `AnalyticsDataService`, `PredictionDataService`, `YieldUtils`, `PortfolioChart`):
  - point generators whose random draws, clock and sine are inputs;
  - the per-range caches;
  - the growth figures;
  - the axis formatting of the portfolio chart.
- **The page and onboarding** (`IndexPage`, `Header`, `WelcomeModal`, `RiskAssessmentForm`):
  - connection and disconnection;
  - the welcome effect, which runs on a change of its dependencies;
  - the three-step risk assessment and the tooltip sequence.

Shared modules:

- `Common`: an option type, the JavaScript string operations used, `filter`, de-duplication, `reduce` sums and `Math` rounding.
- `Sorting`: `Array.prototype.sort` with a comparator, as an in-place insertion sort on a fresh array.
- `Grouping`: a JavaScript object used as an insertion-ordered dictionary.
- `YieldTypes` and `MockYieldData`: the records and the shipped market table.

Where a source function loops or mutates, the model does too: methods with
loop invariants, proved against the specification function named in their
`ensures`. The properties are proved about those functions as lemmas.

## Model

| member | source | states |
|---|---|---|
| YieldData.RecommendationsFor | defi-yield-agent/src/hooks/useYieldData.ts:14-16 | Without a wallet address there are no recommendations; with one they are the first three the optimiser produces for that address's positions against the market table. |
| YieldData.FindPosition | defi-yield-agent/src/hooks/useYieldData.ts:22 | Nothing exactly when no position has the protocol's name; otherwise the earliest position with that name. |
| YieldData.EnhancedYieldData | defi-yield-agent/src/hooks/useYieldData.ts:19-24 | Every market row, in order and otherwise unchanged; a position is attached exactly when the user holds one in a protocol of that name, and it is the first such position in the user's list (no matching position comes before it). |
| YieldData.NoAddressNoPortfolio | defi-yield-agent/src/hooks/useYieldData.ts:9-11 | Without an address there are no positions and no market row carries one. |
| YieldData.TopOpportunities | defi-yield-agent/src/hooks/useYieldData.ts:26-28 | min(3, n) rows taken from the table, highest APY first, and no row left out beats a row kept. |
| YieldData.Chains | defi-yield-agent/src/hooks/useYieldData.ts:30 | 'all' first, then every chain of the table exactly once, in order of first appearance. |
| YieldData.ShippedChainColumn | defi-yield-agent/src/data/mockYieldData.ts:5-12 | The chain column of the shipped market table, row by row. |
| YieldData.ShippedChains | defi-yield-agent/src/hooks/useYieldData.ts:30 | On the shipped table the chain options are all, Ethereum, Polygon, Arbitrum. |
| YieldData.RowOrderIsTotalPreorder | defi-yield-agent/src/hooks/useYieldData.ts:62-96 | Every column comparator (protocol and chain as text; apy, change, TVL as numbers), ascending or descending, is a total preorder, so the sorted table is well defined. |
| YieldData.FilteredYieldData | defi-yield-agent/src/hooks/useYieldData.ts:51-99 | A row is shown iff it passes search, chain and both inclusive APY bounds; the shown rows are a permutation of the kept ones, ordered by the chosen column and direction. |
| YieldData.NeutralFilterKeepsEverything | defi-yield-agent/src/hooks/useYieldData.ts:53-57 | Empty search, chain 'all' and empty APY boxes keep every row, in order. |
| YieldData.ApyBoundsInclusive | defi-yield-agent/src/hooks/useYieldData.ts:56-57 | A row whose APY equals the minimum and the maximum is still kept. |
| YieldData.KeepWithoutSearch | defi-yield-agent/src/hooks/useYieldData.ts:55 | With no search text and no APY bounds, a row is kept iff the chain is 'all' or its own. |
| YieldData.ShippedPolygonRows | defi-yield-agent/src/hooks/useYieldData.ts:55 | On the shipped table, Polygon keeps exactly Compound USDT and Beefy Finance. |
| YieldData.OnlyUniswapReaches15_7 | defi-yield-agent/src/data/mockYieldData.ts:5-12 | Uniswap V3 ETH/USDC is the only shipped row with an APY of 15.7 or more. |
| YieldData.OnlyLidoIsAsLowAs4_1 | defi-yield-agent/src/data/mockYieldData.ts:5-12 | Lido stETH is the only shipped row with an APY of 4.1 or less. |
| YieldData.ShippedApyDescending | defi-yield-agent/src/hooks/useYieldData.ts:62-96 | Sorting the shipped table by APY descending puts Uniswap V3 ETH/USDC first and Lido stETH last. |
| YieldMonitorState.OnSort | defi-yield-agent/src/hooks/useYieldMonitorState.ts:17-24 | The clicked column becomes the sort column; the same column flips its direction, another starts descending; nothing else changes. |
| YieldMonitorState.HandleSortTwice | defi-yield-agent/src/hooks/useYieldMonitorState.ts:17-20 | Clicking the current column twice restores the state. |
| YieldMonitorState.Toggled | defi-yield-agent/src/hooks/useYieldMonitorState.ts:27-32 | Only the toggled index changes membership. |
| YieldMonitorState.ToggledTwice | defi-yield-agent/src/hooks/useYieldMonitorState.ts:27-32 | Toggling an index twice restores the set. |
| YieldMonitorState.OnToggleRow | defi-yield-agent/src/hooks/useYieldMonitorState.ts:26-34 | Only the row's membership in the expanded set flips; every other field is kept. |
| YieldMonitorState.ToggleRowTwice | defi-yield-agent/src/hooks/useYieldMonitorState.ts:26-34 | Expanding and collapsing the same row gives back the state. |
| YieldMonitorState.OnClearFilters | defi-yield-agent/src/hooks/useYieldMonitorState.ts:36-45 | Search, chain and both APY boxes are reset and loading is raised; sort column, direction, expanded rows and view are kept. |
| YieldMonitorState.ClearedFiltersKeepEverything | defi-yield-agent/src/hooks/useYieldMonitorState.ts:36-41 | After clearing, the table filter keeps every row. |
| YieldMonitorState.MonitorState.constructor | defi-yield-agent/src/hooks/useYieldMonitorState.ts:6-15 | Sort by apy descending, chain 'all', empty search and APY boxes, no rows expanded, personal view. |
| YieldMonitorState.MonitorState.HandleSort | defi-yield-agent/src/hooks/useYieldMonitorState.ts:17-24 | The new state is the header-click transition of the old one. |
| YieldMonitorState.MonitorState.ToggleRowExpansion | defi-yield-agent/src/hooks/useYieldMonitorState.ts:26-34 | The new state is the row-toggle transition of the old one. |
| YieldMonitorState.MonitorState.HandleClearFilters | defi-yield-agent/src/hooks/useYieldMonitorState.ts:36-45 | The new state is the clear-filters transition of the old one. |
| Transactions.ApplyFilters | defi-yield-agent/src/components/TransactionHistory.tsx:131-166 | The filtered list is never longer than the input (membership and order are the two lemmas below). |
| Transactions.ApplyFiltersKeptIff | defi-yield-agent/src/components/TransactionHistory.tsx:132-164 | A transaction is shown iff the search text occurs, case-insensitively, in its description, sender or recipient, and type, status, date, amount and gas all pass. |
| Transactions.ApplyFiltersSubsequence | defi-yield-agent/src/components/TransactionHistory.tsx:131-132 | The shown transactions are an order-preserving subsequence of the input. |
| Transactions.DefaultFiltersKeepAll | defi-yield-agent/src/components/TransactionHistory.tsx:48-55 | The default filter state shows every transaction. |
| Transactions.RangeEndsInclusive | defi-yield-agent/src/components/TransactionHistory.tsx:150-162 | Date, amount and gas ranges include both ends. |
| Transactions.EmptyRangesImposeNothing | defi-yield-agent/src/components/TransactionHistory.tsx:150-162 | An empty range end imposes no constraint. |
| Transactions.SavePreset | defi-yield-agent/src/components/TransactionHistory.tsx:175-177 | The new preset goes last and no other preset keeps its name. |
| Transactions.SavePresetMembers | defi-yield-agent/src/components/TransactionHistory.tsx:176 | After a save the presets are the new one plus exactly the old ones with a different name. |
| Transactions.SavePresetKeepsOrder | defi-yield-agent/src/components/TransactionHistory.tsx:176 | The surviving presets keep their relative order. |
| Transactions.SavePresetUniqueNames | defi-yield-agent/src/components/TransactionHistory.tsx:175-177 | Saving keeps the preset names unique. |
| Transactions.FindPreset | defi-yield-agent/src/components/transaction/AdvancedFilters.tsx:237 | Nothing iff no preset has the name; otherwise the filters of the first preset with that name. |
| Transactions.FindSavedPreset | defi-yield-agent/src/components/TransactionHistory.tsx:175-177 | A preset just saved is found again under its name, with the filters saved. |
| Transactions.InitialPresetNamesUnique | defi-yield-agent/src/components/TransactionHistory.tsx:57-60 | The two shipped presets have different names. |
| Transactions.TypeOnlyFilter | defi-yield-agent/src/components/TransactionHistory.tsx:144 | With only a type chosen, a transaction passes iff the type is 'all' or equals its own. |
| Transactions.MinAmountOnlyFilter | defi-yield-agent/src/components/TransactionHistory.tsx:157 | With only a minimum amount set, a transaction passes iff its amount is at least that minimum. |
| Transactions.RebalanceShowsOneAndFive | defi-yield-agent/src/components/TransactionHistory.tsx:68-129 | On the shipped transactions, type 'rebalance' shows exactly transactions 1 and 5. |
| Transactions.MinAmountThousandShowsAllButTopUp | defi-yield-agent/src/components/TransactionHistory.tsx:154-156 | On the shipped list, a minimum amount of 1000 (inclusive) shows exactly transactions 1, 3, 4 and 5. |
| Transactions.HighValueShowsAllButTopUp | defi-yield-agent/src/components/TransactionHistory.tsx:58 | The 'High Value' preset (amount at least 1000) shows exactly transactions 1, 3, 4 and 5. |
| Transactions.TransactionHistory.constructor | defi-yield-agent/src/components/TransactionHistory.tsx:48-60 | Default filters and the two shipped presets. |
| Transactions.TransactionHistory.Shown | defi-yield-agent/src/components/TransactionHistory.tsx:168 | The screen shows exactly the shipped transactions that pass the current filters. |
| Transactions.TransactionHistory.SetFilters | defi-yield-agent/src/components/TransactionHistory.tsx:48 | The filter panel's new state replaces the filters; presets are kept. |
| Transactions.TransactionHistory.HandleSavePreset | defi-yield-agent/src/components/TransactionHistory.tsx:175-177 | The presets become the upsert of the old ones; the filters are kept. |
| Transactions.TransactionHistory.HandleLoadPreset | defi-yield-agent/src/components/TransactionHistory.tsx:179-181 | The preset's filters replace the current ones; presets are kept. |
| Transactions.TransactionHistory.HandleClearFilters | defi-yield-agent/src/components/TransactionHistory.tsx:187-196 | The filters return to the defaults, so every transaction is shown again. |
| AdvancedFilters.Merged | defi-yield-agent/src/components/transaction/AdvancedFilters.tsx:47-49 | Each supplied field overwrites its own, every other field is kept. |
| AdvancedFilters.EmptyUpdateIsIdentity | defi-yield-agent/src/components/transaction/AdvancedFilters.tsx:47-49 | An update that supplies nothing changes nothing. |
| AdvancedFilters.UpdateIdempotent | defi-yield-agent/src/components/transaction/AdvancedFilters.tsx:47-49 | Applying the same update twice equals applying it once. |
| AdvancedFilters.ActiveKindsCount | defi-yield-agent/src/components/transaction/AdvancedFilters.tsx:62-71 | The active count is one for each of the six filter kinds that is set. |
| AdvancedFilters.ActiveCountBounds | defi-yield-agent/src/components/transaction/AdvancedFilters.tsx:62-71 | The count lies in 0..6 and is 0 exactly for the default state. |
| AdvancedFilters.RangeCountsOnce | defi-yield-agent/src/components/transaction/AdvancedFilters.tsx:67-69 | A range counts once whether one or both ends are set. |
| AdvancedFilters.GetActiveFilterCount | defi-yield-agent/src/components/transaction/AdvancedFilters.tsx:62-71 | The step-by-step count equals the number of active kinds, is at most 6 and is 0 iff the state is the default. |
| AdvancedFilters.RemoveBadgeClearsOnlyItsField | defi-yield-agent/src/components/transaction/AdvancedFilters.tsx:286-312 | The search badge clears search to '', the type and status badges reset their field to 'all'; nothing else changes. |
| AdvancedFilters.RemoveBadgeLowersCount | defi-yield-agent/src/components/transaction/AdvancedFilters.tsx:284-312 | Removing a shown badge lowers the active count by exactly one. |
| AdvancedFilters.FilterPanel.constructor | defi-yield-agent/src/components/transaction/AdvancedFilters.tsx:43-45 | Advanced panel and save box closed, preset name empty. |
| AdvancedFilters.FilterPanel.UpdateFilters | defi-yield-agent/src/components/transaction/AdvancedFilters.tsx:47-49 | The owner's filters become the merge of the old ones with the update; presets are kept. |
| AdvancedFilters.FilterPanel.ResetFilters | defi-yield-agent/src/components/transaction/AdvancedFilters.tsx:51-60 | The owner's filters become the default state; presets are kept. |
| AdvancedFilters.FilterPanel.RemoveBadge | defi-yield-agent/src/components/transaction/AdvancedFilters.tsx:286-312 | The owner's filters lose exactly the badge's field. |
| AdvancedFilters.FilterPanel.ToggleSavePreset | defi-yield-agent/src/components/transaction/AdvancedFilters.tsx:254 | The save box flips; the name and panel are kept. |
| AdvancedFilters.FilterPanel.SetPresetName | defi-yield-agent/src/components/transaction/AdvancedFilters.tsx:269 | The name box holds the typed text. |
| AdvancedFilters.FilterPanel.HandleSavePreset | defi-yield-agent/src/components/transaction/AdvancedFilters.tsx:73-79 | A name that is blank after trimming does nothing; otherwise the filters are saved under the trimmed name, the box is emptied and hidden. |
| AdvancedFilters.FilterPanel.LoadPresetByName | defi-yield-agent/src/components/transaction/AdvancedFilters.tsx:236-239 | The first preset with the name is loaded; an unknown name changes nothing. |
| Notifications.Fresh | defi-yield-agent/src/contexts/NotificationContext.tsx:81-88 | A new entry keeps every field of the draft, takes the given id and time, and starts unread and not dismissed. |
| Notifications.MarkRead | defi-yield-agent/src/contexts/NotificationContext.tsx:93-99 | Same length; exactly the entries with the id become read; every other field of every entry is kept. |
| Notifications.Dismiss | defi-yield-agent/src/contexts/NotificationContext.tsx:101-107 | Same length, so the entry stays stored; exactly the entries with the id become dismissed; nothing else changes. |
| Notifications.AllCleared | defi-yield-agent/src/contexts/NotificationContext.tsx:109-113 | Every entry becomes read and dismissed, the list keeps its length and every other field. |
| Notifications.MarkReadIdempotent | defi-yield-agent/src/contexts/NotificationContext.tsx:93-99 | Marking the same id read twice equals marking it once. |
| Notifications.DismissIdempotent | defi-yield-agent/src/contexts/NotificationContext.tsx:101-107 | Dismissing the same id twice equals dismissing it once. |
| Notifications.Active | defi-yield-agent/src/contexts/NotificationContext.tsx:115 | The shown list is a subsequence of the stored one, so it keeps the newest-first order. |
| Notifications.UnreadCount | defi-yield-agent/src/contexts/NotificationContext.tsx:116 | The unread badge never exceeds the number of shown entries. |
| Notifications.ActiveMembers | defi-yield-agent/src/contexts/NotificationContext.tsx:115 | An entry is shown iff it is stored and not dismissed. |
| Notifications.ClearAllEmptiesViews | defi-yield-agent/src/contexts/NotificationContext.tsx:109-116 | After clearing, nothing is shown and the unread count is 0. |
| Notifications.AddShowsFirst | defi-yield-agent/src/contexts/NotificationContext.tsx:90 | A new entry is shown first, ahead of the earlier shown entries in their order, and raises the unread count by one. |
| Notifications.MarkReadAbsent | defi-yield-agent/src/contexts/NotificationContext.tsx:93-99 | Marking an id no entry carries changes nothing. |
| Notifications.AddThenMarkReadKeepsUnread | defi-yield-agent/src/contexts/NotificationContext.tsx:81-99 | With a new id, adding an entry and then marking it read leaves the unread count where it was. |
| Notifications.MarkReadNeverRaisesUnread | defi-yield-agent/src/contexts/NotificationContext.tsx:93-99 | Marking read never raises the unread count. |
| Notifications.NotificationStore.constructor | defi-yield-agent/src/contexts/NotificationContext.tsx:21 | The store starts empty. |
| Notifications.NotificationStore.AddNotification | defi-yield-agent/src/contexts/NotificationContext.tsx:81-91 | The new entry is prepended; the stored entries are unchanged and keep their order. |
| Notifications.NotificationStore.MarkAsRead | defi-yield-agent/src/contexts/NotificationContext.tsx:93-99 | The stored list becomes its mark-read image. |
| Notifications.NotificationStore.DismissNotification | defi-yield-agent/src/contexts/NotificationContext.tsx:101-107 | The stored list becomes its dismissed image. |
| Notifications.NotificationStore.ClearAll | defi-yield-agent/src/contexts/NotificationContext.tsx:109-113 | Every entry read and dismissed; nothing shown and nothing unread afterwards. |
| NotificationPanel.TimeAgo | defi-yield-agent/src/components/NotificationPanel.tsx:55-66 | Days when at least a day has passed, else hours when at least an hour, else minutes when at least a minute, else 'just now' (also for a future time); each count is the whole number of its unit in the elapsed time. |
| NotificationPanel.AgeText | defi-yield-agent/src/components/NotificationPanel.tsx:62-65 | "Nd ago", "Nh ago", "Nm ago" with the count in decimal, and "Just now" exactly for the last case. |
| NotificationPanel.NinetyMinutesIsOneHour | defi-yield-agent/src/components/NotificationPanel.tsx:58-63 | Ninety minutes reads as one hour. |
| NotificationPanel.FutureIsJustNow | defi-yield-agent/src/components/NotificationPanel.tsx:57-65 | A timestamp in the future reads as 'Just now'. |
| NotificationPanel.HandleClick | defi-yield-agent/src/components/NotificationPanel.tsx:44-48 | A read entry is left alone; an unread one is marked read in the store. |
| UserPreferences.MergePreferences | defi-yield-agent/src/contexts/UserPreferencesContext.tsx:57-59 | Each supplied field overwrites its own, every other field is kept. |
| UserPreferences.Onboarded | defi-yield-agent/src/contexts/UserPreferencesContext.tsx:61-67 | Onboarding is marked complete and the profile recorded; view, sample-data switch and dismissed tips are kept. |
| UserPreferences.CompleteOnboardingIsUpdate | defi-yield-agent/src/contexts/UserPreferencesContext.tsx:57-67 | Completing onboarding is the partial update that supplies exactly those two fields. |
| UserPreferences.WithDismissedTip | defi-yield-agent/src/contexts/UserPreferencesContext.tsx:69-74 | The tip id is appended after the old list; the other fields are kept. |
| UserPreferences.DismissTipTwiceRecordsTwice | defi-yield-agent/src/contexts/UserPreferencesContext.tsx:72 | Nothing is de-duplicated: dismissing a tip twice records it twice more. |
| UserPreferences.PreferencesStore.constructor | defi-yield-agent/src/contexts/UserPreferencesContext.tsx:27-38 | Not onboarded, no profile, list view, sample data off, no dismissed tips. |
| UserPreferences.PreferencesStore.UpdatePreferences | defi-yield-agent/src/contexts/UserPreferencesContext.tsx:57-59 | The record becomes the merge of the old one with the update. |
| UserPreferences.PreferencesStore.CompleteOnboarding | defi-yield-agent/src/contexts/UserPreferencesContext.tsx:61-67 | The record becomes its onboarded image. |
| UserPreferences.PreferencesStore.DismissTip | defi-yield-agent/src/contexts/UserPreferencesContext.tsx:69-74 | The record becomes its image with the tip appended. |
| UserPreferences.PreferencesStore.ResetOnboarding | defi-yield-agent/src/contexts/UserPreferencesContext.tsx:76-78 | Every field returns to its default, the dismissed tips included. |
| AgentSettings.Get | defi-yield-agent/src/components/agent/hooks/useAgentSettings.ts:17-27 | Switches read as booleans, the other settings as numbers. |
| AgentSettings.SettingsEqualByKeys | defi-yield-agent/src/components/agent/hooks/useAgentSettings.ts:17-27 | Two settings records that agree on all nine keys are equal. |
| AgentSettings.Updated | defi-yield-agent/src/components/agent/hooks/useAgentSettings.ts:31-36 | The key reads the new value and every other key is kept. |
| AgentSettings.WithPreset | defi-yield-agent/src/components/agent/hooks/useAgentSettings.ts:45-47 | Each key present in the preset reads the preset's value; every other key is kept. |
| AgentSettings.SingleKeyPresetIsUpdate | defi-yield-agent/src/components/agent/hooks/useAgentSettings.ts:31-47 | A one-key preset is the same as updating that key. |
| AgentSettings.EmptyPresetIsIdentity | defi-yield-agent/src/components/agent/hooks/useAgentSettings.ts:45-47 | An empty preset changes nothing. |
| AgentSettings.AgentSettingsForm.constructor | defi-yield-agent/src/components/agent/hooks/useAgentSettings.ts:17-29 | Agent on, risk 5, card minimum 50, buffer 500, rebalance every 24 h, gas cap 30, all three switches on; not saving. |
| AgentSettings.AgentSettingsForm.UpdateSetting | defi-yield-agent/src/components/agent/hooks/useAgentSettings.ts:31-36 | The settings become the one-key update of the old ones; the saving flag is kept. |
| AgentSettings.AgentSettingsForm.ApplyPresetSettings | defi-yield-agent/src/components/agent/hooks/useAgentSettings.ts:45-47 | The settings become the preset applied to the old ones. |
| AgentSettings.AgentSettingsForm.HandleSave | defi-yield-agent/src/components/agent/hooks/useAgentSettings.ts:38-43 | Saving leaves the settings untouched and ends with the saving flag down. |
| PortfolioIntegration.UserPositions | defi-yield-agent/src/services/portfolioIntegration.ts:39-75 | Three positions, each worth its cost plus its earned yield, with amount equal to value and an entry date in the past. |
| PortfolioIntegration.UserPositionsIgnoreAddress | defi-yield-agent/src/services/portfolioIntegration.ts:39-40 | The positions do not depend on the wallet address. |
| PortfolioIntegration.GasCost | defi-yield-agent/src/services/portfolioIntegration.ts:94 | 50 exactly on Ethereum, 5 on every other chain. |
| PortfolioIntegration.CalculateOptimizationRecommendations | defi-yield-agent/src/services/portfolioIntegration.ts:77-114 | The nested loops produce, in position order then opportunity order, every worthwhile move, cut to the first three. |
| PortfolioIntegration.MockPositionsGetNoRecommendations | defi-yield-agent/src/services/portfolioIntegration.ts:40-113 | On the shipped positions and market table nothing qualifies, so nothing is recommended. |
| PortfolioIntegration.PushWorthwhileSound | defi-yield-agent/src/services/portfolioIntegration.ts:91-110 | Every recommendation pushed for one position comes from a better opportunity whose gain is worth the gas. |
| PortfolioIntegration.PushWorthwhileComplete | defi-yield-agent/src/services/portfolioIntegration.ts:91-110 | Every better opportunity whose gain is worth the gas is pushed for that position. |
| PortfolioIntegration.RecommendationsComplete | defi-yield-agent/src/services/portfolioIntegration.ts:83-111 | Every pairing of a held position with an opportunity on the same chain at the same risk, more than one point better, whose gain exceeds twice the gas cost, is among the recommendations before the cut to three. |
| PortfolioIntegration.RecommendationsSound | defi-yield-agent/src/services/portfolioIntegration.ts:83-111 | Each recommendation moves a held position to an opportunity on the same chain at the same risk, more than one point better, whose gain exceeds twice the gas cost. |
| PortfolioIntegration.MakeRecommendationWellFormed | defi-yield-agent/src/services/portfolioIntegration.ts:92-108 | A recommendation is a 'migrate' with risk change 'same', the position's amount, the gas of its chain, a net gain above that gas, and high confidence iff the APY gap exceeds 2. |
| PortfolioIntegration.RecommendationsWellFormed | defi-yield-agent/src/services/portfolioIntegration.ts:113 | The service returns at most three recommendations, all well formed. |
| PortfolioIntegration.SumOfScaledTerms | defi-yield-agent/src/services/portfolioIntegration.ts:120-122 | Summing each apy·value/total equals Σ apy·value divided by the total. |
| PortfolioIntegration.WeightedApyIsWeightedAverage | defi-yield-agent/src/services/portfolioIntegration.ts:116-131 | With a non-zero total value, the weighted APY is Σ apy·value / Σ value. |
| PortfolioIntegration.WeightedSumBounds | defi-yield-agent/src/services/portfolioIntegration.ts:120-122 | With non-negative values and APYs in [lo, hi], Σ apy·value lies between lo·Σ value and hi·Σ value. |
| PortfolioIntegration.WeightedApyBounds | defi-yield-agent/src/services/portfolioIntegration.ts:116-131 | With non-negative values and a positive total, the weighted APY lies between the lowest and the highest APY held. |
| PortfolioIntegration.TotalReturnIsTotalYield | defi-yield-agent/src/services/portfolioIntegration.ts:116-131 | When every value is cost plus yield, the total return equals the total yield. |
| PortfolioIntegration.MockPortfolioMetrics | defi-yield-agent/src/services/portfolioIntegration.ts:40-131 | The mock positions total 14500 invested, 15420.5 value, 920.5 yield and 920.5 return. |
| PortfolioIntegration.CalculatePortfolioMetrics | defi-yield-agent/src/services/portfolioIntegration.ts:116-131 | The three totals are the sums of invested, current value and earned yield; the return is value less investment; the weighted APY is 0 for no positions and undefined (NaN in the source) exactly when positions exist and the total value is 0; the return percentage is undefined exactly when nothing was invested, and otherwise times the investment gives 100 times the return. |
| RiskAnalyzer.RawScore | defi-yield-agent/src/components/RiskAnalyzer.tsx:16-31 | The summed TVL, APY and volatility terms lie in -1..6. |
| RiskAnalyzer.Clamp | defi-yield-agent/src/components/RiskAnalyzer.tsx:33 | The result is in 1..5, equal to the input inside that range and to the nearer end outside it. |
| RiskAnalyzer.RiskScore | defi-yield-agent/src/components/RiskAnalyzer.tsx:15-34 | The shield count is an integer in 1..5. |
| RiskAnalyzer.CalculateRiskScore | defi-yield-agent/src/components/RiskAnalyzer.tsx:14-34 | The score accumulated term by term, with volatility defaulting to 0.5, is the clamped score, in 1..5. |
| RiskAnalyzer.ClampMonotone | defi-yield-agent/src/components/RiskAnalyzer.tsx:33 | Clamping preserves order. |
| RiskAnalyzer.ScoreMonotoneInTvl | defi-yield-agent/src/components/RiskAnalyzer.tsx:19-21 | More TVL never lowers the score. |
| RiskAnalyzer.ScoreAntitoneInApy | defi-yield-agent/src/components/RiskAnalyzer.tsx:24-26 | A higher APY never raises the score. |
| RiskAnalyzer.ScoreAntitoneInVolatility | defi-yield-agent/src/components/RiskAnalyzer.tsx:29-31 | A higher volatility never raises the score. |
| RiskAnalyzer.LidoScoresFive | defi-yield-agent/src/components/RiskAnalyzer.tsx:15-34 | Lido stETH has a raw score of 6 and shows five shields. |
| RiskAnalyzer.BeefyClampedToOne | defi-yield-agent/src/components/RiskAnalyzer.tsx:15-34 | Beefy Finance has a raw score of 0 and is lifted to one shield. |
| RiskAnalyzer.RiskFlags | defi-yield-agent/src/components/RiskAnalyzer.tsx:41-49 | 'High TVL' iff TVL > 1e9, 'Low TVL' iff TVL < 5e7, 'Very high APY' iff APY > 15, 'High volatility' iff the volatility (0.5 by default) > 0.7, 'Experimental' iff the lower-cased name contains "experimental"; no audit label among them. |
| RiskAnalyzer.RiskFactors | defi-yield-agent/src/components/RiskAnalyzer.tsx:38-52 | The list is never empty, ends with the audit label chosen by the draw, has no audit label before it, and otherwise holds exactly the flags. |
| RiskAnalyzer.GetRiskDetails | defi-yield-agent/src/components/RiskAnalyzer.tsx:38-52 | Pushing the factors one by one builds exactly the specified list: the flags in order, then one audit label. |
| RiskAssessmentDashboard.RiskLabel | defi-yield-agent/src/components/portfolio/RiskAssessmentDashboard.tsx:15 | A missing or empty risk label counts as 'Medium', so the bucket name is never empty. |
| RiskAssessmentDashboard.RiskDistribution | defi-yield-agent/src/components/portfolio/RiskAssessmentDashboard.tsx:13-18 | Each bucket holds the summed value of the positions with that label, and the buckets together hold the total value. |
| RiskAssessmentDashboard.LabelSumAppend | defi-yield-agent/src/components/portfolio/RiskAssessmentDashboard.tsx:16 | A further position adds its value to its own bucket only. |
| RiskAssessmentDashboard.KnownLabelsCoverTotal | defi-yield-agent/src/components/portfolio/RiskAssessmentDashboard.tsx:13-18 | When every label is Low, Medium or High, those three buckets make up the total value. |
| RiskAssessmentDashboard.LabelSumNonNegative | defi-yield-agent/src/components/portfolio/RiskAssessmentDashboard.tsx:16 | No bucket is negative when no position value is. |
| RiskAssessmentDashboard.Summarize | defi-yield-agent/src/components/portfolio/RiskAssessmentDashboard.tsx:20-24 | The percentages and score exist exactly when the total value is not zero. |
| RiskAssessmentDashboard.SharesSumToHundred | defi-yield-agent/src/components/portfolio/RiskAssessmentDashboard.tsx:20-22 | Three parts of a non-zero total are 100 percent of it. |
| RiskAssessmentDashboard.ScoreOfSums | defi-yield-agent/src/components/portfolio/RiskAssessmentDashboard.tsx:24 | The score over percentages equals 0.2·low + 0.5·medium + 0.8·high over the total. |
| RiskAssessmentDashboard.WeightedShareBounds | defi-yield-agent/src/components/portfolio/RiskAssessmentDashboard.tsx:24 | Non-negative parts of a positive total weight to a score in [0.2, 0.8]. |
| RiskAssessmentDashboard.LabelLookups | defi-yield-agent/src/components/portfolio/RiskAssessmentDashboard.tsx:20-22 | The Low, Medium and High entries read from the distribution (0 when missing) are the summed values of the positions with that label. |
| RiskAssessmentDashboard.SummaryOfLabelSums | defi-yield-agent/src/components/portfolio/RiskAssessmentDashboard.tsx:20-24 | The shown percentages are the bucket sums over the total, and the score is their weighted share. |
| RiskAssessmentDashboard.PercentagesSumToHundred | defi-yield-agent/src/components/portfolio/RiskAssessmentDashboard.tsx:20-22 | With every label known and a non-zero total, the three percentages add up to 100. |
| RiskAssessmentDashboard.ScoreBetweenWeights | defi-yield-agent/src/components/portfolio/RiskAssessmentDashboard.tsx:20-24 | With every label known, no negative value and a positive total, the score lies in [0.2, 0.8]. |
| RiskAssessmentDashboard.GetRiskLevel | defi-yield-agent/src/components/portfolio/RiskAssessmentDashboard.tsx:26-30 | Conservative iff the score is at most 0.3, Moderate iff in (0.3, 0.6], Aggressive iff above 0.6. |
| RiskAssessmentDashboard.RiskLevelMonotone | defi-yield-agent/src/components/portfolio/RiskAssessmentDashboard.tsx:26-30 | A higher score never gives a milder level. |
| RiskAssessmentDashboard.EmptyPortfolioShownAggressive | defi-yield-agent/src/components/portfolio/RiskAssessmentDashboard.tsx:20-32 | As written, a portfolio with no value gets not-a-number scores and is labelled Aggressive. |
| RiskAssessmentDashboard.ShownLevelAsWritten | defi-yield-agent/src/components/portfolio/RiskAssessmentDashboard.tsx:20-32 | As written: a zero total is labelled Aggressive; otherwise the level is the score's band. |
| RiskAssessmentDashboard.ShownLevel | defi-yield-agent/src/components/portfolio/RiskAssessmentDashboard.tsx:26-32 | No level iff the total value is zero; otherwise the level of the score. |
| RiskAssessmentDashboard.Recommendations | defi-yield-agent/src/components/portfolio/RiskAssessmentDashboard.tsx:116-133 | 'Reduce high risk' iff high > 40 percent, 'add stable protocols' iff low < 20 percent, 'well balanced' iff low is at least 50 percent; no advice without a rating. |
| RiskAssessmentDashboard.StableAndBalancedExclusive | defi-yield-agent/src/components/portfolio/RiskAssessmentDashboard.tsx:122-133 | 'Add stable protocols' and 'well balanced' never show together. |
| RiskAssessmentDashboard.OverviewLabels | defi-yield-agent/src/components/portfolio/PortfolioOverview.tsx:33-66 | The overview positions are labelled Low, Low and Medium. |
| RiskAssessmentDashboard.OverviewLabelSums | defi-yield-agent/src/components/portfolio/PortfolioOverview.tsx:33-66 | The overview positions total 15420.5: 12700 Low, 2720.5 Medium, nothing High. |
| RiskAssessmentDashboard.OverviewIsConservative | defi-yield-agent/src/components/portfolio/RiskAssessmentDashboard.tsx:13-32 | The overview portfolio scores 3900.25 / 15420.5, about 0.25, and is shown as Conservative. |
| YieldMetrics.AvgApy | defi-yield-agent/src/components/YieldMetrics.tsx:23 | No average for an empty table; otherwise the average times the row count is the APY sum. |
| YieldMetrics.AvgApyBetween | defi-yield-agent/src/components/YieldMetrics.tsx:23 | The average lies between the lowest and highest APY. |
| YieldMetrics.SumBetween | defi-yield-agent/src/components/YieldMetrics.tsx:23 | n APYs in [lo, hi] sum to between n·lo and n·hi. |
| YieldMetrics.TotalTvlCoversEachRow | defi-yield-agent/src/components/YieldMetrics.tsx:24 | With no negative TVL, the total is at least any row's TVL. |
| YieldMetrics.TotalTvl | defi-yield-agent/src/components/YieldMetrics.tsx:24 | The summed TVL is never negative when no row's TVL is; `TotalTvlCoversEachRow` bounds it below by each row. |
| YieldMetrics.RiskDistribution | defi-yield-agent/src/components/YieldMetrics.tsx:25-28 | Each level's count is the number of rows at that level, and the counts sum to the row count. |
| YieldMetrics.TopChain | defi-yield-agent/src/components/YieldMetrics.tsx:30-33 | One entry per chain in order of first appearance, holding the summed APY of that chain's rows. |
| YieldMetrics.BestIndex | defi-yield-agent/src/components/YieldMetrics.tsx:35 | The kept entry has the maximal value and every later entry is strictly smaller. |
| YieldMetrics.BestIndexIsLastMaximum | defi-yield-agent/src/components/YieldMetrics.tsx:35 | The reduce keeps exactly the last entry holding the maximum. |
| YieldMetrics.BestChain | defi-yield-agent/src/components/YieldMetrics.tsx:35 | Nothing for an empty table (the reduce throws); otherwise the chain with the maximal summed APY, the later one on a tie. |
| YieldMetrics.HighYieldCount | defi-yield-agent/src/components/YieldMetrics.tsx:36 | The count is the number of rows above 10 percent. |
| YieldMetrics.HighYieldCountsExactly | defi-yield-agent/src/components/YieldMetrics.tsx:36 | A row is counted iff its APY is strictly above 10. |
| YieldMetrics.FormatTvl | defi-yield-agent/src/components/YieldMetrics.tsx:38-42 | 'B' iff at least 1e9, 'M' iff in [1e6, 1e9), 'K' below 1e6; the shown figure times its unit is the value. |
| YieldMetrics.ShippedChainSumsFirstHalf | defi-yield-agent/src/components/YieldMetrics.tsx:30-33 | The per-chain sums after the first four shipped rows. |
| YieldMetrics.ShippedChainSums | defi-yield-agent/src/components/YieldMetrics.tsx:30-33 | The shipped table sums to Ethereum 25.4, Polygon 19.1, Arbitrum 24.8. |
| YieldMetrics.ShippedBestChainIsEthereum | defi-yield-agent/src/components/YieldMetrics.tsx:35 | On the shipped table the best chain is Ethereum. |
| YieldMetrics.ShippedHighYieldCount | defi-yield-agent/src/components/YieldMetrics.tsx:36 | On the shipped table exactly Beefy Finance and Uniswap V3 pay above 10 percent, so the count is 2. |
| GasCostAnalyzer.GetGasCosts | defi-yield-agent/src/components/GasCostAnalyzer.tsx:13-20 | Ethereum 45/35/0.12, Polygon 2/1.5/0.008, Arbitrum 8/6/0.02, any other chain 20/15/0.05; every cost positive. |
| GasCostAnalyzer.AnnualDrag | defi-yield-agent/src/components/GasCostAnalyzer.tsx:23 | The yearly gas drag is positive. |
| GasCostAnalyzer.NetApy | defi-yield-agent/src/components/GasCostAnalyzer.tsx:23 | The net APY is the APY less the yearly drag, so strictly below it. |
| GasCostAnalyzer.BreakEvenDays | defi-yield-agent/src/components/GasCostAnalyzer.tsx:24 | None iff the APY is zero; for a positive APY, the fewest whole days whose yield reaches the entry plus exit cost. |
| GasCostAnalyzer.CeilOfQuotient | defi-yield-agent/src/components/GasCostAnalyzer.tsx:24 | The ceiling of a/b is the fewest multiples of b that reach a. |
| GasCostAnalyzer.BreakEvenAntitone | defi-yield-agent/src/components/GasCostAnalyzer.tsx:24 | A higher positive APY never needs more days to break even. |
| GasCostAnalyzer.GetGasEfficiency | defi-yield-agent/src/components/GasCostAnalyzer.tsx:26-30 | Excellent iff the net APY is above 90 percent of the APY, Good iff above 80 percent but not 90, else Poor. |
| GasCostAnalyzer.EfficiencyThresholds | defi-yield-agent/src/components/GasCostAnalyzer.tsx:23-30 | Excellent iff the APY exceeds ten times the yearly drag, Good iff it exceeds five times but not ten, else Poor. |
| GasCostAnalyzer.EfficiencyMonotone | defi-yield-agent/src/components/GasCostAnalyzer.tsx:26-30 | On a fixed chain a higher APY never gets a worse label. |
| GasCostAnalyzer.EthereumExcellentAbove | defi-yield-agent/src/components/GasCostAnalyzer.tsx:23-30 | On Ethereum an APY is Excellent iff it is above 4.38. |
| TransactionAnalytics.AvgGasPerTx | defi-yield-agent/src/components/transaction/TransactionAnalytics.tsx:27 | No average for an empty list; otherwise the average times the count is the total gas. |
| TransactionAnalytics.TotalGasSpent | defi-yield-agent/src/components/transaction/TransactionAnalytics.tsx:25 | The summed gas is never negative when no transaction's gas is; `AvgGasPerTx` ties the average to it. |
| TransactionAnalytics.MockTotalVolume | defi-yield-agent/src/components/TransactionHistory.tsx:68-129 | The shipped transactions move 19320.5 in total. |
| TransactionAnalytics.TypeDistribution | defi-yield-agent/src/components/transaction/TransactionAnalytics.tsx:30-33 | One entry per distinct type in first-appearance order, each the number of transactions of that type; the counts sum to the list length. |
| TransactionAnalytics.Capitalize | defi-yield-agent/src/components/transaction/TransactionAnalytics.tsx:36 | With ASCII case mapping: same length, the first character upper-cased and the rest unchanged. |
| TransactionAnalytics.PieDataSum | defi-yield-agent/src/components/transaction/TransactionAnalytics.tsx:35-39 | The slices carry the counts' total. |
| TransactionAnalytics.PieData | defi-yield-agent/src/components/transaction/TransactionAnalytics.tsx:35-38 | One slice per type entry, in order, named by the capitalised type and carrying its count. |
| TransactionAnalytics.PieSlicesOfTypes | defi-yield-agent/src/components/transaction/TransactionAnalytics.tsx:30-39 | One slice per distinct type, in first-appearance order, named by the capitalised type; the slices add up to the list length. |
| TransactionAnalytics.DailyVolumeEntries | defi-yield-agent/src/components/transaction/TransactionAnalytics.tsx:42-46 | Each day appears once, holding the summed amount of that day's transactions. |
| TransactionAnalytics.StrictlyAscending | defi-yield-agent/src/components/transaction/TransactionAnalytics.tsx:49 | Day-sorted entries with no repeated day are strictly ascending. |
| TransactionAnalytics.DayLeqIsTotalPreorder | defi-yield-agent/src/components/transaction/TransactionAnalytics.tsx:49 | Comparing by day is a total preorder. |
| TransactionAnalytics.BeforeLastWindow | defi-yield-agent/src/components/transaction/TransactionAnalytics.tsx:50 | A day left out of the last window is earlier than every day in it. |
| TransactionAnalytics.WindowEntries | defi-yield-agent/src/components/transaction/TransactionAnalytics.tsx:42-49 | Sorting the daily sums gives each day once, strictly ascending, with its own sum. |
| TransactionAnalytics.LastWindow | defi-yield-agent/src/components/transaction/TransactionAnalytics.tsx:50 | The last entries stay ascending and every day left out is earlier. |
| TransactionAnalytics.VolumeData | defi-yield-agent/src/components/transaction/TransactionAnalytics.tsx:42-54 | The last min(7, days) days, strictly ascending, each with its day's summed amount; every day left out is earlier than all shown. |
| TransactionAnalytics.TxLabel | defi-yield-agent/src/components/transaction/TransactionAnalytics.tsx:60 | A gas-chart label starts with "TX " followed by the number. |
| TransactionAnalytics.GasData | defi-yield-agent/src/components/transaction/TransactionAnalytics.tsx:57-63 | The last min(10, n) transactions in order, each with its gas and type, labelled TX 1 onwards. |
| TransactionAnalytics.ShortListShowsAllGas | defi-yield-agent/src/components/transaction/TransactionAnalytics.tsx:57-63 | With ten or fewer transactions the chart shows each one's gas, in list order. |
| TimelineView.LocalDayOf | defi-yield-agent/src/components/transaction/TimelineView.tsx:65 | The local day is the whole number of days whose start is at or before the local time and whose end is after it. |
| TimelineView.GroupByDate | defi-yield-agent/src/components/transaction/TimelineView.tsx:62-70 | The loop's groups are the grouping of the list by local calendar day, for the browser's UTC offset. |
| TimelineView.TimelineGroups | defi-yield-agent/src/components/transaction/TimelineView.tsx:62-76 | Local days in first-appearance order; each group holds exactly its day's transactions in list order; no group is empty; the sizes sum to the list length. |
| TimelineView.EachTransactionInOneGroup | defi-yield-agent/src/components/transaction/TimelineView.tsx:64-68 | Every transaction is in exactly one group, the one of its own local day. |
| TimelineView.UtcOffsetIsUtcDay | defi-yield-agent/src/components/transaction/TimelineView.tsx:65 | In a browser on UTC the `toDateString()` day is the UTC day the analytics use. |
| TimelineView.LocalDayMonotone | defi-yield-agent/src/components/transaction/TimelineView.tsx:65 | A later transaction never falls on an earlier local day. |
| TimelineView.WestOfUtcSplitsUtcDay | defi-yield-agent/src/components/transaction/TimelineView.tsx:64-68 | Two transactions on one UTC day, at 02:00 and 06:00, fall on consecutive local days at UTC−5 and make two groups. |
| TransactionDetails.GetGasOptimization | defi-yield-agent/src/components/transaction/TransactionDetails.tsx:80-90 | Efficient iff gas is below 0.003; savings are the difference when efficient and 0 otherwise; 'Standard cost' iff savings are not positive, else the saving at 2000 dollars per unit; 'Optimal timing' iff efficient. |
| TransactionDetails.SavingsShownIffEfficient | defi-yield-agent/src/components/transaction/TransactionDetails.tsx:82-87 | Savings are never negative and are shown exactly for efficient transactions. |
| TransactionDetails.LessGasNoWorse | defi-yield-agent/src/components/transaction/TransactionDetails.tsx:82-83 | Less gas never loses the efficient label nor lowers the savings. |
| TransactionDetails.GetImpactAnalysis | defi-yield-agent/src/components/transaction/TransactionDetails.tsx:46-78 | Neutral exactly for 'bridge'; 'negative' is never produced. |
| TransactionDetails.MockTransactionDetails | defi-yield-agent/src/components/TransactionHistory.tsx:68-129 | Among the shipped transactions only the bridge (id 3) is neutral, and only ids 1 and 2 are efficient. |
| PositionManagement.CurrentPosition | defi-yield-agent/src/components/portfolio/PositionManagementModal.tsx:32 | The held value, or 0 without a position. |
| PositionManagement.ProjectedValue | defi-yield-agent/src/components/portfolio/PositionManagementModal.tsx:33-35 | Stake adds the amount, unstake subtracts it, an empty amount counts as 0, with no floor. |
| PositionManagement.ProjectedYield | defi-yield-agent/src/components/portfolio/PositionManagementModal.tsx:36 | A hundred times the yield is the projected value times the APY. |
| PositionManagement.EmptyAmountProjectsCurrent | defi-yield-agent/src/components/portfolio/PositionManagementModal.tsx:33-35 | An empty amount projects the current position. |
| PositionManagement.UnstakeCanGoNegative | defi-yield-agent/src/components/portfolio/PositionManagementModal.tsx:35 | Unstaking more than is held projects a negative position. |
| PositionManagement.UnstakeMaxProjectsZero | defi-yield-agent/src/components/portfolio/PositionManagementModal.tsx:35-36 | Unstaking the whole position projects zero value and zero yield. |
| PositionManagement.SubmitDisabled | defi-yield-agent/src/components/portfolio/PositionManagementModal.tsx:191 | The button is enabled iff the amount is positive and nothing is in flight. |
| PositionManagement.SubmitEnabledIff | defi-yield-agent/src/components/portfolio/PositionManagementModal.tsx:191 | Submit is enabled iff the amount is positive and nothing is in flight. |
| PositionManagement.PositionModal.constructor | defi-yield-agent/src/components/portfolio/PositionManagementModal.tsx:28-30 | Stake, an empty amount, not loading, no close request yet. |
| PositionManagement.PositionModal.Projected | defi-yield-agent/src/components/portfolio/PositionManagementModal.tsx:32-35 | The shown projection of the current action and amount. |
| PositionManagement.PositionModal.SelectStake | defi-yield-agent/src/components/portfolio/PositionManagementModal.tsx:104 | The action becomes stake; the amount is kept. |
| PositionManagement.PositionModal.SelectUnstake | defi-yield-agent/src/components/portfolio/PositionManagementModal.tsx:111-113 | The action becomes unstake only when a position exists; otherwise nothing changes. |
| PositionManagement.PositionModal.SetAmount | defi-yield-agent/src/components/portfolio/PositionManagementModal.tsx:129 | The amount box holds the typed amount. |
| PositionManagement.PositionModal.Max | defi-yield-agent/src/components/portfolio/PositionManagementModal.tsx:132-136 | When unstaking a held position the amount becomes its whole value, projecting zero; otherwise nothing changes. |
| PositionManagement.PositionModal.HandleTransaction | defi-yield-agent/src/components/portfolio/PositionManagementModal.tsx:38-44 | Submitting keeps action and amount, ends with the busy flag down, and asks the owner to close the dialog exactly once. |
| PositionManagement.PositionModal.Close | defi-yield-agent/src/components/portfolio/PositionManagementModal.tsx:186 | Cancel asks the owner to close the dialog once and changes nothing else. |
| SeriesTime.TimeOf | defi-yield-agent/src/utils/portfolioDataService.ts:37-57 | Point i of a series lies i hours, days or weeks before the clock, or at the first of the month i months back. |
| SeriesTime.FurtherBackIsBefore | defi-yield-agent/src/utils/portfolioDataService.ts:37-57 | A larger step count lies strictly earlier, for every interval. |
| Common.FindBy | defi-yield-agent/src/utils/portfolioDataService.ts:86 | `find` by key: nothing iff no element has the key; otherwise an element of the list with that key. |
| Common.FindByFirst | defi-yield-agent/src/utils/analyticsDataService.ts:29 | The element found is the first with the key: no earlier element has it. |
| PortfolioDataService.FindConfig | defi-yield-agent/src/utils/portfolioDataService.ts:86 | Nothing iff no configuration has the range's value; otherwise a configuration with that value. |
| PortfolioDataService.PointCount | defi-yield-agent/src/utils/portfolioDataService.ts:18-24 | 7d 168, 1m 30, 3m 12, 6m 24, 1y 12 points, and none for any other range. |
| PortfolioDataService.Series | defi-yield-agent/src/utils/portfolioDataService.ts:27-76 | A known range's series has exactly its configured number of points. |
| PortfolioDataService.GenerateDataPoints | defi-yield-agent/src/utils/portfolioDataService.ts:27-76 | The loop counting i down from dataPoints - 1 to 0 pushes exactly the specified series, point by point. |
| PortfolioDataService.VolumeBounds | defi-yield-agent/src/utils/portfolioDataService.ts:70 | Every volume lies in [2000, 4000]. |
| PortfolioDataService.SeriesOldestFirst | defi-yield-agent/src/utils/portfolioDataService.ts:33-57 | Points come oldest first. |
| PortfolioDataService.ValuesPositive | defi-yield-agent/src/utils/portfolioDataService.ts:60-69 | With sine in [-1, 1], every value and yield is positive. |
| PortfolioDataService.Generated | defi-yield-agent/src/utils/portfolioDataService.ts:86-89 | A range generates its configured number of points; an unknown range none. |
| PortfolioDataService.CacheStep | defi-yield-agent/src/utils/portfolioDataService.ts:81-92 | A cached range returns its stored series; an uncached known range stores and returns the new series; an unknown range returns an empty series and is not stored. |
| PortfolioDataService.RepeatedCallIsCached | defi-yield-agent/src/utils/portfolioDataService.ts:82-84 | A second call with the same range returns the identical series, whatever it would generate. |
| PortfolioDataService.UnknownRangeNotCached | defi-yield-agent/src/utils/portfolioDataService.ts:86-87 | An unknown range never enters the cache and yields an empty series. |
| PortfolioDataService.PortfolioCache.constructor | defi-yield-agent/src/utils/portfolioDataService.ts:79 | The cache starts empty. |
| PortfolioDataService.PortfolioCache.GetPortfolioData | defi-yield-agent/src/utils/portfolioDataService.ts:81-92 | The cache and result are one cache step on the old cache with the series this range generates. |
| PortfolioDataService.GrowthMetrics | defi-yield-agent/src/utils/portfolioDataService.ts:94-108 | Zeros for fewer than two points; otherwise the last point against the second-to-last: current = previous + change, and a percentage, with percentage·previous = change·100, exactly when previous is not zero. |
| PortfolioDataService.GrowthOfTenToTwelve | defi-yield-agent/src/utils/portfolioDataService.ts:97-107 | Values 10 then 12 give a change of 2, that is 20 percent. |
| PortfolioDataService.GrowthIgnoresEarlierPoints | defi-yield-agent/src/utils/portfolioDataService.ts:97-98 | Only the last two points matter. |
| AnalyticsDataService.FindRange | defi-yield-agent/src/utils/analyticsDataService.ts:29 | Nothing iff no range has the value; otherwise a range with that value. |
| AnalyticsDataService.PointCount | defi-yield-agent/src/utils/analyticsDataService.ts:19-25 | 7D 168, 30D 30, 90D 90, 1Y 52, ALL 24 points, and none for any other range. |
| AnalyticsDataService.Point | defi-yield-agent/src/utils/analyticsDataService.ts:64-81 | Value, yield and benchmark are never negative. |
| AnalyticsDataService.Series | defi-yield-agent/src/utils/analyticsDataService.ts:28-85 | A known range's series has exactly its configured number of points. |
| AnalyticsDataService.Generated | defi-yield-agent/src/utils/analyticsDataService.ts:29-30 | A range generates its configured number of points; an unknown range none. |
| AnalyticsDataService.GenerateAnalyticsData | defi-yield-agent/src/utils/analyticsDataService.ts:28-85 | The generator returns exactly the specified series of a known range and an empty series for an unknown one. |
| AnalyticsDataService.GenerateSeries | defi-yield-agent/src/utils/analyticsDataService.ts:37-82 | The loop counting i down pushes exactly the specified series of the range. |
| AnalyticsDataService.VolumeBounds | defi-yield-agent/src/utils/analyticsDataService.ts:79 | Every volume lies in [1500, 2500]. |
| AnalyticsDataService.YieldMetricRepeatsValue | defi-yield-agent/src/utils/analyticsDataService.ts:71 | For the yield metric the yield column equals the value column. |
| AnalyticsDataService.RoundCentsIdempotent | defi-yield-agent/src/utils/analyticsDataService.ts:70-71 | Rounding to cents twice equals rounding once. |
| AnalyticsDataService.BenchmarkFactorBounds | defi-yield-agent/src/utils/analyticsDataService.ts:72-78 | A factor in [0.95, 1.05) keeps the floored benchmark within five percent of the floored value. |
| AnalyticsDataService.BenchmarkNearValue | defi-yield-agent/src/utils/analyticsDataService.ts:72-78 | Every benchmark lies within five percent of its value. |
| AnalyticsDataService.SeriesOldestFirst | defi-yield-agent/src/utils/analyticsDataService.ts:37-61 | Points come oldest first. |
| AnalyticsDataService.CacheKey | defi-yield-agent/src/utils/analyticsDataService.ts:108 | The key is the range, a dash and the metric name. |
| AnalyticsDataService.CacheKeyInjective | defi-yield-agent/src/utils/analyticsDataService.ts:108 | Different range and metric pairs never share a cache slot. |
| AnalyticsDataService.CacheStep | defi-yield-agent/src/utils/analyticsDataService.ts:107-117 | A cached key returns its stored series; otherwise whatever is generated, even an empty series, is stored and returned. |
| AnalyticsDataService.RepeatedCallIsCached | defi-yield-agent/src/utils/analyticsDataService.ts:110-112 | A second call with the same key returns the identical series. |
| AnalyticsDataService.UnknownRangeIsCached | defi-yield-agent/src/utils/analyticsDataService.ts:114-115 | An unknown range's empty series is stored under its key. |
| AnalyticsDataService.ClearedCacheRegenerates | defi-yield-agent/src/utils/analyticsDataService.ts:119-121 | After a clear the next call stores and returns what it generates. |
| AnalyticsDataService.AnalyticsCache.constructor | defi-yield-agent/src/utils/analyticsDataService.ts:105 | The cache starts empty. |
| AnalyticsDataService.AnalyticsCache.GetAnalyticsData | defi-yield-agent/src/utils/analyticsDataService.ts:107-117 | The cache and result are one cache step on the old cache, under the range-metric key, with the series generated. |
| AnalyticsDataService.AnalyticsCache.ClearAnalyticsCache | defi-yield-agent/src/utils/analyticsDataService.ts:119-121 | The cache is empty. |
| AnalyticsDataService.AnalyticsGrowth | defi-yield-agent/src/utils/analyticsDataService.ts:88-102 | Zeros for fewer than two points; otherwise the last point against the first: current = first + change, and a percentage, with percentage·first = change·100, exactly when the first is not zero. |
| AnalyticsDataService.GrowthTelescopes | defi-yield-agent/src/utils/analyticsDataService.ts:91-93 | The change over the range is the sum of the changes between neighbouring points. |
| PredictionDataService.Params | defi-yield-agent/src/utils/predictionDataService.ts:31-50 | Every horizon has positive days, points and volatility (7D: 7/14/0.02, 30D: 30/30/0.05, 90D: 90/18/0.08). |
| PredictionDataService.ActualCount | defi-yield-agent/src/utils/predictionDataService.ts:78 | Step i carries an actual value iff 3·i < dataPoints, that is i < dataPoints / 3. |
| PredictionDataService.StepTimeAscending | defi-yield-agent/src/utils/predictionDataService.ts:55-56 | A later step lies later in time. |
| PredictionDataService.ConfidenceWidth | defi-yield-agent/src/utils/predictionDataService.ts:75 | The band's half-width is positive. |
| PredictionDataService.Point | defi-yield-agent/src/utils/predictionDataService.ts:68-88 | 0 ≤ lower ≤ predicted ≤ upper; away from the floor at 0 the band is the predicted value plus or minus the width; an actual value exactly for steps in the first third. |
| PredictionDataService.DrawIndexStep | defi-yield-agent/src/utils/predictionDataService.ts:69-78 | Each step consumes two random draws in the first third and one after it, and never reads past the last. |
| PredictionDataService.Prediction | defi-yield-agent/src/utils/predictionDataService.ts:54-91 | A horizon's forecast has exactly its configured number of points. |
| PredictionDataService.GeneratePredictionData | defi-yield-agent/src/utils/predictionDataService.ts:54-91 | The loop counting i up pushes exactly the specified forecast, drawing as it goes. |
| PredictionDataService.WidthIncreasing | defi-yield-agent/src/utils/predictionDataService.ts:75 | The band widens strictly with the step. |
| PredictionDataService.HorizonSizes | defi-yield-agent/src/utils/predictionDataService.ts:31-50 | 14, 30 and 18 points, of which 5, 10 and 6 carry an actual value. |
| PredictionDataService.TimesAscending | defi-yield-agent/src/utils/predictionDataService.ts:55-56 | Forecast points move forward in time. |
| PredictionDataService.ProbabilityFactor | defi-yield-agent/src/utils/predictionDataService.ts:142-165 | Each scenario scales the probability by a factor in [0.6, 1.5]. |
| PredictionDataService.Scenario | defi-yield-agent/src/utils/predictionDataService.ts:119-171 | A scenario keeps its name and risk; its probability is at most 100 and, with a draw in [0, 1), positive. |
| PredictionDataService.ProbabilityCapNeverBinds | defi-yield-agent/src/utils/predictionDataService.ts:169 | The largest possible probability rounds to at most 60, so the cap at 100 never binds. |
| PredictionDataService.Unsorted | defi-yield-agent/src/utils/predictionDataService.ts:119 | Mapping keeps one scenario per base scenario. |
| PredictionDataService.UnsortedIdentities | defi-yield-agent/src/utils/predictionDataService.ts:119-171 | Before sorting, scenario k is base scenario k with its name and risk. |
| PredictionDataService.UnsortedProbabilities | defi-yield-agent/src/utils/predictionDataService.ts:125-169 | With draws in [0, 1) every probability lies in (0, 100]. |
| PredictionDataService.GenerateScenarioData | defi-yield-agent/src/utils/predictionDataService.ts:95-173 | The sort permutes the mapped scenarios into descending probability; the result holds the five base scenarios, each once with its risk label, each probability in (0, 100]. |
| YieldUtils.ApyAt | defi-yield-agent/src/utils/yieldUtils.ts:6-9 | A day's APY is at least 0.1, and is either 0.1 or the current APY plus the variation. |
| YieldUtils.History | defi-yield-agent/src/utils/yieldUtils.ts:3-13 | The history has 31 points. |
| YieldUtils.GenerateHistoricalData | defi-yield-agent/src/utils/yieldUtils.ts:3-13 | The loop counting i from 30 down to 0 pushes exactly the specified history. |
| YieldUtils.ApyWithinVolatility | defi-yield-agent/src/utils/yieldUtils.ts:6-9 | Each APY lies between current − volatility and max(0.1, current + volatility). |
| YieldUtils.NoVolatilityIsFlat | defi-yield-agent/src/utils/yieldUtils.ts:6-9 | With volatility 0 every point is max(0.1, current APY). |
| YieldUtils.HistoryDaily | defi-yield-agent/src/utils/yieldUtils.ts:5-8 | Points are one day apart, oldest first, the last at the current time. |
| PortfolioChart.XAxisInterval | defi-yield-agent/src/components/PortfolioChart.tsx:71-74 | ⌊points/6⌋ above 50 points, ⌊points/4⌋ above 20, else 0. |
| PortfolioChart.XAxisIntervalFor | defi-yield-agent/src/components/PortfolioChart.tsx:67-75 | The spacing of the selected range's point count; an unknown range, having no points, gives 0. |
| PortfolioChart.ShippedXAxisIntervals | defi-yield-agent/src/components/PortfolioChart.tsx:67-75 | 7d gives 28, 1m 7, 6m 6, and 3m, 1y and any unknown range 0. |
| PortfolioChart.ToFixed0 | defi-yield-agent/src/components/PortfolioChart.tsx:62-64 | The whole number shown is within one half of the value, and not negative for a non-negative value. |
| PortfolioChart.YAxisLabel | defi-yield-agent/src/components/PortfolioChart.tsx:60-65 | Thousands iff the value is at least 1000, shown as the nearest whole number of thousands (at least 1); below that, the nearest whole dollar. |
| PortfolioChart.LabelText | defi-yield-agent/src/components/PortfolioChart.tsx:62-64 | A tick starts with '$' and ends with 'k' iff it is in thousands. |
| PortfolioChart.FormatYAxisValue | defi-yield-agent/src/components/PortfolioChart.tsx:60-65 | A tick starts with '$' and ends with 'k' iff the value is at least 1000. |
| PortfolioChart.YAxisMonotoneWithinUnit | defi-yield-agent/src/components/PortfolioChart.tsx:60-65 | Within one unit a larger value never gets a smaller tick. |
| PortfolioChart.Toggled | defi-yield-agent/src/components/PortfolioChart.tsx:126 | The metric button always switches the metric. |
| PortfolioChart.ToggleTwice | defi-yield-agent/src/components/PortfolioChart.tsx:126 | Two presses restore the metric. |
| PortfolioChart.SelectableRangesHaveData | defi-yield-agent/src/components/PortfolioChart.tsx:137-140 | Every range the selector offers has its configured, positive number of points. |
| PortfolioChart.PortfolioChartState.constructor | defi-yield-agent/src/components/PortfolioChart.tsx:14-15 | Range '6m' and metric 'value'. |
| PortfolioChart.PortfolioChartState.SelectRange | defi-yield-agent/src/components/PortfolioChart.tsx:137-140 | A range button selects its range and keeps the metric. |
| PortfolioChart.PortfolioChartState.ToggleMetric | defi-yield-agent/src/components/PortfolioChart.tsx:126 | The metric switches and the range is kept. |
| Header.Head | defi-yield-agent/src/components/Header.tsx:15 | The first min(6, n) characters. |
| Header.Tail | defi-yield-agent/src/components/Header.tsx:15 | The last min(4, n) characters, the whole string when shorter. |
| Header.FormatAddress | defi-yield-agent/src/components/Header.tsx:14-16 | Head, then "...", then tail. |
| Header.LongAddressFormat | defi-yield-agent/src/components/Header.tsx:14-16 | An address of ten or more characters shows 13: its first six, "...", its last four. |
| Header.EthereumAddressFormat | defi-yield-agent/src/components/Header.tsx:14-16 | A 42-character address shows 13 characters. |
| Header.ShortAddressRepeats | defi-yield-agent/src/components/Header.tsx:15 | An address of four characters or fewer is shown twice around the ellipsis. |
| Header.HeaderState.constructor | defi-yield-agent/src/components/Header.tsx:12 | The mobile menu starts closed. |
| Header.HeaderState.ToggleMobileMenu | defi-yield-agent/src/components/Header.tsx:63 | The menu button flips the menu. |
| Header.HeaderState.Disconnect | defi-yield-agent/src/components/Header.tsx:48 | The desktop button asks the page to disconnect once and leaves the menu as it is. |
| Header.HeaderState.MobileDisconnect | defi-yield-agent/src/components/Header.tsx:96-99 | The mobile button asks to disconnect once and closes the menu. |
| WelcomeModal.NextStep | defi-yield-agent/src/components/onboarding/WelcomeModal.tsx:88-94 | Below the last step, Next advances one step; at the last step it keeps the step and starts the risk assessment. |
| WelcomeModal.PreviousStep | defi-yield-agent/src/components/onboarding/WelcomeModal.tsx:96-98 | Previous goes back one step, never below 0. |
| WelcomeModal.PrimaryLabel | defi-yield-agent/src/components/onboarding/WelcomeModal.tsx:131 | 'Get Started' exactly at the last step. |
| WelcomeModal.StepsStayInRange | defi-yield-agent/src/components/onboarding/WelcomeModal.tsx:88-98 | Both buttons keep the step within 0..2. |
| WelcomeModal.NextThenPrevious | defi-yield-agent/src/components/onboarding/WelcomeModal.tsx:88-98 | Below the last step, Next then Previous returns to the same step. |
| WelcomeModal.ThirdNextStartsAssessment | defi-yield-agent/src/components/onboarding/WelcomeModal.tsx:88-94 | From the start, the third press of Next starts the assessment and the first two do not. |
| WelcomeModal.WelcomeModalState.constructor | defi-yield-agent/src/components/onboarding/WelcomeModal.tsx:15 | The wizard starts at step 0. |
| WelcomeModal.WelcomeModalState.HandleNext | defi-yield-agent/src/components/onboarding/WelcomeModal.tsx:88-94 | The step follows Next; the assessment is requested once exactly when Next starts it. |
| WelcomeModal.WelcomeModalState.HandlePrevious | defi-yield-agent/src/components/onboarding/WelcomeModal.tsx:96-98 | The step follows Previous and nothing is requested. |
| RiskAssessmentForm.ToggleChain | defi-yield-agent/src/components/onboarding/RiskAssessmentForm.tsx:53-59 | A selected chain is removed (every other chain keeps its membership); an unselected one is appended last. |
| RiskAssessmentForm.ToggleTwiceRestoresMembership | defi-yield-agent/src/components/onboarding/RiskAssessmentForm.tsx:53-59 | Toggling a chain twice restores which chains are selected. |
| RiskAssessmentForm.ToggleTwiceRestoresUnselected | defi-yield-agent/src/components/onboarding/RiskAssessmentForm.tsx:53-59 | Toggling an unselected chain twice restores the list exactly. |
| RiskAssessmentForm.ToggleKeepsDistinct | defi-yield-agent/src/components/onboarding/RiskAssessmentForm.tsx:53-59 | The chain list never holds a chain twice. |
| RiskAssessmentForm.GridsWithinRanges | defi-yield-agent/src/components/onboarding/RiskAssessmentForm.tsx:118-143 | The allocation grid lies in 10..100 and the minimum-APY grid in 1..20. |
| RiskAssessmentForm.InitialForm | defi-yield-agent/src/components/onboarding/RiskAssessmentForm.tsx:19-23 | Step 0, moderate, allocation 75, chains ['Ethereum'], minimum APY 5. |
| RiskAssessmentForm.InitialFormValid | defi-yield-agent/src/components/onboarding/RiskAssessmentForm.tsx:19-23 | The initial answers are a valid form: step in range, distinct chains, sliders on their grids. |
| RiskAssessmentForm.NextGuardUnreachable | defi-yield-agent/src/components/onboarding/RiskAssessmentForm.tsx:207-223 | Whenever Next is shown it is enabled: its empty-chain guard only applies at step 2, where Next is not shown. |
| RiskAssessmentForm.Profile | defi-yield-agent/src/components/onboarding/RiskAssessmentForm.tsx:61-69 | The profile copies level, allocation, chains and minimum APY exactly. |
| RiskAssessmentForm.CompletedProfileIsSound | defi-yield-agent/src/components/onboarding/RiskAssessmentForm.tsx:61-69 | A profile completed from a valid form names at least one chain, each once, with both sliders on their grids. |
| RiskAssessmentForm.RiskAssessmentFormState.constructor | defi-yield-agent/src/components/onboarding/RiskAssessmentForm.tsx:19-23 | The form starts with the initial answers. |
| RiskAssessmentForm.RiskAssessmentFormState.SelectLevel | defi-yield-agent/src/components/onboarding/RiskAssessmentForm.tsx:82 | Only the level changes. |
| RiskAssessmentForm.RiskAssessmentFormState.SetMaxAllocation | defi-yield-agent/src/components/onboarding/RiskAssessmentForm.tsx:118-123 | Only the allocation changes. |
| RiskAssessmentForm.RiskAssessmentFormState.SetMinApy | defi-yield-agent/src/components/onboarding/RiskAssessmentForm.tsx:137-143 | Only the minimum APY changes. |
| RiskAssessmentForm.RiskAssessmentFormState.HandleChainToggle | defi-yield-agent/src/components/onboarding/RiskAssessmentForm.tsx:53-59 | Only the chain list changes, by the toggle. |
| RiskAssessmentForm.RiskAssessmentFormState.Next | defi-yield-agent/src/components/onboarding/RiskAssessmentForm.tsx:212-219 | Next advances one step and changes nothing else. |
| RiskAssessmentForm.RiskAssessmentFormState.Previous | defi-yield-agent/src/components/onboarding/RiskAssessmentForm.tsx:207-208 | Previous goes back one step and changes nothing else. |
| RiskAssessmentForm.RiskAssessmentFormState.HandleComplete | defi-yield-agent/src/components/onboarding/RiskAssessmentForm.tsx:220-226 | Complete emits the profile of the current answers. |
| RiskAssessmentForm.ButtonsKeepFormValid | defi-yield-agent/src/components/onboarding/RiskAssessmentForm.tsx:53-59 | Next, Previous, a chain toggle and a level choice all keep the form valid, so the step stays in 0..2. |
| IndexPage.WelcomeEffect | defi-yield-agent/src/pages/Index.tsx:39-44 | The welcome modal opens for a connected user who has not finished onboarding; nothing else changes. |
| IndexPage.Rendered | defi-yield-agent/src/pages/Index.tsx:39-44 | The effect only runs when the connection or the onboarding flag changed since the last render, and only the welcome flag can change. |
| IndexPage.Connected | defi-yield-agent/src/pages/Index.tsx:46-49 | Connected with the address; a new connection opens the welcome modal unless onboarding is complete; the rest is kept. |
| IndexPage.Disconnected | defi-yield-agent/src/pages/Index.tsx:51-54 | Disconnected with an empty address; nothing else changes. |
| IndexPage.AssessmentStarted | defi-yield-agent/src/pages/Index.tsx:56-59 | The welcome modal closes and the assessment opens. |
| IndexPage.OnboardingCompleted | defi-yield-agent/src/pages/Index.tsx:61-65 | The profile is recorded, the assessment closes and the first tooltip is due. |
| IndexPage.TooltipAdvanced | defi-yield-agent/src/pages/Index.tsx:120-126 | From tooltip 1 or 2 on to the next, still shown; after tooltip 3 back to 0, hidden. |
| IndexPage.ViewOf | defi-yield-agent/src/pages/Index.tsx:91-101 | The landing page iff no wallet is connected; otherwise the dashboard of the connected address. |
| IndexPage.NewUserOnboarding | defi-yield-agent/src/pages/Index.tsx:39-65 | A new user connects and sees the welcome modal, starts the assessment, completes it, and is shown the first tooltip on the dashboard with the profile saved. |
| IndexPage.TooltipCycle | defi-yield-agent/src/pages/Index.tsx:117-128 | Three presses walk through tooltips 2 and 3 and then hide them. |
| IndexPage.ReturningUserSkipsWelcome | defi-yield-agent/src/pages/Index.tsx:39-49 | A user who finished onboarding is not shown the welcome modal on connecting. |
| IndexPage.DisconnectShowsLanding | defi-yield-agent/src/pages/Index.tsx:51-54 | Disconnecting returns to the landing page. |
| IndexPage.Page.constructor | defi-yield-agent/src/pages/Index.tsx:12-16 | Disconnected, no address, no modal open, no tooltip, with the stored preferences. |
| IndexPage.Page.RunWelcomeEffect | defi-yield-agent/src/pages/Index.tsx:39-44 | The state after a render, given the previous render's state. |
| IndexPage.Page.HandleConnection | defi-yield-agent/src/pages/Index.tsx:46-49 | The state becomes its connected image. |
| IndexPage.Page.HandleDisconnect | defi-yield-agent/src/pages/Index.tsx:51-54 | The state becomes its disconnected image. |
| IndexPage.Page.HandleStartRiskAssessment | defi-yield-agent/src/pages/Index.tsx:56-59 | The welcome modal gives way to the assessment. |
| IndexPage.Page.HandleCompleteOnboarding | defi-yield-agent/src/pages/Index.tsx:61-65 | The state becomes its onboarding-completed image. |
| IndexPage.Page.CloseWelcome | defi-yield-agent/src/pages/Index.tsx:106 | Only the welcome modal closes. |
| IndexPage.Page.CloseRiskAssessment | defi-yield-agent/src/pages/Index.tsx:112 | Only the assessment closes. |
| IndexPage.Page.NextTooltip | defi-yield-agent/src/pages/Index.tsx:120-126 | The tooltip step advances or resets. |

## Left out

- JSX, Tailwind classes, icons and chart configuration are not modelled. Purely presentational components are out as well: the landing page, comparison and insight panels, sidebars, cards and skeletons. They hold constant tables and colour switches only.
- Wallet provider calls (`window.ethereum.request`) are foreign I/O. Only the state changes their answers cause are modelled.
- `localStorage` and JSON persistence of notifications and preferences are I/O. Only the in-memory operations are modelled.
- Timers, promises and animation are not modelled as time. This covers simulated latencies, delayed mock notifications, the chart refresh interval, and the animated counter and tooltip geometry. The two awaited handlers, the position dialog's submit and the agent settings' save, run the wait as a single step: the busy flag is raised and lowered within one call, so its raised state is never observable. Only the market monitor's clear-filters step leaves its loading flag raised, because its reset is a separate timeout.
- `Math.random`, `Date.now` and `Math.sin` are parameters: random draws in [0, 1), an integer clock in milliseconds, and a sine function. Fresh notification ids are also parameters.
- Locale and number formatting (`toLocaleDateString`, `toLocaleString`, the text of `toFixed`) is not modelled. Where a rounded number is shown, the rounded value is modelled, not its text.
- JavaScript `Date` parsing and calendar arithmetic are not modelled. Dates are integer timestamps or day keys, and a monthly point is identified by its month offset.
- Time zones: the daily volume chart keys days in UTC, as `toISOString` does. The timeline keys them by local day, using the browser's UTC offset as a parameter. That offset is fixed over the whole list, so a daylight-saving change between two transactions is not modelled.
- Case mapping (`toLowerCase`, `toUpperCase`) maps the ASCII letters only, while JavaScript maps all of Unicode. This affects the case-insensitive searches, the "experimental" test in the risk factors and `Capitalize`. For example, JavaScript upper-cases 'ß' to "SS", which changes the length.
- `parseFloat` of filter text is modelled as an optional number (`Option<real>`, absent for an empty box). The NaN behaviour of malformed text is not modelled.
- Numbers are mathematical reals, not IEEE doubles, so rounding error, NaN and Infinity are absent. A division by zero that would give NaN or Infinity returns `None` instead, and a `reduce` without an initial value on an empty list, which throws, does too. So the risk panel's zero total is always a missing summary, even where JavaScript would divide a non-zero label sum by zero and get an infinite share.
- `localeCompare` is modelled as lexicographic order on character codes. The locale's collation is not modelled.
- Sorting: the model is proved to return a sorted permutation, but stability is not stated.
- Clipboard writes and `window.open` in the transaction views are not modelled.
- The portfolio totals repeated in the "my yields" section are modelled once, as `PortfolioIntegration`'s metrics.
- RiskAssessmentDashboard.ScoreBetweenWeights: the [0.2, 0.8] bound is proved for non-negative position values only, because a negative value can push the score outside.
- PortfolioDataService.ValuesPositive: positivity is proved for a sine function bounded by [-1, 1], since `Math.sin` is a parameter.
- YieldUtils.ApyWithinVolatility: the bound is proved for a non-negative volatility, the only kind the market table holds.
- GasCostAnalyzer.BreakEvenDays: the least-days characterisation is stated for a positive APY only. A negative APY gives a meaningless count in the source and only its definition is modelled.
- Transactions.ApplyFilters: its own contract is only a length bound. The membership and order properties are the lemmas `ApplyFiltersKeptIff` and `ApplyFiltersSubsequence`.
- PortfolioChart.Toggled: states only that the metric changes, which is all the two-valued toggle promises.

## Findings

| source | as written | input that shows it | evidently intended | confidence | as-written member | corrected member |
|---|---|---|---|---|---|---|
| defi-yield-agent/src/components/portfolio/RiskAssessmentDashboard.tsx:20-32 | The percentages divide by the total value, so a zero total makes them and the score not-a-number. The score then fails both `<=` tests and the panel shows "Aggressive". (With mixed-sign values and a label outside Low, Medium and High, a zero total can instead give infinite shares and another level; the model treats every zero total as not-a-number.) | An empty positions list (or only zero-valued positions) | No risk level is shown for a portfolio with no value | not executed | RiskAssessmentDashboard.EmptyPortfolioShownAggressive | RiskAssessmentDashboard.ShownLevel |
