# Trading-agent dashboard: valuation, token selection and busy flags

This project is a Dafny model of the small amount of logic inside a React
dashboard for autonomous trading agents. The rest of the dashboard is
presentation. The model covers three components:

- **Agent card** (`agent_card.dfy`, module `AgentCard`). It derives profit and
  loss from an agent's `equity` and `totalBalance`, reading a missing value
  as 0. It derives a percentage from `performance`, picks a colour (gray,
  green or red) and builds the text. It also models the start/pause button:
  its busy flag, its label, and the messages that the awaited callback ends
  with.
- **Wallet panel** (`wallet.dfy`, module `Wallet`). It derives profit and loss
  from a balance snapshot, where a zero balance, a zero equity or a missing
  snapshot makes P&L absent. It builds the `+$…`/`-$…` text and the colour,
  and the balance header. It joins the snapshot's holdings with the token
  metadata by case-insensitive symbol and drops the unmatched ones. It models
  the faucet, whose single busy flag every token card receives.
- **Settings form** (`settings.dfy`, module `Settings`). It projects the
  chain's token catalog on the selected addresses and looks each selected key
  up again for display. It models the catalog fetch with its loading flag,
  and the free-text fields, which are stored verbatim.

`common.dfy` (module `Common`) holds `Option`, the `Outcome` of an awaited
call, the catalog entry `TokenAvailable`, the colour `Tone`, and a
subsequence predicate.

Numbers are exact `real`s. The formatters (`toLocaleString` with two
fraction digits, `formatUSD`, `formatPercent`) are function parameters
`real -> string` and are left uninterpreted. Each asynchronous handler is cut
at its `await` into two methods. The first runs up to the await and raises
the flag. The second takes the call's outcome (resolved or rejected) as a
parameter, runs the rest including `finally`, and lowers the flag. The
component state that these handlers change lives in a class:
`Settings.SettingsForm`, `Wallet.WalletView` and `AgentCard.AgentCardView`.

The model follows the code. In four places the code does less than one
might expect:

- The card's percentage depends on `performance` alone, even when equity is
  0. It is not shown then, because the text is `"-"`.
- The settings form stores every free-text field as the raw input text. It converts no
  interval to seconds (that conversion is commented out at
  `src/components/manage/settings.tsx:44-58`), rejects no non-positive
  interval and has no separate "no stop-loss" state.
- The start/pause toggle does not update the agent it shows. The card only
  reads `agent.isRunning`, and `agent` is a constant of the card's model.
- `handleFaucet` does not refuse a second call while one is pending. It
  only passes its flag to every card. So in the model several faucet calls
  can be in flight, and any of them settling lowers the shared flag, as the
  `finally` does.

## Model

| member | source | states |
|---|---|---|
| `AgentCard.Pnl` | src/components/agent/AgentCard.tsx:47-51 | missing equity/balance read as 0; with non-zero equity the P&L plus the equity is the balance; P&L is 0 iff equity is 0 or balance equals equity, positive iff equity non-zero and balance above it, negative iff below |
| `AgentCard.PnlPercent` | src/components/agent/AgentCard.tsx:53-56 | the percent is always 100 × performance (missing read as 0), so it is 0 exactly when performance is missing or 0 |
| `AgentCard.PnlTone` | src/components/agent/AgentCard.tsx:58-61 | exactly one colour: gray iff P&L is 0, green iff positive, red iff negative |
| `AgentCard.PnlText` | src/components/agent/AgentCard.tsx:63-67 | the text is `"-"` iff P&L is 0; a profit is exactly `+`, the formatted amount, ` (+`, the formatted percent and `)`; a loss is exactly the formatted amount itself (no sign added), ` (`, the formatted percent and `)` |
| `AgentCard.CardPnlSummary` | src/components/agent/AgentCard.tsx:47-67 | on an agent, the `"-"` text goes with the gray colour, and both happen iff the agent has no equity or a balance equal to it |
| `AgentCard.CardColorClass` | src/components/agent/AgentCard.tsx:58-61 | the card's class is `text-gray-500` iff P&L is 0, `text-green-600` iff positive, `text-red-500` iff negative |
| `AgentCard.BalanceText` | src/components/agent/AgentCard.tsx:99-103 | the formatted total balance with ` USD` when it is present and non-zero; the line is `$0.00` iff the total balance is missing or 0, whatever the formatter returns |
| `AgentCard.ButtonLabel` | src/components/agent/AgentCard.tsx:124 | the label is `Pause` iff the agent is running and `Start` iff it is stopped |
| `AgentCard.PendingMessage` | src/components/agent/AgentCard.tsx:35 | the pending message ends in `...`; it is `Pausing...` iff the agent is running and `Starting...` iff it is stopped |
| `AgentCard.DecimalText` | src/components/agent/AgentCard.tsx:36 | the id inside the success message is a non-empty string of decimal digits, with no leading zero, whose value is the id, so it is exactly the id's decimal numeral |
| `AgentCard.PendingMessageMatchesLabel` | src/components/agent/AgentCard.tsx:113-124 | the label is `Pause` iff the agent is running, and the pending message (`Pausing...`/`Starting...`, line 35) names the same action as the label |
| `AgentCard.ToggleMessage` | src/components/agent/AgentCard.tsx:29-39 | a resolved toggle yields `Agent <id> is <status>!` with the returned status embedded verbatim; a rejected one yields `Toggle start/pause failed!` |
| `AgentCard.AgentCardView.constructor` | src/components/agent/AgentCard.tsx:16-21 | the card starts not busy, holding the agent it was given |
| `AgentCard.AgentCardView.Press` | src/components/agent/AgentCard.tsx:23-35 | a press while busy does nothing (the button is disabled, line 113); otherwise the flag goes up, the callback is called with the agent's `id` and `isRunning`, and the pending message for that `isRunning` is shown; afterwards the card is busy and `ButtonDisabled` holds |
| `AgentCard.AgentCardView.Settle` | src/components/agent/AgentCard.tsx:36-44 | on resolve or reject the flag comes down, so `ButtonDisabled` no longer holds, and the message is `ToggleMessage`; a rejection is caught, not rethrown |
| `Wallet.PnlValue` | src/components/manage/Wallet.tsx:39-48 | P&L is absent iff there is no snapshot, or the balance is 0, or the equity is 0; otherwise P&L plus equity equals the balance exactly |
| `Wallet.PnlText` | src/components/manage/Wallet.tsx:50-76 | text is present iff there is a snapshot with non-zero balance, non-zero equity and balance ≠ equity; a profit reads `+$fmt(balance−equity) (+fmt(performance·100)%)`, a loss `-$fmt(equity−balance) (fmt(performance·100)%)` |
| `Wallet.PnlTone` | src/components/manage/Wallet.tsx:78-83 | never gray; green iff P&L is shown and the balance exceeds the equity, red iff it is shown and the balance is below the equity |
| `Wallet.TextAndToneTogether` | src/components/manage/Wallet.tsx:50-83 | text and colour are present together; a shown text always starts with `+$` or `-$` (so the `pnlValue === 0` branch never yields it), and `+$` iff the colour is green |
| `Wallet.WalletColorClass` | src/components/manage/Wallet.tsx:78-83 | a shown colour class is never `text-gray-500`; it is `text-green-600` iff the balance exceeds the equity and `text-red-500` iff it is below |
| `Wallet.BalanceHeader` | src/components/manage/Wallet.tsx:152-154 | `formatUSD(balance)` when the snapshot's balance is non-zero, `$0.00` when it is 0 or the snapshot is missing |
| `Wallet.ZeroHeaderHasNoPnl` | src/components/manage/Wallet.tsx:152-156 | when the balance is 0 or the snapshot is missing, the header is `$0.00` and there is neither P&L text nor colour |
| `Wallet.ZeroHeaderWithPnl` | src/components/manage/Wallet.tsx:152-156 | a `$0.00` header shown with a P&L line means a non-zero balance that `formatUSD` itself renders as `$0.00` |
| `Wallet.FindInfo` | src/components/manage/Wallet.tsx:120-122 | the result is absent iff no metadata symbol matches case-insensitively; otherwise it is the first entry that matches |
| `Wallet.FindInfoIgnoresCase` | src/components/manage/Wallet.tsx:121 | two symbols that agree up to case find the same metadata |
| `Wallet.CardsBefore` | src/components/manage/Wallet.tsx:118-137 | the cards of the first n holdings are at most n, each for one of those holdings, all for the given agent and with the given faucet flag |
| `Wallet.KeptIndices` | src/components/manage/Wallet.tsx:118-125 | the holdings that get a card are exactly those with matching metadata, listed in strictly increasing index order |
| `Wallet.CardsFollowKeptIndices` | src/components/manage/Wallet.tsx:118-137 | card k is the card built for the k-th kept holding index |
| `Wallet.TokenList` | src/components/manage/Wallet.tsx:85-137 | the placeholder shows iff the snapshot is missing or has no holdings; otherwise there is one card per kept index, in that order |
| `Wallet.TokenListJoin` | src/components/manage/Wallet.tsx:118-137 | each card pairs `tokens[i]` with `tokenValues[i]` and the first case-insensitive metadata match; holdings without a match get no card; order follows `tokens`; there are at most as many cards as holdings; every card gets the same faucet flag |
| `Wallet.WalletView.List` | src/components/manage/Wallet.tsx:85-137 | the panel's list shows the placeholder iff the snapshot is missing or empty, and every card carries the panel's current faucet flag (line 134) |
| `Wallet.WalletView.constructor` | src/components/manage/Wallet.tsx:18 | the faucet flag starts down, with nothing in flight and no refetch yet |
| `Wallet.WalletView.HandleFaucet` | src/components/manage/Wallet.tsx:94-99 | the flag goes up before the call, the call for this agent and token is issued, and nothing is refetched yet |
| `Wallet.WalletView.SettleFaucet` | src/components/manage/Wallet.tsx:98-110 | the call leaves the in-flight list; exactly one refetch is requested on success and none on failure; the flag is down either way; a success names the token's symbol |
| `Wallet.ProfitScenario` | src/components/manage/Wallet.tsx:39-68 | balance 1000, equity 800, performance 0.25 gives P&L 200, text `+$fmt(200) (+fmt(25)%)`, colour green |
| `Wallet.LossScenario` | src/components/manage/Wallet.tsx:39-83 | balance 500, equity 600, performance −0.1667 gives P&L −100, text `-$fmt(100) (fmt(−16.67)%)`, colour red |
| `Wallet.UnmatchedHoldingScenario` | src/components/manage/Wallet.tsx:118-125 | holdings `eth`, `XYZ` with metadata for `ETH` only give one card, for `eth`, with its own USD value |
| `Settings.ChooseTokens` | src/components/manage/settings.tsx:72-78 | the selection handler chooses at most one token per catalog entry, and only tokens whose address is among the selected keys |
| `Settings.ChosenIndices` | src/components/manage/settings.tsx:73-74 | the catalog indices the filter keeps are exactly those whose address is selected, each once, in increasing order |
| `Settings.ChooseTokensAppend` | src/components/manage/settings.tsx:73-78 | filtering and projecting two catalogs one after the other gives the concatenation of the results |
| `Settings.ChooseTokensFollowChosenIndices` | src/components/manage/settings.tsx:72-78 | chosen token k is the projection of the k-th catalog entry whose address is selected, so each such entry is chosen once per occurrence, in catalog order, and no other is |
| `Settings.ChooseTokensMembership` | src/components/manage/settings.tsx:72-78 | a token is chosen iff it is `{tokenSymbol: symbol, tokenAddress: address}` of a catalog entry whose address is among the selected keys |
| `Settings.ChooseTokensInCatalogOrder` | src/components/manage/settings.tsx:73-74 | the chosen tokens are a subsequence of the projected catalog (catalog order), so there are at most as many as catalog entries |
| `Settings.EmptySelectionChoosesNothing` | src/components/manage/settings.tsx:72-74 | an empty selection chooses the empty list |
| `Settings.RestrictKeys` | src/components/manage/settings.tsx:72-74 | intersecting the keys with any superset of the catalog's addresses chooses the same tokens |
| `Settings.UnmatchedKeysContributeNothing` | src/components/manage/settings.tsx:72-74 | selected keys that match no catalog address change nothing |
| `Settings.SelectedKeysAreChosenAddresses` | src/components/manage/settings.tsx:72-102 | the `selectedKeys` shown afterwards are exactly the selected keys that the catalog holds: each is both in the catalog and in the user's keys |
| `Settings.SelectedKeys` | src/components/manage/settings.tsx:102 | one key per chosen token, in order, each the chosen token's address |
| `Settings.SelectionRoundTrip` | src/components/manage/settings.tsx:71-102 | selecting the shown keys again chooses the same tokens |
| `Settings.FindByAddress` | src/components/manage/settings.tsx:85-87 | the lookup is absent iff no catalog entry has exactly that address; otherwise it is the first entry that does |
| `Settings.RenderValue` | src/components/manage/settings.tsx:81-101 | one lookup per selected item, in item order |
| `Settings.RenderValueShowsChosenTokens` | src/components/manage/settings.tsx:84-102 | with unique catalog addresses, every shown key finds the very entry its chosen token came from |
| `Settings.SettingsForm.constructor` | src/components/manage/settings.tsx:9-41 | no tokens chosen, an empty catalog, not loading, empty strategy/take-profit/stop-loss, interval `"1"` with unit `"hour"`, end date = the current instant |
| `Settings.SettingsForm.StartFetch` | src/components/manage/settings.tsx:14-16 | without a chain id (missing or empty) nothing changes; otherwise only the loading flag goes up |
| `Settings.SettingsForm.SettleFetch` | src/components/manage/settings.tsx:17-26 | a response replaces the catalog, a failure keeps the previous one, and the flag comes down either way; nothing else changes |
| `Settings.SettingsForm.SelectionChange` | src/components/manage/settings.tsx:71-80 | only the chosen tokens change, to the projection of the current catalog; the shown keys become the selected keys that the catalog holds |
| `Settings.SettingsForm.SetStrategy` | src/components/manage/settings.tsx:124-126 | the strategy becomes the input text verbatim; nothing else changes |
| `Settings.SettingsForm.SetTakeProfit` | src/components/manage/settings.tsx:134-136 | the take-profit becomes the input text verbatim, unparsed; nothing else changes |
| `Settings.SettingsForm.SetStopLoss` | src/components/manage/settings.tsx:147-149 | the stop-loss becomes the input text verbatim, unparsed; nothing else changes |
| `Settings.SettingsForm.SetInterval` | src/components/manage/settings.tsx:161-163 | the interval value changes and the unit is kept |
| `Settings.SettingsForm.SetIntervalUnit` | src/components/manage/settings.tsx:168-173 | the unit changes and the interval value is kept |
| `Settings.SettingsForm.SetEndDate` | src/components/manage/settings.tsx:194-195 | the end date becomes the picker's value, possibly none; nothing else changes |

## Left out

- Network collaborators (`tokenApi`, `walletApi`, `agentApi`), react-query caching, `toast` and `navigate` are not modelled as code. A call is an `Outcome` parameter, and a toast is the message string a method returns.
- Number formatting (`toLocaleString`, `formatUSD`, `formatPercent`) is an uninterpreted function parameter. JavaScript floating point, `NaN` and rounding are not modelled: numbers are exact reals.
- Symbols are lower-cased on ASCII `A`–`Z` only. Unicode case mapping of `toLowerCase` is not modelled.
- The multi-select's keys are modelled as a set of addresses. The library's special "all" selection value is not modelled.
- Wallet.WalletView.SettleFaucet: the failure message is not modelled. It reads `error.response.data.message` from a freshly thrown `Error` (src/components/manage/Wallet.tsx:103, 111), a foreign payload.
- The chart data conversion with `Number(item.balance)` (src/components/manage/Wallet.tsx:160-167) is a foreign string-to-number parse.
- The spinners shown while the balance query loads (src/components/manage/Wallet.tsx:144-147, 193-197), the chain icon, the creation date and other layout are presentation.
- Interval-to-seconds conversion is commented out in the source, so it is not modelled. The source has no settings validation, and the save handler only logs a message (src/pages/ManagePage.tsx:32-34), so no save is modelled.
- The end date is an instant given as an integer. Time zones of the date picker are not modelled.
- Concurrency: out-of-order resolution and unmounting are not modelled. `SettleFetch` and `AgentCardView.Settle` require their flag to be up, which assumes one pending fetch per form and one pending toggle per card. For the toggle, the disabled button ensures that.
- The token card component that receives the faucet flag is not part of this model. Whether it disables its trigger is not modelled.
- src/interfaces/agent.d.ts, src/navigation/routes.tsx and src/components/Root.tsx are type declarations, a route table and provider wiring. Only the field shapes are used. The card's `equity`, `totalBalance` and `performance` are optional fields of `AgentCard.Agent`, although `IAgent` does not declare them.
