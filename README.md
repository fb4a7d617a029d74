# Prima invoice lifecycle, modelled in Dafny

Prima is an invoice-financing dapp. A creditor tokenises an invoice on the
ledger. The debtor accepts it by putting up collateral, an investor finances
it, and the debtor later pays. This project models the frontend layer that
drives that lifecycle. It covers:

- the shared record types;
- the card that decides whether the connected account may Accept or Invest an
  invoice, and what those buttons submit;
- the three list pages that hydrate token ids into invoice records (the
  creditor's claims, the debtor's upcoming payments, the investor's
  marketplace);
- the new-claim form, with its validation and `generateInvoice` parameters;
- the collateral page's approve-then-deposit pair.

Ledger reads are function parameters. `getInvoice: TokenId -> Call<Invoice>`
either returns a record or throws. The id lists and the status-changed event
log are given as `Option` values: `None` stands for a query with no data yet.
Ledger writes go through a `Wallet` object. It keeps the ordered log of
submitted requests and one receipt per hash, and only the ledger settles a
receipt. The pages' list fetches are methods with the page's `for` loop. Each
is proved equal to a specification function in `Registry` (`Hydrate`,
`Marketplace`), and lemmas state what the source promises about that
function.

Modules, one per source file plus three shared ones:

- `Types` models `frontend/lib/types.ts`.
- `Amounts` holds the 10^18 scaling.
- `Transactions` holds the wallet and the receipt states.
- `Registry` holds the list semantics shared by the pages.
- `InvoiceCard`, `ClaimsPage`, `UpcomingPaymentsPage`, `InvestPage`, `NewClaim`
  and `CollateralPage` each model one page or component.

Four behaviours of the code are worth stating outright:

- The code never checks `amountToPay` against the `computeAmounts` bounds
  before submission (`NewClaim.AmountToPayUnbounded`).
- The card has no Pay action.
- A list fetch has no generation counter, so the last fetch to finish wins.
- The approve is not awaited: the dependent write is submitted right after
  it.

## Model

| member | source | states |
|---|---|---|
| Types.ScoreCode | frontend/lib/types.ts:1-8 | every credit tier has a code in 0..5 |
| Types.ScoreOfCode | frontend/lib/types.ts:1-8 | a number names a tier exactly when it lies in 0..5, and that tier's code is the number |
| Types.ScoreLetter | frontend/app/components/InvoiceCard.tsx:112 | a tier is shown as a letter A..F whose offset from 'A' is its code |
| Types.ScoreCodeBijective | frontend/lib/types.ts:1-8 | codes and tiers correspond one to one, and so do letters and tiers |
| Types.StatusCode | frontend/lib/types.ts:15-21 | every status has a code in 0..4 |
| Types.StatusOfCode | frontend/lib/types.ts:15-21 | a number names a status exactly when it lies in 0..4, and that status's code is the number |
| Types.StatusLabel | frontend/lib/types.ts:15-21 | a status is shown with the French label at its code's position in (Nouvelle, Acceptée, En cours, Payée, En retard) |
| Types.StatusCodeBijective | frontend/lib/types.ts:15-21 | code 0 is exactly New and code 1 exactly Accepted; codes and labels identify statuses uniquely |
| Amounts.ParseEther | frontend/app/claims/new/page.tsx:125-126 | the wei amount is a multiple of 10^18 whose quotient is the token amount; it is non-negative exactly when the input is, and at least 10^18 for an input of at least 1 |
| Amounts.FormatEther | frontend/app/claims/new/page.tsx:319 | whole tokens times 10^18 plus a remainder below 10^18 gives back the wei amount |
| Amounts.FormatParseRoundTrip | frontend/app/claims/new/page.tsx:319-326 | displaying a scaled whole amount shows that amount with no fraction |
| Amounts.ParseEtherInjective | frontend/app/collateral/page.tsx:44 | two different entries never scale to the same wei amount |
| Transactions.Target | frontend/app/components/InvoiceCard.tsx:69-83 | approve goes to the token contract; every other write goes to Prima |
| Transactions.Watch | frontend/app/components/InvoiceCard.tsx:32-52 | a receipt hook is idle exactly when it has no hash; with a hash it reports success or error exactly when that receipt succeeded or failed |
| Transactions.Wallet.constructor | frontend/app/components/InvoiceCard.tsx:29-31 | a fresh wallet has submitted nothing |
| Transactions.Wallet.Submit | frontend/app/components/InvoiceCard.tsx:55-61 | without an account nothing is sent and there is no hash; otherwise the request is appended, its hash is its position, and its receipt is pending |
| Transactions.Wallet.Settle | frontend/app/components/InvoiceCard.tsx:32-38 | the ledger turns one pending receipt final and changes nothing else |
| Transactions.WatchSettles | frontend/app/components/InvoiceCard.tsx:32-52 | as receipts settle, a hook never returns to idle and a success or error report never changes |
| InvoiceCard.ActionsOffered | frontend/app/components/InvoiceCard.tsx:169-192 | Accept is offered exactly to the debtor of a New invoice; Invest is offered exactly to a non-party on an Accepted invoice |
| InvoiceCard.OffersAtMostOneAction | frontend/app/components/InvoiceCard.tsx:169-211 | nothing is offered for InProgress, Paid or Overdue, and never both actions |
| InvoiceCard.OwnInvoiceOffers | frontend/app/components/InvoiceCard.tsx:169-191 | a creditor who is not the debtor is offered nothing on their own invoice; the debtor of a New invoice is offered only Accept |
| InvoiceCard.DisconnectedSeesInvest | frontend/app/components/InvoiceCard.tsx:190-192 | with no account connected, every Accepted invoice offers Invest |
| InvoiceCard.InvestedAloneNeverRefetches | frontend/app/components/InvoiceCard.tsx:86-90 | once the effect has run with isAccepted false, a confirmed investment alone never calls refetch; a confirmed acceptance does, exactly when a callback was given |
| InvoiceCard.InvestWrites | frontend/app/components/InvoiceCard.tsx:64-84 | two writes in order: an approve to the token of exactly amountToPay for Prima, then investInvoice on Prima for the card's token and the given investor |
| InvoiceCard.Card.constructor | frontend/app/components/InvoiceCard.tsx:27-31 | the collateral starts at 0 and no write has a hash |
| InvoiceCard.Card.SetCollateral | frontend/app/components/InvoiceCard.tsx:27 | the collateral is the last value entered |
| InvoiceCard.Card.OnAcceptInvoice | frontend/app/components/InvoiceCard.tsx:54-62 | submits exactly acceptInvoice(tokenId, collateral), with the collateral unscaled, and keeps its hash |
| InvoiceCard.Card.OnInvestInvoice | frontend/app/components/InvoiceCard.tsx:64-84 | appends the approve and then the investment, both pending (the investment does not wait for the approve); the investor is the actor, with a score in 0..4, and is neither debtor nor creditor |
| InvoiceCard.Card.RunRefetchEffect | frontend/app/components/InvoiceCard.tsx:86-90 | the effect re-runs only when isAccepted changed, and then calls refetch once if the accept or the invest receipt succeeded and a callback exists |
| Registry.Stamp | frontend/app/payments/upcoming/page.tsx:46 | the stamped record carries the id it was fetched with |
| Registry.Hydrate | frontend/app/payments/upcoming/page.tsx:35-53 | the fetch fails exactly when one lookup throws; otherwise one record per id, in id order, each that id's record (stamped when the page stamps) |
| Registry.AcceptedEvents | frontend/app/invest/page.tsx:25-35 | an event is kept exactly when it is in the log with newStatus 1; each kept event occurs as often as in the log; the kept events keep their log order |
| Registry.EventIds | frontend/app/invest/page.tsx:38-39 | one token id per event, in event order |
| Registry.MarketplaceThrows | frontend/app/invest/page.tsx:37-52 | the marketplace fetch fails exactly when the lookup for some accepted event's token throws |
| Registry.MarketplaceSound | frontend/app/invest/page.tsx:38-49 | every listed invoice is Accepted, is not the actor's as debtor or creditor, and is the record of an accepted event stamped with that event's token id |
| Registry.MarketplaceComplete | frontend/app/invest/page.tsx:38-49 | every accepted event's record that passes the filter is listed |
| Registry.MarketplaceMultiplicity | frontend/app/invest/page.tsx:38-51 | a listable record occurs in the list exactly as often as among the hydrated events; any other record does not occur |
| Registry.MarketplaceRepeats | frontend/app/invest/page.tsx:38-51 | no de-duplication: an acceptance event that occurs twice in the log lists its record at least twice when it is listable |
| Registry.MarketplaceOrdered | frontend/app/invest/page.tsx:38-51 | the list is an order-preserving subsequence of the hydrated events, no longer than the accepted events, which are no more than the log |
| Registry.ListableOffersInvest | frontend/app/invest/page.tsx:48 | the marketplace filter is exactly the card's Invest guard, so every listed card offers only Invest |
| Registry.CardsFor | frontend/app/invest/page.tsx:66-68 | one card per displayed invoice, in order, all with the page's callback |
| ClaimsPage.Claims.constructor | frontend/app/claims/page.tsx:36-55 | the page starts with an empty list |
| ClaimsPage.Claims.FetchInvoices | frontend/app/claims/page.tsx:36-55 | no id list means no change; a throwing lookup leaves the previous list; otherwise the list becomes the unstamped hydration of the creditor ids |
| ClaimsPage.Claims.Cards | frontend/app/claims/page.tsx:64-67 | one card per invoice, none with a refetch callback |
| ClaimsPage.ClaimsRecordsUnstamped | frontend/app/claims/page.tsx:39-50 | after a successful fetch, one record per creditor id in id order, exactly as the ledger returned it, with no token id |
| UpcomingPaymentsPage.UpcomingPayments.constructor | frontend/app/payments/upcoming/page.tsx:34-54 | the page starts with an empty list |
| UpcomingPaymentsPage.UpcomingPayments.FetchInvoices | frontend/app/payments/upcoming/page.tsx:34-54 | no id list means no change; a throwing lookup leaves the previous list; otherwise the list becomes the stamped hydration of the debtor ids |
| UpcomingPaymentsPage.UpcomingPayments.Cards | frontend/app/payments/upcoming/page.tsx:68-71 | every card calls back this page's own fetch |
| UpcomingPaymentsPage.UpcomingOnePerId | frontend/app/payments/upcoming/page.tsx:37-49 | after a successful fetch, exactly one record per debtor id in id order, which is that id's ledger record with its token id set to the id |
| InvestPage.Invest.constructor | frontend/app/invest/page.tsx:22-54 | the page starts with an empty list |
| InvestPage.Invest.FetchInvoices | frontend/app/invest/page.tsx:22-54 | no event log means no change; a throwing lookup leaves the previous list; otherwise the list becomes the marketplace of the log for the actor |
| InvestPage.Invest.OnAccountChange | frontend/app/invest/page.tsx:56-60 | with no connected account nothing is fetched; with one, the fetch above runs |
| InvestPage.Invest.Cards | frontend/app/invest/page.tsx:66-68 | every card calls back this page's own fetch |
| InvestPage.AcceptedTwiceListedTwice | frontend/app/invest/page.tsx:38-51 | an example of the above: the log (7 accepted, 7 reset, 7 accepted), with a listable record, lists that record exactly twice |
| InvestPage.MarketplaceCardsOfferInvest | frontend/app/invest/page.tsx:66-68 | every card the marketplace shows offers the viewer Invest and nothing else |
| NewClaim.ValidFormMeans | frontend/app/claims/new/page.tsx:40-63 | a form passes the schema exactly when id has 4 or more characters, activity 10, country 2, debtorName 32, the due date is no earlier than when the schema was built, both amounts are present and at least 1, and debtorScore is in 0..5 |
| NewClaim.AmountToPayUnbounded | frontend/app/claims/new/page.tsx:56-58 | validity puts no upper bound on amountToPay: any value of at least 1 keeps a valid form valid |
| NewClaim.ParamsOf | frontend/app/claims/new/page.tsx:115-127 | both amounts are the form values scaled by 10^18; the debtor has the form's name and the page debtor's score; the creditor is the page's |
| NewClaim.SubmittedParamsBounds | frontend/app/claims/new/page.tsx:115-127 | a valid form yields amounts of at least 10^18 wei, a debtor name of 32 or more characters, and a due date no earlier than the schema's bound |
| NewClaim.ScoreFieldIgnored | frontend/app/claims/new/page.tsx:116-119 | the form's debtorScore field has no effect on the submitted parameters |
| NewClaim.BoundsHint | frontend/app/claims/new/page.tsx:319 | the shown bounds are 0 until the query resolves, then the formatted (min, max) |
| NewClaim.Page.constructor | frontend/app/claims/new/page.tsx:67-75 | the principal starts at 1000 tokens in wei; the debtor is the placeholder address; the creditor is the connected address; both scores are in 0..4 |
| NewClaim.Page.OnAddressChange | frontend/app/claims/new/page.tsx:86-91 | a new account replaces the creditor, with a new score in 0..4 |
| NewClaim.Page.VerifyAmount | frontend/app/claims/new/page.tsx:322-327 | the principal becomes the form amount, or 1000 when it is empty, scaled by 10^18 |
| NewClaim.Page.BoundsQuery | frontend/app/claims/new/page.tsx:107-113 | computeAmounts is asked about the current principal and the page debtor's score, in 0..4 |
| NewClaim.Page.HandleSubmit | frontend/app/claims/new/page.tsx:115-141 | an invalid form submits nothing; a valid one submits generateInvoice once, with the same debtor score as the bounds query |
| CollateralPage.CollateralWrites | frontend/app/collateral/page.tsx:43-59 | two writes in order: approve to the token for Prima, then addCollateral on Prima, of the same wei amount, which is the entry times 10^18 |
| CollateralPage.Collateral.constructor | frontend/app/collateral/page.tsx:23-41 | the amount starts at 0 and neither write has a hash |
| CollateralPage.Collateral.SetAmount | frontend/app/collateral/page.tsx:70 | the amount is the last value entered |
| CollateralPage.Collateral.OnSubmit | frontend/app/collateral/page.tsx:43-59 | appends the approve and then the deposit, both pending (the deposit does not wait for the approve), and keeps both hashes |
| CollateralPage.Collateral.Shown | frontend/app/collateral/page.tsx:35-41 | the status line is idle exactly without a deposit hash, and confirmed exactly when the deposit's receipt succeeded |
| CollateralPage.ApprovalNeverObserved | frontend/app/collateral/page.tsx:30-41 | whatever happens to the approval's receipt, the page shows the same status |

## Left out

- Network, wallet connection, RPC proxying and React/wagmi scheduling are not
  modelled. The hooks' data enter as parameters, and a receipt hook is
  modelled by `Transactions.Watch` over the ledger's receipts.
- The ledger is taken to be unchanged while one fetch runs. A fetch that
  overlaps another is not modelled: with no generation counter in the code,
  the last one to finish wins.
- A missing `publicClient` (its optional chaining) is not modelled. On the
  claims page each lookup would yield `undefined`, and that is pushed into the
  list. On the upcoming-payments page, stamping `undefined` throws. The catch
  swallows the error and the displayed list is kept; an empty id list gives
  `[]` instead. On the invest page the fetch is skipped, which `log == None`
  covers.
- Reading a fetched record's `tokenId` as `Number(bigint)` is modelled as
  exact. Ids above 2^53 lose precision in the source.
- Form amounts and typed amounts are whole numbers. Fractional JS numbers, and
  `toString` forms that `parseEther` would reject (exponent notation), are not
  modelled.
- A signature the user declines, and a write that throws (the catch that logs
  it), are not modelled; `Wallet.Submit` always hands the request over.
- `Math.random` credit scores are parameters with the range 0..4.
- `NewClaim.Page.constructor`: it models a connected account only. With no
  account the source creates a creditor whose name is `undefined`.
- `NewClaim.Page.OnAddressChange`: it also models a connected account only.
  The effect runs when the account disconnects as well, and then sets a
  creditor whose name is `undefined`.
- `NewClaim.ValidFormMeans`: it counts string length in characters, while the
  schema counts UTF-16 code units. Strings outside the Basic Multilingual
  Plane can differ.
- `NewClaim.ValidFormMeans`: the date bound is a parameter for the instant the
  schema was built, since the clock is read once when the module loads.
- Display-only details are not modelled: address truncation, colours,
  `toLocaleDateString`, and the error components.
- The ledger's own rules are not part of this model: the bounds formula, which
  status transitions are legal, and collateral checks. `computeAmounts` is the
  unresolved or resolved pair given to `NewClaim.BoundsHint`.
- `frontend/app/contracts.ts` is not part of this model: only the function
  names of its ABIs are used.
