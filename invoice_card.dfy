/** One invoice card: which action the connected account is offered on the
    invoice, and what the Accept and Invest buttons submit. */
module InvoiceCard {
  import opened Types
  import opened Transactions

  /** `name === address`: an absent account equals no party. */
  predicate IsActor(name: Address, actor: Option<Address>)
  {
    actor == Some(name)
  }

  /** The guard around the Accept controls. */
  predicate OffersAccept(inv: Invoice, actor: Option<Address>)
  {
    IsActor(inv.debtor.name, actor) && StatusCode(inv.invoiceStatus) == 0
  }

  /** The guard around the Invest controls. */
  predicate OffersInvest(inv: Invoice, actor: Option<Address>)
  {
    !IsActor(inv.debtor.name, actor) && !IsActor(inv.creditor.name, actor) &&
    StatusCode(inv.invoiceStatus) == 1
  }

  datatype Action = Accept | Invest

  /** The controls a card shows; there is no Pay control. */
  function ActionsOffered(inv: Invoice, actor: Option<Address>): (r: set<Action>)
    ensures Accept in r <==> actor == Some(inv.debtor.name) && inv.invoiceStatus == New
    ensures Invest in r <==>
              actor != Some(inv.debtor.name) && actor != Some(inv.creditor.name) &&
              inv.invoiceStatus == Accepted
  {
    (if OffersAccept(inv, actor) then {Accept} else {}) +
    (if OffersInvest(inv, actor) then {Invest} else {})
  }

  /** Nothing is offered once an invoice is financed, paid or overdue, and the
      two controls never appear together. */
  lemma OffersAtMostOneAction(inv: Invoice, actor: Option<Address>)
    ensures inv.invoiceStatus in {InProgress, Paid, Overdue} ==> ActionsOffered(inv, actor) == {}
    ensures ActionsOffered(inv, actor) == {} || |ActionsOffered(inv, actor)| == 1
  {
  }

  /** A creditor who is not also the debtor is offered nothing on their own
      invoice; the debtor of a new invoice is offered exactly Accept. */
  lemma OwnInvoiceOffers(inv: Invoice, actor: Address)
    ensures actor == inv.creditor.name && actor != inv.debtor.name ==>
              ActionsOffered(inv, Some(actor)) == {}
    ensures actor == inv.debtor.name && inv.invoiceStatus == New ==>
              ActionsOffered(inv, Some(actor)) == {Accept}
  {
  }

  /** Without a connected account, every accepted invoice offers Invest. */
  lemma DisconnectedSeesInvest(inv: Invoice)
    requires inv.invoiceStatus == Accepted
    ensures ActionsOffered(inv, None) == {Invest}
  {
  }

  /** The refetch effect runs when `isAccepted` differs from the value it last
      ran for (or on the first render), and then calls back when the accept
      or the invest receipt has succeeded and the page passed a callback. */
  predicate EffectFires(lastRun: Option<bool>, accepted: bool, invested: bool, hasRefetch: bool)
  {
    lastRun != Some(accepted) && (accepted || invested) && hasRefetch
  }

  /** `isInvested` is in the effect's test but not among its dependencies: once
      the effect has run with `isAccepted` false, an investment that succeeds
      while `isAccepted` stays false never calls back. */
  lemma InvestedAloneNeverRefetches(invested: bool, hasRefetch: bool)
    ensures !EffectFires(Some(false), false, invested, hasRefetch)
    ensures EffectFires(Some(false), true, invested, hasRefetch) <==> hasRefetch
  {
  }

  /** The two writes of `onInvestInvoice`, in order: an allowance for Prima of
      exactly what the investor will pay, then the investment in the same
      token naming the investor. */
  function InvestWrites(inv: Invoice, investor: Company): (w: seq<Intent>)
    ensures |w| == 2 && w[0].Approve? && w[1].InvestInvoice?
    ensures Target(w[0]) == TokenContract && w[0].spender == PrimaContract
    ensures Target(w[1]) == PrimaContract
    ensures w[0].value == inv.amountToPay
    ensures w[1].investedId == inv.tokenId && w[1].investor == investor
  {
    [Approve(PrimaContract, inv.amountToPay), InvestInvoice(inv.tokenId, investor)]
  }

  class Card {
    const invoice: Invoice
    /** Whether the page passed a `refetch` callback. */
    const hasRefetch: bool
    /** The collateral typed into the Accept form, as a JS number. */
    var collateral: int
    var acceptHash: Option<Hash>
    var investHash: Option<Hash>
    var approveHash: Option<Hash>
    /** The `isAccepted` value the refetch effect last ran for. */
    var effectRanFor: Option<bool>
    /** How many times the card has called `refetch`. */
    var refetchCalls: nat

    constructor (invoice: Invoice, hasRefetch: bool)
      ensures this.invoice == invoice && this.hasRefetch == hasRefetch
      ensures collateral == 0
      ensures acceptHash.None? && investHash.None? && approveHash.None?
      ensures effectRanFor.None? && refetchCalls == 0
    {
      this.invoice := invoice;
      this.hasRefetch := hasRefetch;
      collateral := 0;
      acceptHash, investHash, approveHash := None, None, None;
      effectRanFor := None;
      refetchCalls := 0;
    }

    method SetCollateral(v: int)
      modifies this`collateral
      ensures collateral == v
    {
      collateral := v;
    }

    /** `onAcceptInvoice`: submits `acceptInvoice(tokenId, collateral)` with
        the collateral exactly as typed (no 10^18 scaling). */
    method OnAcceptInvoice(wallet: Wallet)
      requires wallet.Valid() && OffersAccept(invoice, wallet.account)
      modifies this`acceptHash, wallet
      ensures wallet.Valid()
      ensures acceptHash == Some(|old(wallet.submitted)|)
      ensures wallet.submitted == old(wallet.submitted) + [AcceptInvoice(invoice.tokenId, collateral)]
      ensures wallet.receipts == old(wallet.receipts) + [Pending]
    {
      acceptHash := wallet.Submit(AcceptInvoice(invoice.tokenId, collateral));
    }

    /** `onInvestInvoice`: approves Prima for the invoice's amountToPay, then
        submits `investInvoice` naming the connected account as investor with
        a score drawn from 0..4, without waiting for the approval's receipt. */
    method OnInvestInvoice(wallet: Wallet, investorScore: int)
      requires wallet.Valid() && OffersInvest(invoice, wallet.account)
      requires 0 <= investorScore <= 4
      modifies this`approveHash, this`investHash, wallet
      ensures wallet.Valid()
      ensures wallet.account.None? ==>
                approveHash.None? && investHash.None? &&
                wallet.submitted == old(wallet.submitted) && wallet.receipts == old(wallet.receipts)
      ensures wallet.account.Some? ==>
                var n := |old(wallet.submitted)|;
                var investor := Company(wallet.account.value, investorScore);
                approveHash == Some(n) && investHash == Some(n + 1) &&
                wallet.submitted == old(wallet.submitted) + InvestWrites(invoice, investor) &&
                wallet.receipts == old(wallet.receipts) + [Pending, Pending] &&
                investor.name != invoice.debtor.name && investor.name != invoice.creditor.name
    {
      var investor := Company(wallet.account.GetOr(""), investorScore);
      approveHash := wallet.Submit(Approve(PrimaContract, invoice.amountToPay));
      investHash := wallet.Submit(InvestInvoice(invoice.tokenId, investor));
    }

    /** The refetch effect after a render, given the ledger's receipts. */
    method RunRefetchEffect(receipts: seq<Receipt>)
      modifies this`effectRanFor, this`refetchCalls
      ensures var accepted := Watch(acceptHash, receipts) == Succeeded;
              var invested := Watch(investHash, receipts) == Succeeded;
              effectRanFor == Some(accepted) &&
              refetchCalls == old(refetchCalls) +
                (if EffectFires(old(effectRanFor), accepted, invested, hasRefetch) then 1 else 0)
      ensures old(effectRanFor) == Some(Watch(acceptHash, receipts) == Succeeded) ==>
                refetchCalls == old(refetchCalls)
      ensures !hasRefetch ==> refetchCalls == old(refetchCalls)
    {
      var accepted := Watch(acceptHash, receipts) == Succeeded;
      var invested := Watch(investHash, receipts) == Succeeded;
      if effectRanFor != Some(accepted) {
        effectRanFor := Some(accepted);
        if (accepted || invested) && hasRefetch {
          refetchCalls := refetchCalls + 1;
        }
      }
    }
  }
}
