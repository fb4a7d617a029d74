/** The debtor's upcoming-payments page: hydrates the ids
    `getDebtorInvoices` returned, stamping each record with its id, all or
    nothing. */
module UpcomingPaymentsPage {
  import opened Types
  import opened Registry

  class UpcomingPayments {
    /** The displayed list (`invoices` state). */
    var invoices: seq<Invoice>

    constructor ()
      ensures invoices == []
    {
      invoices := [];
    }

    /** `fetchInvoices`, run whenever the id query's data changes and by every
        card after an acceptance. `ids` is None while the query has no data.
        Any lookup that throws is caught and the displayed list is kept. */
    method FetchInvoices(ids: Option<seq<TokenId>>, getInvoice: TokenId -> Call<Invoice>)
      modifies this
      ensures ids.None? ==> invoices == old(invoices)
      ensures ids.Some? ==>
                invoices == match Hydrate(ids.value, getInvoice, true)
                            case Returned(xs) => xs
                            case Threw => old(invoices)
    {
      if ids.Some? {
        var toAdd: seq<Invoice> := [];
        var i := 0;
        while i < |ids.value|
          invariant 0 <= i <= |ids.value|
          invariant Hydrate(ids.value[..i], getInvoice, true) == Returned(toAdd)
          invariant invoices == old(invoices)
        {
          var invoiceId := ids.value[i];
          var newInvoice := getInvoice(invoiceId);
          if newInvoice.Threw? {
            assert getInvoice(ids.value[i]).Threw?;
            return;
          }
          var stamped := newInvoice.value.(tokenId := Some(invoiceId));
          HydrateSnoc(ids.value[..i], invoiceId, getInvoice, true, toAdd);
          assert ids.value[..i] + [invoiceId] == ids.value[..i + 1];
          toAdd := toAdd + [stamped];
          i := i + 1;
        }
        assert ids.value[..i] == ids.value;
        invoices := toAdd;
      }
    }

    /** Every card of this page calls back this page's own `fetchInvoices`. */
    function Cards(): (cards: seq<CardProps>)
      reads this
      ensures |cards| == |invoices|
      ensures forall k :: 0 <= k < |cards| ==>
                cards[k].invoice == invoices[k] && cards[k].refetch == Some(UpcomingPaymentsList)
    {
      CardsFor(invoices, Some(UpcomingPaymentsList))
    }
  }

  /** A successful fetch shows exactly one record per debtor id, in id order,
      each the ledger's record for that id with its token id set to it. */
  lemma {:induction false} UpcomingOnePerId(ids: seq<TokenId>, getInvoice: TokenId -> Call<Invoice>, k: nat)
    requires Hydrate(ids, getInvoice, true).Returned?
    requires k < |ids|
    ensures |Hydrate(ids, getInvoice, true).value| == |ids|
    ensures Hydrate(ids, getInvoice, true).value[k].tokenId == Some(ids[k])
    ensures Hydrate(ids, getInvoice, true).value[k].(tokenId := getInvoice(ids[k]).value.tokenId)
              == getInvoice(ids[k]).value
  {
  }
}
