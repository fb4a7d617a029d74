/** The creditor's claims page: hydrates the ids `getCreditorInvoices`
    returned, all or nothing, without stamping token ids. */
module ClaimsPage {
  import opened Types
  import opened Registry

  class Claims {
    /** The displayed list (`invoices` state). */
    var invoices: seq<Invoice>

    constructor ()
      ensures invoices == []
    {
      invoices := [];
    }

    /** `fetchInvoices`, run whenever the id query's data changes. `ids` is
        None while the query has no data. Any lookup that throws leaves the
        displayed list as it was. */
    method FetchInvoices(ids: Option<seq<TokenId>>, getInvoice: TokenId -> Call<Invoice>)
      modifies this
      ensures ids.None? ==> invoices == old(invoices)
      ensures ids.Some? ==>
                invoices == match Hydrate(ids.value, getInvoice, false)
                            case Returned(xs) => xs
                            case Threw => old(invoices)
    {
      if ids.Some? {
        var toAdd: seq<Invoice> := [];
        var i := 0;
        while i < |ids.value|
          invariant 0 <= i <= |ids.value|
          invariant Hydrate(ids.value[..i], getInvoice, false) == Returned(toAdd)
          invariant invoices == old(invoices)
        {
          var invoiceId := ids.value[i];
          var newInvoice := getInvoice(invoiceId);
          if newInvoice.Threw? {
            assert getInvoice(ids.value[i]).Threw?;
            return;
          }
          HydrateSnoc(ids.value[..i], invoiceId, getInvoice, false, toAdd);
          assert ids.value[..i] + [invoiceId] == ids.value[..i + 1];
          toAdd := toAdd + [newInvoice.value];
          i := i + 1;
        }
        assert ids.value[..i] == ids.value;
        invoices := toAdd;
      }
    }

    /** The cards of this page get no refetch callback. */
    function Cards(): (cards: seq<CardProps>)
      reads this
      ensures |cards| == |invoices|
      ensures forall k :: 0 <= k < |cards| ==> cards[k].invoice == invoices[k] && cards[k].refetch.None?
    {
      CardsFor(invoices, None)
    }
  }

  /** A successful fetch shows one record per creditor id, in id order, each
      exactly as the ledger returned it, so without a token id. The second
      requires states the shape of the `getInvoice` return struct in the
      Prima ABI, which has no token id field. */
  lemma ClaimsRecordsUnstamped(ids: seq<TokenId>, getInvoice: TokenId -> Call<Invoice>)
    requires Hydrate(ids, getInvoice, false).Returned?
    requires forall id :: getInvoice(id).Returned? ==> getInvoice(id).value.tokenId.None?
    ensures |Hydrate(ids, getInvoice, false).value| == |ids|
    ensures forall k :: 0 <= k < |ids| ==>
              Hydrate(ids, getInvoice, false).value[k] == getInvoice(ids[k]).value &&
              Hydrate(ids, getInvoice, false).value[k].tokenId.None?
  {
  }
}
