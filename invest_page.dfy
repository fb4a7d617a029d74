/** The marketplace page: scans every `InvoiceNFT_StatusChanged` event with
    `newStatus == 1`, hydrates each event's token (stamping the id), and
    shows the records still Accepted that are not the viewer's own. */
module InvestPage {
  import opened Types
  import opened Registry
  import InvoiceCard

  class Invest {
    /** The displayed list (`invoices` state). */
    var invoices: seq<Invoice>

    constructor ()
      ensures invoices == []
    {
      invoices := [];
    }

    /** `fetchInvoices`. `log` is the ledger's event log, or None when the log
        query gives nothing back (no client) or throws; a lookup that throws
        rejects the whole fetch. Either way the displayed list is kept. */
    method FetchInvoices(actor: Option<Address>, log: Option<seq<StatusChanged>>,
                         getInvoice: TokenId -> Call<Invoice>)
      modifies this
      ensures log.None? ==> invoices == old(invoices)
      ensures log.Some? ==>
                invoices == match Marketplace(log.value, getInvoice, actor)
                            case Returned(xs) => xs
                            case Threw => old(invoices)
    {
      if log.Some? {
        var approvedEvents := AcceptedEvents(log.value);
        ghost var ids := EventIds(approvedEvents);
        ghost var hydrated: seq<Invoice> := [];
        var toAdd: seq<Invoice> := [];
        var i := 0;
        while i < |approvedEvents|
          invariant 0 <= i <= |approvedEvents|
          invariant Hydrate(ids[..i], getInvoice, true) == Returned(hydrated)
          invariant toAdd == Filter(hydrated, ListableFor(actor))
          invariant invoices == old(invoices)
        {
          var tokenId := approvedEvents[i].tokenId;
          assert tokenId == ids[i];
          var newInvoice := getInvoice(tokenId);
          if newInvoice.Threw? {
            assert getInvoice(ids[i]).Threw?;
            return;
          }
          var stamped := newInvoice.value.(tokenId := Some(tokenId));
          ScanStep(ids, i, getInvoice, actor, hydrated, toAdd);
          hydrated := hydrated + [stamped];
          if StatusCode(stamped.invoiceStatus) == 1 &&
             actor != Some(stamped.debtor.name) && actor != Some(stamped.creditor.name) {
            toAdd := toAdd + [stamped];
          }
          i := i + 1;
        }
        assert ids[..i] == ids;
        assert Marketplace(log.value, getInvoice, actor) == Returned(toAdd);
        invoices := toAdd;
      }
    }

    /** The page's effect: fetch only when an account is connected. */
    method OnAccountChange(actor: Option<Address>, log: Option<seq<StatusChanged>>,
                           getInvoice: TokenId -> Call<Invoice>)
      modifies this
      ensures actor.None? || log.None? ==> invoices == old(invoices)
      ensures actor.Some? && log.Some? ==>
                invoices == match Marketplace(log.value, getInvoice, actor)
                            case Returned(xs) => xs
                            case Threw => old(invoices)
    {
      if actor.Some? {
        FetchInvoices(actor, log, getInvoice);
      }
    }

    /** Every card of this page calls back this page's own `fetchInvoices`. */
    function Cards(): (cards: seq<CardProps>)
      reads this
      ensures |cards| == |invoices|
      ensures forall k :: 0 <= k < |cards| ==>
                cards[k].invoice == invoices[k] && cards[k].refetch == Some(InvestList)
    {
      CardsFor(invoices, Some(InvestList))
    }
  }

  /** One turn of the scan: the next id's stamped record extends the
      hydrated list, and the displayed list when it is listable. */
  lemma ScanStep(ids: seq<TokenId>, i: nat, getInvoice: TokenId -> Call<Invoice>, actor: Option<Address>,
                 hydrated: seq<Invoice>, toAdd: seq<Invoice>)
    requires i < |ids| && getInvoice(ids[i]).Returned?
    requires Hydrate(ids[..i], getInvoice, true) == Returned(hydrated)
    requires toAdd == Filter(hydrated, ListableFor(actor))
    ensures var stamped := Stamp(getInvoice(ids[i]).value, ids[i]);
            Hydrate(ids[..i + 1], getInvoice, true) == Returned(hydrated + [stamped]) &&
            Filter(hydrated + [stamped], ListableFor(actor)) ==
              toAdd + (if Listable(stamped, actor) then [stamped] else [])
  {
    var stamped := Stamp(getInvoice(ids[i]).value, ids[i]);
    HydrateSnoc(ids[..i], ids[i], getInvoice, true, hydrated);
    assert ids[..i] + [ids[i]] == ids[..i + 1];
    FilterSnoc(hydrated, stamped, ListableFor(actor));
  }

  /** The page does not de-duplicate: a token accepted twice in the log is
      listed twice. */
  lemma AcceptedTwiceListedTwice(inv: Invoice, actor: Option<Address>)
    requires Listable(Stamp(inv, 7), actor)
    ensures Marketplace([StatusChanged(7, 1), StatusChanged(7, 0), StatusChanged(7, 1)],
                        (id: TokenId) => Returned(inv), actor)
            == Returned([Stamp(inv, 7), Stamp(inv, 7)])
  {
    var getInvoice := (id: TokenId) => Returned(inv);
    AcceptedTwice();
    HydrateTwice(7, getInvoice);
    FilterKeepsBoth(Stamp(inv, 7), ListableFor(actor));
  }

  lemma AcceptedTwice()
    ensures EventIds(AcceptedEvents([StatusChanged(7, 1), StatusChanged(7, 0), StatusChanged(7, 1)])) == [7, 7]
  {
    KeepsFirstAndLast();
  }

  lemma KeepsFirstAndLast()
    ensures Filter([StatusChanged(7, 1), StatusChanged(7, 0), StatusChanged(7, 1)], IsAcceptance)
            == [StatusChanged(7, 1), StatusChanged(7, 1)]
  {
    var log := [StatusChanged(7, 1), StatusChanged(7, 0), StatusChanged(7, 1)];
    FilterSnoc([], log[0], IsAcceptance);
    FilterSnoc([log[0]], log[1], IsAcceptance);
    FilterSnoc(log[..2], log[2], IsAcceptance);
    assert [] + [log[0]] == log[..1] && [log[0]] + [log[1]] == log[..2] && log[..2] + [log[2]] == log;
  }

  lemma HydrateTwice(id: TokenId, getInvoice: TokenId -> Call<Invoice>)
    requires getInvoice(id).Returned?
    ensures Hydrate([id, id], getInvoice, true) ==
              Returned([Stamp(getInvoice(id).value, id), Stamp(getInvoice(id).value, id)])
  {
    HydrateSnoc([], id, getInvoice, true, []);
    var listed := Stamp(getInvoice(id).value, id);
    assert [] + [id] == [id] && [id] + [id] == [id, id] && [] + [listed] == [listed];
    HydrateSnoc([id], id, getInvoice, true, [listed]);
    assert [listed] + [listed] == [listed, listed];
  }

  lemma FilterKeepsBoth<T>(x: T, keep: T -> bool)
    requires keep(x)
    ensures Filter([x, x], keep) == [x, x]
  {
    FilterSnoc([], x, keep);
    assert [] + [x] == [x] && [x] + [x] == [x, x];
    FilterSnoc([x], x, keep);
  }

  /** Every card the page shows offers Invest to the viewer. */
  lemma MarketplaceCardsOfferInvest(log: seq<StatusChanged>, getInvoice: TokenId -> Call<Invoice>,
                                    actor: Option<Address>, inv: Invoice)
    requires Marketplace(log, getInvoice, actor).Returned?
    requires inv in Marketplace(log, getInvoice, actor).value
    ensures InvoiceCard.ActionsOffered(inv, actor) == {InvoiceCard.Invest}
  {
    MarketplaceSound(log, getInvoice, actor, inv);
  }
}
