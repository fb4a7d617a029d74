/** What the three list pages compute, stated once: all-or-nothing hydration
    of a list of token ids, the status-changed event query, and the
    marketplace filter. The pages' loops are proved against these. */
module Registry {
  import opened Types
  import InvoiceCard

  /** `a` is `b` with some elements left out, the rest in their order. */
  ghost predicate SubsequenceOf<T>(a: seq<T>, b: seq<T>)
    decreases |b|
  {
    if a == [] then true
    else if b == [] then false
    else (a[|a| - 1] == b[|b| - 1] && SubsequenceOf(a[..|a| - 1], b[..|b| - 1]))
         || SubsequenceOf(a, b[..|b| - 1])
  }

  /** The elements of `xs` that `keep` accepts, in order. */
  function Filter<T>(xs: seq<T>, keep: T -> bool): (r: seq<T>)
    ensures |r| <= |xs|
    decreases |xs|
  {
    if xs == [] then []
    else
      var init := Filter(xs[..|xs| - 1], keep);
      if keep(xs[|xs| - 1]) then init + [xs[|xs| - 1]] else init
  }

  /** Filtering distributes over appending one element, as a loop that
      pushes the kept elements does it. */
  lemma FilterSnoc<T>(xs: seq<T>, x: T, keep: T -> bool)
    ensures Filter(xs + [x], keep) == Filter(xs, keep) + (if keep(x) then [x] else [])
  {
    assert (xs + [x])[..|xs|] == xs;
  }

  /** Exactly the accepted elements survive. */
  lemma {:induction false} FilterMembers<T>(xs: seq<T>, keep: T -> bool)
    ensures forall x :: x in Filter(xs, keep) <==> x in xs && keep(x)
    decreases |xs|
  {
    if xs != [] {
      var init := xs[..|xs| - 1];
      FilterMembers(init, keep);
      assert xs == init + [xs[|xs| - 1]];
    }
  }

  /** The survivors keep their relative order. */
  lemma {:induction false} FilterSubsequence<T>(xs: seq<T>, keep: T -> bool)
    ensures SubsequenceOf(Filter(xs, keep), xs)
    decreases |xs|
  {
    if xs != [] {
      var init := xs[..|xs| - 1];
      var r := Filter(xs, keep);
      FilterSubsequence(init, keep);
      if keep(xs[|xs| - 1]) {
        assert r[..|r| - 1] == Filter(init, keep);
      } else if r != [] {
        assert SubsequenceOf(r, xs[..|xs| - 1]);
      }
    }
  }

  /** Filtering keeps every occurrence of an accepted element and drops every
      occurrence of a rejected one: nothing is de-duplicated. */
  lemma {:induction false} FilterMultiset<T>(xs: seq<T>, keep: T -> bool)
    ensures forall x :: multiset(Filter(xs, keep))[x] == if keep(x) then multiset(xs)[x] else 0
    decreases |xs|
  {
    if xs != [] {
      var init := xs[..|xs| - 1];
      var last := xs[|xs| - 1];
      FilterMultiset(init, keep);
      assert xs == init + [last];
      assert multiset(xs) == multiset(init) + multiset{last};
    }
  }

  /** When every position holding `a` in `xs` holds `b` in the equally long
      `ys`, `b` occurs in `ys` at least as often as `a` in `xs`. */
  lemma {:induction false} CountCarries<A, B>(xs: seq<A>, ys: seq<B>, a: A, b: B)
    requires |xs| == |ys|
    requires forall k :: 0 <= k < |xs| && xs[k] == a ==> ys[k] == b
    ensures multiset(ys)[b] >= multiset(xs)[a]
    decreases |xs|
  {
    if xs != [] {
      var n := |xs| - 1;
      CountCarries(xs[..n], ys[..n], a, b);
      assert xs == xs[..n] + [xs[n]];
      assert ys == ys[..n] + [ys[n]];
    }
  }

  /** The record `getInvoice(id)` with its token id set to `id`. */
  function Stamp(inv: Invoice, id: TokenId): (r: Invoice)
    ensures r.tokenId == Some(id)
  {
    inv.(tokenId := Some(id))
  }

  /** One point lookup per id, in id order, optionally stamping each record
      with its id; a single lookup that throws makes the whole result throw. */
  function Hydrate(ids: seq<TokenId>, getInvoice: TokenId -> Call<Invoice>, stamp: bool)
    : (r: Call<seq<Invoice>>)
    ensures r.Threw? <==> exists k :: 0 <= k < |ids| && getInvoice(ids[k]).Threw?
    ensures r.Returned? ==>
              |r.value| == |ids| &&
              forall k :: 0 <= k < |ids| ==>
                getInvoice(ids[k]).Returned? &&
                r.value[k] == (if stamp then Stamp(getInvoice(ids[k]).value, ids[k])
                               else getInvoice(ids[k]).value)
    decreases |ids|
  {
    if ids == [] then Returned([])
    else
      var init := ids[..|ids| - 1];
      var id := ids[|ids| - 1];
      match Hydrate(init, getInvoice, stamp)
      case Threw =>
        assert forall k :: 0 <= k < |init| ==> init[k] == ids[k];
        Threw
      case Returned(xs) =>
        match getInvoice(id)
        case Threw => Threw
        case Returned(inv) =>
          assert forall k :: 0 <= k < |init| ==> init[k] == ids[k];
          Returned(xs + [if stamp then Stamp(inv, id) else inv])
  }

  /** Hydrating one more id extends a successful result by that id's record. */
  lemma HydrateSnoc(ids: seq<TokenId>, id: TokenId, getInvoice: TokenId -> Call<Invoice>,
                    stamp: bool, xs: seq<Invoice>)
    requires Hydrate(ids, getInvoice, stamp) == Returned(xs)
    requires getInvoice(id).Returned?
    ensures Hydrate(ids + [id], getInvoice, stamp) ==
              Returned(xs + [if stamp then Stamp(getInvoice(id).value, id) else getInvoice(id).value])
  {
    assert (ids + [id])[..|ids|] == ids;
  }

  /** `InvoiceNFT_StatusChanged(tokenId, newStatus)` as the ledger logs it. */
  datatype StatusChanged = StatusChanged(tokenId: TokenId, newStatus: nat)

  /** The log query with `newStatus: 1` over every block. */
  predicate IsAcceptance(e: StatusChanged)
  {
    e.newStatus == 1
  }

  function AcceptedEvents(log: seq<StatusChanged>): (r: seq<StatusChanged>)
    ensures forall e :: e in r <==> e in log && e.newStatus == 1
    ensures forall e :: multiset(r)[e] == if e.newStatus == 1 then multiset(log)[e] else 0
    ensures SubsequenceOf(r, log)
  {
    FilterMembers(log, IsAcceptance);
    FilterMultiset(log, IsAcceptance);
    FilterSubsequence(log, IsAcceptance);
    Filter(log, IsAcceptance)
  }

  function EventIds(events: seq<StatusChanged>): (ids: seq<TokenId>)
    ensures |ids| == |events|
    ensures forall k :: 0 <= k < |events| ==> ids[k] == events[k].tokenId
  {
    seq(|events|, k requires 0 <= k < |events| => events[k].tokenId)
  }

  /** The marketplace keeps an invoice when it is still Accepted and the
      actor is neither its debtor nor its creditor. */
  predicate Listable(inv: Invoice, actor: Option<Address>)
  {
    StatusCode(inv.invoiceStatus) == 1 &&
    actor != Some(inv.debtor.name) && actor != Some(inv.creditor.name)
  }

  /** `Listable` for one viewer, as a filter test. */
  function ListableFor(actor: Option<Address>): (keep: Invoice -> bool)
    ensures forall inv :: keep(inv) == Listable(inv, actor)
  {
    (inv: Invoice) => Listable(inv, actor)
  }

  /** The invest page's fetch: query the accepted events, hydrate each
      event's token id (stamped), then keep the listable records. */
  function Marketplace(log: seq<StatusChanged>, getInvoice: TokenId -> Call<Invoice>,
                       actor: Option<Address>): Call<seq<Invoice>>
  {
    match Hydrate(EventIds(AcceptedEvents(log)), getInvoice, true)
    case Threw => Threw
    case Returned(xs) => Returned(Filter(xs, ListableFor(actor)))
  }

  /** The whole fetch fails exactly when the lookup of some accepted event's
      token fails. */
  lemma {:induction false} MarketplaceThrows(log: seq<StatusChanged>, getInvoice: TokenId -> Call<Invoice>,
                                             actor: Option<Address>)
    ensures Marketplace(log, getInvoice, actor).Threw? <==>
              exists e :: e in log && e.newStatus == 1 && getInvoice(e.tokenId).Threw?
  {
    var events := AcceptedEvents(log);
    var ids := EventIds(events);
    if Hydrate(ids, getInvoice, true).Threw? {
      var k :| 0 <= k < |ids| && getInvoice(ids[k]).Threw?;
      assert events[k] in log && events[k].newStatus == 1;
    } else {
      forall e | e in log && e.newStatus == 1 ensures getInvoice(e.tokenId).Returned? {
        var k :| 0 <= k < |events| && events[k] == e;
        assert ids[k] == e.tokenId;
      }
    }
  }

  /** Every listed invoice is still Accepted, is not the actor's own, and is
      the stamped record of an accepted event of the log. */
  lemma {:induction false} MarketplaceSound(log: seq<StatusChanged>, getInvoice: TokenId -> Call<Invoice>,
                                            actor: Option<Address>, inv: Invoice)
    requires Marketplace(log, getInvoice, actor).Returned?
    requires inv in Marketplace(log, getInvoice, actor).value
    ensures inv.invoiceStatus == Accepted
    ensures actor != Some(inv.debtor.name) && actor != Some(inv.creditor.name)
    ensures exists e :: e in log && e.newStatus == 1 && getInvoice(e.tokenId).Returned? &&
                        inv == Stamp(getInvoice(e.tokenId).value, e.tokenId)
  {
    var events := AcceptedEvents(log);
    var ids := EventIds(events);
    var xs := Hydrate(ids, getInvoice, true).value;
    FilterMembers(xs, ListableFor(actor));
    assert inv in xs;
    var k :| 0 <= k < |xs| && xs[k] == inv;
    assert events[k] in log;
    StatusCodeBijective(inv.invoiceStatus, Accepted);
  }

  /** No accepted event is dropped silently: the record of each one that is
      still listable is in the list. */
  lemma {:induction false} MarketplaceComplete(log: seq<StatusChanged>, getInvoice: TokenId -> Call<Invoice>,
                                               actor: Option<Address>, e: StatusChanged)
    requires Marketplace(log, getInvoice, actor).Returned?
    requires e in log && e.newStatus == 1
    ensures getInvoice(e.tokenId).Returned?
    ensures Listable(Stamp(getInvoice(e.tokenId).value, e.tokenId), actor) ==>
              Stamp(getInvoice(e.tokenId).value, e.tokenId) in Marketplace(log, getInvoice, actor).value
  {
    var events := AcceptedEvents(log);
    var ids := EventIds(events);
    var xs := Hydrate(ids, getInvoice, true).value;
    FilterMembers(xs, ListableFor(actor));
    var k :| 0 <= k < |events| && events[k] == e;
    assert ids[k] == e.tokenId;
    assert xs[k] == Stamp(getInvoice(e.tokenId).value, e.tokenId);
  }

  /** The list follows the event order, one entry at most per event; the
      same token accepted twice is listed twice. */
  lemma {:induction false} MarketplaceOrdered(log: seq<StatusChanged>, getInvoice: TokenId -> Call<Invoice>,
                                              actor: Option<Address>)
    requires Marketplace(log, getInvoice, actor).Returned?
    ensures |Marketplace(log, getInvoice, actor).value| <= |AcceptedEvents(log)| <= |log|
    ensures SubsequenceOf(Marketplace(log, getInvoice, actor).value,
                          Hydrate(EventIds(AcceptedEvents(log)), getInvoice, true).value)
  {
    SubsequenceLength(AcceptedEvents(log), log);
    FilterSubsequence(Hydrate(EventIds(AcceptedEvents(log)), getInvoice, true).value, ListableFor(actor));
  }

  /** The filter keeps every copy of a listable record: each occurs in the
      list exactly as often as among the hydrated events, and a record that is
      not listable does not occur at all. */
  lemma MarketplaceMultiplicity(log: seq<StatusChanged>, getInvoice: TokenId -> Call<Invoice>,
                                actor: Option<Address>, x: Invoice)
    requires Marketplace(log, getInvoice, actor).Returned?
    ensures multiset(Marketplace(log, getInvoice, actor).value)[x] ==
              if Listable(x, actor)
              then multiset(Hydrate(EventIds(AcceptedEvents(log)), getInvoice, true).value)[x]
              else 0
  {
    FilterMultiset(Hydrate(EventIds(AcceptedEvents(log)), getInvoice, true).value, ListableFor(actor));
  }

  /** No de-duplication: an acceptance event that occurs twice in the log
      lists its record at least twice, whenever that record is listable. */
  lemma MarketplaceRepeats(log: seq<StatusChanged>, getInvoice: TokenId -> Call<Invoice>,
                           actor: Option<Address>, i: nat, j: nat)
    requires i < j < |log| && log[i] == log[j] && log[i].newStatus == 1
    requires Marketplace(log, getInvoice, actor).Returned?
    ensures getInvoice(log[i].tokenId).Returned?
    ensures var x := Stamp(getInvoice(log[i].tokenId).value, log[i].tokenId);
            Listable(x, actor) ==> multiset(Marketplace(log, getInvoice, actor).value)[x] >= 2
  {
    var e := log[i];
    MarketplaceComplete(log, getInvoice, actor, e);
    var events := AcceptedEvents(log);
    var ids := EventIds(events);
    var xs := Hydrate(ids, getInvoice, true).value;
    var x := Stamp(getInvoice(e.tokenId).value, e.tokenId);
    assert log == log[..j] + [log[j]] + log[j + 1..];
    assert log[..j][i] == e;
    assert multiset(log)[e] >= 2;
    assert multiset(events)[e] >= 2;
    CountCarries(events, xs, e, x);
    MarketplaceMultiplicity(log, getInvoice, actor, x);
  }

  lemma {:induction false} SubsequenceLength<T>(a: seq<T>, b: seq<T>)
    requires SubsequenceOf(a, b)
    ensures |a| <= |b|
    decreases |b|
  {
    if a != [] {
      if a[|a| - 1] == b[|b| - 1] && SubsequenceOf(a[..|a| - 1], b[..|b| - 1]) {
        SubsequenceLength(a[..|a| - 1], b[..|b| - 1]);
      } else {
        SubsequenceLength(a, b[..|b| - 1]);
      }
    }
  }

  /** The marketplace filter and the card's Invest guard agree, so every
      listed card offers Invest and nothing else. */
  lemma ListableOffersInvest(inv: Invoice, actor: Option<Address>)
    ensures Listable(inv, actor) <==> InvoiceCard.OffersInvest(inv, actor)
    ensures Listable(inv, actor) ==> InvoiceCard.ActionsOffered(inv, actor) == {InvoiceCard.Invest}
  {
  }

  /** The list pages, each owning a displayed list and a `fetchInvoices`. */
  datatype Page = ClaimsList | UpcomingPaymentsList | InvestList

  /** What a page hands to each InvoiceCard: the record and, optionally, the
      page whose `fetchInvoices` the card calls back. */
  datatype CardProps = CardProps(invoice: Invoice, refetch: Option<Page>)

  /** One card per displayed invoice, in display order, all with the same
      callback. */
  function CardsFor(invoices: seq<Invoice>, refetch: Option<Page>): (cards: seq<CardProps>)
    ensures |cards| == |invoices|
    ensures forall k :: 0 <= k < |cards| ==> cards[k].invoice == invoices[k] && cards[k].refetch == refetch
  {
    seq(|invoices|, k requires 0 <= k < |invoices| => CardProps(invoices[k], refetch))
  }
}
