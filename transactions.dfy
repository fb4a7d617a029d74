/** Ledger writes as the pages see them: requests handed to the connected
    wallet in program order, each given a hash whose receipt the pages poll.
    A request is not waited for before the next one is handed over, so the
    log below is the order of submission, not of confirmation. */
module Transactions {
  import opened Types

  /** Which deployed contract a write goes to. */
  datatype Contract = PrimaContract | TokenContract

  /** One submitted write, with its arguments as the page passes them. */
  datatype Intent =
    | Approve(spender: Contract, value: int)
    | AcceptInvoice(acceptedId: Option<TokenId>, collateral: int)
    | InvestInvoice(investedId: Option<TokenId>, investor: Company)
    | AddCollateral(collateralAmount: int)
    | GenerateInvoice(params: InvoiceParams)

  /** `approve` is an EIP-20 call on the token; all others go to Prima. */
  function Target(i: Intent): (c: Contract)
    ensures c == TokenContract <==> i.Approve?
  {
    if i.Approve? then TokenContract else PrimaContract
  }

  type Hash = nat

  /** The receipt of a submitted transaction. */
  datatype Receipt = Pending | Success | Failure

  /** What a `useWaitForTransactionReceipt` hook reports for the hash it is
      given: nothing without a hash, otherwise the receipt's state (a hash
      the ledger does not know yet is still being waited for). */
  datatype Observed = Idle | Loading | Succeeded | Errored

  function Watch(hash: Option<Hash>, receipts: seq<Receipt>): (o: Observed)
    ensures o == Idle <==> hash.None?
    ensures hash.Some? && hash.value < |receipts| ==>
              (o == Succeeded <==> receipts[hash.value] == Success) &&
              (o == Errored <==> receipts[hash.value] == Failure)
  {
    match hash
    case None => Idle
    case Some(h) =>
      if h >= |receipts| then Loading
      else match receipts[h]
        case Pending => Loading
        case Success => Succeeded
        case Failure => Errored
  }

  /** A receipt only ever leaves Pending, and only for a final state. */
  ghost predicate Settles(before: seq<Receipt>, after: seq<Receipt>)
  {
    |before| <= |after| &&
    forall h :: 0 <= h < |before| && before[h] != after[h] ==> before[h] == Pending
  }

  /** The connected wallet and the ledger's receipts for what it sent. */
  class Wallet {
    const account: Option<Address>
    var submitted: seq<Intent>
    var receipts: seq<Receipt>

    ghost predicate Valid()
      reads this
    {
      |submitted| == |receipts|
    }

    constructor (account: Option<Address>)
      ensures Valid() && this.account == account
      ensures submitted == [] && receipts == []
    {
      this.account := account;
      submitted := [];
      receipts := [];
    }

    /** `writeContract`: with an account, the request is appended and its hash
        returned at once, its receipt pending; without one nothing is sent. */
    method Submit(i: Intent) returns (h: Option<Hash>)
      requires Valid()
      modifies this
      ensures Valid()
      ensures account.None? ==> h.None? && submitted == old(submitted) && receipts == old(receipts)
      ensures account.Some? ==>
                h == Some(|old(submitted)|) &&
                submitted == old(submitted) + [i] &&
                receipts == old(receipts) + [Pending]
    {
      if account.None? {
        h := None;
      } else {
        h := Some(|submitted|);
        submitted := submitted + [i];
        receipts := receipts + [Pending];
      }
    }

    /** The ledger mines or rejects a pending transaction. */
    method Settle(h: Hash, ok: bool)
      requires Valid() && h < |receipts| && receipts[h] == Pending
      modifies this
      ensures Valid() && submitted == old(submitted)
      ensures receipts == old(receipts)[h := if ok then Success else Failure]
      ensures Settles(old(receipts), receipts)
    {
      receipts := receipts[h := if ok then Success else Failure];
    }
  }

  /** Once a hook has a hash, what it reports never goes back to Idle and a
      final report never changes. */
  lemma WatchSettles(hash: Option<Hash>, before: seq<Receipt>, after: seq<Receipt>)
    requires Settles(before, after)
    ensures Watch(hash, before) == Idle <==> Watch(hash, after) == Idle
    ensures Watch(hash, before) == Succeeded ==> Watch(hash, after) == Succeeded
    ensures Watch(hash, before) == Errored ==> Watch(hash, after) == Errored
  {
    if hash.Some? && hash.value < |before| {
      assert before[hash.value] != Pending ==> before[hash.value] == after[hash.value];
    }
  }
}
