/** The collateral page: one amount, approved to Prima and then deposited,
    both scaled by the same factor; only the deposit's receipt is watched. */
module CollateralPage {
  import opened Types
  import opened Amounts
  import opened Transactions

  /** The two writes of `onSubmit`, in order: the token allowance for Prima,
      then the deposit of the same wei amount. */
  function CollateralWrites(amount: int): (w: seq<Intent>)
    ensures |w| == 2 && w[0].Approve? && w[1].AddCollateral?
    ensures Target(w[0]) == TokenContract && w[0].spender == PrimaContract
    ensures Target(w[1]) == PrimaContract
    ensures w[0].value == w[1].collateralAmount
    ensures w[1].collateralAmount / WEI_PER_TOKEN == amount && w[1].collateralAmount % WEI_PER_TOKEN == 0
  {
    var amountMint := ParseEther(amount);
    [Approve(PrimaContract, amountMint), AddCollateral(amountMint)]
  }

  class Collateral {
    /** The amount typed, in tokens, as a JS number. */
    var amount: int
    /** The `addCollateral` hash. */
    var hash: Option<Hash>
    var hashApprove: Option<Hash>

    constructor ()
      ensures amount == 0 && hash.None? && hashApprove.None?
    {
      amount := 0;
      hash, hashApprove := None, None;
    }

    method SetAmount(v: int)
      modifies this`amount
      ensures amount == v
    {
      amount := v;
    }

    /** `onSubmit`: both writes go out back to back; the deposit is sent while
        the approval's receipt is still pending. */
    method OnSubmit(wallet: Wallet)
      requires wallet.Valid()
      modifies this`hash, this`hashApprove, wallet
      ensures wallet.Valid()
      ensures wallet.account.None? ==>
                hash.None? && hashApprove.None? &&
                wallet.submitted == old(wallet.submitted) && wallet.receipts == old(wallet.receipts)
      ensures wallet.account.Some? ==>
                var n := |old(wallet.submitted)|;
                hashApprove == Some(n) && hash == Some(n + 1) &&
                wallet.submitted == old(wallet.submitted) + CollateralWrites(amount) &&
                wallet.receipts == old(wallet.receipts) + [Pending, Pending]
    {
      var amountMint := ParseEther(amount);
      hashApprove := wallet.Submit(Approve(PrimaContract, amountMint));
      hash := wallet.Submit(AddCollateral(amountMint));
    }

    /** The confirming / confirmed / error line, driven by `hash` alone. */
    function Shown(receipts: seq<Receipt>): (o: Observed)
      reads this
      ensures o == Idle <==> hash.None?
      ensures hash.Some? && hash.value < |receipts| ==> (o == Succeeded <==> receipts[hash.value] == Success)
    {
      Watch(hash, receipts)
    }
  }

  /** Whatever becomes of the approval, the page shows the same thing. */
  lemma ApprovalNeverObserved(hash: Option<Hash>, approve: Hash, receipts: seq<Receipt>, r: Receipt)
    requires hash != Some(approve) && approve < |receipts|
    ensures Watch(hash, receipts[approve := r]) == Watch(hash, receipts)
  {
  }
}
