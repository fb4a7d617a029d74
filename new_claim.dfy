/** The new-claim page: the form's validation schema, the `generateInvoice`
    parameters built from a valid form, and the principal that the bounds
    query (`computeAmounts`) is asked about. */
module NewClaim {
  import opened Types
  import opened Amounts
  import opened Transactions

  /** The form's values on submission. Amounts are JS numbers, absent until
      typed (an emptied field holds null). */
  datatype ClaimForm = ClaimForm(
    id: string,
    activity: string,
    country: string,
    dueDate: int,
    amount: Option<int>,
    amountToPay: Option<int>,
    debtorName: string,
    debtorScore: int)

  datatype Field = IdField | ActivityField | CountryField | DueDateField
                 | AmountField | AmountToPayField | DebtorNameField | DebtorScoreField

  /** The fields `FormSchema` reports an issue for. `earliestDue` is the
      instant the schema was built: its `new Date()` bound is evaluated once,
      when the module loads, not at each submission. */
  function Issues(f: ClaimForm, earliestDue: int): set<Field>
  {
    (if |f.id| < 4 then {IdField} else {}) +
    (if |f.activity| < 10 then {ActivityField} else {}) +
    (if |f.country| < 2 then {CountryField} else {}) +
    (if f.dueDate < earliestDue then {DueDateField} else {}) +
    (if f.amount.None? || f.amount.value < 1 then {AmountField} else {}) +
    (if f.amountToPay.None? || f.amountToPay.value < 1 then {AmountToPayField} else {}) +
    (if |f.debtorName| < 32 then {DebtorNameField} else {}) +
    (if f.debtorScore < 0 || f.debtorScore > 5 then {DebtorScoreField} else {})
  }

  /** `handleSubmit` calls `onSubmit` only when the schema reports no issue. */
  predicate ValidForm(f: ClaimForm, earliestDue: int)
  {
    Issues(f, earliestDue) == {}
  }

  /** What a valid form is, field by field. */
  lemma ValidFormMeans(f: ClaimForm, earliestDue: int)
    ensures ValidForm(f, earliestDue) <==>
              |f.id| >= 4 && |f.activity| >= 10 && |f.country| >= 2 &&
              f.dueDate >= earliestDue &&
              f.amount.Some? && f.amount.value >= 1 &&
              f.amountToPay.Some? && f.amountToPay.value >= 1 &&
              |f.debtorName| >= 32 && 0 <= f.debtorScore <= 5
  {
  }

  /** The schema puts no upper bound on amountToPay: it is never compared with
      the amount nor with the displayed (min, max) bounds. */
  lemma AmountToPayUnbounded(f: ClaimForm, earliestDue: int, toPay: int)
    requires ValidForm(f, earliestDue) && toPay >= 1
    ensures ValidForm(f.(amountToPay := Some(toPay)), earliestDue)
  {
  }

  /** The `generateInvoice` argument built in `onSubmit`: text fields as
      typed, both amounts scaled to wei, the debtor named by the form but
      scored by the page's own debtor, the creditor as held by the page. */
  function ParamsOf(values: ClaimForm, debtor: Company, creditor: Company): (p: InvoiceParams)
    requires values.amount.Some? && values.amountToPay.Some?
    ensures p.amount / WEI_PER_TOKEN == values.amount.value && p.amount % WEI_PER_TOKEN == 0
    ensures p.amountToPay / WEI_PER_TOKEN == values.amountToPay.value && p.amountToPay % WEI_PER_TOKEN == 0
    ensures p.debtor.name == values.debtorName && p.debtor.creditScore == debtor.creditScore
    ensures p.creditor == creditor
  {
    InvoiceParams(
      values.id, values.activity, values.country, values.dueDate,
      ParseEther(values.amount.value), ParseEther(values.amountToPay.value),
      Company(values.debtorName, debtor.creditScore), creditor)
  }

  /** What a submitted invoice satisfies when its form was valid. */
  lemma SubmittedParamsBounds(values: ClaimForm, earliestDue: int, debtor: Company, creditor: Company)
    requires ValidForm(values, earliestDue)
    ensures values.amount.Some? && values.amountToPay.Some?
    ensures var p := ParamsOf(values, debtor, creditor);
            p.amount >= WEI_PER_TOKEN && p.amountToPay >= WEI_PER_TOKEN &&
            |p.debtor.name| >= 32 && p.dueDate >= earliestDue &&
            p.id == values.id && |p.id| >= 4 && |p.activity| >= 10 && |p.country| >= 2
  {
  }

  /** The form's score field has no effect on what is submitted. */
  lemma ScoreFieldIgnored(values: ClaimForm, score: int, debtor: Company, creditor: Company)
    requires values.amount.Some? && values.amountToPay.Some?
    ensures ParamsOf(values.(debtorScore := score), debtor, creditor) == ParamsOf(values, debtor, creditor)
  {
  }

  /** The bounds line under the amountToPay field: both bounds in tokens, 0
      while the query has not resolved. */
  function BoundsHint(bounds: Option<(nat, nat)>): (hint: (Decimal, Decimal))
    ensures bounds.None? ==> hint == (Decimal(0, 0), Decimal(0, 0))
    ensures bounds.Some? ==>
              hint.0.whole * WEI_PER_TOKEN + hint.0.fraction == bounds.value.0 &&
              hint.1.whole * WEI_PER_TOKEN + hint.1.fraction == bounds.value.1
  {
    match bounds
    case None => (FormatEther(0), FormatEther(0))
    case Some((lo, hi)) => (FormatEther(lo), FormatEther(hi))
  }

  /** The debtor every claim on this page names (its score is drawn at
      random for the demonstration). */
  const PLACEHOLDER_DEBTOR: Address := "0x1234567890123456789012345678901234567890"

  /** The principal the bounds query starts with, in tokens. */
  const DEFAULT_PRINCIPAL: int := 1000

  class Page {
    const debtor: Company
    const earliestDue: int
    var creditor: Company
    /** The principal sent to `computeAmounts`, in wei. */
    var amountTotal: int
    var hash: Option<Hash>

    /** Both scores come from `Math.floor(Math.random() * 5)`. */
    ghost predicate Valid()
      reads this
    {
      debtor.name == PLACEHOLDER_DEBTOR &&
      0 <= debtor.creditScore <= 4 && 0 <= creditor.creditScore <= 4
    }

    constructor (address: Address, debtorScore: int, creditorScore: int, earliestDue: int)
      requires 0 <= debtorScore <= 4 && 0 <= creditorScore <= 4
      ensures Valid() && this.earliestDue == earliestDue
      ensures debtor == Company(PLACEHOLDER_DEBTOR, debtorScore)
      ensures creditor == Company(address, creditorScore)
      ensures amountTotal == ParseEther(DEFAULT_PRINCIPAL) && hash.None?
    {
      debtor := Company(PLACEHOLDER_DEBTOR, debtorScore);
      this.earliestDue := earliestDue;
      creditor := Company(address, creditorScore);
      amountTotal := ParseEther(DEFAULT_PRINCIPAL);
      hash := None;
    }

    /** The effect on a new account: a fresh creditor with a new score. */
    method OnAddressChange(address: Address, creditorScore: int)
      requires Valid() && 0 <= creditorScore <= 4
      modifies this`creditor
      ensures Valid() && creditor == Company(address, creditorScore)
    {
      creditor := Company(address, creditorScore);
    }

    /** "Vérifier le montant": the only change to the principal, taking the
        form's amount, or 1000 tokens when the field is empty. */
    method VerifyAmount(formAmount: Option<int>)
      modifies this`amountTotal
      ensures amountTotal == ParseEther(formAmount.GetOr(DEFAULT_PRINCIPAL))
      ensures amountTotal / WEI_PER_TOKEN == formAmount.GetOr(DEFAULT_PRINCIPAL)
    {
      amountTotal := ParseEther(formAmount.GetOr(DEFAULT_PRINCIPAL));
    }

    /** The arguments of the `computeAmounts` read: the principal and the
        page's debtor score, which is also the score submitted. */
    function BoundsQuery(): (q: (int, int))
      reads this
      requires Valid()
      ensures 0 <= q.1 <= 4
      ensures q.0 == amountTotal && q.1 == debtor.creditScore
    {
      (amountTotal, debtor.creditScore)
    }

    /** `form.handleSubmit(onSubmit)`: an invalid form submits nothing; a
        valid one submits `generateInvoice` once, whatever the bounds are. */
    method HandleSubmit(values: ClaimForm, wallet: Wallet)
      requires Valid() && wallet.Valid()
      modifies this`hash, wallet
      ensures Valid() && wallet.Valid()
      ensures !ValidForm(values, earliestDue) || wallet.account.None? ==>
                wallet.submitted == old(wallet.submitted) && wallet.receipts == old(wallet.receipts)
      ensures !ValidForm(values, earliestDue) ==> hash == old(hash)
      ensures ValidForm(values, earliestDue) && wallet.account.None? ==> hash.None?
      ensures ValidForm(values, earliestDue) && wallet.account.Some? ==>
                values.amount.Some? && values.amountToPay.Some? &&
                hash == Some(|old(wallet.submitted)|) &&
                wallet.submitted == old(wallet.submitted) + [GenerateInvoice(ParamsOf(values, debtor, creditor))] &&
                wallet.receipts == old(wallet.receipts) + [Pending] &&
                ParamsOf(values, debtor, creditor).debtor.creditScore == BoundsQuery().1
    {
      if ValidForm(values, earliestDue) {
        ValidFormMeans(values, earliestDue);
        hash := wallet.Submit(GenerateInvoice(ParamsOf(values, debtor, creditor)));
      }
    }
  }
}
