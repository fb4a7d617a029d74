/** The record types shared by every page: credit scores, invoice statuses,
    companies and invoices, as the ledger hands them to the frontend. */
module Types {

  datatype Option<+T> = None | Some(value: T) {
    function GetOr(default: T): T {
      match this
      case Some(v) => v
      case None => default
    }
  }

  /** The outcome of one awaited ledger read: it returned a value or it threw. */
  datatype Call<+T> = Returned(value: T) | Threw

  /** A `0x…` account or contract address, compared by plain string equality. */
  type Address = string

  /** An invoice NFT id (a uint256 on the ledger). */
  type TokenId = nat

  /** Debtor risk tiers; A is the best. */
  datatype CreditScore = A | B | C | D | E | F

  /** The numeric code the ledger uses for a tier. */
  function ScoreCode(s: CreditScore): (n: nat)
    ensures n <= 5
  {
    match s
    case A => 0
    case B => 1
    case C => 2
    case D => 3
    case E => 4
    case F => 5
  }

  /** The tier a numeric score stands for (`CreditScore[n]`), if any. */
  function ScoreOfCode(n: int): (r: Option<CreditScore>)
    ensures r.Some? <==> 0 <= n <= 5
    ensures r.Some? ==> ScoreCode(r.value) == n
  {
    if n == 0 then Some(A)
    else if n == 1 then Some(B)
    else if n == 2 then Some(C)
    else if n == 3 then Some(D)
    else if n == 4 then Some(E)
    else if n == 5 then Some(F)
    else None
  }

  /** The letter a tier is displayed with. */
  function ScoreLetter(s: CreditScore): (c: char)
    ensures 'A' <= c <= 'F'
    ensures c as int - 'A' as int == ScoreCode(s)
  {
    match s
    case A => 'A'
    case B => 'B'
    case C => 'C'
    case D => 'D'
    case E => 'E'
    case F => 'F'
  }

  /** Every code 0..5 has exactly one tier, and every tier exactly one code. */
  lemma ScoreCodeBijective(s: CreditScore, t: CreditScore)
    ensures ScoreOfCode(ScoreCode(s)) == Some(s)
    ensures ScoreCode(s) == ScoreCode(t) ==> s == t
    ensures ScoreLetter(s) == ScoreLetter(t) ==> s == t
  {
  }

  /** The lifecycle stages of an invoice. */
  datatype InvoiceStatus = New | Accepted | InProgress | Paid | Overdue

  function StatusCode(s: InvoiceStatus): (n: nat)
    ensures n <= 4
  {
    match s
    case New => 0
    case Accepted => 1
    case InProgress => 2
    case Paid => 3
    case Overdue => 4
  }

  /** The status a raw uint8 stands for, if any. */
  function StatusOfCode(n: int): (r: Option<InvoiceStatus>)
    ensures r.Some? <==> 0 <= n <= 4
    ensures r.Some? ==> StatusCode(r.value) == n
  {
    if n == 0 then Some(New)
    else if n == 1 then Some(Accepted)
    else if n == 2 then Some(InProgress)
    else if n == 3 then Some(Paid)
    else if n == 4 then Some(Overdue)
    else None
  }

  /** The French label a status is displayed with (`InvoiceStatus[code]`). */
  function StatusLabel(s: InvoiceStatus): (l: string)
    ensures l == ["Nouvelle", "Acceptée", "En cours", "Payée", "En retard"][StatusCode(s)]
  {
    match s
    case New => "Nouvelle"
    case Accepted => "Acceptée"
    case InProgress => "En cours"
    case Paid => "Payée"
    case Overdue => "En retard"
  }

  /** The literals 0 and 1 that the pages compare against mean New and
      Accepted; codes and labels identify statuses uniquely. */
  lemma StatusCodeBijective(s: InvoiceStatus, t: InvoiceStatus)
    ensures StatusOfCode(StatusCode(s)) == Some(s)
    ensures StatusCode(s) == 0 <==> s == New
    ensures StatusCode(s) == 1 <==> s == Accepted
    ensures StatusCode(s) == StatusCode(t) ==> s == t
    ensures StatusLabel(s) == StatusLabel(t) ==> s == t
  {
  }

  /** A party to an invoice: its address and a numeric (JS `number`) score. */
  datatype Company = Company(name: Address, creditScore: int)

  /** An invoice record. The ledger's record carries no token id; `tokenId`
      is None until a page stamps the id it fetched the record with.
      Amounts are uint256 values in wei, unbounded here as in a JS bigint. */
  datatype Invoice = Invoice(
    tokenId: Option<TokenId>,
    id: string,
    activity: string,
    country: string,
    dueDate: nat,
    amount: nat,
    amountToPay: nat,
    collateral: nat,
    debtor: Company,
    creditor: Company,
    investor: Company,
    invoiceStatus: InvoiceStatus)

  /** The argument of `generateInvoice`: an invoice before the ledger gives it
      an id, a collateral, an investor and a status. */
  datatype InvoiceParams = InvoiceParams(
    id: string,
    activity: string,
    country: string,
    dueDate: int,
    amount: int,
    amountToPay: int,
    debtor: Company,
    creditor: Company)
}
