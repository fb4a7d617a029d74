/** Token amounts cross the user-interface boundary in whole tokens and the
    ledger boundary in wei, 18 decimal places further down. */
module Amounts {

  const WEI_PER_TOKEN: nat := 1_000_000_000_000_000_000

  /** `parseEther`: a whole number of tokens as entered, in wei. */
  function ParseEther(tokens: int): (wei: int)
    ensures wei % WEI_PER_TOKEN == 0 && wei / WEI_PER_TOKEN == tokens
    ensures tokens >= 1 ==> wei >= WEI_PER_TOKEN
    ensures tokens >= 0 <==> wei >= 0
  {
    tokens * WEI_PER_TOKEN
  }

  /** `formatEther` on a ledger amount: its whole tokens and the wei left over. */
  datatype Decimal = Decimal(whole: nat, fraction: nat)

  function FormatEther(wei: nat): (d: Decimal)
    ensures d.fraction < WEI_PER_TOKEN
    ensures d.whole * WEI_PER_TOKEN + d.fraction == wei
  {
    Decimal(wei / WEI_PER_TOKEN, wei % WEI_PER_TOKEN)
  }

  /** Displaying a scaled whole amount gives back what was entered. */
  lemma FormatParseRoundTrip(tokens: nat)
    ensures FormatEther(ParseEther(tokens)) == Decimal(tokens, 0)
  {
  }

  /** Scaling never merges two different entries. */
  lemma ParseEtherInjective(a: int, b: int)
    ensures ParseEther(a) == ParseEther(b) ==> a == b
  {
  }
}
