/** The catalog of tracked cryptocurrencies: a read-only, insertion-ordered
    table from display name to entry (`crypto_db` in cryptobuddy.py). */
module CryptoDb {

  /** `price_trend`. */
  datatype Trend = Rising | Stable | Falling

  /** The low/medium/high labels used for `market_cap` and `energy_use`. */
  datatype Tier = Low | Medium | High

  /** One catalog record; `name` is the dictionary key. */
  datatype Entry = Entry(
    name: string,
    symbol: string,
    trend: Trend,
    cap: Tier,
    energy: Tier,
    score: int,
    price: string,
    description: string)

  /** The dictionary in insertion order; Python dictionaries iterate in that order. */
  type Catalog = seq<Entry>

  /** A dictionary cannot hold one key twice, and scores lie on the 0..10 scale. */
  predicate WellFormed(c: Catalog) {
    && (forall i, j :: 0 <= i < j < |c| ==> c[i].name != c[j].name)
    && (forall i :: 0 <= i < |c| ==> 0 <= c[i].score <= 10)
  }

  predicate IsRising(e: Entry) {
    e.trend == Rising
  }

  predicate IsHighCap(e: Entry) {
    e.cap == High
  }

  /** The "highly sustainable (7+/10)" threshold shared by the market overview
      and the lookup's sustainability marker. */
  predicate IsHighlySustainable(e: Entry) {
    e.score >= 7
  }

  /** The "balanced" test of the advice handler: score at least 6 and rising. */
  predicate IsBalanced(e: Entry) {
    e.score >= 6 && e.trend == Rising
  }

  const Bitcoin := Entry("Bitcoin", "BTC", Rising, High, High, 3, "$45,000",
    "The original cryptocurrency with massive adoption")
  const Ethereum := Entry("Ethereum", "ETH", Stable, High, Medium, 6, "$2,800",
    "Smart contract platform with DeFi ecosystem")
  const Cardano := Entry("Cardano", "ADA", Rising, Medium, Low, 8, "$0.45",
    "Proof-of-stake blockchain focused on sustainability")
  const Solana := Entry("Solana", "SOL", Rising, Medium, Low, 7, "$95",
    "High-speed blockchain for DApps and DeFi")
  const Polkadot := Entry("Polkadot", "DOT", Stable, Medium, Low, 8, "$7.50",
    "Multi-chain protocol enabling interoperability")

  /** The five-entry catalog the program is built with. */
  const Reference: Catalog := [Bitcoin, Ethereum, Cardano, Solana, Polkadot]

  lemma ReferenceWellFormed()
    ensures WellFormed(Reference)
  {
  }
}
