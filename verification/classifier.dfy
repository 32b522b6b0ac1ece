/** The intent classifier (`analyze_query`): an ordered, first-match-wins scan
    of substring tests over the lower-cased query. */
module Classifier {
  import opened Text
  import opened CryptoDb

  /** The seven intent tags, in the order the rules are tried. */
  datatype Intent =
    | Sustainability
    | Profitability
    | SpecificCrypto
    | GeneralAdvice
    | MarketInfo
    | Help
    | Unknown

  const SustainabilityWords: seq<string> := ["sustainable", "eco", "green", "environment", "energy"]
  const ProfitabilityWords: seq<string> := ["profit", "rising", "trending", "growth", "gains"]
  const AdviceWords: seq<string> := ["invest", "buy", "recommend", "advice", "best"]
  const MarketWords: seq<string> := ["price", "market", "cap", "value"]
  const HelpWords: seq<string> := ["help", "what", "how", "commands"]

  /** `any(word in query for word in words)`. */
  predicate MentionsAny(query: string, words: seq<string>) {
    exists w :: w in words && Contains(query, w)
  }

  /** `any(crypto.lower() in query for crypto in crypto_db.keys())`: only the
      display names are tested, never the ticker symbols. */
  predicate NamesAny(c: Catalog, query: string) {
    exists e :: e in c && Contains(query, Lower(e.name))
  }

  /** Position of each rule in the scan; `Unknown` is the final fallback. */
  function Rank(t: Intent): nat {
    match t
    case Sustainability => 0
    case Profitability => 1
    case SpecificCrypto => 2
    case GeneralAdvice => 3
    case MarketInfo => 4
    case Help => 5
    case Unknown => 6
  }

  /** The test of the rule that yields intent `t`, on an already lower-cased
      query. The fallback rule always holds. */
  predicate RuleHolds(c: Catalog, query: string, t: Intent) {
    match t
    case Sustainability => MentionsAny(query, SustainabilityWords)
    case Profitability => MentionsAny(query, ProfitabilityWords)
    case SpecificCrypto => NamesAny(c, query)
    case GeneralAdvice => MentionsAny(query, AdviceWords)
    case MarketInfo => MentionsAny(query, MarketWords)
    case Help => MentionsAny(query, HelpWords)
    case Unknown => true
  }

  /** The winning intent's rule holds of the lower-cased query, and no rule
      tried before it does: rule order is the tie-break. */
  function Classify(c: Catalog, q: string): (t: Intent)
    ensures RuleHolds(c, Lower(q), t)
    ensures forall u :: Rank(u) < Rank(t) ==> !RuleHolds(c, Lower(q), u)
  {
    var query := Lower(q);
    if MentionsAny(query, SustainabilityWords) then Sustainability
    else if MentionsAny(query, ProfitabilityWords) then Profitability
    else if NamesAny(c, query) then SpecificCrypto
    else if MentionsAny(query, AdviceWords) then GeneralAdvice
    else if MentionsAny(query, MarketWords) then MarketInfo
    else if MentionsAny(query, HelpWords) then Help
    else Unknown
  }

  /** The ordering property pins the classification down: any intent whose
      rule holds while every earlier rule fails is the one `Classify` picks. */
  lemma ClassifyIsFirstHoldingRule(c: Catalog, q: string, t: Intent)
    requires RuleHolds(c, Lower(q), t)
    requires forall u :: Rank(u) < Rank(t) ==> !RuleHolds(c, Lower(q), u)
    ensures Classify(c, q) == t
  {
  }

  /** A sustainability keyword wins over every other keyword or name. */
  lemma SustainabilityWins(c: Catalog, q: string, w: string)
    requires w in SustainabilityWords
    requires Contains(Lower(q), w)
    ensures Classify(c, q) == Sustainability
  {
  }

  /** A query is unknown exactly when it holds none of the keywords of the
      five lists and none of the lower-cased catalog names. */
  lemma UnknownIffNothingMatches(c: Catalog, q: string)
    ensures Classify(c, q) == Unknown <==>
      && !MentionsAny(Lower(q), SustainabilityWords)
      && !MentionsAny(Lower(q), ProfitabilityWords)
      && !NamesAny(c, Lower(q))
      && !MentionsAny(Lower(q), AdviceWords)
      && !MentionsAny(Lower(q), MarketWords)
      && !MentionsAny(Lower(q), HelpWords)
  {
    var t := Classify(c, q);
    if t != Unknown {
      assert RuleHolds(c, Lower(q), t);
    }
  }

  /** Classification ignores letter case. */
  lemma ClassifyIgnoresCase(c: Catalog, q: string)
    ensures Classify(c, Lower(q)) == Classify(c, q)
  {
    LowerIdempotent(q);
  }

  /** Classification reads the catalog's display names and nothing else: two
      catalogs that agree on their names classify every query alike, whatever
      their symbols or other fields. */
  lemma ClassifyIgnoresSymbols(c: Catalog, d: Catalog, q: string)
    requires |c| == |d|
    requires forall i :: 0 <= i < |c| ==> c[i].name == d[i].name
    ensures Classify(c, q) == Classify(d, q)
  {
    var query := Lower(q);
    assert NamesAny(c, query) <==> NamesAny(d, query) by {
      if NamesAny(c, query) {
        var e :| e in c && Contains(query, Lower(e.name));
        var i :| 0 <= i < |c| && c[i] == e;
        assert d[i] in d && Contains(query, Lower(d[i].name));
      }
      if NamesAny(d, query) {
        var e :| e in d && Contains(query, Lower(e.name));
        var i :| 0 <= i < |d| && d[i] == e;
        assert c[i] in c && Contains(query, Lower(c[i].name));
      }
    }
  }
}
