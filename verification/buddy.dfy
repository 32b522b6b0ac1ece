/** The dispatcher (`process_query`): a blank query short-circuits, every
    other query is classified and handed to the handler of its intent. */
module Buddy {
  import opened Text
  import opened Seqs
  import opened CryptoDb
  import opened Classifier
  import opened Handlers

  /** The intent whose handler can produce a reply; `None` for the blank-input
      message, which no handler produces. */
  function Origin(r: Reply): Option<Intent> {
    match r
    case EcoChoice(_) => Some(Sustainability)
    case MaxOfEmpty => Some(Sustainability)
    case HotTrending(_) => Some(Profitability)
    case NoRisingTrends => Some(Profitability)
    case CryptoInfo(_, _, _) => Some(SpecificCrypto)
    case UnknownCrypto => Some(SpecificCrypto)
    case BalancedRecommendation(_) => Some(GeneralAdvice)
    case DefaultAdvice => Some(GeneralAdvice)
    case MarketOverview(_, _, _, _) => Some(MarketInfo)
    case HelpCenter => Some(Help)
    case NotSure => Some(Unknown)
    case DidNotCatch => None
  }

  /** The handler of each intent; the fallback intent gets the fixed
      "not sure" text. `choice` is the value `random.choice` would
      draw for the advice handler, `updated` the formatted current time for
      the market overview. */
  function Respond(c: Catalog, t: Intent, q: string, choice: nat, updated: string): (r: Reply)
    requires ValidChoice(c, choice)
    ensures Origin(r) == Some(t)
    ensures t == Sustainability ==> r == SustainableReply(c)
    ensures t == Profitability ==> r == TrendingReply(c)
    ensures t == SpecificCrypto ==> r == CryptoInfoReply(c, q)
    ensures t == GeneralAdvice ==> r == AdviceReply(c, choice)
    ensures t == MarketInfo ==> r == MarketInfoReply(c, updated)
    ensures t == Help ==> r == HelpReply()
    ensures r.UnknownCrypto? ==> forall i :: 0 <= i < |c| ==> !Mentions(Lower(q), c[i])
  {
    match t
    case Sustainability =>
      var r := SustainableReply(c);
      assert r.EcoChoice? || r.MaxOfEmpty?;
      r
    case Profitability =>
      var r := TrendingReply(c);
      assert r.HotTrending? || r.NoRisingTrends?;
      r
    case SpecificCrypto =>
      var r := CryptoInfoReply(c, q);
      assert r.CryptoInfo? || r.UnknownCrypto?;
      r
    case GeneralAdvice =>
      var r := AdviceReply(c, choice);
      assert r.BalancedRecommendation? || r.DefaultAdvice?;
      r
    case MarketInfo => MarketInfoReply(c, updated)
    case Help => HelpReply()
    case Unknown => NotSure
  }

  /** `process_query`: the fixed "didn't catch that" message exactly for blank
      input; otherwise exactly the reply of the handler for the classified
      intent, and never the lookup's not-found message. */
  function ProcessQuery(c: Catalog, q: string, choice: nat, updated: string): (r: Reply)
    requires ValidChoice(c, choice)
    ensures r.DidNotCatch? <==> IsBlank(q)
    ensures !IsBlank(q) ==> Origin(r) == Some(Classify(c, q))
    ensures !IsBlank(q) ==> r == Respond(c, Classify(c, q), q, choice, updated)
    ensures !IsBlank(q) && Classify(c, q) == Sustainability ==> r == SustainableReply(c)
    ensures !IsBlank(q) && Classify(c, q) == Profitability ==> r == TrendingReply(c)
    ensures !IsBlank(q) && Classify(c, q) == SpecificCrypto ==> r == CryptoInfoReply(c, q)
    ensures !IsBlank(q) && Classify(c, q) == GeneralAdvice ==> r == AdviceReply(c, choice)
    ensures !IsBlank(q) && Classify(c, q) == MarketInfo ==> r == MarketInfoReply(c, updated)
    ensures !IsBlank(q) && Classify(c, q) == Help ==> r == HelpReply()
    ensures !IsBlank(q) && Classify(c, q) == Unknown ==> r == NotSure
    ensures !r.UnknownCrypto?
  {
    if IsBlank(q) then DidNotCatch
    else
      var t := Classify(c, q);
      var r := Respond(c, t, q, choice, updated);
      if t == SpecificCrypto then
        ClassifiedCryptoIsFound(c, q);
        r
      else
        r
  }

  /** Whenever the classifier says `SpecificCrypto`, the lookup finds an
      entry: the name that made the classifier fire also satisfies the
      lookup's name-or-symbol test. */
  lemma ClassifiedCryptoIsFound(c: Catalog, q: string)
    requires Classify(c, q) == SpecificCrypto
    ensures exists i :: 0 <= i < |c| && Mentions(Lower(q), c[i])
    ensures CryptoInfoReply(c, q).CryptoInfo?
  {
    assert NamesAny(c, Lower(q));
    var e :| e in c && Contains(Lower(q), Lower(e.name));
    var i :| 0 <= i < |c| && c[i] == e;
    assert Mentions(Lower(q), c[i]);
  }

  /** Blank input is answered without classification: the reply is the same
      for every catalog and every random draw. */
  lemma BlankInputIgnoresEverything(c: Catalog, d: Catalog, q: string,
                                    choice: nat, choice': nat, updated: string, updated': string)
    requires ValidChoice(c, choice) && ValidChoice(d, choice')
    requires forall i :: 0 <= i < |q| ==> IsSpace(q[i])
    ensures ProcessQuery(c, q, choice, updated) == DidNotCatch
    ensures ProcessQuery(c, q, choice, updated) == ProcessQuery(d, q, choice', updated')
  {
    BlankIffAllSpace(q);
  }

  /** A non-blank query gets the "not sure" reply exactly when it holds no
      keyword of any list and no catalog name. */
  lemma NotSureIffNothingMatches(c: Catalog, q: string, choice: nat, updated: string)
    requires ValidChoice(c, choice)
    requires !IsBlank(q)
    ensures ProcessQuery(c, q, choice, updated).NotSure? <==>
      forall t :: t != Unknown ==> !RuleHolds(c, Lower(q), t)
  {
    var t := Classify(c, q);
    assert t != Unknown ==> RuleHolds(c, Lower(q), t);
    assert Origin(ProcessQuery(c, q, choice, updated)) == Some(t);
  }

  /** A query naming a catalog entry, with no sustainability or profitability
      keyword to shadow the name, is answered with a lookup that succeeds on
      that entry or an earlier one. */
  lemma NamedEntryIsLookedUp(c: Catalog, q: string, i: nat, choice: nat, updated: string)
    requires ValidChoice(c, choice)
    requires i < |c| && Contains(Lower(q), Lower(c[i].name))
    requires !MentionsAny(Lower(q), SustainabilityWords) && !MentionsAny(Lower(q), ProfitabilityWords)
    requires !IsBlank(q)
    ensures ProcessQuery(c, q, choice, updated).CryptoInfo?
    ensures exists j :: 0 <= j <= i && c[j] == ProcessQuery(c, q, choice, updated).info
  {
    assert c[i] in c;
    assert Classify(c, q) == SpecificCrypto;
    var r := ProcessQuery(c, q, choice, updated);
    assert Mentions(Lower(q), c[i]);
    assert r == CryptoInfoReply(c, q);
  }

  /** Blank-input detection is unaffected by lower-casing. */
  lemma BlankIgnoresCase(q: string)
    ensures IsBlank(Lower(q)) <==> IsBlank(q)
  {
    BlankIffAllSpace(q);
    BlankIffAllSpace(Lower(q));
    assert forall i :: 0 <= i < |q| ==> (IsSpace(Lower(q)[i]) <==> IsSpace(q[i]));
  }

  /** The whole pipeline ignores letter case: a query and its lower-case form
      get the same reply. */
  lemma ProcessQueryIgnoresCase(c: Catalog, q: string, choice: nat, updated: string)
    requires ValidChoice(c, choice)
    ensures ProcessQuery(c, Lower(q), choice, updated) == ProcessQuery(c, q, choice, updated)
  {
    BlankIgnoresCase(q);
    ClassifyIgnoresCase(c, q);
    LowerIdempotent(q);
  }
}
