/** Facts about the five-entry catalog the program ships with. */
module ReferenceFacts {
  import opened Text
  import opened Seqs
  import opened CryptoDb
  import opened Classifier
  import opened Handlers
  import opened Buddy

  /** Cardano and Polkadot both score 8; `max` keeps the first, Cardano. */
  lemma EcoChoiceIsCardano()
    ensures Cardano.score == Polkadot.score
    ensures SustainableReply(Reference) == EcoChoice(Cardano)
  {
    var i := MostSustainableIndex(Reference);
    assert IsFirstMax(Reference, i);
    assert Reference[2].score == 8 && Reference[4].score == 8;
  }

  /** None of the keywords occurs in "dot". */
  lemma DotHoldsNoKeyword()
    ensures !MentionsAny("dot", SustainabilityWords) && !MentionsAny("dot", ProfitabilityWords)
    ensures !MentionsAny("dot", AdviceWords) && !MentionsAny("dot", MarketWords)
    ensures !MentionsAny("dot", HelpWords)
  {
    forall w | w in SustainabilityWords + ProfitabilityWords + AdviceWords + MarketWords + HelpWords
      ensures !Contains("dot", w)
    {
      ContainsFits("dot", w);
    }
  }

  /** A query shorter than every display name names no entry. */
  lemma ShortQueryNamesNothing(c: Catalog, query: string)
    requires forall e :: e in c ==> |e.name| > |query|
    ensures !NamesAny(c, query)
  {
    forall e | e in c
      ensures !Contains(query, Lower(e.name))
    {
      ContainsFits(query, Lower(e.name));
    }
  }

  /** Polkadot is the first entry that "dot" mentions, through its symbol. */
  lemma DotMentionsOnlyPolkadot()
    ensures forall i :: 0 <= i < 4 ==> !Mentions("dot", Reference[i])
    ensures Mentions("dot", Polkadot)
  {
    var q := "dot";
    forall i | 0 <= i < 4
      ensures !Mentions(q, Reference[i])
    {
      ContainsFits(q, Lower(Reference[i].name));
      ContainsFits(q, Lower(Reference[i].symbol));
    }
    assert Lower(Polkadot.symbol) == q;
    assert OccursAt(q, q, 0);
    ContainsIffOccurs(q, q);
  }

  /** A ticker alone is not a name, so the classifier does not route it to the
      lookup, although the lookup would resolve it to Polkadot. */
  lemma TickerOnlyQueryIsUnknown(q: string)
    requires Lower(q) == "dot"
    ensures Classify(Reference, q) == Unknown
  {
    DotHoldsNoKeyword();
    ShortQueryNamesNothing(Reference, Lower(q));
    UnknownIffNothingMatches(Reference, q);
  }

  /** The lookup itself resolves the ticker to Polkadot. */
  lemma TickerResolvesToPolkadot(q: string)
    requires Lower(q) == "dot"
    ensures CryptoInfoReply(Reference, q) == CryptoInfo(Polkadot, Flat, Seedling)
  {
    DotMentionsOnlyPolkadot();
    var r := CryptoInfoReply(Reference, q);
    assert Mentions(Lower(q), Reference[4]);
    var i :| 0 <= i < |Reference| && Reference[i] == r.info && Mentions(Lower(q), Reference[i]);
    assert i == 4;
  }

  /** "DOT" in capitals is such a query. */
  lemma UpperCaseTicker()
    ensures Lower("DOT") == "dot"
  {
  }

  /** Through the dispatcher a ticker-only query gets the "not sure" reply. */
  lemma TickerOnlyQueryGetsNotSure(q: string, choice: nat, updated: string)
    requires Lower(q) == "dot"
    requires ValidChoice(Reference, choice)
    ensures ProcessQuery(Reference, q, choice, updated) == NotSure
  {
    TickerOnlyQueryIsUnknown(q);
    assert !IsBlank(q) by {
      BlankIffAllSpace(q);
      assert LowerChar(q[0]) == 'd';
    }
    assert Origin(ProcessQuery(Reference, q, choice, updated)) == Some(Unknown);
  }

  /** Bitcoin, Cardano and Solana are rising; only Bitcoin has a high market cap. */
  lemma ReferenceTrending()
    ensures TrendingReply(Reference)
            == HotTrending([Block(Bitcoin, Rocket), Block(Cardano, Chart), Block(Solana, Chart)])
  {
    ReferenceTails();
    assert TrendingBlocks([Polkadot]) == [];
    assert TrendingBlocks([Solana, Polkadot]) == [Block(Solana, Chart)];
    assert TrendingBlocks([Cardano, Solana, Polkadot]) == [Block(Cardano, Chart), Block(Solana, Chart)];
    assert TrendingBlocks([Ethereum, Cardano, Solana, Polkadot])
           == [Block(Cardano, Chart), Block(Solana, Chart)];
  }

  /** Five entries, three rising, three scoring 7 or more. */
  lemma ReferenceMarket(updated: string)
    ensures MarketInfoReply(Reference, updated) == MarketOverview(5, 3, 3, updated)
  {
    ReferenceTails();
    assert CountIf([Polkadot], IsRising) == 0;
    assert CountIf([Solana, Polkadot], IsRising) == 1;
    assert CountIf([Cardano, Solana, Polkadot], IsRising) == 2;
    assert CountIf([Ethereum, Cardano, Solana, Polkadot], IsRising) == 2;
    assert CountIf([Polkadot], IsHighlySustainable) == 1;
    assert CountIf([Solana, Polkadot], IsHighlySustainable) == 2;
    assert CountIf([Cardano, Solana, Polkadot], IsHighlySustainable) == 3;
    assert CountIf([Ethereum, Cardano, Solana, Polkadot], IsHighlySustainable) == 3;
  }

  /** Cardano and Solana are the balanced candidates, in that order. */
  lemma ReferenceAdvice()
    ensures BalancedCandidates(Reference) == [Cardano, Solana]
    ensures AdviceReply(Reference, 0) == BalancedRecommendation(Cardano)
    ensures AdviceReply(Reference, 1) == BalancedRecommendation(Solana)
  {
    ReferenceTails();
    assert Filter([Polkadot], IsBalanced) == [];
    assert Filter([Solana, Polkadot], IsBalanced) == [Solana];
    assert Filter([Cardano, Solana, Polkadot], IsBalanced) == [Cardano, Solana];
    assert Filter([Ethereum, Cardano, Solana, Polkadot], IsBalanced) == [Cardano, Solana];
  }

  /** The suffixes the recursive scans over the catalog walk through. */
  lemma ReferenceTails()
    ensures Reference[1..] == [Ethereum, Cardano, Solana, Polkadot]
    ensures Reference[1..][1..] == [Cardano, Solana, Polkadot]
    ensures Reference[1..][1..][1..] == [Solana, Polkadot]
    ensures Reference[1..][1..][1..][1..] == [Polkadot]
    ensures Reference[1..][1..][1..][1..][1..] == []
  {
  }
}
