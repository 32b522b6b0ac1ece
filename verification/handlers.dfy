/** The response handlers (`get_sustainable_crypto`, `get_profitable_crypto`,
    `get_crypto_info`, `get_general_advice`, `get_market_info`, `get_help`).
    A reply records which canned message was chosen, which entries it shows
    and which markers it puts on them, rather than the formatted text. */
module Handlers {
  import opened Text
  import opened Seqs
  import opened CryptoDb

  /** Marker of a trending block: rocket for a high market cap, chart otherwise. */
  datatype CapMarker = Rocket | Chart

  /** Trend marker of the lookup reply: rising chart for rising, flat chart otherwise. */
  datatype TrendMarker = Up | Flat

  /** Sustainability marker of the lookup reply: seedling for a score of 7 or
      more, lightning otherwise. */
  datatype EcoMarker = Seedling | Lightning

  /** One entry of the trending list. */
  datatype Block = Block(entry: Entry, marker: CapMarker)

  datatype Reply =
    | EcoChoice(eco: Entry)                    // "... is your best eco-friendly choice!"
    | MaxOfEmpty                               // `max()` of an empty catalog raises ValueError
    | HotTrending(blocks: seq<Block>)          // "Hot Trending Cryptos" followed by the caveat line
    | NoRisingTrends                           // "no cryptos ... show strong rising trends"
    | CryptoInfo(info: Entry, trendMark: TrendMarker, ecoMark: EcoMarker)
    | UnknownCrypto                            // "I don't have information about that cryptocurrency"
    | BalancedRecommendation(pick: Entry)      // "My Balanced Recommendation: ..."
    | DefaultAdvice                            // "consider a mix ... Cardano and Solana"
    | MarketOverview(total: nat, rising: nat, sustainable: nat, updated: string)
    | HelpCenter                               // the fixed help text
    | NotSure                                  // the fixed "not sure what you're asking" text
    | DidNotCatch                              // the fixed "didn't catch that" text

  // ---------------------------------------------------------------------------
  // Sustainability: argmax by score
  // ---------------------------------------------------------------------------

  /** `i` is where Python's `max(..., key=score)` lands: no entry scores
      higher, and every earlier entry scores strictly lower, so ties go to the
      entry that comes first. */
  ghost predicate IsFirstMax(c: Catalog, i: int) {
    && 0 <= i < |c|
    && (forall k :: 0 <= k < |c| ==> c[k].score <= c[i].score)
    && (forall k :: 0 <= k < i ==> c[k].score < c[i].score)
  }

  /** Left-to-right scan that replaces the running best only on a strictly
      greater score, as `max` does. */
  function MostSustainableIndex(c: Catalog): (i: nat)
    requires c != []
    ensures IsFirstMax(c, i)
  {
    if |c| == 1 then 0
    else
      var best := MostSustainableIndex(c[..|c| - 1]);
      if c[|c| - 1].score > c[best].score then |c| - 1 else best
  }

  /** `get_sustainable_crypto`: names the highest-scoring entry, the first one
      on ties; an empty catalog makes `max` raise. */
  function SustainableReply(c: Catalog): (r: Reply)
    ensures r.MaxOfEmpty? <==> c == []
    ensures r.EcoChoice? || r.MaxOfEmpty?
    ensures r.EcoChoice? ==> exists i :: IsFirstMax(c, i) && c[i] == r.eco
  {
    if c == [] then MaxOfEmpty
    else
      var i := MostSustainableIndex(c);
      assert IsFirstMax(c, i);
      EcoChoice(c[i])
  }

  // ---------------------------------------------------------------------------
  // Profitability: rising entries with a market-cap marker
  // ---------------------------------------------------------------------------

  function CapMarkerOf(e: Entry): CapMarker {
    if e.cap == High then Rocket else Chart
  }

  /** The entries the blocks show, in order. */
  function BlockEntries(bs: seq<Block>): (es: seq<Entry>)
    ensures |es| == |bs|
    ensures forall k :: 0 <= k < |bs| ==> es[k] == bs[k].entry
  {
    seq(|bs|, k requires 0 <= k < |bs| => bs[k].entry)
  }

  /** The loop over the rising entries: one block per rising entry in catalog
      order, none for any other entry, each marked by its market cap. */
  function TrendingBlocks(c: Catalog): (bs: seq<Block>)
    ensures BlockEntries(bs) == Filter(c, IsRising)
    ensures forall k :: 0 <= k < |bs| ==> (bs[k].marker == Rocket <==> IsHighCap(bs[k].entry))
  {
    if c == [] then []
    else
      var head := if IsRising(c[0]) then [Block(c[0], CapMarkerOf(c[0]))] else [];
      var bs := head + TrendingBlocks(c[1..]);
      assert BlockEntries(bs) == BlockEntries(head) + BlockEntries(TrendingBlocks(c[1..]));
      bs
  }

  /** The trending list of a concatenation is the two lists one after the
      other: blocks come in catalog order. */
  lemma {:induction false} TrendingBlocksAppend(a: Catalog, b: Catalog)
    ensures TrendingBlocks(a + b) == TrendingBlocks(a) + TrendingBlocks(b)
  {
    if a == [] {
      assert a + b == b;
    } else {
      assert (a + b)[1..] == a[1..] + b;
      TrendingBlocksAppend(a[1..], b);
    }
  }

  /** `get_profitable_crypto`: the fixed "no rising trends" message when no
      entry is rising, otherwise one block per rising entry and no other. The
      `best_crypto` it computes and never uses has no effect on the reply. */
  function TrendingReply(c: Catalog): (r: Reply)
    ensures r.NoRisingTrends? || r.HotTrending?
    ensures r.NoRisingTrends? <==> forall i :: 0 <= i < |c| ==> !IsRising(c[i])
    ensures r.HotTrending? ==> |r.blocks| == CountIf(c, IsRising)
    ensures r.HotTrending? ==> BlockEntries(r.blocks) == Filter(c, IsRising)
    ensures r.HotTrending? ==> forall k :: 0 <= k < |r.blocks| ==>
      (r.blocks[k].marker == Rocket <==> IsHighCap(r.blocks[k].entry))
  {
    var bs := TrendingBlocks(c);
    CountIsFilterLength(c, IsRising);
    if bs == [] then NoRisingTrends else HotTrending(bs)
  }

  /** Every block shows a rising catalog entry, and every rising catalog entry
      has a block. */
  lemma TrendingShowsExactlyRising(c: Catalog)
    requires TrendingReply(c).HotTrending?
    ensures forall k :: 0 <= k < |TrendingReply(c).blocks| ==>
      TrendingReply(c).blocks[k].entry in c && IsRising(TrendingReply(c).blocks[k].entry)
    ensures forall i :: 0 <= i < |c| && IsRising(c[i]) ==>
      c[i] in BlockEntries(TrendingReply(c).blocks)
  {
    var bs := TrendingReply(c).blocks;
    var f := Filter(c, IsRising);
    forall k | 0 <= k < |bs|
      ensures bs[k].entry in c && IsRising(bs[k].entry)
    {
      assert bs[k].entry == f[k];
      FilterMembers(c, IsRising, f[k]);
    }
    forall i | 0 <= i < |c| && IsRising(c[i])
      ensures c[i] in BlockEntries(bs)
    {
      FilterMembers(c, IsRising, c[i]);
    }
  }

  // ---------------------------------------------------------------------------
  // Specific cryptocurrency: first entry named or tickered in the query
  // ---------------------------------------------------------------------------

  /** `crypto_name.lower() in query or crypto_data['symbol'].lower() in query`,
      on an already lower-cased query. */
  predicate Mentions(query: string, e: Entry) {
    Contains(query, Lower(e.name)) || Contains(query, Lower(e.symbol))
  }

  /** `get_crypto_info`: the first entry in catalog order that the lower-cased
      query mentions by name or by symbol, with its markers; the fixed
      not-found message when there is none. */
  function CryptoInfoReply(c: Catalog, q: string): (r: Reply)
    ensures r.CryptoInfo? || r.UnknownCrypto?
    ensures r.UnknownCrypto? <==> forall i :: 0 <= i < |c| ==> !Mentions(Lower(q), c[i])
    ensures r.CryptoInfo? ==> exists i :: 0 <= i < |c| && c[i] == r.info
                                        && Mentions(Lower(q), c[i])
                                        && forall j :: 0 <= j < i ==> !Mentions(Lower(q), c[j])
    ensures r.CryptoInfo? ==> (r.trendMark == Up <==> IsRising(r.info))
    ensures r.CryptoInfo? ==> (r.ecoMark == Seedling <==> IsHighlySustainable(r.info))
  {
    var query := Lower(q);
    match FirstIndex(c, e => Mentions(query, e))
    case None => UnknownCrypto
    case Some(i) =>
      var e := c[i];
      CryptoInfo(e,
        if IsRising(e) then Up else Flat,
        if IsHighlySustainable(e) then Seedling else Lightning)
  }

  // ---------------------------------------------------------------------------
  // General advice: a random balanced entry
  // ---------------------------------------------------------------------------

  /** The `balanced_cryptos` list: score at least 6 and rising, in catalog order. */
  function BalancedCandidates(c: Catalog): seq<Entry> {
    Filter(c, IsBalanced)
  }

  /** The index `random.choice` may return for `choice` out of the candidates. */
  predicate ValidChoice(c: Catalog, choice: nat) {
    BalancedCandidates(c) == [] || choice < |BalancedCandidates(c)|
  }

  /** `get_general_advice`, with the random pick supplied as an index into
      the candidates: a balanced entry if there is one, the fixed fallback
      text otherwise. */
  function AdviceReply(c: Catalog, choice: nat): (r: Reply)
    requires ValidChoice(c, choice)
    ensures r.BalancedRecommendation? || r.DefaultAdvice?
    ensures r.DefaultAdvice? <==> forall i :: 0 <= i < |c| ==> !IsBalanced(c[i])
    ensures r.BalancedRecommendation? ==> r.pick in c && r.pick.score >= 6 && r.pick.trend == Rising
  {
    var cands := BalancedCandidates(c);
    CountIsFilterLength(c, IsBalanced);
    if cands == [] then DefaultAdvice
    else
      FilterMembers(c, IsBalanced, cands[choice]);
      BalancedRecommendation(cands[choice])
  }

  /** Every balanced entry is the recommendation for some choice of the
      random index. */
  lemma EveryBalancedEntryCanBePicked(c: Catalog, e: Entry)
    requires e in c && IsBalanced(e)
    ensures exists choice: nat :: ValidChoice(c, choice)
                                  && AdviceReply(c, choice) == BalancedRecommendation(e)
  {
    var cands := BalancedCandidates(c);
    FilterMembers(c, IsBalanced, e);
    var k :| 0 <= k < |cands| && cands[k] == e;
    assert ValidChoice(c, k) && AdviceReply(c, k) == BalancedRecommendation(e);
  }

  // ---------------------------------------------------------------------------
  // Market overview: three counts
  // ---------------------------------------------------------------------------

  /** `get_market_info`; `updated` stands for the formatted current time. */
  function MarketInfoReply(c: Catalog, updated: string): (r: Reply)
    ensures r.MarketOverview? && r.total == |c| && r.updated == updated
    ensures r.rising <= r.total && r.sustainable <= r.total
    ensures r.rising == |Filter(c, IsRising)|
    ensures r.sustainable == |Filter(c, IsHighlySustainable)|
  {
    CountIsFilterLength(c, IsRising);
    CountIsFilterLength(c, IsHighlySustainable);
    MarketOverview(|c|, CountIf(c, IsRising), CountIf(c, IsHighlySustainable), updated)
  }

  /** The overview's rising count is the length of the trending list, and is
      zero exactly when the trending handler gives its fixed message. */
  lemma MarketAgreesWithTrending(c: Catalog, updated: string)
    ensures MarketInfoReply(c, updated).rising == 0 <==> TrendingReply(c).NoRisingTrends?
    ensures TrendingReply(c).HotTrending? ==>
      MarketInfoReply(c, updated).rising == |TrendingReply(c).blocks|
  {
    CountIsFilterLength(c, IsRising);
  }

  /** `get_help`: fixed text, no catalog data. */
  function HelpReply(): Reply {
    HelpCenter
  }
}
