# CryptoBuddy, modelled in Dafny

CryptoBuddy is a rule-based chatbot. It answers free-text questions about a
fixed catalog of five cryptocurrencies. Each non-blank question goes through
three steps:

- it is lower-cased;
- `analyze_query` assigns it one of seven intents by an ordered,
  first-match-wins scan of substring tests;
- `process_query` hands it to the handler of that intent.

Each handler reads the catalog and picks one canned reply:

- the most sustainable coin;
- the rising coins with their market-cap markers;
- the entry the question names;
- a random balanced pick;
- three market counts;
- the help text.

The model has seven modules:

- `Text` (`text.dfy`): ASCII lower-casing, substring search, and the `strip`
  blank test.
- `Seqs` (`seqs.dfy`): order-preserving filter, counting and first-match
  search over sequences.
- `CryptoDb` (`cryptodb.dfy`): the catalog entry and the catalog as an
  insertion-ordered sequence. It also holds the five shipped entries as
  `Reference`.
- `Classifier` (`classifier.dfy`): `analyze_query`.
- `Handlers` (`handlers.dfy`): the six handlers. A reply is a datatype that
  records which canned message was chosen, which entries it shows and with
  which markers. It does not hold the formatted text.
- `Buddy` (`buddy.dfy`): `process_query`.
- `ReferenceFacts` (`reference.dfy`): facts about the shipped catalog.

Two inputs are parameters:

- `random.choice` in the advice handler is an index `choice` into the
  candidate list, checked by `ValidChoice`;
- the `datetime.now()` stamp of the market overview is an opaque string,
  `updated`.

`get_help` returns fixed text that reads nothing from the catalog. It is
modelled as the single `HelpCenter` reply of `Handlers.HelpReply`, which
`Buddy.Respond` and `Buddy.ProcessQuery` return for the help intent.

Two consequences of the code are worth stating:

- A ticker-only query such as "DOT" is classified as unknown, because the
  classifier tests only display names, never symbols. `process_query`
  therefore answers "not sure", although the lookup handler would resolve
  the same query to Polkadot. `ReferenceFacts.UpperCaseTicker` shows that
  "DOT" lower-cases to "dot". `ReferenceFacts.TickerOnlyQueryIsUnknown`,
  `ReferenceFacts.TickerResolvesToPolkadot` and
  `ReferenceFacts.TickerOnlyQueryGetsNotSure` state the rest.
- The lookup's not-found reply is unreachable through `process_query`. The
  classifier routes a query to the lookup only when the query contains a
  display name, and the lookup accepts that same name.
  `Buddy.ClassifiedCryptoIsFound` and the last postcondition of
  `Buddy.ProcessQuery` state this.

## Model

| member | source | states |
|---|---|---|
| Text.Lower | cryptobuddy.py:82 | the lower-cased query has the input's length, and each character is the lower-case form of the input's character at that position |
| Text.LowerChar | cryptobuddy.py:82 | a character maps to its lower-case form: an upper-case ASCII letter moves to its lower-case letter, and every other character is unchanged |
| Text.LowerIdempotent | cryptobuddy.py:82 | lower-casing an already lower-cased query changes nothing; this is why a query and its lower-case form are classified, and answered, alike |
| Text.ContainsIffOccurs | cryptobuddy.py:85 | Python's `word in query` holds exactly when the word occurs at some position of the query |
| Text.TrimStartSpec | cryptobuddy.py:223 | stripping the front keeps a suffix, and drops only whitespace, up to the first non-whitespace character |
| Text.TrimEndSpec | cryptobuddy.py:223 | stripping the back keeps a prefix, and drops only whitespace, back to the last non-whitespace character |
| Text.BlankIffAllSpace | cryptobuddy.py:223 | `not user_input.strip()` holds exactly when every character of the input is whitespace |
| Seqs.Filter | cryptobuddy.py:126-127 | the comprehension keeps at most the input's entries, and every kept entry satisfies the test |
| Seqs.FilterMembers | cryptobuddy.py:168-171 | an entry is kept exactly when it is in the input and satisfies the test |
| Seqs.FilterAppend | cryptobuddy.py:169-171 | filtering a concatenation is filtering each part, in order |
| Seqs.CountIf | cryptobuddy.py:191-192 | a count of entries passing a test never exceeds the number of entries |
| Seqs.CountIsFilterLength | cryptobuddy.py:191-192 | `sum(1 for ... if ...)` equals the length of the filtered list, and is zero exactly when no entry satisfies the test |
| Seqs.FirstIndex | cryptobuddy.py:150-151 | the early-return loop finds the first index that satisfies the test, and finds none exactly when no index does |
| CryptoDb.ReferenceWellFormed | cryptobuddy.py:14-60 | the shipped catalog has distinct names and scores on the 0..10 scale |
| Classifier.Classify | cryptobuddy.py:80-109 | the chosen intent's rule holds of the lower-cased query, and every rule tried before it fails |
| Classifier.ClassifyIsFirstHoldingRule | cryptobuddy.py:84-109 | any intent whose rule holds while every earlier rule fails is the one `analyze_query` returns |
| Classifier.SustainabilityWins | cryptobuddy.py:85-86 | a query holding any sustainability keyword is classified as sustainability, whatever else it holds |
| Classifier.UnknownIffNothingMatches | cryptobuddy.py:108-109 | a query is unknown exactly when it holds no keyword of the five lists and no lower-cased catalog name |
| Classifier.ClassifyIgnoresCase | cryptobuddy.py:82 | a query and its lower-case form are classified alike |
| Classifier.ClassifyIgnoresSymbols | cryptobuddy.py:93 | two catalogs with the same names, in the same order, classify every query alike, whatever their symbols |
| Handlers.MostSustainableIndex | cryptobuddy.py:113-114 | `max` by score lands on an entry no other entry outscores, and every earlier entry scores strictly lower |
| Handlers.SustainableReply | cryptobuddy.py:111-122 | the reply names a first-maximum entry; `max` of an empty catalog raises, and only then |
| Handlers.TrendingBlocks | cryptobuddy.py:137-142 | the loop emits exactly the rising entries, in catalog order, each with a rocket exactly when its market cap is high |
| Handlers.TrendingBlocksAppend | cryptobuddy.py:137 | the trending list of a concatenation is the two trending lists one after the other |
| Handlers.TrendingReply | cryptobuddy.py:124-144 | the fixed no-trends message appears exactly when no entry is rising; otherwise there is one block per rising entry, and the markers follow the market cap |
| Handlers.TrendingShowsExactlyRising | cryptobuddy.py:126-142 | every block shows a rising catalog entry, and every rising catalog entry has a block |
| Handlers.CryptoInfoReply | cryptobuddy.py:146-163 | the reply shows the first entry whose lower-cased name or symbol occurs in the lower-cased query, with the trend marker iff rising and the seedling iff score is at least 7; the not-found message appears exactly when no entry is mentioned |
| Handlers.AdviceReply | cryptobuddy.py:165-186 | the fallback text appears exactly when no entry is rising with score at least 6; otherwise the pick is such a catalog entry |
| Handlers.EveryBalancedEntryCanBePicked | cryptobuddy.py:173-174 | every balanced entry is the recommendation for some value of the random draw |
| Handlers.MarketInfoReply | cryptobuddy.py:188-199 | the total is the catalog size; the rising and sustainable counts are the lengths of the rising and score-7+ sublists, and neither exceeds the total |
| Handlers.MarketAgreesWithTrending | cryptobuddy.py:191 | the overview's rising count is the length of the trending list, and is zero exactly when the trending handler gives its fixed message |
| Buddy.Respond | cryptobuddy.py:228-246 | for each intent the reply is exactly that intent's handler's reply for this catalog, query, draw and clock; the fallback intent gets the "not sure" text; a not-found lookup reply means no entry is mentioned |
| Buddy.ProcessQuery | cryptobuddy.py:221-246 | the "didn't catch that" message appears exactly for blank input; otherwise the reply is exactly the reply of the handler of the classified intent (the sustainability, trending, lookup, advice, market or help reply, or "not sure"), and is never the lookup's not-found message |
| Buddy.ClassifiedCryptoIsFound | cryptobuddy.py:232-233 | whenever the classifier says specific_crypto, some entry is mentioned and the lookup succeeds |
| Buddy.BlankInputIgnoresEverything | cryptobuddy.py:223-224 | an all-whitespace input gets the fixed message, whatever the catalog, the random draw or the clock |
| Buddy.NotSureIffNothingMatches | cryptobuddy.py:240-246 | a non-blank query gets the "not sure" reply exactly when no rule other than the fallback holds |
| Buddy.NamedEntryIsLookedUp | cryptobuddy.py:93-94 | a query naming entry i, with no sustainability or profitability keyword, gets the lookup reply for entry i or an earlier entry |
| Buddy.BlankIgnoresCase | cryptobuddy.py:223 | blank detection is unaffected by lower-casing |
| Buddy.ProcessQueryIgnoresCase | cryptobuddy.py:221-246 | a query and its lower-case form get the same reply |
| ReferenceFacts.EcoChoiceIsCardano | cryptobuddy.py:33-60 | Cardano and Polkadot tie at 8, and the sustainability reply names Cardano, the earlier one |
| ReferenceFacts.DotHoldsNoKeyword | cryptobuddy.py:85-106 | "dot" holds none of the keywords of the five lists |
| ReferenceFacts.ShortQueryNamesNothing | cryptobuddy.py:93 | a query shorter than every display name names no entry |
| ReferenceFacts.DotMentionsOnlyPolkadot | cryptobuddy.py:150-151 | of the shipped entries, "dot" mentions Polkadot, through its symbol, and none of the four before it |
| ReferenceFacts.UpperCaseTicker | cryptobuddy.py:82 | the upper-case query "DOT" lower-cases to "dot", so the ticker facts below apply to it |
| ReferenceFacts.TickerOnlyQueryIsUnknown | cryptobuddy.py:93 | any query that lower-cases to "dot" is classified as unknown on the shipped catalog |
| ReferenceFacts.TickerResolvesToPolkadot | cryptobuddy.py:150-153 | the lookup on such a query returns Polkadot with the flat trend marker and the seedling |
| ReferenceFacts.TickerOnlyQueryGetsNotSure | cryptobuddy.py:240-246 | through the dispatcher, such a query gets the "not sure" reply |
| ReferenceFacts.ReferenceTrending | cryptobuddy.py:124-142 | on the shipped catalog the trending list is Bitcoin with a rocket, then Cardano and Solana with charts |
| ReferenceFacts.ReferenceMarket | cryptobuddy.py:188-192 | on the shipped catalog the overview shows 5 entries, 3 rising and 3 highly sustainable |
| ReferenceFacts.ReferenceAdvice | cryptobuddy.py:168-174 | on the shipped catalog the balanced candidates are Cardano and Solana, in that order, and the draw picks between them |

## Left out

- The `main` loop (lines 248-276): console input, the quit words, the greeting and farewell picked by `random.choice`, and the exception handler. All of it is I/O around `process_query`.
- `greet` (lines 74-78): it returns a random greeting and takes no input the model could relate to anything.
- Text formatting: replies are modelled as the choice of message, the entries shown and their markers. The f-string layout, emoji and `.title()` calls are not modelled.
- The `best_crypto` that `get_profitable_crypto` computes at lines 133-134 and never uses. It has no effect on the reply.
- The lookup's not-found message lists five fixed names. Its `UnknownCrypto` reply has no payload, because the text does not depend on the catalog.
- Text.Lower: lower-cases ASCII `A`-`Z` only. Python's `str.lower` also maps other Unicode letters.
- Text.IsSpace: covers the ASCII whitespace and the `\x1c`-`\x1f` separators that `str.strip` removes. Unicode spaces such as U+00A0 are not modelled.
- Handlers.AdviceReply: `random.choice` is an index the caller supplies. The model states which picks are possible, not that they are equally likely.
- Handlers.MarketInfoReply: the "last updated" timestamp is an opaque string the caller supplies, so nothing about the clock is stated.
- The matching of short ticker symbols as raw substrings: "eth" inside "something" selects Ethereum in the lookup. This is the behaviour `Handlers.CryptoInfoReply` models, but no lemma exhibits a concrete case.
