# power-aso: option parsing and result shaping

power-aso is a command-line tool for app-store-optimization (ASO) queries. It
offers four commands (`scores`, `suggest`, `visibility`, `app`). Each one picks
a data provider by store code: `i` for iTunes and `g` for Google Play. It then
calls the provider through a memoizing wrapper and prints the result as a
table or as a list.

This Dafny project models the self-contained logic of `index.js`:

- `Options` holds the two custom option parsers of `suggest`. `parseStrategy`
  maps eighteen exact spellings to six strategies. Every other input, mixed
  case included, maps to `category`. `parseStringArray` splits
  `--apps`/`--keywords` on `,`.
- `Text` models JavaScript's `split` with a one-character separator and
  `join`. Joining the pieces of a split always gives back the input.
  Splitting a join gives back the list only when the list is non-empty and
  no element contains the separator.
- `Formatters` shapes provider results into table rows:
  - the keyword-score row;
  - the newline-joined list output;
  - `formatKeywordVisibility`, written as a method with a loop over the
    enumerated properties, as in the source;
  - `formatCollectionVisibility`;
  - the composition done by `handleVisibilityResult`.

  A table is a header and its rows. `CellUnder` reads a table by header name,
  the way a reader of the printed table would. Contracts say which value
  appears under which heading.
- `Stores` models the `app[store]` provider lookup and the TypeError that an
  unknown code leads to.

JavaScript numbers are `real`. A value the provider may leave out is an
`Option`. A rank is falsy when it is missing, `null` or `0`, following the
`||` at index.js:182-183.

Notable behaviour of index.js:

- A keyword row's rank is passed through unchanged, so a missing keyword rank
  gives an empty cell. It is not "N/A". Only the collection rows substitute
  "N/A".
- No formatter checks that a result has its fields. The model takes the
  provider's records as complete (see Left out).
- An unknown store code has no error of its own. The lookup gives `undefined`,
  or an inherited member of `Object.prototype` for a key such as `toString`.
  Calling the provider method on that value raises a TypeError, whose message
  names the method, not the code.
- The collection table's header is `Collections, global, category`, and each
  of its rows is `{name: [rank, score]}`. So the rank is printed under the
  heading `global` and the score under `category`.
  `Formatters.HandleVisibilityResult` states this layout.

## Model

| member | source | states |
|---|---|---|
| Options.ParseStrategy | index.js:108-136 | an input that is one of a strategy's spellings yields that strategy; an input that is no strategy's spelling yields Category (the returned string is the strategy's `Name`, the lower-case word at index.js:113-133) |
| Options.SpellingsSpelledOut | index.js:110-133 | a strategy's accepted spellings are its name upper-cased, its name, and its name's first three letters; written out, these are the eighteen case labels of the switch |
| Options.ParseStrategyIff | index.js:108-136 | both directions: a string parses to k exactly when it is a spelling of k, or when k is Category and it is nobody's spelling |
| Options.SpellingsDisjoint | index.js:110-133 | no spelling belongs to two strategies |
| Options.ParseStrategyIdempotent | index.js:108-136 | every result's name is itself an accepted spelling of that result, so parsing twice equals parsing once |
| Options.ParseStrategyCaseSensitive | index.js:108-136 | "Similar", "Cat", "SIM" and "" all fall back to Category |
| Options.ParseStringArray | index.js:139-141 | the items number one more than the commas; no item contains a comma; joining them with "," gives back the argument exactly |
| Options.ParseStringArrayKeepsSpaces | index.js:139-141 | "x, y" gives ["x", " y"]: no trimming |
| Options.ParseStringArrayEmpty | index.js:139-141 | "" gives [""]: one empty item |
| Options.ParseStringArrayKeepsEmptyPieces | index.js:139-141 | "a,,b," gives ["a", "", "b", ""]: empty pieces are kept |
| Text.Split | index.js:140 | `split(',')` yields one more piece than there are separators, and no piece contains the separator |
| Text.Join | index.js:157 | `join`: the output's length is the elements' total length plus one separator per pair of neighbours |
| Text.JoinEnds | index.js:157 | `join`: empty for no elements; otherwise it starts with the first element and ends with the last, with no separator at either end |
| Text.JoinSplit | index.js:139-141 | joining the pieces of a split with the same separator reproduces the input |
| Text.SplitJoin | index.js:157 | splitting the join of a non-empty list of separator-free strings gives the list back |
| Formatters.KeywordScoreTable | index.js:143-150 | one row; the cell under the heading Traffic is traffic.score, under Difficulty difficulty.score, and under Competitors difficulty.competitors.score |
| Formatters.ListOutput | index.js:155-157 | the output's length is the items' total length plus one newline per pair of neighbouring items |
| Formatters.ListOutputEnds | index.js:155-157 | no items print as ""; otherwise the output starts with the first item and ends with the last |
| Formatters.ListOutputLossless | index.js:157 | for newline-free items, the output has one newline fewer than there are items, and splitting it at newlines recovers the items in order |
| Formatters.ListOutputExample | index.js:157 | ["alpha", "beta"] prints as "alpha\nbeta" |
| Formatters.OwnMembers | index.js:163-165 | a property yields a row exactly when it is enumerated and is an own property |
| Formatters.Own | index.js:163-165 | the kept properties number at most the enumerated ones, and each is an own property that was enumerated (order and multiplicity: see OwnSingle and OwnAppend) |
| Formatters.OwnSingle | index.js:163-165 | one enumerated property is kept, exactly once, when it is own, and dropped when it is inherited |
| Formatters.OwnAppend | index.js:163-165 | the own properties of an enumeration are those of its first part followed by those of the rest; with OwnSingle this fixes each own property's place, once, in enumeration order |
| Formatters.OwnSkipsInherited | index.js:163-165 | an inherited property between two own ones is skipped and the two keep their order |
| Formatters.OwnAllOwn | index.js:163-176 | when every enumerated property is own, the rows follow the enumeration one to one and in order |
| Formatters.KeywordCells | index.js:166-171 | three cells, traffic then rank then score; the rank cell is empty exactly when the rank is missing, otherwise it holds the rank (0 included); it is never "N/A" |
| Formatters.FormatKeywordVisibility | index.js:161-178 | one row per own property, in enumeration order, each row being `{key: [traffic, rank, score]}` for that property |
| Formatters.Falsy | index.js:182-183 | for `||`, a missing rank and a rank of 0 are falsy; any other present rank is truthy |
| Formatters.RankOrNotAvailable | index.js:182-183 | `rank || 'N/A'` is "N/A" exactly when the rank is falsy, and the rank itself otherwise |
| Formatters.FormatCollectionVisibility | index.js:180-185 | exactly two rows, global then category; each row's first cell is "N/A" exactly when the rank is falsy and is the rank otherwise; its second cell is the score, unchanged |
| Formatters.HandleVisibilityResult | index.js:187-203 | the score is kept; under Keyword, Traffic, Rank and Score of row i sit own keyword i's key, traffic, rank cell and score; the collection table has the two collection rows, with the rank under `global` and the score under `category` |
| Formatters.ZeroRankContrast | index.js:161-185 | a rank of 0 shows as 0 in a keyword row but as "N/A" in a collection row |
| Formatters.VisibilityExample | index.js:161-185 | a keyword with no rank gets an empty rank cell; a global collection with no rank shows "N/A"; a category ranked 3 shows 3 |
| Stores.Resolve | index.js:7-10 | the lookup finds store s exactly for s's own code (`Code`: "g" for Google Play, "i" for iTunes, the keys at index.js:9-10), and finds nothing for any code other than "i" and "g" |
| Stores.ProviderFor | index.js:25-27 | a provider call reaches a provider exactly when the code is "i" or "g", and that provider is the one registered under the code; otherwise the call fails with a TypeError naming the operation |
| Stores.CodeRoundTrip | index.js:7-10 | every store is found under its own code, and distinct stores have distinct codes |
| Stores.UnknownCodes | index.js:7-10 | "I", "G", "itunes", "gplay" and "" are not registered codes |

## Left out

- Memoization with `memoizee` (index.js:28-32, 59-63, 79-83, 98-102) is left out. Each action builds a fresh memoized wrapper and calls it once, so no cache state survives between calls. The wrapper is a foreign library.
- The `aso` providers (`scores`, `suggest`, `visibility`, `app`) are left out. They are network-backed computations whose results enter the model as the records `KeywordScore`, `VisibilityReport` and `seq<string>`.
- Command and option registration with `commander` is left out, and so is `parseInt` as the `--num` parser. Both are foreign code. Routing each command's promise to its handler through `.then`/`.catch` is left out as asynchronous plumbing.
- The spinner, `console.log`/`console.error` and `process.exit` are left out as I/O. `handleResult` is left out too: it is never called and only prints JSON.
- The string rendering done by the table library is left out, and so is the conversion of the score to text in `'Score: ' + result.score`. The model stops at the header, the rows and the score value.
- Formatters.KeywordScoreTable: the provider's records are taken as complete. A missing nested object, which makes the source raise a TypeError, is not modelled. Neither is a missing number, which the source prints as an empty cell.
- Formatters.FormatKeywordVisibility: a report whose `keywords` is absent enumerates nothing in the source. It corresponds to an empty sequence here. JavaScript's rule that integer-like keys are enumerated first is not modelled: the sequence is taken to be in enumeration order already.
- Formatters.Falsy: NaN, which is also falsy in JavaScript, is not modelled because numbers are `real`.
- Stores.ProviderFor: the TypeError for an unknown code is thrown synchronously inside the memoized call, so in the source it escapes the `.catch` handler. The model only records that the call fails.
- Strings are sequences of Dafny characters. UTF-16 code units are not distinguished.
