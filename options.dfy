/**
 * The custom value parsers of the `suggest` command's options (index.js):
 * `parseStrategy` for `--strategy` and `parseStringArray` for `--apps` and
 * `--keywords`.
 */
module Options {
  import opened Text

  /** The six suggestion strategies, named as `parseStrategy` returns them. */
  datatype Strategy = Category | Competition | Similar | Arbitrary | Keywords | Search

  /** The lower-case name `parseStrategy` returns for a strategy. */
  function Name(k: Strategy): string
  {
    match k
    case Category => "category"
    case Competition => "competition"
    case Similar => "similar"
    case Arbitrary => "arbitrary"
    case Keywords => "keywords"
    case Search => "search"
  }

  /** ASCII upper-casing, enough for the strategy names. */
  function UpperCase(s: string): string
  {
    seq(|s|, i requires 0 <= i < |s| => if 'a' <= s[i] <= 'z' then (s[i] as int - 32) as char else s[i])
  }

  /**
   * The spellings accepted for a strategy: its name in upper case, its name
   * in lower case, and the name's first three letters in lower case.
   */
  function Spellings(k: Strategy): seq<string>
  {
    [UpperCase(Name(k)), Name(k), Name(k)[..3]]
  }

  /** The eighteen spellings, written out. */
  lemma SpellingsSpelledOut()
    ensures Spellings(Category) == ["CATEGORY", "category", "cat"]
    ensures Spellings(Competition) == ["COMPETITION", "competition", "com"]
    ensures Spellings(Similar) == ["SIMILAR", "similar", "sim"]
    ensures Spellings(Arbitrary) == ["ARBITRARY", "arbitrary", "arb"]
    ensures Spellings(Keywords) == ["KEYWORDS", "keywords", "key"]
    ensures Spellings(Search) == ["SEARCH", "search", "sea"]
  {
    assert UpperCase("category") == "CATEGORY" && "category"[..3] == "cat";
    assert UpperCase("competition") == "COMPETITION" && "competition"[..3] == "com";
    assert UpperCase("similar") == "SIMILAR" && "similar"[..3] == "sim";
    assert UpperCase("arbitrary") == "ARBITRARY" && "arbitrary"[..3] == "arb";
    assert UpperCase("keywords") == "KEYWORDS" && "keywords"[..3] == "key";
    assert UpperCase("search") == "SEARCH" && "search"[..3] == "sea";
  }

  /**
   * `parseStrategy`: a case-sensitive match against the eighteen accepted
   * spellings; anything else, mixed case included, falls back to Category.
   */
  function ParseStrategy(s: string): (k: Strategy)
    ensures forall j :: s in Spellings(j) ==> k == j
    ensures (forall j :: s !in Spellings(j)) ==> k == Category
  {
    SpellingsSpelledOut();
    match s
    case "CATEGORY" | "category" | "cat" => Category
    case "COMPETITION" | "competition" | "com" => Competition
    case "SIMILAR" | "similar" | "sim" => Similar
    case "ARBITRARY" | "arbitrary" | "arb" => Arbitrary
    case "KEYWORDS" | "keywords" | "key" => Keywords
    case "SEARCH" | "search" | "sea" => Search
    case _ => Category
  }

  /** Exactly the spellings of `k` parse to `k`; the rest parse to Category. */
  lemma ParseStrategyIff(s: string, k: Strategy)
    ensures ParseStrategy(s) == k <==> s in Spellings(k) || (k == Category && forall j :: s !in Spellings(j))
  {
  }

  /** No spelling is shared by two strategies, so the match is unambiguous. */
  lemma SpellingsDisjoint(j: Strategy, k: Strategy, s: string)
    requires s in Spellings(j) && s in Spellings(k)
    ensures j == k
  {
    assert ParseStrategy(s) == j;
  }

  /**
   * Every result is itself an accepted spelling (the lower-case name), so
   * parsing a parsed strategy again changes nothing.
   */
  lemma ParseStrategyIdempotent(s: string)
    ensures Name(ParseStrategy(s)) in Spellings(ParseStrategy(s))
    ensures ParseStrategy(Name(ParseStrategy(s))) == ParseStrategy(s)
  {
  }

  /** The match is case-sensitive: mixed case and upper-case abbreviations are not accepted. */
  lemma ParseStrategyCaseSensitive()
    ensures ParseStrategy("Similar") == Category
    ensures ParseStrategy("Cat") == Category
    ensures ParseStrategy("SIM") == Category
    ensures ParseStrategy("") == Category
  {
  }

  /**
   * The parser of the `--apps` and `--keywords` options: split on ',' with
   * no trimming and no dropping of empty pieces.
   */
  function ParseStringArray(arg: string): (items: seq<string>)
    ensures |items| == Count(arg, ',') + 1
    ensures forall i :: 0 <= i < |items| ==> ',' !in items[i]
    ensures Join(items, ",") == arg
  {
    JoinSplit(arg, ',');
    Split(arg, ',')
  }

  /** Spaces around the commas are kept: there is no trimming. */
  lemma ParseStringArrayKeepsSpaces()
    ensures ParseStringArray("x, y") == ["x", " y"]
  {
    assert Join(["x", " y"], ",") == "x, y" by { JoinCons("x", [" y"], ","); }
    assert forall i :: 0 <= i < 2 ==> ',' !in ["x", " y"][i];
    SplitJoinExample(["x", " y"], "x, y");
  }

  /** The empty argument gives one empty item, not an empty list. */
  lemma ParseStringArrayEmpty()
    ensures ParseStringArray("") == [""]
  {
    assert Join([""], ",") == "";
    SplitJoinExample([""], "");
  }

  /** Empty pieces between adjacent commas and after a trailing comma are kept. */
  lemma ParseStringArrayKeepsEmptyPieces()
    ensures ParseStringArray("a,,b,") == ["a", "", "b", ""]
  {
    assert Join(["a", "", "b", ""], ",") == "a,,b," by {
      JoinCons("b", [""], ",");
      JoinCons("", ["b", ""], ",");
      JoinCons("a", ["", "b", ""], ",");
    }
    assert forall i :: 0 <= i < 4 ==> ',' !in ["a", "", "b", ""][i];
    SplitJoinExample(["a", "", "b", ""], "a,,b,");
  }

  /** Helper for the worked cases: a comma-free list is what its join parses back to. */
  lemma SplitJoinExample(xs: seq<string>, arg: string)
    requires xs != [] && Join(xs, ",") == arg
    requires forall i :: 0 <= i < |xs| ==> ',' !in xs[i]
    ensures ParseStringArray(arg) == xs
  {
    SplitJoin(xs, ',');
  }
}
