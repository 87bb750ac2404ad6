/**
 * The three prompt builders of app.py: the sales and marketing battlecard prompts, which compare
 * two companies over a fixed list of metrics, and the SWOT prompt for one company.
 */
module Prompts {
  import opened Wrappers
  import opened Text

  /** The metrics a sales battlecard covers (app.py:33-41). */
  const SalesMetrics: seq<string> := [
    "Sales Overview",
    "Sales Channels",
    "Sales Performance",
    "Revenue Sources",
    "Sales Strategies",
    "Market Share",
    "Competitive Position"
  ]

  /** The metrics a marketing battlecard covers (app.py:61-70). */
  const MarketingMetrics: seq<string> := [
    "Overview",
    "Products and Services",
    "Market Position",
    "Marketing Strategies",
    "Strengths",
    "Weaknesses",
    "Opportunities",
    "Threats"
  ]

  /**
   * An item that Python's `repr` renders as itself between single quotes: printable ASCII with no
   * quote or backslash, so nothing in it is escaped.
   */
  predicate Plain(x: string)
  {
    forall i :: 0 <= i < |x| ==> ' ' <= x[i] <= '~' && x[i] != '\'' && x[i] != '\\'
  }

  function Quoted(x: string): string
  {
    "'" + x + "'"
  }

  /** The comma-separated items of a list of plain strings as Python's `repr` writes them. */
  function Items(xs: seq<string>): string
  {
    if xs == [] then ""
    else if |xs| == 1 then Quoted(xs[0])
    else Quoted(xs[0]) + ", " + Items(xs[1..])
  }

  /** How a list of plain strings appears inside an f-string: `['a', 'b']`. */
  function ListRepr(xs: seq<string>): string
  {
    "[" + Items(xs) + "]"
  }

  /** Reads back the items of a list rendered by `Items`. */
  function ReadItems(s: string): Option<seq<string>>
    decreases |s|
  {
    if s == [] then Some([])
    else if s[0] != '\'' then None
    else
      var j := IndexOf(s[1..], '\'');
      if j == |s| - 1 then None
      else
        var item := s[1..j + 1];
        var rest := s[j + 2..];
        if rest == [] then Some([item])
        else if |rest| > 2 && rest[..2] == ", " then
          match ReadItems(rest[2..])
          case Some(more) => Some([item] + more)
          case None => None
        else None
  }

  /** Reads back a list rendered by `ListRepr`. */
  function ReadList(s: string): Option<seq<string>>
  {
    if 2 <= |s| && s[0] == '[' && s[|s| - 1] == ']' then ReadItems(s[1..|s| - 1]) else None
  }

  /** Where `ReadItems` finds the first item of a rendered list and what follows it. */
  lemma ReadItemsHead(x: string, tail: string)
    requires '\'' !in x
    ensures var s := Quoted(x) + tail;
      s[0] == '\'' && IndexOf(s[1..], '\'') == |x| && s[1..|x| + 1] == x && s[|x| + 2..] == tail
  {
    var s := Quoted(x) + tail;
    var q := "'";
    assert s == q + (x + q + tail);
    assert s[1..] == x + ['\''] + tail;
    IndexOfAfter(x, '\'', tail);
  }

  /** `ReadItems` takes a quoted plain item off the front and goes on after the separator. */
  lemma ReadItemsQuoted(x: string, tail: string)
    requires '\'' !in x
    ensures ReadItems(Quoted(x) + tail) ==
      if tail == [] then Some([x])
      else if |tail| > 2 && tail[..2] == ", " then
        match ReadItems(tail[2..])
        case Some(more) => Some([x] + more)
        case None => None
      else None
  {
    ReadItemsHead(x, tail);
  }

  lemma ReadItemsSingle(x: string)
    requires '\'' !in x
    ensures ReadItems(Items([x])) == Some([x])
  {
    ReadItemsQuoted(x, "");
    assert Quoted(x) + "" == Quoted(x) == Items([x]);
  }

  lemma ReadItemsCons(xs: seq<string>)
    requires |xs| >= 2 && '\'' !in xs[0]
    requires ReadItems(Items(xs[1..])) == Some(xs[1..])
    ensures ReadItems(Items(xs)) == Some(xs)
  {
    var x := xs[0];
    var tail := ", " + Items(xs[1..]);
    ReadItemsQuoted(x, tail);
    assert |Items(xs[1..])| >= 2;
    assert tail[..2] == ", " && tail[2..] == Items(xs[1..]);
    assert Items(xs) == Quoted(x) + tail;
    assert [x] + xs[1..] == xs;
  }

  /** The quoted items read back as the items, as long as none of them holds a quote. */
  lemma {:induction false} ReadItemsInverse(xs: seq<string>)
    requires forall x :: x in xs ==> '\'' !in x
    ensures ReadItems(Items(xs)) == Some(xs)
  {
    if |xs| == 1 {
      assert xs == [xs[0]];
      ReadItemsSingle(xs[0]);
    } else if |xs| >= 2 {
      assert xs[0] in xs;
      ReadItemsInverse(xs[1..]);
      ReadItemsCons(xs);
    }
  }

  /** The rendered metric list reads back as exactly the list of plain strings it was made from. */
  lemma ListReprInverse(xs: seq<string>)
    requires forall x :: x in xs ==> Plain(x)
    ensures ReadList(ListRepr(xs)) == Some(xs)
  {
    var s := ListRepr(xs);
    assert s[1..|s| - 1] == Items(xs);
    forall x | x in xs ensures '\'' !in x {
      assert Plain(x);
    }
    ReadItemsInverse(xs);
  }

  lemma {:induction false} ItemsContainEach(xs: seq<string>, k: nat)
    requires k < |xs|
    ensures Contains(Items(xs), xs[k])
  {
    var x := xs[0];
    if k == 0 {
      ContainsSelf(x);
      ContainsInRight("'", x, x);
      ContainsInLeft("'" + x, "'", x);
      if |xs| > 1 {
        ContainsInLeft(Quoted(x), ", " + Items(xs[1..]), x);
        assert Items(xs) == Quoted(x) + (", " + Items(xs[1..]));
      }
    } else {
      ItemsContainEach(xs[1..], k - 1);
      ContainsInRight(", ", Items(xs[1..]), xs[k]);
      ContainsInRight(Quoted(x), ", " + Items(xs[1..]), xs[k]);
      assert Items(xs) == Quoted(x) + (", " + Items(xs[1..]));
    }
  }

  /** The pieces of the comparison prompt, in order. */
  function ComparisonPieces(kind: string, coverage: string, metrics: seq<string>,
                            name1: string, url1: string, name2: string, url2: string): seq<string>
  {
    [ "\n    Generate a ", kind, " battlecard comparing ", name1, " and ", name2,
      ". \n    Focus on these metrics: ", ListRepr(metrics),
      ". \n    Include data on their products, services, target markets, ", coverage,
      ".\n\n    Company 1 URL: ", url1,
      "\n    Company 2 URL: ", url2,
      "\n    " ]
  }

  /**
   * The triple-quoted template shared by the sales and the marketing prompt (app.py:43-50, 72-79);
   * `kind` and `coverage` are the words in which the two differ.
   */
  function ComparisonPrompt(kind: string, coverage: string, metrics: seq<string>,
                            name1: string, url1: string, name2: string, url2: string): string
  {
    Concat(ComparisonPieces(kind, coverage, metrics, name1, url1, name2, url2))
  }

  const SalesCoverage := "strengths, weaknesses, and competitive advantages"
  const MarketingCoverage := "strengths, weaknesses, opportunities, and threats"

  /** The prompt of generate_sales_battlecard. */
  function SalesPrompt(name1: string, url1: string, name2: string, url2: string): string
  {
    ComparisonPrompt("sales", SalesCoverage, SalesMetrics, name1, url1, name2, url2)
  }

  /** The prompt of generate_marketing_battlecard. */
  function MarketingPrompt(name1: string, url1: string, name2: string, url2: string): string
  {
    ComparisonPrompt("marketing", MarketingCoverage, MarketingMetrics, name1, url1, name2, url2)
  }

  /** The prompt of generate_swot_analysis. */
  function SwotPrompt(name: string): string
  {
    "Conduct a SWOT analysis for " + name + "."
  }

  /** A comparison prompt names both companies, both URLs and every metric of its list. */
  lemma ComparisonPromptMentions(kind: string, coverage: string, metrics: seq<string>,
                                 name1: string, url1: string, name2: string, url2: string)
    ensures var p := ComparisonPrompt(kind, coverage, metrics, name1, url1, name2, url2);
      Contains(p, kind) && Contains(p, name1) && Contains(p, url1) && Contains(p, name2) && Contains(p, url2)
      && Contains(p, ListRepr(metrics))
      && forall k :: 0 <= k < |metrics| ==> Contains(p, metrics[k])
  {
    var pieces := ComparisonPieces(kind, coverage, metrics, name1, url1, name2, url2);
    var p := Concat(pieces);
    ConcatContainsPiece(pieces, 1);
    ConcatContainsPiece(pieces, 3);
    ConcatContainsPiece(pieces, 5);
    ConcatContainsPiece(pieces, 7);
    ConcatContainsPiece(pieces, 11);
    ConcatContainsPiece(pieces, 13);
    forall k | 0 <= k < |metrics|
      ensures Contains(p, metrics[k])
    {
      ItemsContainEach(metrics, k);
      ContainsInRight("[", Items(metrics), metrics[k]);
      ContainsInLeft("[" + Items(metrics), "]", metrics[k]);
      ContainsTransitive(p, ListRepr(metrics), metrics[k]);
    }
  }

  /**
   * The sales prompt names both companies and both URLs, and its metric list reads back as exactly
   * the seven sales metrics, each of which occurs in the prompt.
   */
  lemma SalesPromptContents(name1: string, url1: string, name2: string, url2: string)
    ensures var p := SalesPrompt(name1, url1, name2, url2);
      Contains(p, "sales") && Contains(p, name1) && Contains(p, url1) && Contains(p, name2) && Contains(p, url2)
      && Contains(p, ListRepr(SalesMetrics))
      && forall m :: m in SalesMetrics ==> Contains(p, m)
  {
    ComparisonPromptMentions("sales", SalesCoverage, SalesMetrics, name1, url1, name2, url2);
  }

  lemma SalesMetricsPlainFirst()
    ensures Plain("Sales Overview") && Plain("Sales Channels") && Plain("Sales Performance")
  {
  }

  lemma SalesMetricsPlainLast()
    ensures Plain("Revenue Sources") && Plain("Sales Strategies") && Plain("Market Share")
      && Plain("Competitive Position")
  {
  }

  lemma SalesMetricsPlain()
    ensures forall x :: x in SalesMetrics ==> Plain(x)
  {
    SalesMetricsPlainFirst();
    SalesMetricsPlainLast();
  }

  /** The sales metric list, as rendered into the prompt, reads back as exactly the seven sales metrics. */
  lemma SalesMetricsReadBack()
    ensures ReadList(ListRepr(SalesMetrics)) == Some(SalesMetrics) && |SalesMetrics| == 7
  {
    SalesMetricsPlain();
    ListReprInverse(SalesMetrics);
  }

  /**
   * The marketing prompt names both companies and both URLs, and its metric list reads back as
   * exactly the eight marketing metrics, each of which occurs in the prompt.
   */
  lemma MarketingPromptContents(name1: string, url1: string, name2: string, url2: string)
    ensures var p := MarketingPrompt(name1, url1, name2, url2);
      Contains(p, "marketing") && Contains(p, name1) && Contains(p, url1) && Contains(p, name2) && Contains(p, url2)
      && Contains(p, ListRepr(MarketingMetrics))
      && forall m :: m in MarketingMetrics ==> Contains(p, m)
  {
    ComparisonPromptMentions("marketing", MarketingCoverage, MarketingMetrics, name1, url1, name2, url2);
  }

  lemma MarketingMetricsPlainFirst()
    ensures Plain("Overview") && Plain("Products and Services") && Plain("Market Position")
      && Plain("Marketing Strategies")
  {
  }

  lemma MarketingMetricsPlainLast()
    ensures Plain("Strengths") && Plain("Weaknesses") && Plain("Opportunities") && Plain("Threats")
  {
  }

  lemma MarketingMetricsPlain()
    ensures forall x :: x in MarketingMetrics ==> Plain(x)
  {
    MarketingMetricsPlainFirst();
    MarketingMetricsPlainLast();
  }

  /** The marketing metric list, as rendered into the prompt, reads back as exactly the eight marketing metrics. */
  lemma MarketingMetricsReadBack()
    ensures ReadList(ListRepr(MarketingMetrics)) == Some(MarketingMetrics) && |MarketingMetrics| == 8
  {
    MarketingMetricsPlain();
    ListReprInverse(MarketingMetrics);
  }

  /** The SWOT prompt is the fixed request with the company name between it and the final full stop. */
  lemma SwotPromptShape(name: string)
    ensures var p := SwotPrompt(name);
      |p| == |name| + 29 && p[..28] == "Conduct a SWOT analysis for " && p[28..|p| - 1] == name && p[|p| - 1] == '.'
  {
  }

  /** Different company names give different SWOT prompts. */
  lemma SwotPromptInjective(a: string, b: string)
    requires SwotPrompt(a) == SwotPrompt(b)
    ensures a == b
  {
    SwotPromptShape(a);
    SwotPromptShape(b);
  }
}
