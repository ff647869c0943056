/**
 * The rule-based document classifier: four document types, each with a list of keywords
 * (weight 1 per occurrence) and a list of phrases (weight 2 per occurrence), matched
 * against the lower-cased text; plus two fixed-keyword presence tests.
 */
module Classifier {
  import opened Text

  datatype Pattern = Pattern(docType: string, keywords: seq<string>, phrases: seq<string>)

  /** The pattern table, in its declaration order (which is also the tie-break order). */
  const Patterns: seq<Pattern> := [
    Pattern("press_release",
      ["press release", "announces", "acquisition", "merger",
       "transaction", "closing", "signing", "agreement",
       "forward-looking statements", "safe harbor"],
      ["for immediate release", "announced today", "pleased to announce",
       "has agreed to acquire", "has completed the acquisition"]),
    Pattern("quarterly_report",
      ["quarterly report", "q1", "q2", "q3", "q4",
       "quarterly results", "earnings", "fiscal quarter",
       "three months ended", "quarterly financial"],
      ["quarterly report", "financial results", "quarterly earnings", "fiscal quarter ended"]),
    Pattern("annual_report",
      ["annual report", "form 10-k", "fiscal year",
       "annual results", "yearly results", "12 months ended",
       "annual financial", "year ended"],
      ["annual report", "fiscal year ended", "year ended december", "twelve months ended"]),
    Pattern("investor_deck",
      ["investor presentation", "company overview",
       "investment highlights", "business strategy",
       "market opportunity", "financial projections",
       "slide", "presentation"],
      ["investor presentation", "company overview", "investment thesis", "business highlights"])
  ]

  const Other: string := "other"

  /** The labels `classify_document` can return. */
  const AllLabels: set<string> :=
    {"press_release", "quarterly_report", "annual_report", "investor_deck", "other"}

  lemma PatternLabels()
    ensures |Patterns| == 4
    ensures forall k :: 0 <= k < 4 ==> Patterns[k].docType in AllLabels - {Other}
    ensures forall j, k :: 0 <= j < k < 4 ==> Patterns[j].docType != Patterns[k].docType
  {
  }

  // ---------------------------------------------------------------------------
  // Scores

  /** The total number of (non-overlapping) occurrences of `terms` in the lower-cased text. */
  function TermsCount(lowered: string, terms: seq<string>): nat
  {
    if |terms| == 0 then 0
    else TermsCount(lowered, terms[..|terms| - 1]) + Count(lowered, Lower(terms[|terms| - 1]))
  }

  /** The score of one document type: keyword counts times 1 plus phrase counts times 2. */
  function Score(text: string, p: Pattern): nat {
    TermsCount(Lower(text), p.keywords) * 1 + TermsCount(Lower(text), p.phrases) * 2
  }

  function Scores(table: seq<Pattern>, text: string): (s: seq<nat>)
    ensures |s| == |table|
    ensures forall k :: 0 <= k < |s| ==> s[k] == Score(text, table[k])
  {
    seq(|table|, k requires 0 <= k < |table| => Score(text, table[k]))
  }

  /** The earliest index holding the maximum (Python's `max(d, key=d.get)` over insertion order). */
  function FirstMax(s: seq<nat>): (k: nat)
    requires |s| > 0
    ensures k < |s|
    ensures forall j :: 0 <= j < |s| ==> s[j] <= s[k]
    ensures forall j :: 0 <= j < k ==> s[j] < s[k]
  {
    if |s| == 1 then 0
    else
      var k := FirstMax(s[..|s| - 1]);
      if s[|s| - 1] > s[k] then |s| - 1 else k
  }

  /** `classify_document` over a pattern table. */
  function Classify(table: seq<Pattern>, text: string): (docType: string)
    requires |table| > 0
    ensures docType == Other || exists k :: 0 <= k < |table| && docType == table[k].docType
    ensures (forall k :: 0 <= k < |table| ==> table[k].docType != Other) ==>
      (docType == Other <==> forall k :: 0 <= k < |table| ==> Score(text, table[k]) == 0)
  {
    var s := Scores(table, text);
    var k := FirstMax(s);
    if s[k] > 0 then table[k].docType else Other
  }

  /**
   * When a document type is chosen, it scores at least as much as every type and strictly
   * more than every type before it in the table.
   */
  lemma ClassifyPicksFirstMaximum(table: seq<Pattern>, text: string, k: nat)
    requires k < |table|
    requires forall i, j :: 0 <= i < j < |table| ==> table[i].docType != table[j].docType
    requires Classify(table, text) == table[k].docType
    requires table[k].docType != Other
    ensures forall j :: 0 <= j < |table| ==> Score(text, table[j]) <= Score(text, table[k])
    ensures forall j :: 0 <= j < k ==> Score(text, table[j]) < Score(text, table[k])
  {
    var m := FirstMax(Scores(table, text));
    assert table[m].docType == table[k].docType;
    assert m == k;
  }

  /** The classifier's own table: its label is always one of the five document types. */
  lemma ClassifyLabels(text: string)
    ensures Classify(Patterns, text) in AllLabels
    ensures Classify(Patterns, text) == Other
        <==> forall k :: 0 <= k < |Patterns| ==> Score(text, Patterns[k]) == 0
  {
    PatternLabels();
  }

  // ---------------------------------------------------------------------------
  // Properties of the scores

  /** A term list counts 0 occurrences exactly when none of its terms occurs. */
  lemma {:induction false} TermsCountZeroIff(lowered: string, terms: seq<string>)
    ensures TermsCount(lowered, terms) == 0 <==> forall t :: t in terms ==> !Contains(lowered, Lower(t))
  {
    if |terms| > 0 {
      var init, last := terms[..|terms| - 1], terms[|terms| - 1];
      TermsCountZeroIff(lowered, init);
      CountPositiveIffContains(lowered, Lower(last));
      assert terms == init + [last];
    }
  }

  /** A document type scores 0 exactly when none of its keywords and phrases occurs. */
  lemma ScoreZeroIff(text: string, p: Pattern)
    ensures Score(text, p) == 0
        <==> forall t :: t in p.keywords + p.phrases ==> !Contains(Lower(text), Lower(t))
  {
    TermsCountZeroIff(Lower(text), p.keywords);
    TermsCountZeroIff(Lower(text), p.phrases);
  }

  /** Every listed term adds its own count. */
  lemma {:induction false} TermsCountAtLeast(lowered: string, terms: seq<string>, t: string)
    requires t in terms
    ensures TermsCount(lowered, terms) >= Count(lowered, Lower(t))
  {
    var init, last := terms[..|terms| - 1], terms[|terms| - 1];
    assert terms == init + [last];
    if t != last {
      TermsCountAtLeast(lowered, init, t);
    }
  }

  /** A term listed both as keyword and as phrase scores 3 per occurrence. */
  lemma SharedTermCountsThree(text: string, p: Pattern, t: string)
    requires t in p.keywords && t in p.phrases
    ensures Score(text, p) >= 3 * Count(Lower(text), Lower(t))
  {
    TermsCountAtLeast(Lower(text), p.keywords, t);
    TermsCountAtLeast(Lower(text), p.phrases, t);
  }

  /** Counting over two lists adds up. */
  lemma {:induction false} TermsCountAppend(lowered: string, a: seq<string>, b: seq<string>)
    ensures TermsCount(lowered, a + b) == TermsCount(lowered, a) + TermsCount(lowered, b)
    decreases |b|
  {
    if |b| == 0 {
      assert a + b == a;
    } else {
      var n := |b| - 1;
      assert (a + b)[..|a + b| - 1] == a + b[..n];
      assert (a + b)[|a + b| - 1] == b[n];
      TermsCountAppend(lowered, a, b[..n]);
    }
  }

  /**
   * A term added both as keyword and as phrase raises the score by exactly 3 per occurrence:
   * once for the keyword and twice for the phrase.
   */
  lemma SharedTermAddsThree(text: string, d: string, a: seq<string>, b: seq<string>,
                            c: seq<string>, e: seq<string>, t: string)
    ensures Score(text, Pattern(d, a + [t] + b, c + [t] + e))
      == Score(text, Pattern(d, a + b, c + e)) + 3 * Count(Lower(text), Lower(t))
  {
    var s := Lower(text);
    var n := Count(s, Lower(t));
    assert TermsCount(s, [t]) == n by {
      assert [t][..0] == [];
    }
    TermsCountAppend(s, a + [t], b);
    TermsCountAppend(s, a, [t]);
    TermsCountAppend(s, a, b);
    TermsCountAppend(s, c + [t], e);
    TermsCountAppend(s, c, [t]);
    TermsCountAppend(s, c, e);
  }

  /** Empty text is classified as "other" by any table without an empty term. */
  lemma EmptyTextIsOther(table: seq<Pattern>)
    requires |table| > 0
    requires forall k :: 0 <= k < |table| ==> table[k].docType != Other
    requires forall k, t :: 0 <= k < |table| && t in table[k].keywords + table[k].phrases ==> t != ""
    ensures Classify(table, "") == Other
  {
    forall k | 0 <= k < |table| ensures Score("", table[k]) == 0 {
      var p := table[k];
      forall t | t in p.keywords + p.phrases ensures !Contains(Lower(""), Lower(t)) {
        assert |Lower(t)| == |t| > 0;
      }
      ScoreZeroIff("", p);
    }
  }

  /** The classifier's own table lists no empty term, so empty text is "other". */
  lemma EmptyTextIsOtherForPatterns()
    ensures Classify(Patterns, "") == Other
  {
    PatternLabels();
    forall k, t | 0 <= k < |Patterns| && t in Patterns[k].keywords + Patterns[k].phrases
      ensures t != ""
    {
      PatternTermsNonEmpty(k);
    }
    EmptyTextIsOther(Patterns);
  }

  lemma PatternTermsNonEmpty(k: nat)
    requires k < |Patterns|
    ensures forall t :: t in Patterns[k].keywords + Patterns[k].phrases ==> |t| > 0
  {
    var p := Patterns[k];
    assert forall i :: 0 <= i < |p.keywords| ==> |p.keywords[i]| > 0;
    assert forall i :: 0 <= i < |p.phrases| ==> |p.phrases[i]| > 0;
  }

  lemma {:induction false} SumPercentagesStep(a: nat, b: nat, total: nat)
    requires total > 0
    ensures (a as real / total as real) * 100.0 + (b as real / total as real) * 100.0
         == ((a + b) as real / total as real) * 100.0
  {
  }

  // ---------------------------------------------------------------------------
  // Confidence percentages

  function SumNat(s: seq<nat>): nat {
    if |s| == 0 then 0 else SumNat(s[..|s| - 1]) + s[|s| - 1]
  }

  function SumReal(s: seq<real>): real {
    if |s| == 0 then 0.0 else SumReal(s[..|s| - 1]) + s[|s| - 1]
  }

  /** Each score as a percentage of `total`. */
  function Percentages(s: seq<nat>, total: nat): (r: seq<real>)
    requires total > 0
    ensures |r| == |s|
    ensures forall k :: 0 <= k < |s| ==> r[k] == (s[k] as real / total as real) * 100.0
  {
    seq(|s|, k requires 0 <= k < |s| => (s[k] as real / total as real) * 100.0)
  }

  lemma {:induction false} SumPercentages(s: seq<nat>, total: nat)
    requires total > 0
    ensures SumReal(Percentages(s, total)) == (SumNat(s) as real / total as real) * 100.0
  {
    if |s| > 0 {
      var init := s[..|s| - 1];
      var ps := Percentages(s, total);
      SumPercentages(init, total);
      assert ps[..|s| - 1] == Percentages(init, total);
      assert SumReal(ps) == SumReal(Percentages(init, total)) + ps[|s| - 1];
      SumPercentagesStep(SumNat(init), s[|s| - 1], total);
    }
  }

  /** The label of each document type, in table order. */
  function LabelsOf(table: seq<Pattern>): (r: seq<string>)
    ensures |r| == |table|
    ensures forall k :: 0 <= k < |r| ==> r[k] == table[k].docType
  {
    seq(|table|, k requires 0 <= k < |table| => table[k].docType)
  }

  /** The map `labels[k] := values[k]`, later labels winning. */
  function Zip(labels: seq<string>, values: seq<real>): (m: map<string, real>)
    requires |labels| == |values|
    ensures m.Keys == set k | 0 <= k < |labels| :: labels[k]
  {
    if |labels| == 0 then map[]
    else
      var n := |labels| - 1;
      var m := Zip(labels[..n], values[..n]);
      assert forall k :: 0 <= k < n ==> labels[..n][k] == labels[k];
      m[labels[n] := values[n]]
  }

  lemma {:induction false} ZipAt(labels: seq<string>, values: seq<real>, k: nat)
    requires |labels| == |values| && k < |labels|
    requires forall i, j :: 0 <= i < j < |labels| ==> labels[i] != labels[j]
    ensures Zip(labels, values)[labels[k]] == values[k]
  {
    var n := |labels| - 1;
    if k < n {
      ZipAt(labels[..n], values[..n], k);
      assert labels[..n][k] == labels[k] && values[..n][k] == values[k];
    }
  }

  /** The values of `get_classification_confidence`, in table order. */
  function ConfidenceValues(table: seq<Pattern>, text: string): (r: seq<real>)
    ensures |r| == |table|
    ensures forall k :: 0 <= k < |r| ==> r[k] == Share(Scores(table, text)[k], SumNat(Scores(table, text)))
  {
    var s := Scores(table, text);
    var total := SumNat(s);
    if total > 0 then Percentages(s, total) else seq(|s|, _ => 0.0)
  }

  /** One score as a percentage of the total; 0 when the total is 0. */
  function Share(score: nat, total: nat): real {
    if total > 0 then (score as real / total as real) * 100.0 else 0.0
  }

  /** `get_classification_confidence` over a pattern table. */
  function Confidence(table: seq<Pattern>, text: string): map<string, real> {
    Zip(LabelsOf(table), ConfidenceValues(table, text))
  }

  /**
   * With distinct labels, the confidence map has exactly the table's labels as keys, and
   * each label maps to its type's score as a percentage of the total (0 when the total is
   * 0: the map is then all zeros, not empty).
   */
  lemma ConfidenceShares(table: seq<Pattern>, text: string)
    requires forall i, j :: 0 <= i < j < |table| ==> table[i].docType != table[j].docType
    ensures Confidence(table, text).Keys == set k | 0 <= k < |table| :: table[k].docType
    ensures forall k :: 0 <= k < |table| ==>
      Confidence(table, text)[table[k].docType]
        == Share(Score(text, table[k]), SumNat(Scores(table, text)))
  {
    var labels := LabelsOf(table);
    var values := ConfidenceValues(table, text);
    forall k | 0 <= k < |table|
      ensures Zip(labels, values)[table[k].docType]
        == Share(Score(text, table[k]), SumNat(Scores(table, text)))
    {
      ZipAt(labels, values, k);
    }
    assert (set k | 0 <= k < |labels| :: labels[k]) == set k | 0 <= k < |table| :: table[k].docType;
  }

  /** When some type scores, the percentages add up to 100. */
  lemma ConfidenceSumsTo100(table: seq<Pattern>, text: string)
    requires SumNat(Scores(table, text)) > 0
    ensures SumReal(ConfidenceValues(table, text)) == 100.0
  {
    var s := Scores(table, text);
    PercentagesSumTo100(s);
    assert ConfidenceValues(table, text) == Percentages(s, SumNat(s));
  }

  lemma PercentagesSumTo100(s: seq<nat>)
    requires SumNat(s) > 0
    ensures SumReal(Percentages(s, SumNat(s))) == 100.0
  {
    SumPercentages(s, SumNat(s));
    WholeShare(SumNat(s));
  }

  lemma WholeShare(n: nat)
    requires n > 0
    ensures (n as real / n as real) * 100.0 == 100.0
  {
    var t := n as real;
    assert t > 0.0;
    assert t / t == 1.0;
  }

  // ---------------------------------------------------------------------------
  // Key indicators

  /** The terms (as listed) whose lower-cased form occurs in `lowered`, in list order. */
  function Found(lowered: string, terms: seq<string>): (r: seq<string>)
    ensures forall t :: t in r <==> t in terms && Contains(lowered, Lower(t))
  {
    if |terms| == 0 then []
    else
      var init, last := terms[..|terms| - 1], terms[|terms| - 1];
      assert terms == init + [last];
      Found(lowered, init) + (if Contains(lowered, Lower(last)) then [last] else [])
  }

  /** A matching term is listed as often as the table lists it. */
  lemma {:induction false} FoundMultiplicity(lowered: string, terms: seq<string>, t: string)
    ensures multiset(Found(lowered, terms))[t]
        == if Contains(lowered, Lower(t)) then multiset(terms)[t] else 0
  {
    if |terms| > 0 {
      var init, last := terms[..|terms| - 1], terms[|terms| - 1];
      assert terms == init + [last];
      FoundMultiplicity(lowered, init, t);
    }
  }

  /** The terms of one document type that are found: matching keywords, then matching phrases. */
  function FoundFor(lowered: string, p: Pattern): seq<string> {
    Found(lowered, p.keywords) + Found(lowered, p.phrases)
  }

  /** The indicator map built over a pattern table. */
  function IndicatorsOf(lowered: string, table: seq<Pattern>): map<string, seq<string>> {
    if |table| == 0 then map[]
    else
      var m := IndicatorsOf(lowered, table[..|table| - 1]);
      var p := table[|table| - 1];
      if FoundFor(lowered, p) != [] then m[p.docType := FoundFor(lowered, p)] else m
  }

  /** `extract_key_indicators` over a pattern table. */
  function Indicators(table: seq<Pattern>, text: string): map<string, seq<string>> {
    IndicatorsOf(Lower(text), table)
  }

  lemma {:induction false} IndicatorsOfAt(lowered: string, table: seq<Pattern>, k: nat)
    requires k < |table|
    requires forall i, j :: 0 <= i < j < |table| ==> table[i].docType != table[j].docType
    ensures table[k].docType in IndicatorsOf(lowered, table) <==> FoundFor(lowered, table[k]) != []
    ensures table[k].docType in IndicatorsOf(lowered, table) ==>
      IndicatorsOf(lowered, table)[table[k].docType] == FoundFor(lowered, table[k])
  {
    var n := |table| - 1;
    if k < n {
      IndicatorsOfAt(lowered, table[..n], k);
      assert table[..n][k] == table[k];
    } else {
      forall j | 0 <= j < n ensures table[..n][j].docType != table[n].docType {
        assert table[..n][j] == table[j];
      }
      IndicatorsOfAbsent(lowered, table[..n], table[n].docType);
    }
  }

  lemma {:induction false} IndicatorsOfAbsent(lowered: string, table: seq<Pattern>, l: string)
    requires forall k :: 0 <= k < |table| ==> table[k].docType != l
    ensures l !in IndicatorsOf(lowered, table)
  {
    if |table| > 0 {
      var n := |table| - 1;
      forall j | 0 <= j < n ensures table[..n][j].docType != l {
        assert table[..n][j] == table[j];
      }
      IndicatorsOfAbsent(lowered, table[..n], l);
    }
  }

  lemma {:induction false} IndicatorsOfKeys(lowered: string, table: seq<Pattern>, l: string)
    requires l in IndicatorsOf(lowered, table)
    ensures exists k :: 0 <= k < |table| && table[k].docType == l
  {
    var n := |table| - 1;
    if l != table[n].docType {
      IndicatorsOfKeys(lowered, table[..n], l);
      var k :| 0 <= k < n && table[..n][k].docType == l;
      assert table[k].docType == l;
    }
  }

  /**
   * A document type is listed exactly when at least one of its terms occurs; its list is
   * then the matching keywords followed by the matching phrases, in table order; no other
   * key is present.
   */
  lemma IndicatorsListed(table: seq<Pattern>, text: string, k: nat)
    requires k < |table|
    requires forall i, j :: 0 <= i < j < |table| ==> table[i].docType != table[j].docType
    ensures table[k].docType in Indicators(table, text)
        <==> exists t :: t in table[k].keywords + table[k].phrases && Contains(Lower(text), Lower(t))
    ensures table[k].docType in Indicators(table, text) ==>
      Indicators(table, text)[table[k].docType] == FoundFor(Lower(text), table[k])
  {
    IndicatorsOfAt(Lower(text), table, k);
    var p := table[k];
    var f := FoundFor(Lower(text), p);
    if f != [] {
      var t := f[0];
      assert t in Found(Lower(text), p.keywords) || t in Found(Lower(text), p.phrases);
      assert t in p.keywords + p.phrases && Contains(Lower(text), Lower(t));
    } else {
      forall t | t in p.keywords + p.phrases ensures !Contains(Lower(text), Lower(t)) {
        if t in p.keywords {
          assert t !in Found(Lower(text), p.keywords);
        } else {
          assert t !in Found(Lower(text), p.phrases);
        }
      }
    }
  }

  /** No indicators are found exactly when the document is classified as "other". */
  lemma NoIndicatorsIffOther(table: seq<Pattern>, text: string)
    requires |table| > 0
    requires forall i, j :: 0 <= i < j < |table| ==> table[i].docType != table[j].docType
    requires forall k :: 0 <= k < |table| ==> table[k].docType != Other
    ensures Indicators(table, text) == map[] <==> Classify(table, text) == Other
  {
    forall k | 0 <= k < |table|
      ensures table[k].docType in Indicators(table, text) <==> Score(text, table[k]) != 0
    {
      IndicatorsListed(table, text, k);
      ScoreZeroIff(text, table[k]);
    }
    if Indicators(table, text) != map[] {
      var l :| l in Indicators(table, text);
      IndicatorsOfKeys(Lower(text), table, l);
    }
  }

  // ---------------------------------------------------------------------------
  // Presence tests

  const FinancialKeywords: seq<string> := [
    "revenue", "ebitda", "earnings", "profit", "loss",
    "financial results", "income statement", "balance sheet",
    "cash flow", "financial performance", "million", "billion"
  ]

  const MnaKeywords: seq<string> := [
    "acquisition", "merger", "buyout", "transaction", "deal",
    "acquire", "purchase", "buy", "sell", "divestiture",
    "target", "buyer", "seller", "closing", "completion"
  ]

  /** `sum(1 for keyword in terms if keyword in lowered)`. */
  function PresentCount(lowered: string, terms: seq<string>): nat {
    if |terms| == 0 then 0
    else PresentCount(lowered, terms[..|terms| - 1]) + (if Contains(lowered, terms[|terms| - 1]) then 1 else 0)
  }

  predicate Distinct(terms: seq<string>) {
    forall i, j :: 0 <= i < j < |terms| ==> terms[i] != terms[j]
  }

  /** The listed terms that occur. */
  function PresentSet(lowered: string, terms: seq<string>): (r: set<string>)
    ensures forall t :: t in r <==> t in terms && Contains(lowered, t)
  {
    if |terms| == 0 then {}
    else
      var init, last := terms[..|terms| - 1], terms[|terms| - 1];
      assert terms == init + [last];
      PresentSet(lowered, init) + (if Contains(lowered, last) then {last} else {})
  }

  /** Over a list without repeats, the presence count is the number of distinct terms present. */
  lemma {:induction false} PresentCountIsDistinctCount(lowered: string, terms: seq<string>)
    requires Distinct(terms)
    ensures PresentCount(lowered, terms) == |set t | t in terms && Contains(lowered, t)|
  {
    PresentCountIsSetSize(lowered, terms);
    assert PresentSet(lowered, terms) == set t | t in terms && Contains(lowered, t);
  }

  lemma {:induction false} PresentCountIsSetSize(lowered: string, terms: seq<string>)
    requires Distinct(terms)
    ensures PresentCount(lowered, terms) == |PresentSet(lowered, terms)|
  {
    if |terms| > 0 {
      var n := |terms| - 1;
      var init, last := terms[..n], terms[n];
      assert Distinct(init);
      PresentCountIsSetSize(lowered, init);
      forall i | 0 <= i < n ensures init[i] != last {
        assert init[i] == terms[i];
      }
      assert last !in init;
      assert last !in PresentSet(lowered, init);
    }
  }

  /** `is_financial_document`. */
  predicate IsFinancialDocument(text: string) {
    PresentCount(Lower(text), FinancialKeywords) >= 3
  }

  /** `is_mna_document`. */
  predicate IsMnaDocument(text: string) {
    PresentCount(Lower(text), MnaKeywords) >= 2
  }

  /** A document is financial exactly when at least 3 distinct financial keywords occur. */
  lemma FinancialIffThreeDistinct(text: string)
    ensures IsFinancialDocument(text)
        <==> |set t | t in FinancialKeywords && Contains(Lower(text), t)| >= 3
  {
    assert Distinct(FinancialKeywords);
    PresentCountIsDistinctCount(Lower(text), FinancialKeywords);
  }

  /** A document is about M&A exactly when at least 2 distinct M&A keywords occur. */
  lemma MnaIffTwoDistinct(text: string)
    ensures IsMnaDocument(text) <==> |set t | t in MnaKeywords && Contains(Lower(text), t)| >= 2
  {
    assert Distinct(MnaKeywords);
    PresentCountIsDistinctCount(Lower(text), MnaKeywords);
  }

  /** The presence count is at least the number of listed positions whose term occurs. */
  lemma {:induction false} PresentCountAtLeast(lowered: string, terms: seq<string>, positions: set<nat>)
    requires forall i :: i in positions ==> i < |terms| && Contains(lowered, terms[i])
    ensures PresentCount(lowered, terms) >= |positions|
  {
    if |terms| == 0 {
      assert positions == {};
    } else {
      var n := |terms| - 1;
      var rest := positions - {n};
      forall i | i in rest ensures i < n && Contains(lowered, terms[..n][i]) {
        assert terms[..n][i] == terms[i];
      }
      PresentCountAtLeast(lowered, terms[..n], rest);
      if n in positions {
        assert positions == rest + {n};
      } else {
        assert positions == rest;
      }
    }
  }

  /** Substrings count: the text "Buyer" alone matches both "buy" and "buyer". */
  lemma BuyerAloneIsMna()
    ensures IsMnaDocument("Buyer")
  {
    var l := Lower("Buyer");
    assert l == "buyer";
    assert MnaKeywords[7] == "buy" && MnaKeywords[11] == "buyer";
    assert Contains(l, MnaKeywords[7]) && Contains(l, MnaKeywords[11]);
    assert |{7, 11}| == 2;
    PresentCountAtLeast(l, MnaKeywords, {7, 11});
  }

  // ---------------------------------------------------------------------------
  // The classifier object

  /** `DocumentClassifier`: holds the pattern table it is constructed with. */
  class DocumentClassifier {
    const patterns: seq<Pattern>

    constructor ()
      ensures patterns == Patterns
    {
      patterns := Patterns;
    }

    /** The keyword loop and the phrase loop of one document type. */
    method ScoreOf(lowered: string, p: Pattern) returns (score: nat)
      ensures score == TermsCount(lowered, p.keywords) * 1 + TermsCount(lowered, p.phrases) * 2
    {
      score := 0;
      for i := 0 to |p.keywords|
        invariant score == TermsCount(lowered, p.keywords[..i])
      {
        assert p.keywords[..i + 1][..i] == p.keywords[..i];
        score := score + Count(lowered, Lower(p.keywords[i])) * 1;
      }
      assert p.keywords[..|p.keywords|] == p.keywords;
      var keywordScore := score;
      for i := 0 to |p.phrases|
        invariant score == keywordScore + TermsCount(lowered, p.phrases[..i]) * 2
      {
        assert p.phrases[..i + 1][..i] == p.phrases[..i];
        score := score + Count(lowered, Lower(p.phrases[i])) * 2;
      }
      assert p.phrases[..|p.phrases|] == p.phrases;
    }

    /** The per-type scores, accumulated in table order. */
    method ComputeScores(text: string) returns (scores: seq<nat>)
      ensures scores == Scores(patterns, text)
    {
      var lowered := Lower(text);
      scores := [];
      for k := 0 to |patterns|
        invariant |scores| == k
        invariant forall j :: 0 <= j < k ==> scores[j] == Score(text, patterns[j])
      {
        var score := ScoreOf(lowered, patterns[k]);
        scores := scores + [score];
      }
    }

    /** `classify_document`: the first highest-scoring type, or "other" when every score is 0. */
    method ClassifyDocument(text: string) returns (docType: string)
      requires |patterns| > 0
      ensures docType == Classify(patterns, text)
    {
      var scores := ComputeScores(text);
      var best := 0;
      for k := 1 to |scores|
        invariant best < k
        invariant forall j :: 0 <= j < k ==> scores[j] <= scores[best]
        invariant forall j :: 0 <= j < best ==> scores[j] < scores[best]
      {
        if scores[k] > scores[best] {
          best := k;
        }
      }
      FirstMaxUnique(scores, best);
      docType := if scores[best] > 0 then patterns[best].docType else Other;
    }

    /** `get_classification_confidence`: each score divided by the total, times 100. */
    method GetClassificationConfidence(text: string) returns (confidence: map<string, real>)
      ensures confidence == Confidence(patterns, text)
    {
      var scores := ComputeScores(text);
      var total := SumScores(scores);
      var values: seq<real> := [];
      for k := 0 to |scores|
        invariant |values| == k
        invariant forall j :: 0 <= j < k ==> values[j] == Share(scores[j], total)
      {
        var v := if total > 0 then (scores[k] as real / total as real) * 100.0 else 0.0;
        values := values + [v];
      }
      assert values == ConfidenceValues(patterns, text);
      confidence := Zip(LabelsOf(patterns), values);
    }

    /** The matching terms of one list, in list order. */
    method FindTerms(lowered: string, terms: seq<string>) returns (found: seq<string>)
      ensures found == Found(lowered, terms)
    {
      found := [];
      for i := 0 to |terms|
        invariant found == Found(lowered, terms[..i])
      {
        assert terms[..i + 1][..i] == terms[..i];
        if Contains(lowered, Lower(terms[i])) {
          found := found + [terms[i]];
        }
      }
      assert terms[..|terms|] == terms;
    }

    /** `extract_key_indicators`. */
    method ExtractKeyIndicators(text: string) returns (indicators: map<string, seq<string>>)
      ensures indicators == Indicators(patterns, text)
    {
      var lowered := Lower(text);
      indicators := map[];
      for k := 0 to |patterns|
        invariant indicators == IndicatorsOf(lowered, patterns[..k])
      {
        assert patterns[..k + 1][..k] == patterns[..k];
        var fromKeywords := FindTerms(lowered, patterns[k].keywords);
        var fromPhrases := FindTerms(lowered, patterns[k].phrases);
        var found := fromKeywords + fromPhrases;
        if found != [] {
          indicators := indicators[patterns[k].docType := found];
        }
      }
      assert patterns[..|patterns|] == patterns;
    }
  }

  /** `sum(scores.values())`. */
  method SumScores(scores: seq<nat>) returns (total: nat)
    ensures total == SumNat(scores)
  {
    total := 0;
    for k := 0 to |scores|
      invariant total == SumNat(scores[..k])
    {
      assert scores[..k + 1][..k] == scores[..k];
      total := total + scores[k];
    }
    assert scores[..|scores|] == scores;
  }

  /** The two properties of `FirstMax` determine it. */
  lemma FirstMaxUnique(s: seq<nat>, k: nat)
    requires k < |s|
    requires forall j :: 0 <= j < |s| ==> s[j] <= s[k]
    requires forall j :: 0 <= j < k ==> s[j] < s[k]
    ensures FirstMax(s) == k
  {
    var m := FirstMax(s);
    assert !(m < k) && !(k < m);
  }
}
