/**
 * The value-level rules of the AI orchestrator: the five-section extraction schema, how a
 * parsed reply is merged into it and cleaned, the date and monetary passes, the deal ID,
 * the choice of the JSON span in the model's reply and the truncated prompt excerpt.
 */
module Extraction {
  import opened Wrappers
  import opened Text
  import opened JsonValue
  import opened Timestamps

  // ---------------------------------------------------------------------------
  // The schema

  const DealSummaryFields: seq<string> := [
    "deal_name", "deal_type", "target_company", "buyer", "seller", "country",
    "announcement_date", "signing_date", "closing_date", "deal_size_usd", "currency", "status"
  ]

  const FinancialsFields: seq<string> := [
    "revenue", "ebitda", "enterprise_value", "ev_ebitda_multiple", "debt_assumed",
    "other_key_metrics"
  ]

  const AdvisorsFields: seq<string> := [
    "buy_side_advisor", "sell_side_advisor", "legal_counsel_buyer", "legal_counsel_seller",
    "other_advisors"
  ]

  const PowerPlantFields: seq<string> := [
    "project_name", "location", "capacity_mw", "technology_type", "cod"
  ]

  const MetadataFields: seq<string> := [
    "deal_id", "source_file_name", "date_processed", "extraction_confidence"
  ]

  const SectionNames: set<string> :=
    {"deal_summary", "financials", "advisors", "power_plant_details", "metadata"}

  /** A section whose listed fields all hold the empty string. */
  function EmptySection(fields: seq<string>): (r: Section)
    ensures r.Keys == set f | f in fields
    ensures forall f :: f in r ==> r[f] == JStr("")
  {
    map f | f in fields :: JStr("")
  }

  /** `mna_schema` as built when the orchestrator is constructed at time `now`. */
  function DefaultSchema(now: DateTime): Record {
    map[
      "deal_summary" := EmptySection(DealSummaryFields),
      "financials" := EmptySection(FinancialsFields),
      "advisors" := EmptySection(AdvisorsFields),
      "power_plant_details" := EmptySection(PowerPlantFields),
      "metadata" := EmptySection(MetadataFields)["date_processed" := JStr(IsoFormat(now))]
    ]
  }

  /** The default schema has the five sections, each with its listed fields. */
  lemma DefaultSchemaKeys(now: DateTime)
    ensures DefaultSchema(now).Keys == SectionNames
    ensures DefaultSchema(now)["deal_summary"].Keys == set f | f in DealSummaryFields
    ensures DefaultSchema(now)["financials"].Keys == set f | f in FinancialsFields
    ensures DefaultSchema(now)["advisors"].Keys == set f | f in AdvisorsFields
    ensures DefaultSchema(now)["power_plant_details"].Keys == set f | f in PowerPlantFields
    ensures DefaultSchema(now)["metadata"].Keys == set f | f in MetadataFields
  {
    SchemaSections(now);
    SchemaDealFields(now);
    SchemaOtherFields(now);
    SchemaMetadataFields(now);
  }

  lemma SchemaSections(now: DateTime)
    ensures DefaultSchema(now).Keys == SectionNames
  {
  }

  lemma SchemaDealFields(now: DateTime)
    ensures "deal_summary" in DefaultSchema(now) && "financials" in DefaultSchema(now)
    ensures DefaultSchema(now)["deal_summary"].Keys == set f | f in DealSummaryFields
    ensures DefaultSchema(now)["financials"].Keys == set f | f in FinancialsFields
  {
  }

  lemma SchemaOtherFields(now: DateTime)
    ensures "advisors" in DefaultSchema(now) && "power_plant_details" in DefaultSchema(now)
    ensures DefaultSchema(now)["advisors"].Keys == set f | f in AdvisorsFields
    ensures DefaultSchema(now)["power_plant_details"].Keys == set f | f in PowerPlantFields
  {
  }

  lemma SchemaMetadataFields(now: DateTime)
    ensures "metadata" in DefaultSchema(now)
    ensures DefaultSchema(now)["metadata"].Keys == set f | f in MetadataFields
  {
    MetadataHasDate();
  }

  lemma MetadataHasDate()
    ensures "date_processed" in MetadataFields
  {
    assert MetadataFields[2] == "date_processed";
  }

  /** Every default field is the empty string except `metadata.date_processed`, the construction time. */
  lemma DefaultSchemaValues(now: DateTime, x: string, f: string)
    requires x in DefaultSchema(now) && f in DefaultSchema(now)[x]
    ensures DefaultSchema(now)[x][f]
        == if x == "metadata" && f == "date_processed" then JStr(IsoFormat(now)) else JStr("")
  {
    var d := DefaultSchema(now);
    if x == "metadata" {
      if f != "date_processed" {
        assert d[x][f] == EmptySection(MetadataFields)[f];
      }
    } else if x == "deal_summary" {
      assert d[x] == EmptySection(DealSummaryFields);
    } else if x == "financials" {
      assert d[x] == EmptySection(FinancialsFields);
    } else if x == "advisors" {
      assert d[x] == EmptySection(AdvisorsFields);
    } else {
      assert d[x] == EmptySection(PowerPlantFields);
    }
  }

  /** The record as the parsed JSON object `schema.copy()` would look like. */
  function RecordJson(t: Record): (j: Json)
    ensures j.JObj? && j.fields.Keys == t.Keys
    ensures forall s :: s in t ==> j.fields[s] == JObj(t[s])
  {
    JObj(map s | s in t :: JObj(t[s]))
  }

  // ---------------------------------------------------------------------------
  // Cleaning one value

  /** The strings that, once stripped and lower-cased, stand for "no value". */
  const Sentinels: seq<string> := ["", "n/a", "null", "none"]

  /** A string is stripped and collapsed to "" when it is a sentinel; other values are kept. */
  function CleanValue(v: Json): (r: Json)
    ensures !v.JStr? ==> r == v
    ensures v.JStr? ==> r.JStr? && |r.s| <= |v.s|
    ensures v.JStr? ==> r.s == "" || (r.s == Strip(v.s) && Lower(r.s) !in Sentinels)
    ensures v.JStr? && Lower(Strip(v.s)) in Sentinels ==> r == JStr("")
  {
    if v.JStr? then
      var s := Strip(v.s);
      if Lower(s) in Sentinels then JStr("") else JStr(s)
    else v
  }

  /** The empty string is already clean. */
  lemma CleanValueEmpty()
    ensures CleanValue(JStr("")) == JStr("")
  {
    assert Strip("") == "";
  }

  /** A cleaned string has no surrounding whitespace. */
  lemma CleanValueTrimmed(v: Json)
    requires v.JStr?
    ensures var r := CleanValue(v).s;
      r == "" || (!IsSpace(r[0]) && !IsSpace(r[|r| - 1]))
  {
    var s := Strip(v.s);
    if Lower(s) !in Sentinels {
      assert CleanValue(v).s == s;
    }
  }

  /** Cleaning a cleaned value changes nothing. */
  lemma CleanValueIdempotent(v: Json)
    ensures CleanValue(CleanValue(v)) == CleanValue(v)
  {
    if v.JStr? {
      StripIdempotent(v.s);
    }
  }

  /** A sentinel in any case and with surrounding whitespace becomes "". */
  lemma CleanValueSentinel(v: Json)
    requires v == JStr("  N/A ")
    ensures CleanValue(v) == JStr("")
  {
    StripPaddedNa();
    NaIsSentinel();
  }

  lemma NaIsSentinel()
    ensures Lower("N/A") in Sentinels
  {
    assert Lower("N/A") == "n/a";
  }

  lemma StripPaddedNa()
    ensures Strip("  N/A ") == "N/A"
  {
    assert "  N/A " == "  " + "N/A" + " ";
    StripPadded("  ", "N/A", " ");
  }

  /** Other text is only trimmed. */
  lemma CleanValueTrims()
    ensures CleanValue(JStr(" Acme\n")) == JStr("Acme")
  {
    StripPaddedAcme();
    AcmeNotSentinel();
  }

  lemma AcmeNotSentinel()
    ensures Lower("Acme") !in Sentinels
  {
    var l := Lower("Acme");
    assert l[0] == 'a' && |l| == 4;
    assert Sentinels[1][0] == 'n' && Sentinels[2][0] == 'n' && Sentinels[3][0] == 'n' && |Sentinels[0]| == 0;
  }

  /** A trimmed string that is not a sentinel comes through cleaning as it is. */
  lemma CleanValueKeeps(s: string)
    requires s == [] || (!IsSpace(s[0]) && !IsSpace(s[|s| - 1]))
    requires Lower(s) !in Sentinels
    ensures CleanValue(JStr(s)) == JStr(s)
  {
    StripOfTrimmed(s);
  }

  lemma StripPaddedAcme()
    ensures Strip(" Acme\n") == "Acme"
  {
    assert " Acme\n" == " " + "Acme" + "\n";
    StripPadded(" ", "Acme", "\n");
  }

  // ---------------------------------------------------------------------------
  // Merging a parsed reply into the schema

  /** The fields of `t`, each replaced by the cleaned value of `d` where `d` has that field. */
  function MergeSection(t: Section, d: map<string, Json>): (r: Section)
    ensures r.Keys == t.Keys
  {
    map f | f in t :: if f in d then CleanValue(d[f]) else t[f]
  }

  /** The merged section `x`: only a parsed section that is a dict is merged. */
  function MergedSection(t: Record, data: Json, x: string): Section
    requires x in t
  {
    if data.JObj? && x in data.fields && data.fields[x].JObj?
    then MergeSection(t[x], data.fields[x].fields)
    else t[x]
  }

  /**
   * Whether the section test `section in data` and the subscript `data[section]` raise a
   * `TypeError` for section `x`: a list that holds the string `x`, a string that contains
   * `x`, and every number, boolean and `None` do.
   */
  predicate SectionRaises(x: string, data: Json) {
    match data
    case JObj(_) => false
    case JArr(items) => JStr(x) in items
    case JStr(s) => Contains(s, x)
    case _ => true
  }

  /** The text of the `TypeError` raised for a non-dict parsed value (Python 3.11 wording). */
  function RaiseMessage(data: Json): string {
    match data
    case JArr(_) => "list indices must be integers or slices, not str"
    case JStr(_) => "string indices must be integers, not 'str'"
    case _ => "argument of type '" + TypeName(data) + "' is not iterable"
  }

  /** `section in data` on a parsed value. */
  function PyIn(x: string, data: Json): (r: Result<bool>)
    ensures r.Err? <==> !(data.JObj? || data.JArr? || data.JStr?)
    ensures r.Err? ==> r.message == RaiseMessage(data)
  {
    match data
    case JObj(m) => Ok(x in m)
    case JArr(items) => Ok(JStr(x) in items)
    case JStr(s) => Ok(Contains(s, x))
    case _ => Err(RaiseMessage(data))
  }

  /** `data[section]` on a parsed value that contains `section`. */
  function PySubscript(data: Json, x: string): (r: Result<Json>)
    requires PyIn(x, data) == Ok(true)
    ensures r.Ok? <==> data.JObj?
    ensures r.Err? ==> r.message == RaiseMessage(data)
  {
    match data
    case JObj(m) => Ok(m[x])
    case _ => Err(RaiseMessage(data))
  }

  /** The section loop of `_validate_and_clean_data`, without the date and monetary passes. */
  function Merge(t: Record, data: Json): (r: Result<Record>)
    ensures r.Ok? ==> r.value.Keys == t.Keys
    ensures r.Ok? ==> forall x :: x in t ==> r.value[x].Keys == t[x].Keys
    ensures r.Err? ==> r.message == RaiseMessage(data)
  {
    if exists x :: x in t && SectionRaises(x, data) then Err(RaiseMessage(data))
    else Ok(map x | x in t :: MergedSection(t, data, x))
  }

  /**
   * Merging a dict never fails. A field takes the cleaned parsed value when the parsed
   * section is a dict holding that field, and keeps its schema value otherwise; parsed
   * sections and fields that the schema lacks are dropped.
   */
  lemma MergeObject(t: Record, m: map<string, Json>, x: string, f: string)
    requires x in t && f in t[x]
    ensures Merge(t, JObj(m)).Ok?
    ensures Merge(t, JObj(m)).value[x][f]
        == if x in m && m[x].JObj? && f in m[x].fields then CleanValue(m[x].fields[f]) else t[x][f]
  {
  }

  /** Merging the template's own record into it cleans every cell in place. */
  lemma MergeOwnRecord(t: Record, x: string, f: string)
    requires x in t && f in t[x]
    ensures Merge(t, RecordJson(t)).Ok?
    ensures Merge(t, RecordJson(t)).value[x][f] == CleanValue(t[x][f])
  {
    var j := RecordJson(t);
    assert j.fields[x] == JObj(t[x]);
    MergeObject(t, j.fields, x, f);
  }

  /** A number, boolean or `None` always raises, since the schema has sections. */
  lemma MergeScalarRaises(t: Record, data: Json)
    requires t != map[]
    requires !(data.JObj? || data.JArr? || data.JStr?)
    ensures Merge(t, data) == Err("argument of type '" + TypeName(data) + "' is not iterable")
  {
    var x :| x in t;
    assert SectionRaises(x, data);
  }

  /** A list raises exactly when it holds a section name as a string; otherwise nothing changes. */
  lemma MergeList(t: Record, items: seq<Json>)
    ensures Merge(t, JArr(items)).Err? <==> exists x :: x in t && JStr(x) in items
    ensures Merge(t, JArr(items)).Ok? ==> Merge(t, JArr(items)).value == t
  {
    if Merge(t, JArr(items)).Ok? {
      assert forall x :: x in t ==> MergedSection(t, JArr(items), x) == t[x];
    }
  }

  // ---------------------------------------------------------------------------
  // Per-cell passes: dates and monetary values

  /** The cells `(section, field)` a pass visits, in order. */
  type Cells = seq<(string, string)>

  predicate DistinctCells(cells: Cells) {
    forall i, j :: 0 <= i < j < |cells| ==> cells[i] != cells[j]
  }

  /** Applies `rule` to the cell `(x, f)` when `r` has it. */
  function ApplyCell(r: Record, x: string, f: string, rule: Json -> Json): (r': Record)
    ensures r'.Keys == r.Keys
    ensures forall y :: y in r ==> r'[y].Keys == r[y].Keys
  {
    if x in r && f in r[x] then r[x := r[x][f := rule(r[x][f])]] else r
  }

  /** Applies `rule` to every listed cell present in `r` (absent cells are skipped). */
  function ApplyRule(r: Record, cells: Cells, rule: Json -> Json): (r': Record)
    ensures r'.Keys == r.Keys
    ensures forall x :: x in r ==> r'[x].Keys == r[x].Keys
  {
    if |cells| == 0 then r
    else
      var (x, f) := cells[|cells| - 1];
      ApplyCell(ApplyRule(r, cells[..|cells| - 1], rule), x, f, rule)
  }

  /** A pass over distinct cells changes each listed cell by the rule and no other cell. */
  lemma {:induction false} ApplyRuleCell(r: Record, cells: Cells, rule: Json -> Json, x: string, f: string)
    requires DistinctCells(cells)
    requires x in r && f in r[x]
    ensures ApplyRule(r, cells, rule)[x][f] == if (x, f) in cells then rule(r[x][f]) else r[x][f]
  {
    if |cells| > 0 {
      var n := |cells| - 1;
      var init := cells[..n];
      assert DistinctCells(init);
      ApplyRuleCell(r, init, rule, x, f);
      var prev := ApplyRule(r, init, rule);
      ApplyCellAt(prev, cells[n].0, cells[n].1, rule, x, f);
      assert cells == init + [cells[n]];
      if cells[n] == (x, f) {
        forall i | 0 <= i < n ensures init[i] != (x, f) {
          assert init[i] == cells[i];
        }
      }
    }
  }

  lemma ApplyCellAt(r: Record, x: string, f: string, rule: Json -> Json, y: string, g: string)
    requires y in r && g in r[y]
    ensures ApplyCell(r, x, f, rule)[y][g] == if (x, f) == (y, g) then rule(r[y][g]) else r[y][g]
  {
  }

  const DateFields: Cells := [
    ("deal_summary", "announcement_date"), ("deal_summary", "signing_date"),
    ("deal_summary", "closing_date"), ("power_plant_details", "cod")
  ]

  const MonetaryFields: Cells := [
    ("deal_summary", "deal_size_usd"), ("financials", "revenue"), ("financials", "ebitda"),
    ("financials", "enterprise_value"), ("financials", "debt_assumed")
  ]

  /** `re.match(r'\d{4}-\d{2}-\d{2}', s)`: the string starts with a `YYYY-MM-DD` shape. */
  predicate IsoDatePrefix(s: string) {
    |s| >= 10 && s[4] == '-' && s[7] == '-'
    && (forall i :: 0 <= i < 10 && i != 4 && i != 7 ==> IsDigit(s[i]))
  }

  /**
   * One date cell. A truthy value other than "N/A" is matched against the date pattern;
   * a string is left as it is whether or not it matches, and any other value makes
   * `re.match` raise a `TypeError`, which the bare `except` turns into "".
   */
  function DateRule(v: Json): Json {
    if Truthy(v) && v != JStr("N/A") && !v.JStr? then JStr("") else v
  }

  /** `_validate_dates`. */
  function ValidateDates(r: Record): Record {
    ApplyRule(r, DateFields, DateRule)
  }

  lemma DistinctFieldTables()
    ensures DistinctCells(DateFields)
    ensures DistinctCells(MonetaryFields)
  {
  }

  /**
   * The date pass never changes a string, changes only the four date cells, and turns a
   * truthy non-string date into "".
   */
  lemma ValidateDatesCell(r: Record, x: string, f: string)
    requires x in r && f in r[x]
    ensures r[x][f].JStr? ==> ValidateDates(r)[x][f] == r[x][f]
    ensures (x, f) !in DateFields ==> ValidateDates(r)[x][f] == r[x][f]
    ensures (x, f) in DateFields && Truthy(r[x][f]) && !r[x][f].JStr? ==>
      ValidateDates(r)[x][f] == JStr("")
  {
    DistinctFieldTables();
    ApplyRuleCell(r, DateFields, DateRule, x, f);
  }

  /** One monetary cell: a truthy value other than "N/A" keeps only the digits and dots of `str(value)`. */
  function MoneyRule(v: Json, render: Json -> string): Json {
    if Truthy(v) && v != JStr("N/A") then JStr(DigitsAndDots(PyStr(v, render))) else v
  }

  /** The monetary rule for a given rendering of `str`. */
  function MoneyRuleOf(render: Json -> string): Json -> Json {
    v => MoneyRule(v, render)
  }

  /** `_validate_monetary_values`. */
  function ValidateMonetary(r: Record, render: Json -> string): Record {
    ApplyRule(r, MonetaryFields, MoneyRuleOf(render))
  }

  /**
   * The monetary pass changes only the five monetary cells; a non-empty string other than
   * "N/A" keeps its digits and dots, in order; an empty value is left as it is.
   */
  lemma ValidateMonetaryCell(r: Record, render: Json -> string, x: string, f: string)
    requires x in r && f in r[x]
    ensures (x, f) !in MonetaryFields ==> ValidateMonetary(r, render)[x][f] == r[x][f]
    ensures !Truthy(r[x][f]) ==> ValidateMonetary(r, render)[x][f] == r[x][f]
    ensures (x, f) in MonetaryFields && r[x][f].JStr? && r[x][f].s != "" && r[x][f].s != "N/A" ==>
      ValidateMonetary(r, render)[x][f] == JStr(DigitsAndDots(r[x][f].s))
  {
    DistinctFieldTables();
    ApplyRuleCell(r, MonetaryFields, MoneyRuleOf(render), x, f);
  }

  /** Example: "$1,234.56M" becomes "1234.56". */
  lemma MoneyExample(render: Json -> string)
    ensures MoneyRule(JStr("$1,234.56M"), render) == JStr("1234.56")
  {
    var v := JStr("$1,234.56M");
    assert |v.s| == 10;
    assert Truthy(v) && v != JStr("N/A");
    assert PyStr(v, render) == v.s;
    MoneyDigits();
  }

  lemma MoneyDigits()
    ensures DigitsAndDots("$1,234.56M") == "1234.56"
  {
    MoneyHead();
    MoneyTail();
    assert "$1,234.56M" == "$1,23" + "4.56M";
    DigitsAndDotsAppend("$1,23", "4.56M");
    assert "1234.56" == "123" + "4.56";
  }

  lemma MoneyHead()
    ensures DigitsAndDots("$1,23") == "123"
  {
  }

  lemma MoneyTail()
    ensures DigitsAndDots("4.56M") == "4.56"
  {
  }

  /** `_validate_and_clean_data`: merge, then the date pass, then the monetary pass. */
  function CleanRecord(t: Record, data: Json, render: Json -> string): (r: Result<Record>)
    ensures r.Ok? <==> Merge(t, data).Ok?
    ensures r.Err? ==> r.message == RaiseMessage(data)
    ensures r.Ok? ==> r.value.Keys == t.Keys && forall x :: x in t ==> r.value[x].Keys == t[x].Keys
  {
    match Merge(t, data)
    case Ok(m) => Ok(ValidateMonetary(ValidateDates(m), render))
    case Err(e) => Err(e)
  }

  /**
   * A merged string cell survives both passes unless it is a truthy monetary cell: the date
   * pass leaves strings alone and the monetary pass touches only truthy monetary cells.
   */
  lemma CleanRecordKeeps(t: Record, data: Json, render: Json -> string, x: string, f: string)
    requires x in t && f in t[x] && Merge(t, data).Ok?
    requires Merge(t, data).value[x][f].JStr?
    requires (x, f) !in MonetaryFields || !Truthy(Merge(t, data).value[x][f])
    ensures CleanRecord(t, data, render).value[x][f] == Merge(t, data).value[x][f]
  {
    var m := Merge(t, data).value;
    ValidateDatesCell(m, x, f);
    ValidateMonetaryCell(ValidateDates(m), render, x, f);
  }

  // ---------------------------------------------------------------------------
  // The deal ID

  /**
   * `_generate_deal_id`. A truthy target that is a string, with an announcement date that is
   * a string, gives `DEAL_<first 10 word characters>_<first 8 digits>`; a falsy target gives
   * the timestamp form; so does a non-string target or date, where `re.sub` raises a
   * `TypeError` that the bare `except` catches.
   */
  function DealId(r: Record, at: DateTime): string {
    var summary := if "deal_summary" in r then r["deal_summary"] else map[];
    var target := Get(summary, "target_company", JStr(""));
    var date := Get(summary, "announcement_date", JStr(""));
    if Truthy(target) && target.JStr? && date.JStr? then
      "DEAL_" + Take(WordCharsOnly(target.s), 10) + "_" + Take(DigitsOnly(date.s), 8)
    else
      "DEAL_" + Compact(at)
  }

  /**
   * With a non-empty string target and a string date, the ID is `DEAL_`, the first 10 word
   * characters of the target, `_`, and the first 8 digits of the date; the timestamp plays
   * no part.
   */
  lemma DealIdFromTarget(r: Record, at: DateTime, at': DateTime, target: string, date: string)
    requires "deal_summary" in r
    requires Get(r["deal_summary"], "target_company", JStr("")) == JStr(target) && target != ""
    requires Get(r["deal_summary"], "announcement_date", JStr("")) == JStr(date)
    ensures DealId(r, at) == "DEAL_" + Take(WordCharsOnly(target), 10) + "_" + Take(DigitsOnly(date), 8)
    ensures DealId(r, at) == DealId(r, at')
  {
  }

  /** Without a string target (or with a non-string date) the ID is `DEAL_%Y%m%d_%H%M%S`. */
  lemma DealIdFallback(r: Record, at: DateTime)
    requires "deal_summary" in r
    requires var target := Get(r["deal_summary"], "target_company", JStr(""));
      var date := Get(r["deal_summary"], "announcement_date", JStr(""));
      !Truthy(target) || !target.JStr? || !date.JStr?
    ensures DealId(r, at) == "DEAL_" + Compact(at) && |DealId(r, at)| == 20
  {
  }

  /** Example: "Acme Power Co." announced "2024-03-15". */
  lemma DealIdExample(r: Record, at: DateTime)
    requires "deal_summary" in r
    requires Get(r["deal_summary"], "target_company", JStr("")) == JStr("Acme Power Co.")
    requires Get(r["deal_summary"], "announcement_date", JStr("")) == JStr("2024-03-15")
    ensures DealId(r, at) == "DEAL_AcmePowerC_20240315"
  {
    DealIdFromTarget(r, at, at, "Acme Power Co.", "2024-03-15");
    AcmeWordChars();
    DateDigits();
    AcmeIdParts();
  }

  lemma AcmeIdParts()
    ensures "DEAL_" + Take("AcmePowerCo", 10) + "_" + Take("20240315", 8) == "DEAL_AcmePowerC_20240315"
  {
    assert Take("AcmePowerCo", 10) == "AcmePowerC";
  }

  lemma AcmeWordChars()
    ensures WordCharsOnly("Acme Power Co.") == "AcmePowerCo"
  {
    AcmeHead();
    AcmeTail();
    WordCharsOnlyAppend("Acme Pow", "er Co.");
    AcmeSplit();
  }

  lemma AcmeSplit()
    ensures "Acme Power Co." == "Acme Pow" + "er Co."
    ensures "AcmePowerCo" == "AcmePow" + "erCo"
  {
  }

  lemma AcmeHead()
    ensures WordCharsOnly("Acme Pow") == "AcmePow"
  {
    AcmeWord();
    PowWord();
    WordCharsOnlyAppend("Acme ", "Pow");
    assert "Acme Pow" == "Acme " + "Pow";
    assert "AcmePow" == "Acme" + "Pow";
  }

  lemma AcmeWord()
    ensures WordCharsOnly("Acme ") == "Acme"
  {
  }

  lemma PowWord()
    ensures WordCharsOnly("Pow") == "Pow"
  {
  }

  lemma AcmeTail()
    ensures WordCharsOnly("er Co.") == "erCo"
  {
  }

  lemma DateDigits()
    ensures DigitsOnly("2024-03-15") == "20240315"
  {
    YearDigits();
    DayDigits();
    assert "2024-03-15" == "2024-" + "03-15";
    DigitsOnlyAppend("2024-", "03-15");
    assert "20240315" == "2024" + "0315";
  }

  lemma YearDigits()
    ensures DigitsOnly("2024-") == "2024"
  {
  }

  lemma DayDigits()
    ensures DigitsOnly("03-15") == "0315"
  {
  }

  // ---------------------------------------------------------------------------
  // The JSON span of the model's reply and the prompt excerpt

  /** The index of the first occurrence of `c`, if any. */
  function FirstIndex(s: string, c: char): (r: Option<nat>)
    ensures r.Some? ==> r.value < |s| && s[r.value] == c && c !in s[..r.value]
    ensures r.None? ==> c !in s
  {
    if |s| == 0 then None
    else if s[0] == c then Some(0)
    else
      match FirstIndex(s[1..], c)
      case None => None
      case Some(k) =>
        assert s[..k + 1] == [s[0]] + s[1..][..k];
        Some(k + 1)
  }

  /** The index of the last occurrence of `c`, if any. */
  function LastIndex(s: string, c: char): (r: Option<nat>)
    ensures r.Some? ==> r.value < |s| && s[r.value] == c && c !in s[r.value + 1..]
    ensures r.None? ==> c !in s
  {
    if |s| == 0 then None
    else if s[|s| - 1] == c then Some(|s| - 1)
    else
      match LastIndex(s[..|s| - 1], c)
      case None => None
      case Some(k) =>
        assert s[k + 1..] == s[..|s| - 1][k + 1..] + [s[|s| - 1]];
        Some(k)
  }

  /**
   * The text handed to `json.loads`: the match of `\{.*\}` (greedy, dot matching newlines),
   * which runs from the first `{` to the last `}` when a `}` follows the first `{`; the
   * whole reply otherwise.
   */
  function JsonSpan(reply: string): string {
    match (FirstIndex(reply, '{'), LastIndex(reply, '}'))
    case (Some(i), Some(j)) => if i < j then reply[i..j + 1] else reply
    case _ => reply
  }

  lemma {:induction false} FirstIndexIs(s: string, c: char, i: nat)
    requires i < |s| && s[i] == c && c !in s[..i]
    ensures FirstIndex(s, c) == Some(i)
  {
    if i > 0 {
      assert s[0] == s[..i][0];
      assert s[1..][..i - 1] == s[1..i];
      assert forall k :: 0 <= k < i - 1 ==> s[1..i][k] == s[..i][k + 1];
      FirstIndexIs(s[1..], c, i - 1);
    }
  }

  lemma {:induction false} LastIndexIs(s: string, c: char, j: nat)
    requires j < |s| && s[j] == c && c !in s[j + 1..]
    ensures LastIndex(s, c) == Some(j)
  {
    var n := |s| - 1;
    if j < n {
      assert s[j + 1..] == s[..n][j + 1..] + [s[n]];
      LastIndexIs(s[..n], c, j);
    }
  }

  /**
   * When `i` holds the first `{` and `j > i` the last `}`, the span is `reply[i..j + 1]`:
   * the leftmost, longest match of the pattern.
   */
  lemma JsonSpanIs(reply: string, i: nat, j: nat)
    requires i < j < |reply| && reply[i] == '{' && reply[j] == '}'
    requires '{' !in reply[..i] && '}' !in reply[j + 1..]
    ensures JsonSpan(reply) == reply[i..j + 1]
    ensures JsonSpan(reply)[0] == '{' && JsonSpan(reply)[j - i] == '}'
  {
    FirstIndexIs(reply, '{', i);
    LastIndexIs(reply, '}', j);
  }

  /** Without any `{` followed later by a `}`, `json.loads` is given the whole reply. */
  lemma JsonSpanWhole(reply: string)
    requires forall i, j :: 0 <= i < j < |reply| && reply[i] == '{' ==> reply[j] != '}'
    ensures JsonSpan(reply) == reply
  {
  }

  /** What the extraction prompt is built from: the excerpt, the type and the schema as dumped. */
  datatype Prompt = Prompt(excerpt: string, docType: string, schema: Record)

  /** `_create_extraction_prompt`: the document text is cut to its first 4000 characters. */
  function MakePrompt(text: string, docType: string, schema: Record): (p: Prompt)
    ensures p.excerpt <= text
    ensures |p.excerpt| == if |text| <= 4000 then |text| else 4000
    ensures p.docType == docType
    ensures p.schema == schema
  {
    Prompt(Take(text, 4000), docType, schema)
  }
}
