/**
 * The Google Sheets writer. The spreadsheet is modelled as an object holding, for each
 * worksheet title, the worksheet's grid rows; gspread's authorisation, the network and
 * the formatting of cell values are not modelled.
 */
module SheetGenerator {
  import opened Wrappers
  import opened JsonValue
  import opened Extraction
  import opened Timestamps
  import opened AiOrchestrator

  type Rows = seq<seq<Json>>

  // ---------------------------------------------------------------------------
  // Rows and the used range

  /** A cell that Sheets shows as empty. */
  predicate Blank(v: Json) {
    v == JStr("") || v == JNull
  }

  /** A row with no visible value; `row_values` of it is the empty list. */
  predicate BlankRow(row: seq<Json>) {
    forall i :: 0 <= i < |row| ==> Blank(row[i])
  }

  /** `get_all_values()`: the rows up to the last one that holds a value. */
  function UsedRows(rows: Rows): (r: Rows)
    ensures r <= rows
    ensures r == [] || !BlankRow(r[|r| - 1])
    ensures forall i :: |r| <= i < |rows| ==> BlankRow(rows[i])
  {
    if |rows| == 0 then []
    else if BlankRow(rows[|rows| - 1]) then UsedRows(rows[..|rows| - 1])
    else rows
  }

  /** Blank rows after the used range do not change it. */
  lemma {:induction false} UsedRowsOfBlankTail(a: Rows, b: Rows)
    requires forall i :: 0 <= i < |b| ==> BlankRow(b[i])
    ensures UsedRows(a + b) == UsedRows(a)
    decreases |b|
  {
    if |b| == 0 {
      assert a + b == a;
    } else {
      var n := |b| - 1;
      assert (a + b)[..|a + b| - 1] == a + b[..n];
      UsedRowsOfBlankTail(a, b[..n]);
    }
  }

  /** `insert_row(values, index)`: the row goes in at 1-based `index`, later rows move down. */
  function Inserted(rows: Rows, values: seq<Json>, index: nat): (r: Rows)
    requires 1 <= index <= |rows| + 1
    ensures |r| == |rows| + 1 && r[index - 1] == values
    ensures r[..index - 1] == rows[..index - 1] && r[index..] == rows[index - 1..]
  {
    rows[..index - 1] + [values] + rows[index - 1..]
  }

  /** The append of the writers: insert at `len(get_all_values()) + 1`. */
  function Appended(rows: Rows, values: seq<Json>): Rows {
    Inserted(rows, values, |UsedRows(rows)| + 1)
  }

  /**
   * Appending keeps every used row where it was and puts the new row right after them; a
   * row that holds a value becomes the last used row, so the next append goes below it.
   */
  lemma AppendedRows(rows: Rows, values: seq<Json>)
    ensures var used := UsedRows(rows);
      && Appended(rows, values)[..|used|] == used
      && Appended(rows, values)[|used|] == values
      && (!BlankRow(values) ==> UsedRows(Appended(rows, values)) == used + [values])
  {
    var used := UsedRows(rows);
    var r := Appended(rows, values);
    assert rows[..|used|] == used;
    if !BlankRow(values) {
      var tail := rows[|used|..];
      assert r == (used + [values]) + tail;
      UsedRowsOfBlankTail(used + [values], tail);
    }
  }

  /** `n` empty grid rows, as `add_worksheet(rows=n, ...)` creates them. */
  function BlankRows(n: nat): (r: Rows)
    ensures |r| == n && forall i :: 0 <= i < n ==> r[i] == []
  {
    seq(n, i => [])
  }

  // ---------------------------------------------------------------------------
  // The worksheets and their headers

  function HeaderRow(titles: seq<string>): (r: seq<Json>)
    ensures |r| == |titles| && forall i :: 0 <= i < |titles| ==> r[i] == JStr(titles[i])
  {
    seq(|titles|, i requires 0 <= i < |titles| => JStr(titles[i]))
  }

  const DealSummaryHeaders: seq<string> := [
    "Deal ID", "Deal Name", "Deal Type", "Target Company", "Buyer", "Seller", "Country",
    "Announcement Date", "Signing Date", "Closing Date", "Deal Size (USD)", "Currency", "Status"
  ]

  const FinancialsHeaders: seq<string> := [
    "Deal ID", "Revenue", "EBITDA", "Enterprise Value", "EV/EBITDA Multiple", "Debt Assumed",
    "Other Key Metrics"
  ]

  const AdvisorsHeaders: seq<string> := [
    "Deal ID", "Buy-Side Advisor", "Sell-Side Advisor", "Legal Counsel (Buyer)",
    "Legal Counsel (Seller)", "Other Advisors"
  ]

  const PowerPlantHeaders: seq<string> := [
    "Deal ID", "Project Name", "Location", "Capacity (MW)", "Technology Type", "COD"
  ]

  const MetadataHeaders: seq<string> := [
    "Deal ID", "Source File Name", "Date Processed", "Extraction Confidence", "QC Status",
    "QC Analyst", "QC Date"
  ]

  /** `worksheets_config`, in its order. */
  const WorksheetsConfig: seq<(string, seq<string>)> := [
    ("Deal Summary", DealSummaryHeaders), ("Financials", FinancialsHeaders),
    ("Advisors", AdvisorsHeaders), ("Power Plant Details", PowerPlantHeaders),
    ("Metadata", MetadataHeaders)
  ]

  predicate DistinctTitles(config: seq<(string, seq<string>)>) {
    forall i, j :: 0 <= i < j < |config| ==> config[i].0 != config[j].0
  }

  /** The configured worksheets have distinct titles. */
  lemma ConfigTitles()
    ensures DistinctTitles(WorksheetsConfig)
  {
  }

  /**
   * One pass of `_ensure_worksheets_exist`: a worksheet missing from `existing` is created
   * with 1000 empty rows and the headers inserted at row 1; an existing worksheet whose
   * row 1 shows nothing gets the headers inserted at row 1; any other is left alone.
   */
  function EnsureSheet(sheets: map<string, Rows>, existing: set<string>, title: string,
                       headers: seq<string>): (r: map<string, Rows>)
    ensures r.Keys == sheets.Keys + {title} || (r == sheets && title in existing)
  {
    if title !in existing then sheets[title := Inserted(BlankRows(1000), HeaderRow(headers), 1)]
    else if title in sheets && (sheets[title] == [] || BlankRow(sheets[title][0]))
    then sheets[title := Inserted(sheets[title], HeaderRow(headers), 1)]
    else sheets
  }

  /** `_ensure_worksheets_exist` over a configuration, with `existing` read once up front. */
  function EnsureAll(sheets: map<string, Rows>, existing: set<string>,
                     config: seq<(string, seq<string>)>): (r: map<string, Rows>)
    ensures sheets.Keys <= r.Keys
  {
    if |config| == 0 then sheets
    else
      var (title, headers) := config[|config| - 1];
      EnsureSheet(EnsureAll(sheets, existing, config[..|config| - 1]), existing, title, headers)
  }

  /**
   * After `_ensure_worksheets_exist`, a configured worksheet that was missing holds its
   * headers and the empty grid; one whose row 1 was blank has the headers above its old
   * rows; one that had headers is untouched; so is every worksheet not in the configuration.
   */
  lemma {:induction false} EnsureAllSheet(sheets: map<string, Rows>, config: seq<(string, seq<string>)>,
                                          title: string)
    requires DistinctTitles(config)
    ensures var r := EnsureAll(sheets, sheets.Keys, config);
      && (forall k :: 0 <= k < |config| && config[k].0 == title ==>
            && title in r
            && r[title] == (if title !in sheets then [HeaderRow(config[k].1)] + BlankRows(1000)
                           else if sheets[title] == [] || BlankRow(sheets[title][0])
                           then [HeaderRow(config[k].1)] + sheets[title]
                           else sheets[title]))
      && ((forall k :: 0 <= k < |config| ==> config[k].0 != title) ==>
            (title in r <==> title in sheets) && (title in sheets ==> r[title] == sheets[title]))
    decreases |config|
  {
    if |config| > 0 {
      var n := |config| - 1;
      var init := config[..n];
      assert DistinctTitles(init);
      EnsureAllSheet(sheets, init, title);
      var (t, h) := config[n];
      if t == title {
        assert forall k :: 0 <= k < n ==> init[k].0 != title;
        var prev := EnsureAll(sheets, sheets.Keys, init);
        assert title in sheets ==> prev[title] == sheets[title];
        assert Inserted(BlankRows(1000), HeaderRow(h), 1) == [HeaderRow(h)] + BlankRows(1000);
        if title in sheets {
          assert Inserted(sheets[title], HeaderRow(h), 1) == [HeaderRow(h)] + sheets[title];
        }
      }
    }
  }

  // ---------------------------------------------------------------------------
  // The row layouts

  const DealSummaryColumns: seq<string> := [
    "deal_id", "deal_name", "deal_type", "target_company", "buyer", "seller", "country",
    "announcement_date", "signing_date", "closing_date", "deal_size_usd", "currency", "status"
  ]

  const FinancialsColumns: seq<string> := [
    "deal_id", "revenue", "ebitda", "enterprise_value", "ev_ebitda_multiple", "debt_assumed",
    "other_key_metrics"
  ]

  const AdvisorsColumns: seq<string> := [
    "deal_id", "buy_side_advisor", "sell_side_advisor", "legal_counsel_buyer",
    "legal_counsel_seller", "other_advisors"
  ]

  /** A row built from `d.get(key, "")` for each column key in turn: a column the section
      holds gives its value, any other column gives "". */
  function Row(d: Section, columns: seq<string>): (r: seq<Json>)
    ensures |r| == |columns|
    ensures forall i :: 0 <= i < |columns| && columns[i] in d ==> r[i] == d[columns[i]]
    ensures forall i :: 0 <= i < |columns| && columns[i] !in d ==> r[i] == JStr("")
  {
    seq(|columns|, i requires 0 <= i < |columns| => Get(d, columns[i], JStr("")))
  }

  lemma ColumnsMatchHeaders()
    ensures |DealSummaryColumns| == |DealSummaryHeaders| == 13
    ensures |FinancialsColumns| == |FinancialsHeaders| == 7
    ensures |AdvisorsColumns| == |AdvisorsHeaders| == 6
    ensures DealSummaryColumns == ["deal_id"] + DealSummaryFields
    ensures FinancialsColumns == ["deal_id"] + FinancialsFields
    ensures AdvisorsColumns == ["deal_id"] + AdvisorsFields
  {
  }

  /** No schema section other than metadata has a `deal_id` field. */
  lemma NoDealIdField()
    ensures "deal_id" !in DealSummaryFields
    ensures "deal_id" !in FinancialsFields
    ensures "deal_id" !in AdvisorsFields
  {
  }

  /**
   * The writers read the Deal ID column from the section itself, which has no `deal_id`
   * field: after a successful extraction `metadata.deal_id` holds the generated ID, yet the
   * Deal Summary, Financials and Advisors rows all start with "".
   */
  lemma DealIdColumnIsLost(t: Record, text: string, docType: string, reply: string,
                           complete: Prompt -> Result<string>, parse: string -> Option<Json>,
                           render: Json -> string, processedAt: DateTime, idAt: DateTime, c: Record)
    requires "metadata" in t && "deal_summary" in t && "financials" in t && "advisors" in t
    requires "deal_id" !in t["deal_summary"] && "deal_id" !in t["financials"] && "deal_id" !in t["advisors"]
    requires complete(MakePrompt(text, docType, t)) == Ok(reply)
    requires CleanRecord(t, ParseReply(t, reply, parse), render) == Ok(c)
    ensures var r := Process(t, text, docType, complete, parse, render, processedAt, idAt);
      && RecordDealId(r) == JStr(DealId(c, idAt)) && RecordDealId(r) != JStr("")
      && Row(SectionOf(r, "deal_summary"), DealSummaryColumns)[0] == JStr("")
      && Row(SectionOf(r, "financials"), FinancialsColumns)[0] == JStr("")
      && Row(SectionOf(r, "advisors"), AdvisorsColumns)[0] == JStr("")
  {
    var r := Process(t, text, docType, complete, parse, render, processedAt, idAt);
    ProcessSucceeds(t, text, docType, reply, complete, parse, render, processedAt, idAt, c);
    DealIdNotEmpty(c, idAt);
    assert SectionOf(r, "deal_summary") == c["deal_summary"];
    assert SectionOf(r, "financials") == c["financials"];
    assert SectionOf(r, "advisors") == c["advisors"];
    BlankIdColumn(c["deal_summary"], DealSummaryColumns);
    BlankIdColumn(c["financials"], FinancialsColumns);
    BlankIdColumn(c["advisors"], AdvisorsColumns);
  }

  lemma DealIdNotEmpty(r: Record, at: DateTime)
    ensures DealId(r, at) != ""
  {
    assert |DealId(r, at)| >= 5;
  }

  lemma BlankIdColumn(d: Section, columns: seq<string>)
    requires |columns| > 0 && columns[0] == "deal_id" && "deal_id" !in d
    ensures Row(d, columns)[0] == JStr("")
  {
  }

  /** The schema sections the rows come from have no `deal_id` field. */
  lemma SchemaHasNoDealIdColumn(now: DateTime)
    ensures "deal_id" !in DefaultSchema(now)["deal_summary"]
    ensures "deal_id" !in DefaultSchema(now)["financials"]
    ensures "deal_id" !in DefaultSchema(now)["advisors"]
  {
    DefaultSchemaKeys(now);
    NoDealIdField();
  }

  /** `data.get(section, {})`. */
  function SectionOf(r: Record, section: string): Section {
    if section in r then r[section] else map[]
  }

  /** The Deal ID the record carries: `data["metadata"].get("deal_id", "")`. */
  function RecordDealId(r: Record): Json {
    Get(SectionOf(r, "metadata"), "deal_id", JStr(""))
  }

  /** The row as evidently intended: the Deal ID column holds the record's metadata ID. */
  function RowWithDealId(r: Record, section: string, columns: seq<string>): (row: seq<Json>)
    requires |columns| > 0 && columns[0] == "deal_id"
    ensures |row| == |columns| && row[0] == RecordDealId(r)
    ensures forall i :: 1 <= i < |columns| && columns[i] != "deal_id" ==>
      row[i] == Row(SectionOf(r, section), columns)[i]
  {
    Row(SectionOf(r, section)["deal_id" := RecordDealId(r)], columns)
  }

  /**
   * With the Deal ID taken from the metadata, the rows written after a successful
   * extraction start with the generated ID, and every other column is as before.
   */
  lemma RowWithDealIdCarriesId(t: Record, text: string, docType: string, reply: string,
                               complete: Prompt -> Result<string>, parse: string -> Option<Json>,
                               render: Json -> string, processedAt: DateTime, idAt: DateTime, c: Record)
    requires "metadata" in t
    requires complete(MakePrompt(text, docType, t)) == Ok(reply)
    requires CleanRecord(t, ParseReply(t, reply, parse), render) == Ok(c)
    ensures var r := Process(t, text, docType, complete, parse, render, processedAt, idAt);
      && RowWithDealId(r, "deal_summary", DealSummaryColumns)[0] == JStr(DealId(c, idAt))
      && RowWithDealId(r, "financials", FinancialsColumns)[0] == JStr(DealId(c, idAt))
      && RowWithDealId(r, "advisors", AdvisorsColumns)[0] == JStr(DealId(c, idAt))
  {
    ProcessSucceeds(t, text, docType, reply, complete, parse, render, processedAt, idAt, c);
  }

  // ---------------------------------------------------------------------------
  // The spreadsheet and the writer

  /** An opened spreadsheet: its worksheets by title. */
  class Spreadsheet {
    var worksheets: map<string, Rows>
    const url: string

    constructor (url: string, worksheets: map<string, Rows>)
      ensures this.url == url && this.worksheets == worksheets
    {
      this.url := url;
      this.worksheets := worksheets;
    }

    /** `add_worksheet(title, rows, cols)`: a new worksheet of empty rows. */
    method AddWorksheet(title: string, rows: nat)
      modifies this
      ensures worksheets == old(worksheets)[title := BlankRows(rows)]
    {
      worksheets := worksheets[title := BlankRows(rows)];
    }

    /** `worksheet(title).insert_row(values, index)`. */
    method InsertRow(title: string, values: seq<Json>, index: nat)
      requires title in worksheets && 1 <= index <= |worksheets[title]| + 1
      modifies this
      ensures worksheets == old(worksheets)[title := Inserted(old(worksheets)[title], values, index)]
    {
      worksheets := worksheets[title := Inserted(worksheets[title], values, index)];
    }
  }

  class SheetWriter {
    /** Whether `self.gc` holds an authorised client. */
    var gc: bool
    var spreadsheet: Spreadsheet?

    /**
     * `__init__` and `_initialize_google_sheets`: without a credentials path nothing is set
     * up; a failure to load the credentials or to open the spreadsheet leaves `gc` unset;
     * without a spreadsheet ID the client is set up but no spreadsheet is opened.
     * `authorized` is whether loading the credentials and authorising succeed, and `book`
     * the result of `open_by_key`, null when it raises.
     */
    constructor (credentialsPath: Option<string>, authorized: bool, spreadsheetId: Option<string>,
                 book: Spreadsheet?)
      ensures spreadsheet != null ==> spreadsheet == book
      ensures (gc && spreadsheet != null) <==>
        (credentialsPath.Some? && credentialsPath.value != "" && authorized &&
         spreadsheetId.Some? && spreadsheetId.value != "" && book != null)
    {
      gc := false;
      spreadsheet := null;
      if credentialsPath.Some? && credentialsPath.value != "" && authorized {
        gc := true;
        if spreadsheetId.Some? && spreadsheetId.value != "" {
          if book == null {
            gc := false;
          } else {
            spreadsheet := book;
          }
        }
      }
    }

    /** The guard of `write_to_sheet`. */
    predicate Ready()
      reads this
    {
      gc && spreadsheet != null
    }

    /** `_ensure_worksheets_exist`. */
    method EnsureWorksheetsExist()
      requires spreadsheet != null
      modifies spreadsheet
      ensures spreadsheet.worksheets
        == EnsureAll(old(spreadsheet.worksheets), old(spreadsheet.worksheets.Keys), WorksheetsConfig)
    {
      var existing := spreadsheet.worksheets.Keys;
      ghost var sheets0 := spreadsheet.worksheets;
      for i := 0 to |WorksheetsConfig|
        invariant spreadsheet.worksheets == EnsureAll(sheets0, existing, WorksheetsConfig[..i])
      {
        assert WorksheetsConfig[..i + 1][..i] == WorksheetsConfig[..i];
        var (title, headers) := WorksheetsConfig[i];
        EnsureWorksheet(existing, title, headers);
      }
      assert WorksheetsConfig[..|WorksheetsConfig|] == WorksheetsConfig;
    }

    /** One pass of the loop of `_ensure_worksheets_exist`. */
    method EnsureWorksheet(existing: set<string>, title: string, headers: seq<string>)
      requires spreadsheet != null
      modifies spreadsheet
      ensures spreadsheet.worksheets == EnsureSheet(old(spreadsheet.worksheets), existing, title, headers)
    {
      if title !in existing {
        spreadsheet.AddWorksheet(title, 1000);
        spreadsheet.InsertRow(title, HeaderRow(headers), 1);
      } else if title in spreadsheet.worksheets {
        var rows := spreadsheet.worksheets[title];
        if rows == [] || BlankRow(rows[0]) {
          spreadsheet.InsertRow(title, HeaderRow(headers), 1);
        }
      }
    }

    /** The append shared by the writers: one row at `len(get_all_values()) + 1`. */
    method WriteRow(title: string, row: seq<Json>)
      requires spreadsheet != null && title in spreadsheet.worksheets
      modifies spreadsheet
      ensures spreadsheet.worksheets
        == old(spreadsheet.worksheets)[title := Appended(old(spreadsheet.worksheets)[title], row)]
    {
      var nextRow := |UsedRows(spreadsheet.worksheets[title])| + 1;
      spreadsheet.InsertRow(title, row, nextRow);
    }

    /**
     * `write_to_sheet` up to the advisors: the guard raises before anything is written;
     * otherwise the worksheets are ensured, then one row each goes to Deal Summary,
     * Financials and Advisors, and the spreadsheet's URL is returned.
     */
    method WriteToSheet(data: Record) returns (r: Result<string>)
      modifies spreadsheet
      ensures !old(Ready()) ==> r == Err("Google Sheets not properly initialized")
      ensures !old(Ready()) && spreadsheet != null ==> spreadsheet.worksheets == old(spreadsheet.worksheets)
      ensures old(Ready()) ==> spreadsheet == old(spreadsheet) && r == Ok(spreadsheet.url)
      ensures old(Ready()) ==> spreadsheet.worksheets == Written(old(spreadsheet.worksheets), data)
    {
      if !gc || spreadsheet == null {
        return Err("Google Sheets not properly initialized");
      }
      EnsureWorksheetsExist();
      EnsuredTitles(old(spreadsheet.worksheets));
      WriteRow("Deal Summary", Row(SectionOf(data, "deal_summary"), DealSummaryColumns));
      WriteRow("Financials", Row(SectionOf(data, "financials"), FinancialsColumns));
      WriteRow("Advisors", Row(SectionOf(data, "advisors"), AdvisorsColumns));
      r := Ok(spreadsheet.url);
    }
  }

  /** Every configured title exists once the worksheets are ensured. */
  lemma EnsuredTitles(sheets: map<string, Rows>)
    ensures var r := EnsureAll(sheets, sheets.Keys, WorksheetsConfig);
      "Deal Summary" in r && "Financials" in r && "Advisors" in r
  {
    ConfigTitles();
    EnsureAllSheet(sheets, WorksheetsConfig, "Deal Summary");
    EnsureAllSheet(sheets, WorksheetsConfig, "Financials");
    EnsureAllSheet(sheets, WorksheetsConfig, "Advisors");
    assert WorksheetsConfig[0].0 == "Deal Summary";
    assert WorksheetsConfig[1].0 == "Financials";
    assert WorksheetsConfig[2].0 == "Advisors";
  }

  /** The worksheets after `write_to_sheet` up to the advisors. */
  function Written(sheets: map<string, Rows>, data: Record): map<string, Rows> {
    var e := EnsureAll(sheets, sheets.Keys, WorksheetsConfig);
    EnsuredTitles(sheets);
    var s1 := e["Deal Summary" := Appended(e["Deal Summary"], Row(SectionOf(data, "deal_summary"), DealSummaryColumns))];
    var s2 := s1["Financials" := Appended(s1["Financials"], Row(SectionOf(data, "financials"), FinancialsColumns))];
    s2["Advisors" := Appended(s2["Advisors"], Row(SectionOf(data, "advisors"), AdvisorsColumns))]
  }
}
