/**
 * The AI orchestrator as an object. Its template `mna_schema` is a dict of section dicts;
 * `copy()` copies only the outer dict, so every record the orchestrator cleans or returns
 * shares the template's section dicts, and every write into a record is a write into the
 * template. The model keeps the section dicts as heap objects to make that visible.
 */
module AiOrchestrator {
  import opened Wrappers
  import opened Text
  import opened JsonValue
  import opened Timestamps
  import opened Extraction

  /** One nested section dict (`Dict[str, Any]`), shared by reference. */
  class SectionDict {
    var fields: map<string, Json>

    constructor (init: map<string, Json>)
      ensures fields == init
    {
      fields := init;
    }
  }

  /** The current contents of a dict of section dicts. */
  function Snapshot(d: map<string, SectionDict>): Record
    reads d.Values
  {
    map x | x in d :: d[x].fields
  }

  /** No two sections share one section dict. */
  predicate Unaliased(d: map<string, SectionDict>) {
    forall x, y :: x in d && y in d && x != y ==> d[x] != d[y]
  }

  /** `d[x][f] = v`: one cell changes, in the one section dict that holds it. */
  method Assign(d: map<string, SectionDict>, x: string, f: string, v: Json)
    requires x in d && Unaliased(d)
    modifies d[x]
    ensures Snapshot(d) == old(Snapshot(d))[x := old(Snapshot(d))[x][f := v]]
  {
    d[x].fields := d[x].fields[f := v];
  }

  /**
   * The field loop of `_validate_and_clean_data` on one section: each field that the parsed
   * section also has takes the parsed value, cleaned.
   */
  method MergeSectionInto(d: SectionDict, m: map<string, Json>)
    modifies d
    ensures d.fields == MergeSection(old(d.fields), m)
  {
    ghost var t := d.fields;
    var todo := d.fields.Keys;
    while todo != {}
      invariant todo <= t.Keys && d.fields == MergedOutside(t, m, todo)
      decreases todo
    {
      var field :| field in todo;
      if field in m {
        var value := m[field];
        if value.JStr? {
          var s := Strip(value.s);
          value := if Lower(s) in Sentinels then JStr("") else JStr(s);
        }
        assert value == CleanValue(m[field]);
        d.fields := d.fields[field := value];
      }
      MergedOutsideStep(t, m, todo, field);
      todo := todo - {field};
    }
    assert MergedOutside(t, m, {}) == MergeSection(t, m);
  }

  /** A section once the fields outside `todo` have taken their parsed values. */
  ghost function MergedOutside(t: Section, m: map<string, Json>, todo: set<string>): Section {
    map f | f in t :: if f !in todo && f in m then CleanValue(m[f]) else t[f]
  }

  lemma MergedOutsideStep(t: Section, m: map<string, Json>, todo: set<string>, field: string)
    requires field in todo && todo <= t.Keys
    ensures var prev := MergedOutside(t, m, todo);
      (if field in m then prev[field := CleanValue(m[field])] else prev) == MergedOutside(t, m, todo - {field})
  {
  }

  /**
   * One pass of the section loop of `_validate_and_clean_data`: the section test, the
   * subscript and, for a dict, the field loop. Returns the message of a raised `TypeError`.
   */
  method MergeParsedSection(d: map<string, SectionDict>, section: string, data: Json)
    returns (raised: Option<string>)
    requires section in d && Unaliased(d)
    modifies d[section]
    ensures raised.Some? <==> SectionRaises(section, data)
    ensures raised.Some? ==> raised.value == RaiseMessage(data) && Snapshot(d) == old(Snapshot(d))
    ensures raised.None? ==>
      Snapshot(d) == old(Snapshot(d))[section := MergedSection(old(Snapshot(d)), data, section)]
  {
    ghost var prev := Snapshot(d);
    var isIn := PyIn(section, data);
    if isIn.Err? {
      return Some(isIn.message);
    }
    if isIn.value {
      var subscript := PySubscript(data, section);
      if subscript.Err? {
        return Some(subscript.message);
      }
      if subscript.value.JObj? {
        MergeSectionInto(d[section], subscript.value.fields);
        assert d[section].fields == MergedSection(prev, data, section);
        SnapshotUpdate(d, section, prev);
        return None;
      }
    }
    assert MergedSection(prev, data, section) == prev[section];
    raised := None;
  }

  /** When only section `x` has changed, the snapshot differs from `prev` at `x` alone. */
  lemma SnapshotUpdate(d: map<string, SectionDict>, x: string, prev: Record)
    requires x in d && prev.Keys == d.Keys
    requires forall y :: y in d && y != x ==> d[y].fields == prev[y]
    ensures Snapshot(d) == prev[x := d[x].fields]
  {
  }

  /** The record once the sections outside `todo` have been merged. */
  ghost function PartlyMerged(t: Record, data: Json, todo: set<string>): Record {
    map x | x in t :: if x in todo then t[x] else MergedSection(t, data, x)
  }

  lemma PartlyMergedStep(t: Record, prev: Record, data: Json, todo: set<string>, section: string)
    requires section in todo && todo <= t.Keys && prev == PartlyMerged(t, data, todo)
    ensures prev[section := MergedSection(prev, data, section)] == PartlyMerged(t, data, todo - {section})
  {
    assert prev[section] == t[section];
  }

  lemma PartlyMergedAll(t: Record, data: Json)
    requires forall x :: x in t ==> !SectionRaises(x, data)
    ensures Merge(t, data) == Ok(PartlyMerged(t, data, {}))
  {
    assert !exists x :: x in t && SectionRaises(x, data);
    assert (map x | x in t :: MergedSection(t, data, x)) == PartlyMerged(t, data, {});
  }

  /** A raising section stops the merge before any section has changed. */
  lemma MergeRaises(t: Record, data: Json, todo: set<string>, x: string)
    requires x in t && SectionRaises(x, data)
    ensures Merge(t, data) == Err(RaiseMessage(data))
    ensures PartlyMerged(t, data, todo) == t
  {
    assert !data.JObj?;
  }

  /** `copy.deepcopy(d)`: new section dicts holding the same contents, built one section at a time. */
  method DeepCopy(d: map<string, SectionDict>) returns (c: map<string, SectionDict>)
    ensures c.Keys == d.Keys && Unaliased(c) && Snapshot(c) == Snapshot(d)
    ensures forall x :: x in c ==> fresh(c[x])
    decreases |d.Keys|
  {
    if d == map[] {
      return map[];
    }
    var x :| x in d;
    var rest := DeepCopy(d - {x});
    SnapshotPeel(d, x);
    c := CopyInto(rest, x, d[x].fields);
    assert Snapshot(c) == Snapshot(d - {x})[x := d[x].fields];
    assert (d - {x}).Keys + {x} == d.Keys;
    forall y | y in c
      ensures fresh(c[y])
    {
      if y != x {
        assert c[y] == rest[y];
      }
    }
  }

  /** A snapshot is the snapshot of the other sections, plus the one section. */
  lemma SnapshotPeel(d: map<string, SectionDict>, x: string)
    requires x in d
    ensures Snapshot(d) == Snapshot(d - {x})[x := d[x].fields]
  {
  }

  /** One step of the deep copy: `x` gets a new section dict holding `fields`. */
  method CopyInto(c: map<string, SectionDict>, x: string, fields: Section)
    returns (c': map<string, SectionDict>)
    requires Unaliased(c)
    ensures c'.Keys == c.Keys + {x} && Unaliased(c')
    ensures fresh(c'[x]) && forall y :: y in c && y != x ==> c'[y] == c[y]
    ensures Snapshot(c') == Snapshot(c)[x := fields]
  {
    var copy := new SectionDict(fields);
    c' := c[x := copy];
  }

  /** The except clause of `process_document`: `error_data["metadata"]["extraction_error"] = str(e)`. */
  method RecordError(d: map<string, SectionDict>, message: string)
    requires "metadata" in d && Unaliased(d)
    modifies d["metadata"]
    ensures "metadata" in old(Snapshot(d))
    ensures Snapshot(d) == WithError(old(Snapshot(d)), message)
  {
    Assign(d, "metadata", "extraction_error", JStr(message));
  }

  /** The two metadata writes after cleaning: the processing time, then the deal ID. */
  method StampMetadata(d: map<string, SectionDict>, processedAt: DateTime, idAt: DateTime)
    requires "metadata" in d && Unaliased(d)
    modifies d["metadata"]
    ensures "metadata" in old(Snapshot(d))
    ensures Snapshot(d) == Stamp(old(Snapshot(d)), processedAt, idAt)
  {
    Assign(d, "metadata", "date_processed", JStr(IsoFormat(processedAt)));
    var dealId := DealId(Snapshot(d), idAt);
    Assign(d, "metadata", "deal_id", JStr(dealId));
  }

  /** The section loop of `_validate_and_clean_data`, over the sections in any order. */
  method MergeParsed(d: map<string, SectionDict>, data: Json) returns (raised: Option<string>)
    requires Unaliased(d)
    modifies d.Values
    ensures raised.Some? <==> Merge(old(Snapshot(d)), data).Err?
    ensures raised.Some? ==> raised.value == RaiseMessage(data) && Snapshot(d) == old(Snapshot(d))
    ensures raised.None? ==> Snapshot(d) == Merge(old(Snapshot(d)), data).value
  {
    ghost var t0 := Snapshot(d);
    var todo := d.Keys;
    assert t0.Keys == d.Keys;
    while todo != {}
      invariant todo <= t0.Keys == d.Keys
      invariant Snapshot(d) == PartlyMerged(t0, data, todo)
      invariant forall x :: x in d && x !in todo ==> !SectionRaises(x, data)
      decreases todo
    {
      var section :| section in todo;
      ghost var prev := Snapshot(d);
      raised := MergeParsedSection(d, section, data);
      if raised.Some? {
        MergeRaises(t0, data, todo, section);
        return;
      }
      PartlyMergedStep(t0, prev, data, todo, section);
      todo := todo - {section};
    }
    PartlyMergedAll(t0, data);
    raised := None;
  }

  /** The record state after `error_data["metadata"]["extraction_error"] = str(e)`. */
  function WithError(t: Record, message: string): (r: Record)
    requires "metadata" in t
    ensures r.Keys == t.Keys
    ensures forall x :: x in t && x != "metadata" ==> r[x] == t[x]
  {
    t["metadata" := t["metadata"]["extraction_error" := JStr(message)]]
  }

  /** `_parse_ai_response`: the parsed span, or the template's copy when `json.loads` fails. */
  function ParseReply(t: Record, reply: string, parse: string -> Option<Json>): Json {
    match parse(JsonSpan(reply))
    case Some(v) => v
    case None => RecordJson(t)
  }

  /**
   * `process_document` on a template holding `t`: the template's contents afterwards, which
   * are also the contents of the returned record. `complete` is the chat-completion call,
   * `parse` is `json.loads` (None for a decode error), `render` is `str` of a float, list or
   * dict, and `processedAt` and `idAt` are the two readings of the clock.
   */
  function Process(t: Record, text: string, docType: string, complete: Prompt -> Result<string>,
                   parse: string -> Option<Json>, render: Json -> string,
                   processedAt: DateTime, idAt: DateTime): (r: Record)
    requires "metadata" in t
    ensures r.Keys == t.Keys
    ensures forall x :: x in t && x != "metadata" ==> r[x].Keys == t[x].Keys
  {
    match complete(MakePrompt(text, docType, t))
    case Err(e) => WithError(t, e)
    case Ok(reply) => ProcessReply(t, reply, parse, render, processedAt, idAt)
  }

  /** The rest of `process_document` once the completion call has returned `reply`. */
  function ProcessReply(t: Record, reply: string, parse: string -> Option<Json>,
                        render: Json -> string, processedAt: DateTime, idAt: DateTime): (r: Record)
    requires "metadata" in t
    ensures r.Keys == t.Keys
    ensures forall x :: x in t && x != "metadata" ==> r[x].Keys == t[x].Keys
  {
    match CleanRecord(t, ParseReply(t, reply, parse), render)
    case Err(e) => WithError(t, e)
    case Ok(c) => Stamp(c, processedAt, idAt)
  }

  /** The two metadata writes of the success path: the processing time, then the deal ID. */
  function Stamp(c: Record, processedAt: DateTime, idAt: DateTime): (r: Record)
    requires "metadata" in c
    ensures r.Keys == c.Keys
    ensures forall x :: x in c && x != "metadata" ==> r[x] == c[x]
  {
    var stamped := c["metadata" := c["metadata"]["date_processed" := JStr(IsoFormat(processedAt))]];
    stamped["metadata" := stamped["metadata"]["deal_id" := JStr(DealId(stamped, idAt))]]
  }

  /**
   * Stamping sets `date_processed` and `deal_id`, where the ID depends on the deal summary
   * alone, and changes nothing else.
   */
  lemma StampCells(c: Record, processedAt: DateTime, idAt: DateTime)
    requires "metadata" in c
    ensures var r := Stamp(c, processedAt, idAt);
      && r["metadata"]["date_processed"] == JStr(IsoFormat(processedAt))
      && r["metadata"]["deal_id"] == JStr(DealId(c, idAt))
      && r["metadata"].Keys == c["metadata"].Keys + {"date_processed", "deal_id"}
      && (forall f :: f in c["metadata"] && f != "date_processed" && f != "deal_id" ==>
            r["metadata"][f] == c["metadata"][f])
      && (forall x :: x in c && x != "metadata" ==> r[x] == c[x])
  {
    StampedDealId(c, processedAt, idAt);
  }

  /** Stamping the processing time leaves the deal ID's inputs alone. */
  lemma StampedDealId(c: Record, processedAt: DateTime, idAt: DateTime)
    requires "metadata" in c
    ensures DealId(c["metadata" := c["metadata"]["date_processed" := JStr(IsoFormat(processedAt))]], idAt)
      == DealId(c, idAt)
  {
    var stamped := c["metadata" := c["metadata"]["date_processed" := JStr(IsoFormat(processedAt))]];
    assert "deal_summary" in stamped <==> "deal_summary" in c;
    assert "deal_summary" in c ==> stamped["deal_summary"] == c["deal_summary"];
  }

  /**
   * A failed completion call changes only one cell: `metadata.extraction_error` holds the
   * error's text and every other cell keeps the template's value.
   */
  lemma ProcessCompletionFails(t: Record, text: string, docType: string,
                               complete: Prompt -> Result<string>, parse: string -> Option<Json>,
                               render: Json -> string, processedAt: DateTime, idAt: DateTime)
    requires "metadata" in t
    requires complete(MakePrompt(text, docType, t)).Err?
    ensures var r := Process(t, text, docType, complete, parse, render, processedAt, idAt);
      && r["metadata"]["extraction_error"] == JStr(complete(MakePrompt(text, docType, t)).message)
      && r["metadata"].Keys == t["metadata"].Keys + {"extraction_error"}
      && (forall f :: f in t["metadata"] && f != "extraction_error" ==> r["metadata"][f] == t["metadata"][f])
      && (forall x :: x in t && x != "metadata" ==> r[x] == t[x])
  {
  }

  /**
   * A reply that parses to a number, a boolean or `null` makes the section test raise; the
   * record then carries the `TypeError` text and nothing else changes.
   */
  lemma ProcessScalarReply(t: Record, text: string, docType: string, reply: string,
                           complete: Prompt -> Result<string>, parse: string -> Option<Json>,
                           render: Json -> string, processedAt: DateTime, idAt: DateTime, v: Json)
    requires "metadata" in t
    requires complete(MakePrompt(text, docType, t)) == Ok(reply)
    requires parse(JsonSpan(reply)) == Some(v) && !(v.JObj? || v.JArr? || v.JStr?)
    ensures var r := Process(t, text, docType, complete, parse, render, processedAt, idAt);
      && r["metadata"]["extraction_error"] == JStr("argument of type '" + TypeName(v) + "' is not iterable")
      && (forall f :: f in t["metadata"] && f != "extraction_error" ==> r["metadata"][f] == t["metadata"][f])
      && (forall x :: x in t && x != "metadata" ==> r[x] == t[x])
  {
    MergeScalarRaises(t, v);
  }

  /**
   * On success the record is the cleaned record with `date_processed` set to the processing
   * time and `deal_id` generated from the cleaned record; nothing else changes.
   */
  lemma ProcessSucceeds(t: Record, text: string, docType: string, reply: string,
                        complete: Prompt -> Result<string>, parse: string -> Option<Json>,
                        render: Json -> string, processedAt: DateTime, idAt: DateTime, c: Record)
    requires "metadata" in t
    requires complete(MakePrompt(text, docType, t)) == Ok(reply)
    requires CleanRecord(t, ParseReply(t, reply, parse), render) == Ok(c)
    ensures var r := Process(t, text, docType, complete, parse, render, processedAt, idAt);
      && r["metadata"]["date_processed"] == JStr(IsoFormat(processedAt))
      && r["metadata"]["deal_id"] == JStr(DealId(c, idAt))
      && r["metadata"].Keys == t["metadata"].Keys + {"date_processed", "deal_id"}
      && (forall f :: f in c["metadata"] && f != "date_processed" && f != "deal_id" ==>
            r["metadata"][f] == c["metadata"][f])
      && (forall x :: x in t && x != "metadata" ==> r[x] == c[x])
  {
    ReplyStamped(t, reply, parse, render, processedAt, idAt, c);
    assert Process(t, text, docType, complete, parse, render, processedAt, idAt) == Stamp(c, processedAt, idAt);
    assert c["metadata"].Keys == t["metadata"].Keys;
    StampCells(c, processedAt, idAt);
  }

  lemma ReplyStamped(t: Record, reply: string, parse: string -> Option<Json>, render: Json -> string,
                     processedAt: DateTime, idAt: DateTime, c: Record)
    requires "metadata" in t
    requires CleanRecord(t, ParseReply(t, reply, parse), render) == Ok(c)
    ensures ProcessReply(t, reply, parse, render, processedAt, idAt) == Stamp(c, processedAt, idAt)
  {
  }

  /** An error recorded in the template stays in every later result, successful or not. */
  lemma ProcessKeepsError(t: Record, text: string, docType: string,
                          complete: Prompt -> Result<string>, parse: string -> Option<Json>,
                          render: Json -> string, processedAt: DateTime, idAt: DateTime)
    requires "metadata" in t && "extraction_error" in t["metadata"]
    ensures "extraction_error" in Process(t, text, docType, complete, parse, render, processedAt, idAt)["metadata"]
  {
    match complete(MakePrompt(text, docType, t))
    case Err(e) =>
    case Ok(reply) =>
      match CleanRecord(t, ParseReply(t, reply, parse), render)
      case Err(e) =>
      case Ok(c) =>
        ProcessSucceeds(t, text, docType, reply, complete, parse, render, processedAt, idAt, c);
  }

  /**
   * A string cell of a section that a dict reply does not mention keeps the template's
   * value, unless it is a truthy monetary cell.
   */
  lemma ProcessOmittedSection(t: Record, text: string, docType: string, reply: string,
                              complete: Prompt -> Result<string>, parse: string -> Option<Json>,
                              render: Json -> string, processedAt: DateTime, idAt: DateTime,
                              m: map<string, Json>, x: string, f: string)
    requires "metadata" in t && x in t && x != "metadata" && f in t[x]
    requires complete(MakePrompt(text, docType, t)) == Ok(reply)
    requires parse(JsonSpan(reply)) == Some(JObj(m)) && x !in m
    requires t[x][f].JStr? && ((x, f) !in MonetaryFields || !Truthy(t[x][f]))
    ensures Process(t, text, docType, complete, parse, render, processedAt, idAt)[x][f] == t[x][f]
  {
    MergeObject(t, m, x, f);
    CleanRecordKeeps(t, JObj(m), render, x, f);
    ProcessSucceeds(t, text, docType, reply, complete, parse, render, processedAt, idAt,
                    CleanRecord(t, JObj(m), render).value);
  }

  /**
   * A string cell that a dict reply gives is the reply's value, cleaned, unless that is a
   * truthy monetary cell.
   */
  lemma ProcessGivenCell(t: Record, text: string, docType: string, reply: string,
                         complete: Prompt -> Result<string>, parse: string -> Option<Json>,
                         render: Json -> string, processedAt: DateTime, idAt: DateTime,
                         m: map<string, Json>, x: string, f: string)
    requires "metadata" in t && x in t && x != "metadata" && f in t[x]
    requires complete(MakePrompt(text, docType, t)) == Ok(reply)
    requires parse(JsonSpan(reply)) == Some(JObj(m))
    requires x in m && m[x].JObj? && f in m[x].fields && m[x].fields[f].JStr?
    requires (x, f) !in MonetaryFields
    ensures Process(t, text, docType, complete, parse, render, processedAt, idAt)[x][f]
      == CleanValue(m[x].fields[f])
  {
    MergeObject(t, m, x, f);
    CleanRecordKeeps(t, JObj(m), render, x, f);
    ProcessSucceeds(t, text, docType, reply, complete, parse, render, processedAt, idAt,
                    CleanRecord(t, JObj(m), render).value);
  }

  /**
   * A reply `json.loads` cannot decode falls back to the template's own record, which the
   * merge then cleans into itself: a string cell that is not a truthy monetary cell comes
   * back as the cleaned template value, and no exception escapes.
   */
  lemma UnparsedReplyKeepsTemplate(t: Record, text: string, docType: string, reply: string,
                                   complete: Prompt -> Result<string>, parse: string -> Option<Json>,
                                   render: Json -> string, processedAt: DateTime, idAt: DateTime,
                                   x: string, f: string)
    requires "metadata" in t && x in t && x != "metadata" && f in t[x] && t[x][f].JStr?
    requires complete(MakePrompt(text, docType, t)) == Ok(reply)
    requires parse(JsonSpan(reply)) == None
    requires (x, f) !in MonetaryFields || !Truthy(CleanValue(t[x][f]))
    ensures Process(t, text, docType, complete, parse, render, processedAt, idAt)[x][f]
      == CleanValue(t[x][f])
  {
    var j := RecordJson(t);
    assert ParseReply(t, reply, parse) == j;
    MergeOwnRecord(t, x, f);
    CleanRecordKeeps(t, j, render, x, f);
    var c := CleanRecord(t, j, render).value;
    ProcessSucceeds(t, text, docType, reply, complete, parse, render, processedAt, idAt, c);
  }

  /** A malformed reply raises nothing: no `extraction_error` appears that the template lacked. */
  lemma UnparsedReplyRaisesNothing(t: Record, text: string, docType: string, reply: string,
                                   complete: Prompt -> Result<string>, parse: string -> Option<Json>,
                                   render: Json -> string, processedAt: DateTime, idAt: DateTime)
    requires "metadata" in t
    requires complete(MakePrompt(text, docType, t)) == Ok(reply)
    requires parse(JsonSpan(reply)) == None
    ensures CleanRecord(t, ParseReply(t, reply, parse), render).Ok?
    ensures "extraction_error" in t["metadata"] <==>
      "extraction_error" in Process(t, text, docType, complete, parse, render, processedAt, idAt)["metadata"]
  {
    var j := RecordJson(t);
    assert ParseReply(t, reply, parse) == j;
    assert Merge(t, j).Ok?;
    var c := CleanRecord(t, j, render).value;
    ProcessSucceeds(t, text, docType, reply, complete, parse, render, processedAt, idAt, c);
    assert "extraction_error" != "date_processed" && "extraction_error" != "deal_id";
  }

  /**
   * The intended behaviour on a malformed reply: against a fresh schema, every field outside
   * the metadata is the default "", and no exception escapes.
   */
  lemma FreshUnparsedReplyIsDefault(createdAt: DateTime, text: string, docType: string, reply: string,
                                    complete: Prompt -> Result<string>, parse: string -> Option<Json>,
                                    render: Json -> string, processedAt: DateTime, idAt: DateTime,
                                    x: string, f: string)
    requires x in SectionNames && x != "metadata" && f in DefaultSchema(createdAt)[x]
    requires forall p :: complete(p) == Ok(reply)
    requires parse(JsonSpan(reply)) == None
    ensures ProcessFresh(createdAt, text, docType, complete, parse, render, processedAt, idAt)[x][f] == JStr("")
  {
    var t := DefaultSchema(createdAt);
    DefaultSchemaKeys(createdAt);
    DefaultSchemaValues(createdAt, x, f);
    UnparsedEmptyCell(t, text, docType, reply, complete, parse, render, processedAt, idAt, x, f);
  }

  /** A cell the template holds as "" stays "" on a malformed reply. */
  lemma UnparsedEmptyCell(t: Record, text: string, docType: string, reply: string,
                          complete: Prompt -> Result<string>, parse: string -> Option<Json>,
                          render: Json -> string, processedAt: DateTime, idAt: DateTime,
                          x: string, f: string)
    requires "metadata" in t && x in t && x != "metadata" && f in t[x] && t[x][f] == JStr("")
    requires complete(MakePrompt(text, docType, t)) == Ok(reply)
    requires parse(JsonSpan(reply)) == None
    ensures Process(t, text, docType, complete, parse, render, processedAt, idAt)[x][f] == JStr("")
  {
    var v := t[x][f];
    CleanValueEmpty();
    assert CleanValue(v) == JStr("") && !Truthy(CleanValue(v));
    UnparsedReplyKeepsTemplate(t, text, docType, reply, complete, parse, render, processedAt, idAt, x, f);
  }

  /** The reply `{"deal_summary": {"buyer": "Acme"}}`. */
  function AcmeBuyerReply(): Json {
    JObj(map["deal_summary" := JObj(map["buyer" := JStr("Acme")])])
  }

  /** A first document whose reply names the buyer "Acme" leaves "Acme" in the template. */
  lemma FirstDocumentSetsBuyer(createdAt: DateTime, text: string, docType: string, reply: string,
                               complete: Prompt -> Result<string>, parse: string -> Option<Json>,
                               render: Json -> string, processedAt: DateTime, idAt: DateTime)
    requires forall p :: complete(p) == Ok(reply)
    requires parse(JsonSpan(reply)) == Some(AcmeBuyerReply())
    ensures var t1 := Process(DefaultSchema(createdAt), text, docType, complete, parse, render, processedAt, idAt);
      "metadata" in t1 && "deal_summary" in t1 && "buyer" in t1["deal_summary"] &&
      t1["deal_summary"]["buyer"] == JStr("Acme")
  {
    var t0 := DefaultSchema(createdAt);
    DefaultSchemaKeys(createdAt);
    assert "buyer" in DealSummaryFields;
    AcmeIsClean();
    BuyerIsNotMonetary();
    ProcessGivenCell(t0, text, docType, reply, complete, parse, render, processedAt, idAt,
                     AcmeBuyerReply().fields, "deal_summary", "buyer");
  }

  /**
   * Since the template is written through, a second document whose reply is `{}` comes
   * back with the buyer that the first document's reply gave.
   */
  lemma SecondDocumentInheritsBuyer(createdAt: DateTime, text1: string, text2: string,
                                    docType1: string, docType2: string, reply1: string, reply2: string,
                                    complete1: Prompt -> Result<string>, complete2: Prompt -> Result<string>,
                                    parse: string -> Option<Json>, render: Json -> string,
                                    at1: DateTime, at2: DateTime, at3: DateTime, at4: DateTime, t1: Record)
    requires forall p :: complete1(p) == Ok(reply1)
    requires forall p :: complete2(p) == Ok(reply2)
    requires parse(JsonSpan(reply1)) == Some(AcmeBuyerReply())
    requires parse(JsonSpan(reply2)) == Some(JObj(map[]))
    requires t1 == Process(DefaultSchema(createdAt), text1, docType1, complete1, parse, render, at1, at2)
    ensures "metadata" in t1
    ensures var t2 := Process(t1, text2, docType2, complete2, parse, render, at3, at4);
      "deal_summary" in t2 && "buyer" in t2["deal_summary"] && t2["deal_summary"]["buyer"] == JStr("Acme")
  {
    FirstDocumentSetsBuyer(createdAt, text1, docType1, reply1, complete1, parse, render, at1, at2);
    BuyerCarriesOver(t1, text2, docType2, reply2, complete2, parse, render, at3, at4);
  }

  lemma BuyerCarriesOver(t1: Record, text: string, docType: string, reply: string,
                         complete: Prompt -> Result<string>, parse: string -> Option<Json>,
                         render: Json -> string, processedAt: DateTime, idAt: DateTime)
    requires "metadata" in t1 && "deal_summary" in t1 && "buyer" in t1["deal_summary"]
    requires t1["deal_summary"]["buyer"] == JStr("Acme")
    requires forall p :: complete(p) == Ok(reply)
    requires parse(JsonSpan(reply)) == Some(JObj(map[]))
    ensures var t2 := Process(t1, text, docType, complete, parse, render, processedAt, idAt);
      "deal_summary" in t2 && "buyer" in t2["deal_summary"] && t2["deal_summary"]["buyer"] == JStr("Acme")
  {
    BuyerIsNotMonetary();
    ProcessOmittedSection(t1, text, docType, reply, complete, parse, render, processedAt, idAt, map[],
                          "deal_summary", "buyer");
  }

  lemma AcmeIsClean()
    ensures CleanValue(JStr("Acme")) == JStr("Acme")
  {
    assert Lower("Acme") == "acme";
    CleanValueKeeps("Acme");
  }

  lemma ErrorIsNotMetadataField()
    ensures "extraction_error" !in MetadataFields
  {
  }

  lemma BuyerIsNotMonetary()
    ensures ("deal_summary", "buyer") !in MonetaryFields
  {
  }

  /**
   * The intended behaviour: every document is processed against a fresh copy of the schema
   * as the constructor built it, whatever earlier documents did.
   */
  function ProcessFresh(createdAt: DateTime, text: string, docType: string,
                        complete: Prompt -> Result<string>, parse: string -> Option<Json>,
                        render: Json -> string, processedAt: DateTime, idAt: DateTime): (r: Record)
    ensures r.Keys == SectionNames
  {
    DefaultSchemaKeys(createdAt);
    Process(DefaultSchema(createdAt), text, docType, complete, parse, render, processedAt, idAt)
  }

  /** Against a fresh schema, every field of a section the reply omits is "". */
  lemma FreshOmittedSectionIsEmpty(createdAt: DateTime, text: string, docType: string, reply: string,
                                   complete: Prompt -> Result<string>, parse: string -> Option<Json>,
                                   render: Json -> string, processedAt: DateTime, idAt: DateTime,
                                   m: map<string, Json>, x: string, f: string)
    requires x in SectionNames && x != "metadata" && x !in m
    requires f in DefaultSchema(createdAt)[x]
    requires forall p :: complete(p) == Ok(reply)
    requires parse(JsonSpan(reply)) == Some(JObj(m))
    ensures ProcessFresh(createdAt, text, docType, complete, parse, render, processedAt, idAt)[x][f] == JStr("")
  {
    var t := DefaultSchema(createdAt);
    DefaultSchemaKeys(createdAt);
    DefaultSchemaValues(createdAt, x, f);
    ProcessOmittedSection(t, text, docType, reply, complete, parse, render, processedAt, idAt, m, x, f);
  }

  /** Against a fresh schema, a successful extraction carries no `extraction_error`. */
  lemma FreshSuccessHasNoError(createdAt: DateTime, text: string, docType: string, reply: string,
                               complete: Prompt -> Result<string>, parse: string -> Option<Json>,
                               render: Json -> string, processedAt: DateTime, idAt: DateTime)
    requires forall p :: complete(p) == Ok(reply)
    requires CleanRecord(DefaultSchema(createdAt), ParseReply(DefaultSchema(createdAt), reply, parse), render).Ok?
    ensures "extraction_error" !in ProcessFresh(createdAt, text, docType, complete, parse, render, processedAt, idAt)["metadata"]
  {
    var t := DefaultSchema(createdAt);
    DefaultSchemaKeys(createdAt);
    ErrorIsNotMetadataField();
    ProcessSucceeds(t, text, docType, reply, complete, parse, render, processedAt, idAt,
                    CleanRecord(t, ParseReply(t, reply, parse), render).value);
  }

  /** Five distinct section dicts under the five section names form an unaliased schema. */
  lemma FiveSections(m: map<string, SectionDict>, a: SectionDict, b: SectionDict, c: SectionDict,
                     d: SectionDict, e: SectionDict)
    requires m == map["deal_summary" := a, "financials" := b, "advisors" := c,
                      "power_plant_details" := d, "metadata" := e]
    requires a != b && a != c && a != d && a != e && b != c && b != d && b != e
    requires c != d && c != e && d != e
    ensures m.Keys == SectionNames && Unaliased(m)
  {
  }

  lemma SnapshotOfFive(m: map<string, SectionDict>, a: SectionDict, b: SectionDict, c: SectionDict,
                       d: SectionDict, e: SectionDict)
    requires m == map["deal_summary" := a, "financials" := b, "advisors" := c,
                      "power_plant_details" := d, "metadata" := e]
    ensures Snapshot(m) == map["deal_summary" := a.fields, "financials" := b.fields,
                               "advisors" := c.fields, "power_plant_details" := d.fields,
                               "metadata" := e.fields]
  {
  }

  lemma DefaultSchemaOfFive(now: DateTime, r: Record, a: Section, b: Section, c: Section,
                            d: Section, e: Section)
    requires r == map["deal_summary" := a, "financials" := b, "advisors" := c,
                      "power_plant_details" := d, "metadata" := e]
    requires a == EmptySection(DealSummaryFields) && b == EmptySection(FinancialsFields)
    requires c == EmptySection(AdvisorsFields) && d == EmptySection(PowerPlantFields)
    requires e == EmptySection(MetadataFields)["date_processed" := JStr(IsoFormat(now))]
    ensures r == DefaultSchema(now)
  {
  }

  /** The template of the orchestrator: `mna_schema`. */
  class AIOrchestrator {
    const schema: map<string, SectionDict>

    predicate Valid()
      reads this
    {
      schema.Keys == SectionNames && Unaliased(schema)
    }

    /** The template's current contents. */
    function Template(): Record
      reads this, schema.Values
    {
      Snapshot(schema)
    }

    /** `__init__`: the schema with its defaults, stamped with the construction time. */
    constructor (now: DateTime)
      ensures Valid()
      ensures Template() == DefaultSchema(now)
    {
      var summary := new SectionDict(EmptySection(DealSummaryFields));
      var financials := new SectionDict(EmptySection(FinancialsFields));
      var advisors := new SectionDict(EmptySection(AdvisorsFields));
      var plant := new SectionDict(EmptySection(PowerPlantFields));
      var metadata := new SectionDict(EmptySection(MetadataFields)["date_processed" := JStr(IsoFormat(now))]);
      schema := map[
        "deal_summary" := summary, "financials" := financials, "advisors" := advisors,
        "power_plant_details" := plant, "metadata" := metadata
      ];
      new;
      FiveSections(schema, summary, financials, advisors, plant, metadata);
      SnapshotOfFive(schema, summary, financials, advisors, plant, metadata);
      DefaultSchemaOfFive(now, Template(), summary.fields, financials.fields, advisors.fields,
                          plant.fields, metadata.fields);
    }

    /** `_create_extraction_prompt`: built from the template as it is now. */
    function CreateExtractionPrompt(text: string, docType: string): Prompt
      reads this, schema.Values
    {
      MakePrompt(text, docType, Template())
    }

    /** `_validate_dates` on a dict of section dicts. */
    method ValidateDates(data: map<string, SectionDict>)
      requires Unaliased(data)
      modifies data.Values
      ensures Snapshot(data) == Extraction.ValidateDates(old(Snapshot(data)))
    {
      ValidateDateCells(data, DateFields);
    }

    /** The loop of `_validate_dates` over a list of cells. */
    method ValidateDateCells(data: map<string, SectionDict>, cells: Cells)
      requires Unaliased(data)
      modifies data.Values
      ensures Snapshot(data) == ApplyRule(old(Snapshot(data)), cells, DateRule)
    {
      ghost var r0 := Snapshot(data);
      for i := 0 to |cells|
        invariant Snapshot(data) == ApplyRule(r0, cells[..i], DateRule)
      {
        assert cells[..i + 1][..i] == cells[..i];
        var (section, field) := cells[i];
        ValidateDate(data, section, field);
      }
      assert cells[..|cells|] == cells;
    }

    /** One date cell of `_validate_dates`. */
    method ValidateDate(data: map<string, SectionDict>, section: string, field: string)
      requires Unaliased(data)
      modifies data.Values
      ensures Snapshot(data) == ApplyCell(old(Snapshot(data)), section, field, DateRule)
    {
      ghost var prev := Snapshot(data);
      if section in data && field in data[section].fields {
        var dateStr := data[section].fields[field];
        assert prev[section] == data[section].fields;
        if Truthy(dateStr) && dateStr != JStr("N/A") {
          if dateStr.JStr? {
            if IsoDatePrefix(dateStr.s) {
              // already in the expected format
            } else {
              // other formats are left as they are
            }
            assert prev[section][field := dateStr] == prev[section];
          } else {
            // `re.match` raises on a non-string; the bare `except` clears the field
            Assign(data, section, field, JStr(""));
          }
        } else {
          assert prev[section][field := dateStr] == prev[section];
        }
      }
    }

    /** `_validate_monetary_values` on a dict of section dicts. */
    method ValidateMonetaryValues(data: map<string, SectionDict>, render: Json -> string)
      requires Unaliased(data)
      modifies data.Values
      ensures Snapshot(data) == ValidateMonetary(old(Snapshot(data)), render)
    {
      ValidateMonetaryCells(data, MonetaryFields, render);
    }

    /** The loop of `_validate_monetary_values` over a list of cells. */
    method ValidateMonetaryCells(data: map<string, SectionDict>, cells: Cells, render: Json -> string)
      requires Unaliased(data)
      modifies data.Values
      ensures Snapshot(data) == ApplyRule(old(Snapshot(data)), cells, MoneyRuleOf(render))
    {
      ghost var r0 := Snapshot(data);
      for i := 0 to |cells|
        invariant Snapshot(data) == ApplyRule(r0, cells[..i], MoneyRuleOf(render))
      {
        assert cells[..i + 1][..i] == cells[..i];
        var (section, field) := cells[i];
        ValidateMonetaryValue(data, section, field, render);
      }
      assert cells[..|cells|] == cells;
    }

    /** One cell of `_validate_monetary_values`. */
    method ValidateMonetaryValue(data: map<string, SectionDict>, section: string, field: string,
                                 render: Json -> string)
      requires Unaliased(data)
      modifies data.Values
      ensures Snapshot(data) == ApplyCell(old(Snapshot(data)), section, field, MoneyRuleOf(render))
    {
      ghost var prev := Snapshot(data);
      if section in data && field in data[section].fields {
        var value := data[section].fields[field];
        assert prev[section] == data[section].fields;
        if Truthy(value) && value != JStr("N/A") {
          var cleanedValue := DigitsAndDots(PyStr(value, render));
          Assign(data, section, field, JStr(cleanedValue));
        } else {
          assert prev[section][field := value] == prev[section];
        }
      }
    }

    /**
     * `_validate_and_clean_data`: the record is `schema.copy()`, so the merge and both
     * passes write into the template's own section dicts. A parsed value that is not a dict
     * can make the section test raise; nothing has been written by then.
     */
    method ValidateAndCleanData(data: Json, render: Json -> string)
      returns (r: Result<map<string, SectionDict>>)
      requires Valid()
      modifies schema.Values
      ensures Valid()
      ensures CleanRecord(old(Template()), data, render).Ok? ==>
        r == Ok(schema) && Template() == CleanRecord(old(Template()), data, render).value
      ensures CleanRecord(old(Template()), data, render).Err? ==>
        r == Err(CleanRecord(old(Template()), data, render).message) && Template() == old(Template())
    {
      var cleanedData := schema;
      var raised := CleanSections(cleanedData, data, render);
      if raised.Some? {
        return Err(raised.value);
      }
      r := Ok(cleanedData);
    }

    /** The body of `_validate_and_clean_data` after the copy: the merge, then both passes. */
    method CleanSections(cleanedData: map<string, SectionDict>, data: Json, render: Json -> string)
      returns (raised: Option<string>)
      requires Unaliased(cleanedData)
      modifies cleanedData.Values
      ensures CleanRecord(old(Snapshot(cleanedData)), data, render).Ok? ==>
        raised.None? &&
        Snapshot(cleanedData) == CleanRecord(old(Snapshot(cleanedData)), data, render).value
      ensures CleanRecord(old(Snapshot(cleanedData)), data, render).Err? ==>
        raised == Some(CleanRecord(old(Snapshot(cleanedData)), data, render).message) &&
        Snapshot(cleanedData) == old(Snapshot(cleanedData))
    {
      raised := MergeParsed(cleanedData, data);
      if raised.Some? {
        return;
      }
      ValidateDates(cleanedData);
      ValidateMonetaryValues(cleanedData, render);
    }

    /**
     * `process_document` as evidently intended: the record is a deep copy of the template.
     * The method may change no object that existed before it ran, so the template stays as
     * the constructor built it and every call starts from the same contents.
     */
    method ProcessDocumentCopied(text: string, docType: string, complete: Prompt -> Result<string>,
                                 parse: string -> Option<Json>, render: Json -> string,
                                 processedAt: DateTime, idAt: DateTime)
      returns (result: map<string, SectionDict>)
      requires Valid()
      ensures Unaliased(result) && forall x :: x in result ==> fresh(result[x])
      ensures Snapshot(result)
        == Process(old(Template()), text, docType, complete, parse, render, processedAt, idAt)
    {
      var extractionPrompt := CreateExtractionPrompt(text, docType);
      var response := complete(extractionPrompt);
      if response.Err? {
        result := DeepCopy(schema);
        RecordError(result, response.message);
        return;
      }
      result := ProcessReplyCopied(response.value, parse, render, processedAt, idAt);
    }

    /** The corrected `process_document` once the completion call has returned `reply`. */
    method ProcessReplyCopied(reply: string, parse: string -> Option<Json>, render: Json -> string,
                              processedAt: DateTime, idAt: DateTime)
      returns (result: map<string, SectionDict>)
      requires Valid()
      ensures Unaliased(result) && forall x :: x in result ==> fresh(result[x])
      ensures Snapshot(result) == ProcessReply(old(Template()), reply, parse, render, processedAt, idAt)
    {
      var extractedData := ParseReply(Template(), reply, parse);
      var cleanedData := DeepCopy(schema);
      var raised := CleanSections(cleanedData, extractedData, render);
      if raised.Some? {
        RecordError(cleanedData, raised.value);
        return cleanedData;
      }
      StampMetadata(cleanedData, processedAt, idAt);
      result := cleanedData;
    }

    /**
     * `process_document`. It returns the template's own section dicts, so the returned
     * record and the template hold the same contents afterwards.
     */
    method ProcessDocument(text: string, docType: string, complete: Prompt -> Result<string>,
                           parse: string -> Option<Json>, render: Json -> string,
                           processedAt: DateTime, idAt: DateTime)
      returns (result: map<string, SectionDict>)
      requires Valid()
      modifies schema.Values
      ensures Valid() && result == schema
      ensures Template()
        == Process(old(Template()), text, docType, complete, parse, render, processedAt, idAt)
    {
      var extractionPrompt := CreateExtractionPrompt(text, docType);
      var response := complete(extractionPrompt);
      if response.Err? {
        result := schema;
        RecordError(result, response.message);
        return;
      }
      var extractedData := ParseReply(Template(), response.value, parse);
      var cleaned := ValidateAndCleanData(extractedData, render);
      if cleaned.Err? {
        result := schema;
        RecordError(result, cleaned.message);
        return;
      }
      var cleanedData := cleaned.value;
      StampMetadata(cleanedData, processedAt, idAt);
      result := cleanedData;
    }
  }
}
