# M&A document pipeline — a verified Dafny model

The repository reads M&A (mergers and acquisitions) press releases and reports as PDFs. It
classifies each document, has a language model extract a fixed schema of deal fields from
the text, cleans the answer, and appends the deal to the worksheets of a Google Sheets
spreadsheet. This project models the core of that pipeline in Dafny and proves what each
stage promises:

- `classifier.dfy` — the rule-based `DocumentClassifier`:
  - keyword and phrase scores;
  - the best match, with ties resolved by declaration order;
  - confidence percentages and the key indicators found;
  - the financial and M&A presence tests.
- `ai_orchestrator.dfy` — the `AIOrchestrator` object:
  - its template `mna_schema` is a dict of section dicts, kept on the heap so that
    `copy()` sharing the section dicts is visible;
  - `process_document`, `_validate_and_clean_data` and the two validation passes are
    `modifies` methods proved against the pure record functions of `extraction.dfy`.
- `extraction.dfy` — the pure rules behind the orchestrator:
  - the default schema;
  - value cleaning, merging a parsed reply into the schema, the date and monetary passes;
  - deal ID generation, the JSON span of a reply, and the prompt inputs.
- `document_processor.dfy` — the three PDF readers, the order in which `extract_text`
  tries them, and `_clean_text`.
- `sheet_generator.dfy` — the `SheetWriter`. A spreadsheet object holds its
  worksheets' grid rows. It covers worksheet creation and header repair, the append at
  `len(get_all_values()) + 1`, and `write_to_sheet`.
- `config.dfy` — reading the settings from the environment, and `validate_config`.
- Shared modules:
  - `text.dfy` — the Python string operations used, on ASCII;
  - `json_value.dfy` — the parsed JSON value, `str()` and `dict.get`;
  - `timestamps.dfy` — `isoformat` and `strftime`;
  - `wrappers.dfy` — Option and Result.

The model is written against the Python code, which behaves as follows:
- `str.count` counts non-overlapping occurrences, which is what the classifier's scores
  use.
- When every score is 0, `get_classification_confidence` returns every type with score 0,
  not an empty dict.

Calls into code that cannot be seen are parameters of the model:
- `complete` is the OpenAI chat completion (`Ok(reply)`, or `Err(message)` when it
  raises).
- `parse` is `json.loads` (`None` for a `JSONDecodeError`).
- `render` is `str()` of a float, list or dict.
- The page results of pdfplumber, PyMuPDF and Google Vision are a `Result` per page; an
  `Err` page ends that reader's loop, as the exception does.
- `authorized` and `book` stand for gspread's authorisation and `open_by_key`.
- `DateTime` values stand for each reading of `datetime.now()`.
- `Env` is the process environment.

## Model

| member | source | states |
|---|---|---|
| Classifier.PatternLabels | backend/app/core/classifier.py:13-70 | the pattern table has four document types, all distinct, none of them "other" |
| Classifier.Patterns | backend/app/core/classifier.py:15-69 | the pattern table: four document types, each with its keyword and phrase lists; `PatternLabels` and `EmptyTextIsOtherForPatterns` state its labels and that no term is empty |
| Classifier.Scores | backend/app/core/classifier.py:83-96 | one score per type in table order, each the keyword count plus twice the phrase count on the lower-cased text |
| Classifier.FirstMax | backend/app/core/classifier.py:100 | `max(scores, key=scores.get)`: an index holding the maximum, with every earlier index strictly smaller |
| Classifier.FirstMaxUnique | backend/app/core/classifier.py:100 | the index with those two properties is unique, so `FirstMax` is the first maximum and nothing else |
| Classifier.Classify | backend/app/core/classifier.py:72-111 | the label is "other" or a type of the table; "other" exactly when every score is 0 (types not named "other") |
| Classifier.ClassifyPicksFirstMaximum | backend/app/core/classifier.py:99-104 | a returned type has the highest score, and a strictly higher score than every type declared before it |
| Classifier.ClassifyLabels | backend/app/core/classifier.py:99-107 | with the real patterns the label is one of the five labels, and "other" exactly when all four scores are 0 |
| Classifier.TermsCountZeroIff | backend/app/core/classifier.py:87-94 | a term list counts 0 exactly when none of its lower-cased terms occurs in the text |
| Classifier.ScoreZeroIff | backend/app/core/classifier.py:84-96 | a type scores 0 exactly when none of its keywords or phrases occurs |
| Classifier.TermsCountAtLeast | backend/app/core/classifier.py:87-89 | the total count of a term list is at least the count of any one of its terms |
| Classifier.SharedTermCountsThree | backend/app/core/classifier.py:87-94 | a term listed both as keyword and phrase gives the type a score of at least three per occurrence |
| Classifier.TermsCountAppend | backend/app/core/classifier.py:87-94 | the count over two term lists is the sum of their counts |
| Classifier.SharedTermAddsThree | backend/app/core/classifier.py:84-94 | adding a term to both the keywords and the phrases raises the score by exactly three per occurrence |
| Classifier.EmptyTextIsOther | backend/app/core/classifier.py:99-107 | with non-empty terms, the empty text is classified "other" |
| Classifier.EmptyTextIsOtherForPatterns | backend/app/core/classifier.py:13-107 | the real patterns have no empty term, so the empty text is "other" |
| Classifier.Percentages | backend/app/core/classifier.py:137-140 | each score becomes `score / total * 100` |
| Classifier.Share | backend/app/core/classifier.py:137-140 | one score as `score / total * 100`, or 0 when the total is 0; `ConfidenceShares` and `ConfidenceSumsTo100` state the values it gives |
| Classifier.SumPercentages | backend/app/core/classifier.py:137-140 | the percentages sum to `sum / total * 100` |
| Classifier.PercentagesSumTo100 | backend/app/core/classifier.py:137-140 | normalising by the sum of the scores gives percentages that add up to exactly 100 |
| Classifier.ConfidenceValues | backend/app/core/classifier.py:121-140 | one value per type: its share of the total in percent, or its raw score 0 when the total is 0 |
| Classifier.ConfidenceShares | backend/app/core/classifier.py:113-142 | the result has exactly the table's types as keys, each mapped to its share (0 when the total is 0) |
| Classifier.ConfidenceSumsTo100 | backend/app/core/classifier.py:137-140 | when any term occurs, the confidences sum to 100 |
| Classifier.Zip | backend/app/core/classifier.py:139-140 | the dict built from labels and values has exactly the labels as keys |
| Classifier.ZipAt | backend/app/core/classifier.py:139-140 | with distinct labels, each label maps to its own value |
| Classifier.Found | backend/app/core/classifier.py:157-167 | the found list holds exactly the terms whose lower-cased form occurs in the text |
| Classifier.FoundMultiplicity | backend/app/core/classifier.py:157-167 | a term that occurs is found as often as the list holds it; one that does not occur is never found |
| Classifier.IndicatorsOfAt | backend/app/core/classifier.py:156-170 | a type is a key exactly when something of it was found, and then maps to its found list |
| Classifier.IndicatorsOfAbsent | backend/app/core/classifier.py:156-170 | a label that is not a type of the table is never a key |
| Classifier.IndicatorsOfKeys | backend/app/core/classifier.py:156-170 | every key is a type of the table |
| Classifier.IndicatorsListed | backend/app/core/classifier.py:148-172 | a type is listed exactly when one of its keywords or phrases occurs, and its list is the matching keywords followed by the matching phrases, in table order |
| Classifier.NoIndicatorsIffOther | backend/app/core/classifier.py:148-172 | no indicators at all exactly when the classification is "other" |
| Classifier.PresentSet | backend/app/core/classifier.py:189 | the set of listed keywords that occur in the text |
| Classifier.FinancialKeywords | backend/app/core/classifier.py:182-186 | the 12 financial keywords, matched as given against the lower-cased text; `FinancialIffThreeDistinct` uses them |
| Classifier.MnaKeywords | backend/app/core/classifier.py:197-201 | the 15 M&A keywords, matched as given against the lower-cased text; `MnaIffTwoDistinct` and `BuyerAloneIsMna` use them |
| Classifier.PresentCountIsDistinctCount | backend/app/core/classifier.py:189 | over a list of distinct keywords, the count is the number of distinct keywords present |
| Classifier.PresentCountIsSetSize | backend/app/core/classifier.py:189 | the same count is the size of the present set |
| Classifier.FinancialIffThreeDistinct | backend/app/core/classifier.py:178-191 | a document is financial exactly when at least 3 distinct financial keywords occur |
| Classifier.MnaIffTwoDistinct | backend/app/core/classifier.py:193-206 | a document is M&A exactly when at least 2 distinct M&A keywords occur |
| Classifier.PresentCountAtLeast | backend/app/core/classifier.py:189 | each distinct present position of the list adds one to the count |
| Classifier.BuyerAloneIsMna | backend/app/core/classifier.py:197-206 | "Buyer" alone passes the M&A test, since it contains both "buy" and "buyer" |
| Classifier.DocumentClassifier.constructor | backend/app/core/classifier.py:13-70 | the classifier holds the pattern table |
| Classifier.TermsCount | backend/app/core/classifier.py:87-94 | definition of the summed `text_lower.count(term.lower())` over a term list; `TermsCountZeroIff`, `TermsCountAtLeast` and `SharedTermCountsThree` state what it counts |
| Classifier.Score | backend/app/core/classifier.py:84-94 | definition of one type's score (keywords once, phrases twice); `ScoreZeroIff` states when it is 0 |
| Classifier.Confidence | backend/app/core/classifier.py:113-142 | definition of the confidence dict; `ConfidenceShares` and `ConfidenceSumsTo100` state its keys, values and total |
| Classifier.IndicatorsOf | backend/app/core/classifier.py:156-170 | definition of the indicators dict on lowered text; `IndicatorsOfAt`, `IndicatorsOfAbsent` and `IndicatorsOfKeys` state its keys and values |
| Classifier.Indicators | backend/app/core/classifier.py:148-172 | definition of `extract_key_indicators`; `IndicatorsListed` and `NoIndicatorsIffOther` state its contents |
| Classifier.PresentCount | backend/app/core/classifier.py:189 | definition of `sum(1 for keyword in ... if keyword in text_lower)`; `PresentCountIsDistinctCount` and `PresentCountIsSetSize` state that it counts the present keywords |
| Classifier.IsFinancialDocument | backend/app/core/classifier.py:178-191 | definition of `is_financial_document`; `FinancialIffThreeDistinct` states its meaning |
| Classifier.IsMnaDocument | backend/app/core/classifier.py:193-206 | definition of `is_mna_document`; `MnaIffTwoDistinct` and `BuyerAloneIsMna` state its meaning |
| Classifier.DocumentClassifier.ScoreOf | backend/app/core/classifier.py:84-94 | the two counting loops give keyword count times 1 plus phrase count times 2 |
| Classifier.DocumentClassifier.ComputeScores | backend/app/core/classifier.py:83-96 | the loop over the types gives the score of each type |
| Classifier.DocumentClassifier.ClassifyDocument | backend/app/core/classifier.py:72-107 | the method returns `Classify` of the text |
| Classifier.DocumentClassifier.GetClassificationConfidence | backend/app/core/classifier.py:113-142 | the method returns `Confidence` of the text |
| Classifier.DocumentClassifier.FindTerms | backend/app/core/classifier.py:160-167 | the membership loop returns `Found` |
| Classifier.DocumentClassifier.ExtractKeyIndicators | backend/app/core/classifier.py:148-172 | the method returns `Indicators` of the text |
| Classifier.SumScores | backend/app/core/classifier.py:137 | `sum(scores.values())` |
| Extraction.EmptySection | backend/app/core/ai_orchestrator.py:23-58 | a section holds exactly the listed fields, each set to "" |
| Extraction.DefaultSchemaKeys | backend/app/core/ai_orchestrator.py:22-65 | the schema has the five sections, each with exactly its listed fields |
| Extraction.DefaultSchemaValues | backend/app/core/ai_orchestrator.py:22-65 | every default cell is "" except `metadata.date_processed`, which is the construction time in ISO format |
| Extraction.DefaultSchema | backend/app/core/ai_orchestrator.py:21-65 | definition of `mna_schema`; `DefaultSchemaKeys` and `DefaultSchemaValues` state its sections, fields and defaults |
| Extraction.RecordJson | backend/app/core/ai_orchestrator.py:152 | the schema copy returned on a decode error is a dict of dicts with the record's contents |
| Extraction.CleanValue | backend/app/core/ai_orchestrator.py:163-168 | non-strings are kept; a string is stripped, and becomes "" when it is a sentinel in any case |
| Extraction.Sentinels | backend/app/core/ai_orchestrator.py:167 | the four lower-cased values that cleaning turns into ""; `CleanValueSentinel` and `CleanValueKeeps` state their effect |
| Extraction.CleanValueEmpty | backend/app/core/ai_orchestrator.py:165-168 | cleaning the empty string gives the empty string |
| Extraction.CleanValueTrimmed | backend/app/core/ai_orchestrator.py:166 | a cleaned string has no surrounding whitespace |
| Extraction.CleanValueIdempotent | backend/app/core/ai_orchestrator.py:165-168 | cleaning twice is cleaning once |
| Extraction.CleanValueSentinel | backend/app/core/ai_orchestrator.py:167-168 | "  N/A " becomes "" |
| Extraction.CleanValueTrims | backend/app/core/ai_orchestrator.py:166 | " Acme\n" becomes "Acme" |
| Extraction.CleanValueKeeps | backend/app/core/ai_orchestrator.py:165-168 | a trimmed non-sentinel string is unchanged |
| Extraction.MergeSection | backend/app/core/ai_orchestrator.py:161-169 | the merged section has exactly the schema's fields |
| Extraction.PyIn | backend/app/core/ai_orchestrator.py:160 | `section in data` raises exactly for a number, boolean or None, with the `TypeError` text |
| Extraction.PySubscript | backend/app/core/ai_orchestrator.py:160 | `data[section]` succeeds exactly on a dict; on a list or string it raises |
| Extraction.Merge | backend/app/core/ai_orchestrator.py:159-169 | a successful merge keeps every section and field of the schema; a failure carries the `TypeError` text |
| Extraction.MergeOwnRecord | backend/app/core/ai_orchestrator.py:152-169 | merging the template's own record into it succeeds and leaves every cell cleaned |
| Extraction.MergeObject | backend/app/core/ai_orchestrator.py:159-169 | a dict reply never fails; a field takes the cleaned reply value when its parsed section is a dict that has it, otherwise it keeps the schema value |
| Extraction.MergeScalarRaises | backend/app/core/ai_orchestrator.py:160 | a number, boolean or None reply fails with "argument of type '…' is not iterable" |
| Extraction.MergeList | backend/app/core/ai_orchestrator.py:160 | a list reply fails exactly when it holds a section name as a string, and otherwise changes nothing |
| Extraction.SectionRaises | backend/app/core/ai_orchestrator.py:160 | definition of when `section in data` or `data[section]` raises; `PyIn`, `PySubscript`, `Merge` and `MergeList` state the cases |
| Extraction.RaiseMessage | backend/app/core/ai_orchestrator.py:160 | definition of the TypeError text; `MergeScalarRaises` and `AiOrchestrator.ProcessScalarReply` state which text a reply gets |
| Extraction.ApplyCell | backend/app/core/ai_orchestrator.py:188-202 | one cell pass keeps every section and field |
| Extraction.ApplyRule | backend/app/core/ai_orchestrator.py:188-202 | a pass keeps every section and field |
| Extraction.ApplyRuleCell | backend/app/core/ai_orchestrator.py:188-222 | a pass over distinct cells changes each listed cell by the rule and no other cell |
| Extraction.ApplyCellAt | backend/app/core/ai_orchestrator.py:189-190 | one cell step changes that cell alone |
| Extraction.DistinctFieldTables | backend/app/core/ai_orchestrator.py:181-186 | the date and monetary cell tables have no repeated cell |
| Extraction.DateFields | backend/app/core/ai_orchestrator.py:181-186 | the four date cells, in order; `DistinctFieldTables` and `ValidateDatesCell` state that only they are touched |
| Extraction.MonetaryFields | backend/app/core/ai_orchestrator.py:208-214 | the five monetary cells, in order; `DistinctFieldTables` and `ValidateMonetaryCell` state that only they are touched |
| Extraction.ValidateDatesCell | backend/app/core/ai_orchestrator.py:179-204 | the date pass never changes a string; it changes only the four date cells; a truthy non-string date becomes "" |
| Extraction.ValidateMonetaryCell | backend/app/core/ai_orchestrator.py:206-224 | the monetary pass changes only the five monetary cells; a non-empty string other than "N/A" keeps its digits and dots; a falsy value is left alone |
| Extraction.DateRule | backend/app/core/ai_orchestrator.py:189-202 | definition of the date rule on one cell; `ValidateDatesCell` states it keeps strings and clears truthy non-strings |
| Extraction.ValidateDates | backend/app/core/ai_orchestrator.py:179-204 | definition of `_validate_dates`; `ValidateDatesCell` states which cells it changes and how |
| Extraction.MoneyRule | backend/app/core/ai_orchestrator.py:217-222 | definition of the monetary rule on one cell; `ValidateMonetaryCell` and `MoneyExample` state its result |
| Extraction.ValidateMonetary | backend/app/core/ai_orchestrator.py:206-224 | definition of `_validate_monetary_values`; `ValidateMonetaryCell` states which cells it changes and how |
| Extraction.MoneyExample | backend/app/core/ai_orchestrator.py:219-222 | "$1,234.56M" becomes "1234.56" |
| Extraction.CleanRecord | backend/app/core/ai_orchestrator.py:154-177 | cleaning fails exactly when the merge does, with the `TypeError` text; on success every section and field is kept |
| Extraction.CleanRecordKeeps | backend/app/core/ai_orchestrator.py:171-175 | a merged string cell survives both passes unless it is a truthy monetary cell |
| Extraction.DealIdFromTarget | backend/app/core/ai_orchestrator.py:230-237 | a non-empty string target with a string date gives `DEAL_` + the first 10 word characters + `_` + the first 8 digits, whatever the clock |
| Extraction.DealIdFallback | backend/app/core/ai_orchestrator.py:238-243 | a falsy or non-string target, or a non-string date, gives `DEAL_%Y%m%d_%H%M%S`, 20 characters |
| Extraction.DealIdExample | backend/app/core/ai_orchestrator.py:230-237 | "Acme Power Co." announced "2024-03-15" gives "DEAL_AcmePowerC_20240315" |
| Extraction.DealId | backend/app/core/ai_orchestrator.py:226-243 | definition of `_generate_deal_id`; `DealIdFromTarget`, `DealIdFallback` and `DealIdExample` state both branches |
| Extraction.FirstIndex | backend/app/core/ai_orchestrator.py:141 | the first occurrence of a character, or its absence |
| Extraction.LastIndex | backend/app/core/ai_orchestrator.py:141 | the last occurrence of a character, or its absence |
| Extraction.FirstIndexIs | backend/app/core/ai_orchestrator.py:141 | a first occurrence is what `FirstIndex` finds |
| Extraction.LastIndexIs | backend/app/core/ai_orchestrator.py:141 | a last occurrence is what `LastIndex` finds |
| Extraction.JsonSpanIs | backend/app/core/ai_orchestrator.py:141-144 | with the first `{` before the last `}`, the span runs from one to the other, inclusive |
| Extraction.JsonSpanWhole | backend/app/core/ai_orchestrator.py:145-147 | with no `{` followed by a `}`, the whole reply is parsed |
| Extraction.JsonSpan | backend/app/core/ai_orchestrator.py:141-147 | definition of the text handed to `json.loads`; `JsonSpanIs` and `JsonSpanWhole` state what it is |
| Extraction.MakePrompt | backend/app/core/ai_orchestrator.py:112-135 | the prompt holds the first `min(4000, len)` characters of the text, the given document type, and the schema as it is at that moment |
| AiOrchestrator.SectionDict.constructor | backend/app/core/ai_orchestrator.py:23-64 | a new section dict holds the given fields |
| AiOrchestrator.Snapshot | backend/app/core/ai_orchestrator.py:21-65 | the current contents of a dict of section dicts, read through the shared objects; every method on the template states its new state through it |
| AiOrchestrator.Unaliased | backend/app/core/ai_orchestrator.py:156 | no two sections share one section dict, so a write to one cell changes only that section; `Assign` and the merge require it, and `DeepCopy` and the constructor establish it |
| AiOrchestrator.Assign | backend/app/core/ai_orchestrator.py:169 | `d[x][f] = v` changes that one cell of that one section dict |
| AiOrchestrator.MergeSectionInto | backend/app/core/ai_orchestrator.py:161-169 | the field loop leaves the section as `MergeSection` of its old contents |
| AiOrchestrator.MergedOutsideStep | backend/app/core/ai_orchestrator.py:161-169 | merging one more field moves the loop state one field on |
| AiOrchestrator.MergeParsedSection | backend/app/core/ai_orchestrator.py:160-169 | one section raises exactly when `SectionRaises`, with nothing changed; otherwise only that section changes, to its merged contents |
| AiOrchestrator.MergeParsed | backend/app/core/ai_orchestrator.py:159-169 | the section loop, in any order, fails exactly when `Merge` does, with nothing changed; otherwise it leaves `Merge`'s record |
| AiOrchestrator.PartlyMergedStep | backend/app/core/ai_orchestrator.py:159-169 | merging one more section moves the loop state one section on |
| AiOrchestrator.PartlyMergedAll | backend/app/core/ai_orchestrator.py:159-169 | once every section is merged without raising, the result is `Merge`'s |
| AiOrchestrator.MergeRaises | backend/app/core/ai_orchestrator.py:160 | a raising section makes the merge fail before any section has changed |
| AiOrchestrator.ParseReply | backend/app/core/ai_orchestrator.py:137-152 | definition of `_parse_ai_response`; `ProcessScalarReply` and `ProcessSucceeds` state what follows from each parse |
| AiOrchestrator.DeepCopy | backend/app/core/ai_orchestrator.py:156 | `copy.deepcopy`: fresh, unshared section dicts with the same contents |
| AiOrchestrator.CopyInto | backend/app/core/ai_orchestrator.py:156 | one step of the deep copy adds one fresh section dict |
| AiOrchestrator.RecordError | backend/app/core/ai_orchestrator.py:108-109 | the except clause sets `metadata.extraction_error` and changes nothing else |
| AiOrchestrator.StampMetadata | backend/app/core/ai_orchestrator.py:99-100 | the two metadata writes leave the record as `Stamp` of the cleaned record |
| AiOrchestrator.WithError | backend/app/core/ai_orchestrator.py:108-109 | recording an error keeps every section other than metadata |
| AiOrchestrator.Process | backend/app/core/ai_orchestrator.py:67-110 | processing keeps every section, and every field of every section other than metadata |
| AiOrchestrator.ProcessReply | backend/app/core/ai_orchestrator.py:93-110 | the same holds once the completion call has returned |
| AiOrchestrator.Stamp | backend/app/core/ai_orchestrator.py:99-100 | stamping changes the metadata section alone |
| AiOrchestrator.StampCells | backend/app/core/ai_orchestrator.py:99-100 | stamping sets `date_processed` to the processing time and `deal_id` to the ID of the cleaned record, and nothing else |
| AiOrchestrator.StampedDealId | backend/app/core/ai_orchestrator.py:99-100 | writing the processing time first does not change the deal ID |
| AiOrchestrator.ProcessCompletionFails | backend/app/core/ai_orchestrator.py:105-110 | a failed completion call leaves the template plus `extraction_error` holding the error text |
| AiOrchestrator.ProcessScalarReply | backend/app/core/ai_orchestrator.py:93-110 | a reply parsing to a number, boolean or null records the `TypeError` text and changes nothing else |
| AiOrchestrator.ProcessSucceeds | backend/app/core/ai_orchestrator.py:93-103 | on success the result is the cleaned record, with `date_processed` and `deal_id` set and nothing else changed |
| AiOrchestrator.ReplyStamped | backend/app/core/ai_orchestrator.py:96-100 | after a successful clean, the result is the stamped cleaned record |
| AiOrchestrator.ProcessKeepsError | backend/app/core/ai_orchestrator.py:105-110 | an error once written to the template appears in every later result |
| AiOrchestrator.ProcessOmittedSection | backend/app/core/ai_orchestrator.py:159-177 | a string cell of a section the dict reply omits keeps the template's value, unless it is a truthy monetary cell |
| AiOrchestrator.ProcessGivenCell | backend/app/core/ai_orchestrator.py:159-177 | a non-monetary string cell that the reply gives is the reply's value, cleaned |
| AiOrchestrator.FirstDocumentSetsBuyer | backend/app/core/ai_orchestrator.py:156-169 | a first reply naming the buyer "Acme" leaves "Acme" in the template |
| AiOrchestrator.SecondDocumentInheritsBuyer | backend/app/core/ai_orchestrator.py:156-169 | a second document whose reply is `{}` comes back with the first document's buyer |
| AiOrchestrator.BuyerCarriesOver | backend/app/core/ai_orchestrator.py:156-169 | a buyer held by the template survives an empty reply |
| AiOrchestrator.ProcessFresh | backend/app/core/ai_orchestrator.py:67-110 | processing against a fresh schema gives the five sections |
| AiOrchestrator.FreshOmittedSectionIsEmpty | backend/app/core/ai_orchestrator.py:154-169 | against a fresh schema, every field of a section the reply omits is "" |
| AiOrchestrator.UnparsedReplyKeepsTemplate | backend/app/core/ai_orchestrator.py:137-177 | for a reply `json.loads` cannot decode, a string cell outside metadata that is not a truthy monetary cell comes back as the template's own value, cleaned |
| AiOrchestrator.UnparsedReplyRaisesNothing | backend/app/core/ai_orchestrator.py:137-177 | a reply `json.loads` cannot decode raises nothing in cleaning, and `extraction_error` is present exactly when the template already held it |
| AiOrchestrator.UnparsedEmptyCell | backend/app/core/ai_orchestrator.py:149-169 | for a reply `json.loads` cannot decode, a template cell outside metadata that holds "" comes back as "" |
| AiOrchestrator.FreshUnparsedReplyIsDefault | backend/app/core/ai_orchestrator.py:149-152 | against a fresh schema, a malformed reply gives the default "" in every field outside metadata |
| AiOrchestrator.FreshSuccessHasNoError | backend/app/core/ai_orchestrator.py:96-103 | against a fresh schema, a successful extraction has no `extraction_error` |
| AiOrchestrator.AIOrchestrator.constructor | backend/app/core/ai_orchestrator.py:16-65 | the template is the default schema stamped with the construction time, in five unshared section dicts |
| AiOrchestrator.AIOrchestrator.Valid | backend/app/core/ai_orchestrator.py:21-65 | the template `mna_schema` has the five sections and no two of them share a section dict; the constructor establishes it and the methods on the template require it; it reads only the constant `schema`, so no write to a cell can break it |
| AiOrchestrator.AIOrchestrator.Template | backend/app/core/ai_orchestrator.py:21-65 | the current contents of `mna_schema`; the constructor and `ProcessDocument` state it, and the shallow copies at lines 108, 152 and 156 see it |
| AiOrchestrator.AIOrchestrator.CreateExtractionPrompt | backend/app/core/ai_orchestrator.py:112-135 | definition of `_create_extraction_prompt` on the current template; `Extraction.MakePrompt` states its contents |
| AiOrchestrator.AIOrchestrator.ValidateDates | backend/app/core/ai_orchestrator.py:179-204 | `_validate_dates` leaves the record as the date pass of its old contents |
| AiOrchestrator.AIOrchestrator.ValidateDateCells | backend/app/core/ai_orchestrator.py:188-202 | the loop applies the date rule to each listed cell in turn |
| AiOrchestrator.AIOrchestrator.ValidateDate | backend/app/core/ai_orchestrator.py:189-202 | one date cell: strings are left as they are, a truthy non-string is cleared |
| AiOrchestrator.AIOrchestrator.ValidateMonetaryValues | backend/app/core/ai_orchestrator.py:206-224 | `_validate_monetary_values` leaves the record as the monetary pass of its old contents |
| AiOrchestrator.AIOrchestrator.ValidateMonetaryCells | backend/app/core/ai_orchestrator.py:216-222 | the loop applies the monetary rule to each listed cell in turn |
| AiOrchestrator.AIOrchestrator.ValidateMonetaryValue | backend/app/core/ai_orchestrator.py:217-222 | one monetary cell: a truthy value other than "N/A" keeps the digits and dots of its `str()` |
| AiOrchestrator.AIOrchestrator.ValidateAndCleanData | backend/app/core/ai_orchestrator.py:154-177 | cleaning writes `CleanRecord` into the template's own section dicts and returns them; a raise leaves the template unchanged |
| AiOrchestrator.AIOrchestrator.CleanSections | backend/app/core/ai_orchestrator.py:159-175 | the merge, then the two passes, give `CleanRecord`; a raise changes nothing |
| AiOrchestrator.AIOrchestrator.ProcessDocument | backend/app/core/ai_orchestrator.py:67-110 | `process_document` returns the template's own section dicts, and the template becomes `Process` of its old contents |
| AiOrchestrator.AIOrchestrator.ProcessDocumentCopied | backend/app/core/ai_orchestrator.py:67-110 | with deep copies, the result is fresh and is `Process` of the template, which no call changes |
| AiOrchestrator.AIOrchestrator.ProcessReplyCopied | backend/app/core/ai_orchestrator.py:93-110 | the same, once the completion call has returned |
| DocumentProcessor.CleanLines | backend/app/core/document_processor.py:123-126 | the kept lines are stripped and non-empty |
| DocumentProcessor.CleanLinesAppend | backend/app/core/document_processor.py:123-126 | the line filter distributes over concatenation |
| DocumentProcessor.CleanLinesOfClean | backend/app/core/document_processor.py:123-126 | lines that are already stripped and non-empty pass unchanged |
| DocumentProcessor.CleanLinesWithout | backend/app/core/document_processor.py:120-126 | stripping adds no new character, so the kept lines have no newline |
| DocumentProcessor.Collapse | backend/app/core/document_processor.py:132-133 | the replace loop ends with no three newlines in a row |
| DocumentProcessor.CollapseWithoutTriple | backend/app/core/document_processor.py:132-133 | without three newlines in a row the loop changes nothing |
| DocumentProcessor.CleanedIsJoin | backend/app/core/document_processor.py:114-135 | the cleaned text is the kept lines joined by single newlines |
| DocumentProcessor.CleanedNonEmpty | backend/app/core/document_processor.py:120-135 | for non-empty text, the cleaned text is the kept lines joined, with the loop a no-op |
| DocumentProcessor.CleanedHasNoBlankLine | backend/app/core/document_processor.py:114-135 | the cleaned text has no blank line (no two newlines in a row) |
| DocumentProcessor.JoinedLinesHaveNoBlankLine | backend/app/core/document_processor.py:129 | joining the kept lines gives no `\n\n`, hence no `\n\n\n` |
| DocumentProcessor.JoinedHasNoBlankLine | backend/app/core/document_processor.py:129 | joining non-empty lines without newlines gives no `\n\n` |
| DocumentProcessor.EmptyHasNoLines | backend/app/core/document_processor.py:116-117 | the empty text has no kept lines, so both paths give "" |
| DocumentProcessor.CleanedLines | backend/app/core/document_processor.py:114-135 | the cleaned text is empty exactly when no line is kept; otherwise splitting it gives back the kept lines |
| DocumentProcessor.CleanedIdempotent | backend/app/core/document_processor.py:114-135 | cleaning cleaned text changes nothing |
| DocumentProcessor.Cleaned | backend/app/core/document_processor.py:114-135 | definition of `_clean_text`; `CleanedLines`, `CleanedKeepsLine`, `CleanedOfCleanText` and `CleanedIdempotent` state its meaning |
| DocumentProcessor.CleanLinesKeepAt | backend/app/core/document_processor.py:123-126 | a line that is not blank lands, stripped, at some index of the cleaned lines |
| DocumentProcessor.CleanLinesKeep | backend/app/core/document_processor.py:123-126 | a line that is not blank appears, stripped, among the cleaned lines |
| DocumentProcessor.CleanedKeepsLine | backend/app/core/document_processor.py:114-135 | every non-blank input line is, stripped, a line of the cleaned text |
| DocumentProcessor.CleanedOfCleanText | backend/app/core/document_processor.py:114-135 | a text whose lines are all non-blank and stripped is returned unchanged |
| DocumentProcessor.OkPrefix | backend/app/core/document_processor.py:60-67 | the pages read are the results before the first failure |
| DocumentProcessor.OkPrefixStops | backend/app/core/document_processor.py:60-67 | a failing page ends the reading; later pages play no part |
| DocumentProcessor.KeptTexts | backend/app/core/document_processor.py:63-65 | only non-empty page texts are kept |
| DocumentProcessor.PlumberTextIsJoin | backend/app/core/document_processor.py:57-68 | pdfplumber's text is the non-empty page texts, each followed by a newline |
| DocumentProcessor.MuPdfTextIsJoin | backend/app/core/document_processor.py:70-80 | PyMuPDF's text is every page's text, each followed by a newline |
| DocumentProcessor.OcrFirstFivePages | backend/app/core/document_processor.py:92 | OCR reads at most five pages, so pages after the fifth never matter |
| DocumentProcessor.PlumberText | backend/app/core/document_processor.py:57-68 | definition of the pdfplumber text; `PlumberTextIsJoin` states its form |
| DocumentProcessor.PlumberLine | backend/app/core/document_processor.py:64-65 | what pdfplumber adds for one page: a non-empty text and a newline, else nothing; `PlumberTextIsJoin` states the whole text |
| DocumentProcessor.MuPdfText | backend/app/core/document_processor.py:70-80 | definition of the PyMuPDF text; `MuPdfTextIsJoin` states its form |
| DocumentProcessor.OcrText | backend/app/core/document_processor.py:82-112 | definition of the OCR text; `OcrFirstFivePages` states which pages matter |
| DocumentProcessor.OcrPages | backend/app/core/document_processor.py:92 | `min(5, len(doc))`; `OcrFirstFivePages` states that later pages never matter |
| DocumentProcessor.OcrLine | backend/app/core/document_processor.py:101-102 | what OCR adds for one page: the first annotation and a newline, if any; `ExtractWithOcr` states the whole text |
| DocumentProcessor.Short | backend/app/core/document_processor.py:38 | definition of `len(text.strip()) < 100`; `TriedReaders` states how it drives the cascade |
| DocumentProcessor.Tried | backend/app/core/document_processor.py:35-45 | definition of the readers `extract_text` runs; `TriedReaders` states their order and conditions |
| DocumentProcessor.LastTried | backend/app/core/document_processor.py:35-45 | the reader whose text is kept; `TriedReaders` states that it is the last reader tried and when each one is chosen |
| DocumentProcessor.TriedReaders | backend/app/core/document_processor.py:35-45 | pdfplumber runs first; PyMuPDF runs exactly when its text is short; OCR runs exactly when both are short and a client exists; the last one run is kept |
| DocumentProcessor.DocumentProcessor.constructor | backend/app/core/document_processor.py:18-27 | a vision client exists exactly when the path is set, the file exists and creating the client succeeds |
| DocumentProcessor.DocumentProcessor.CleanText | backend/app/core/document_processor.py:114-135 | `_clean_text` returns `Cleaned` |
| DocumentProcessor.DocumentProcessor.ExtractWithPdfplumber | backend/app/core/document_processor.py:57-68 | the page loop returns the pdfplumber text of the pages read |
| DocumentProcessor.DocumentProcessor.ExtractWithPymupdf | backend/app/core/document_processor.py:70-80 | the page loop returns the PyMuPDF text of the pages read |
| DocumentProcessor.DocumentProcessor.ExtractWithOcr | backend/app/core/document_processor.py:82-112 | without a client the text is ""; otherwise it is the first annotations of the first `min(5, n)` pages read |
| DocumentProcessor.DocumentProcessor.ExtractText | backend/app/core/document_processor.py:29-51 | the readers run are `Tried`, and the text is the cleaned text of the last one |
| SheetGenerator.UsedRows | backend/app/core/sheet_generator.py:148 | `get_all_values()`: a prefix of the grid that ends in a non-blank row, with only blank rows after it |
| SheetGenerator.UsedRowsOfBlankTail | backend/app/core/sheet_generator.py:148 | blank rows after the used range do not change it |
| SheetGenerator.Inserted | backend/app/core/sheet_generator.py:149 | `insert_row` puts the row at the given 1-based index and shifts the later rows down |
| SheetGenerator.AppendedRows | backend/app/core/sheet_generator.py:148-149 | the append keeps the used rows, puts the new row right after them, and a non-blank row becomes the last used row |
| SheetGenerator.Appended | backend/app/core/sheet_generator.py:147-149 | definition of one append; `AppendedRows` states where the row goes and what is kept |
| SheetGenerator.BlankRows | backend/app/core/sheet_generator.py:111-115 | a new worksheet has the requested number of empty rows |
| SheetGenerator.HeaderRow | backend/app/core/sheet_generator.py:117 | the header row holds the titles in order |
| SheetGenerator.ConfigTitles | backend/app/core/sheet_generator.py:81-103 | the five configured worksheets have distinct titles |
| SheetGenerator.DealSummaryHeaders | backend/app/core/sheet_generator.py:82-86 | the 13 Deal Summary titles; `ColumnsMatchHeaders` states that the row has one cell per title |
| SheetGenerator.FinancialsHeaders | backend/app/core/sheet_generator.py:87-90 | the 7 Financials titles; `ColumnsMatchHeaders` states that the row has one cell per title |
| SheetGenerator.AdvisorsHeaders | backend/app/core/sheet_generator.py:91-94 | the 6 Advisors titles; `ColumnsMatchHeaders` states that the row has one cell per title |
| SheetGenerator.PowerPlantHeaders | backend/app/core/sheet_generator.py:95-98 | the 6 Power Plant Details titles, which `EnsureAllSheet` writes as headers |
| SheetGenerator.MetadataHeaders | backend/app/core/sheet_generator.py:99-102 | the 7 Metadata titles, which `EnsureAllSheet` writes as headers |
| SheetGenerator.WorksheetsConfig | backend/app/core/sheet_generator.py:81-103 | the five worksheet titles with their headers, in order; `ConfigTitles` states the titles are distinct and `EnsureAllSheet` what ensuring does with each |
| SheetGenerator.EnsureSheet | backend/app/core/sheet_generator.py:109-125 | one pass adds the title or changes nothing |
| SheetGenerator.EnsureAll | backend/app/core/sheet_generator.py:106-125 | no worksheet is removed |
| SheetGenerator.EnsureAllSheet | backend/app/core/sheet_generator.py:106-125 | a missing worksheet gets its headers over 1000 empty rows; a blank row 1 gets the headers inserted above the old rows; headed and unconfigured worksheets are untouched |
| SheetGenerator.EnsuredTitles | backend/app/core/sheet_generator.py:62-67 | once ensured, the three worksheets written to exist |
| SheetGenerator.Row | backend/app/core/sheet_generator.py:131-145 | a row has one cell per column; a column the section holds gives its value, and any other column gives "" |
| SheetGenerator.ColumnsMatchHeaders | backend/app/core/sheet_generator.py:81-183 | each row layout has as many columns as its headers: the Deal ID, then the section's own fields in schema order |
| SheetGenerator.DealSummaryColumns | backend/app/core/sheet_generator.py:131-145 | the keys read for a Deal Summary row; `ColumnsMatchHeaders` states they are `deal_id` then the section's schema fields |
| SheetGenerator.FinancialsColumns | backend/app/core/sheet_generator.py:157-165 | the keys read for a Financials row; `ColumnsMatchHeaders` states they are `deal_id` then the section's schema fields |
| SheetGenerator.AdvisorsColumns | backend/app/core/sheet_generator.py:176-183 | the keys read for an Advisors row; `ColumnsMatchHeaders` states they are `deal_id` then the section's schema fields |
| SheetGenerator.NoDealIdField | backend/app/core/ai_orchestrator.py:23-50 | no section other than metadata has a `deal_id` field |
| SheetGenerator.SchemaHasNoDealIdColumn | backend/app/core/ai_orchestrator.py:23-50 | neither has the default schema's deal summary, financials or advisors section |
| SheetGenerator.BlankIdColumn | backend/app/core/sheet_generator.py:132 | a section without `deal_id` gives "" in the first column |
| SheetGenerator.SectionOf | backend/app/core/sheet_generator.py:65-67 | definition of `data.get(section, {})`; `Row` and `DealIdColumnIsLost` state the rows built from it |
| SheetGenerator.RecordDealId | backend/app/core/ai_orchestrator.py:100 | definition of the ID stored in `metadata`; `DealIdNotEmpty`, `RowWithDealId` and `RowWithDealIdCarriesId` state its use |
| SheetGenerator.DealIdNotEmpty | backend/app/core/ai_orchestrator.py:233-243 | a generated deal ID is never empty |
| SheetGenerator.DealIdColumnIsLost | backend/app/core/sheet_generator.py:127-188 | after a successful extraction the metadata carries a non-empty deal ID, yet all three rows start with "" |
| SheetGenerator.RowWithDealId | backend/app/core/sheet_generator.py:158 | the corrected row starts with the metadata's deal ID and keeps every other column |
| SheetGenerator.RowWithDealIdCarriesId | backend/app/core/sheet_generator.py:158 | with the corrected rows, all three start with the generated ID |
| SheetGenerator.Spreadsheet.constructor | backend/app/core/sheet_generator.py:45 | an opened spreadsheet holds its URL and worksheets |
| SheetGenerator.Spreadsheet.AddWorksheet | backend/app/core/sheet_generator.py:111-115 | `add_worksheet` adds a worksheet of empty rows |
| SheetGenerator.Spreadsheet.InsertRow | backend/app/core/sheet_generator.py:117 | `insert_row` changes that one worksheet, as `Inserted` says |
| SheetGenerator.SheetWriter.constructor | backend/app/core/sheet_generator.py:16-51 | the writer is ready exactly when the credentials path and spreadsheet ID are set, authorisation succeeds and the spreadsheet opens |
| SheetGenerator.SheetWriter.EnsureWorksheetsExist | backend/app/core/sheet_generator.py:78-125 | the loop leaves the worksheets as `EnsureAll` over the configuration, with the existing titles read once |
| SheetGenerator.SheetWriter.EnsureWorksheet | backend/app/core/sheet_generator.py:109-125 | one pass of that loop |
| SheetGenerator.SheetWriter.WriteRow | backend/app/core/sheet_generator.py:147-149 | a writer appends its row below the used range of that worksheet alone |
| SheetGenerator.SheetWriter.WriteToSheet | backend/app/core/sheet_generator.py:53-72 | an unready writer raises and writes nothing; otherwise the worksheets are ensured, the three rows appended and the URL returned |
| SheetGenerator.Written | backend/app/core/sheet_generator.py:60-67 | definition of the worksheets after the writes up to the advisors; `SheetWriter.WriteToSheet` states that the method leaves them |
| SheetGenerator.SheetWriter.Ready | backend/app/core/sheet_generator.py:57 | definition of the guard `self.gc and self.spreadsheet`; `SheetWriter.constructor` and `SheetWriter.WriteToSheet` state when it holds and what it decides |
| Config.ParseDebug | backend/app/config.py:20 | DEBUG is on exactly when it is set to "true" in any case |
| Config.DebugValues | backend/app/config.py:20 | unset, "False" and "1" leave it off; "TRUE", "True" and "true" turn it on |
| Config.Load | backend/app/config.py:7-25 | each of the five optional settings is the environment value, or None when unset; DEBUG is on exactly when it lower-cases to "true"; each model name is its variable when set and its default otherwise |
| Config.GetEnv | backend/app/config.py:9-25 | `os.getenv(name)`: the value when the variable is set, else None; `Load` states each setting through it |
| Config.MissingNames | backend/app/config.py:36-39 | no more names are missing than are required |
| Config.Present | backend/app/config.py:38 | Python truthiness of a setting: neither None nor ""; `MissingIsOrdered` states that exactly the others are listed |
| Config.Required | backend/app/config.py:30-34 | the three required names with their values, in order; `CredentialsNotRequired` states that the credentials paths are not among them |
| Config.MissingIsOrdered | backend/app/config.py:30-39 | a name is listed exactly when its value is None or "", in the fixed order |
| Config.Missing | backend/app/config.py:30-39 | definition of the `missing_configs` list; `MissingNames` and `MissingIsOrdered` state its contents |
| Config.Validation | backend/app/config.py:28-44 | definition of `validate_config`'s outcome; `ValidationPassesIff`, `CredentialsNotRequired`, `OnlyProjectMissing` and `NothingSet` state its meaning |
| Config.ValidationPassesIff | backend/app/config.py:28-44 | validation passes exactly when all three required values are present |
| Config.CredentialsNotRequired | backend/app/config.py:30-34 | neither credentials path affects validation |
| Config.OnlyProjectMissing | backend/app/config.py:41-42 | with only the project missing, the message names it alone |
| Config.NothingSet | backend/app/config.py:41-42 | with nothing set, the message lists the three names, comma-separated, in order |
| Config.ValidateConfig | backend/app/config.py:28-44 | the loop and the raise give `Validation` |
| Text.Lower | backend/app/core/classifier.py:78 | `lower()` maps each upper-case ASCII letter to lower case and keeps every other character |
| Text.LowerIdempotent | backend/app/core/classifier.py:78 | lower-casing twice is lower-casing once |
| Text.Strip | backend/app/core/document_processor.py:124 | `strip()` leaves no whitespace at either end |
| Text.StripIdempotent | backend/app/core/ai_orchestrator.py:166 | stripping twice is stripping once |
| Text.StripPadded | backend/app/core/ai_orchestrator.py:166 | `strip()` removes exactly the whitespace around a trimmed core |
| Text.ContainsIffOccurs | backend/app/core/classifier.py:161 | `sub in s` holds exactly when `sub` occurs at some index |
| Text.CountPositiveIffContains | backend/app/core/classifier.py:88 | a term is counted at least once exactly when it occurs |
| Text.CountFits | backend/app/core/classifier.py:88 | the counted occurrences do not overlap |
| Text.ReplaceAllShrinks | backend/app/core/document_processor.py:133 | replacing by something shorter shortens the text whenever there is a match |
| Text.ReplaceAllAbsent | backend/app/core/document_processor.py:132-133 | without an occurrence, `replace` changes nothing |
| Text.Split | backend/app/core/document_processor.py:120 | `split` gives at least one part, none containing the separator |
| Text.JoinSplit | backend/app/core/document_processor.py:120-129 | joining the parts of `split` with the separator gives the text back, so splitting loses no character |
| Text.SplitJoin | backend/app/core/document_processor.py:120-129 | splitting undoes joining when no part contains the separator |
| Text.JoinNoAdjacent | backend/app/core/document_processor.py:129 | joining non-empty parts never puts two separators side by side |
| Text.NoTripledFromNoDoubled | backend/app/core/document_processor.py:132 | a text without `\n\n` has no `\n\n\n` |
| Text.Count | backend/app/core/classifier.py:88 | definition of `str.count`, non-overlapping and left to right; `CountPositiveIffContains` and `CountFits` state its meaning |
| Text.Contains | backend/app/core/classifier.py:161 | definition of `sub in s`; `ContainsIffOccurs` states its meaning |
| Text.ReplaceAll | backend/app/core/document_processor.py:133 | definition of `str.replace`; `ReplaceAllShrinks` and `ReplaceAllAbsent` state its effect |
| Text.Join | backend/app/core/document_processor.py:129 | definition of `sep.join(parts)`; `SplitJoin`, `JoinSplit` and `JoinNoAdjacent` state how it relates to `split` |
| Text.Take | backend/app/core/ai_orchestrator.py:235-236 | `s[:n]` is a prefix of length `min(n, len(s))` |
| Text.DigitsAndDots | backend/app/core/ai_orchestrator.py:221 | the kept characters are digits and full stops only |
| Text.DigitsAndDotsOfKept | backend/app/core/ai_orchestrator.py:221 | a string of digits and full stops passes unchanged |
| Text.DigitsAndDotsAppend | backend/app/core/ai_orchestrator.py:221 | the filter distributes over concatenation |
| Text.DigitsOnly | backend/app/core/ai_orchestrator.py:236 | the kept characters are digits only |
| Text.WordCharsOnly | backend/app/core/ai_orchestrator.py:235 | the kept characters are word characters only |
| JsonValue.PyStr | backend/app/core/ai_orchestrator.py:221 | `str()` of a string is the string, and of a natural number its digits |
| JsonValue.Get | backend/app/core/sheet_generator.py:132 | `d.get(key, default)` |
| JsonValue.Truthy | backend/app/core/ai_orchestrator.py:191 | definition of Python truthiness of a parsed value; `Extraction.ValidateDatesCell`, `Extraction.ValidateMonetaryCell` and `Extraction.DealIdFallback` state what it decides |
| JsonValue.TypeName | backend/app/core/ai_orchestrator.py:160 | definition of the type name in a TypeError message; `Extraction.MergeScalarRaises` states the message it gives |
| Timestamps.IsoFormat | backend/app/core/ai_orchestrator.py:62 | `isoformat()` is 19 characters, or 26 with microseconds, with its separators in place |
| Timestamps.Compact | backend/app/core/ai_orchestrator.py:240 | `strftime('%Y%m%d_%H%M%S')` is eight digits, an underscore and six digits |

## Left out

- Text holds ASCII only. Python's `lower`, `strip` and `\w` are Unicode-aware; case folding outside ASCII, Unicode whitespace and Unicode word characters are not modelled.
- Confidence percentages are Dafny reals. Python's floating-point rounding is not modelled.
- `str()` of a float, list or dict is a parameter (`render`). CPython's repr algorithms are not modelled.
- The OpenAI client, `json.loads` and the prompt's exact text are not modelled. They are parameters, and the prompt is modelled by what it is built from (`Prompt`). The system message, model name, temperature and `max_tokens` play no part in the result.
- pdfplumber, PyMuPDF, Google Vision and the file system are not modelled: each reader is given its per-page results. Rendering pages to PNG is not modelled. The OCR error log line has no effect and is not modelled.
- The gspread client, credentials and network are not modelled. Cell formatting and the `cols` argument of `add_worksheet` are not modelled: the model is a grid of rows.
- `_write_power_plant_details` and `_write_metadata` are not part of this model: their text is cut off at line 190 of `sheet_generator.py`.
- SheetGenerator.SheetWriter.WriteToSheet: covers the writes up to the advisors only, because the last two writers' text is missing. An exception raised inside the worksheet writes is not modelled.
- `datetime.now()` is not modelled. Each reading takes a parameter (`processedAt`, `idAt`, the constructor's `now`).
- Logging is not modelled: it has no effect on results.
- DocumentProcessor.DocumentProcessor.constructor: does not model the write to `os.environ['GOOGLE_APPLICATION_CREDENTIALS']` at line 23 of `document_processor.py`. That is a process-wide side effect that the model has no environment for; only whether a client exists is modelled.
- `get_document_metadata` in `document_processor.py` is not modelled. It is outside the core, and reads only PDF metadata through PyMuPDF.
- `load_dotenv`, `MAX_FILE_SIZE_MB` (an `int()` parse that can raise at import) and the import-time validation printout in `config.py` are not modelled. The environment is a parameter.
- Python's error wording is that of Python 3.11 (`argument of type 'int' is not iterable`). Other versions differ.
- The `except` clauses of `classify_document`, `get_classification_confidence` and `extract_key_indicators` are not modelled. Nothing in their bodies can raise on a string argument.
- The `except` of `extract_text` is not modelled. Every reader catches its own errors, so the re-raise cannot be reached from the pages.
- AiOrchestrator.DeepCopy: copies a dict of section dicts, which is all `copy.deepcopy` meets here. It is not a generic deep copy.
- SheetGenerator.UsedRows: counts a row as blank when every cell is "" or null. Sheets' treatment of other invisible values is not modelled.
- SheetGenerator.Spreadsheet.InsertRow: requires an index no greater than the row count plus one. gspread's behaviour beyond the grid is not modelled; the writers never use such an index.

## Findings

| source | as written | input that shows it | evidently intended | confidence | as-written member | corrected member |
|---|---|---|---|---|---|---|
| backend/app/core/ai_orchestrator.py:108,152,156 | `self.mna_schema.copy()` is shallow. Cleaning writes into the template's own section dicts, so one document's values (and any `extraction_error`) carry over into the next document's result | first reply `{"deal_summary": {"buyer": "Acme"}}`, second reply `{}`: the second result has buyer "Acme" | each document starts from the schema as constructed (a deep copy); fields the reply omits are "" | not executed | AiOrchestrator.SecondDocumentInheritsBuyer | AiOrchestrator.FreshOmittedSectionIsEmpty |
| backend/app/core/sheet_generator.py:131-132,157-158,176-177 | the Deal ID column is read with `data.get("deal_id", "")` from the section itself, which never has that field | any successful extraction: `metadata.deal_id` is e.g. "DEAL_AcmePowerC_20240315", yet the Deal Summary, Financials and Advisors rows start with "" | the Deal ID column holds the metadata's deal ID (the comment at line 158 says so) | not executed | SheetGenerator.DealIdColumnIsLost | SheetGenerator.RowWithDealIdCarriesId |
