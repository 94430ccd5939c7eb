# Executive decision reports: verified model

This project models the parts of the executive decision report service (`apps/edr`) that carry real
state, loops and arithmetic, and proves what they promise. `dafny verify dfyconfig.toml` checks it.

What is modelled, file by file:

- **Odoo batched scan** (`OdooScan`, `ScanSession`, `ScanSnapshot`, `ScanRuns`, with `OdooScanLaws`
  and `ScanSessionLaws`). A source is counted and then sampled page by page with a resume cursor,
  under page, sample and time limits; a session scans many sources and can be retried, live or from
  a stored snapshot. The server is a table per source plus a script of replies: each call answers,
  raises or stays silent, after any delay, and each progress save takes any time. The world keeps the
  history of the reads issued. A worker may be lost at any point of a run: each stored snapshot is
  judged by the reads made when it was emitted.
- **Report drafting** (`Finance`, `Answers`, `Citations`, `Drafting`, `DraftReport`, with
  `FinanceLaws`, `AnswerLaws`, `CitationLaws`, `DraftingLaws`, `QuotationLaws`, `BuiltLaws`,
  `GroundingLaws`, `RebuiltLaws`, `GateLaws`, `SummaryLaws`, `SourceLaws`, `DraftLimits`). Whatever the drafting model returned is corrected, remapped, accepted
  or rebuilt, corrected again, and published as the draft report. A draft may hold any sections
  (missing, lists, other iterables, numbers or null), any items (objects or not), any citations (a
  string, a list, nested lists, nulls), claim texts that are no strings, snapshot amounts that are
  null, numbers or anything else, evidence ids that are null, strings or lists, and a
  management_question_answer that is missing, no object, or an object whose texts and bullets are
  strings or not. Where the program raises on such a value, the model says so. `Drafting`
  says what the node computes; `DraftReport` is the report object that the node updates in place,
  proved to compute the same.
- **Daily cost guard** (`CostGuard`). Checking and recording are separated by an await, so calls
  interleave; a run is any sequence of starts, completions, failures and midnights.
- **Retrieval** (`Coverage`, `RetrievalNodes`, `OdooNode`, `OdooNodeLaws`, `RetrievalLaws`) and
  **deduplication** (`Dedup`).
- **Review life cycle and CSV export** (`Review`, `Csv`).

A file that the program writes as loops over mutable state is modelled twice: as methods and classes
with those loops and fields, and as the functions they are proved equal to. The laws are about the
functions. The table names both.

Where the code and what it says about itself differ, the model follows the code. These are the
differences, each with the member that states it:

- A rescan that fails, times out or finds nothing throws away the resume cursor it was given, because
  only a scan that paged stores one: exactly when is told from the mapping and the server's replies
  (`OdooScanLaws.RescanLosesCursorIff`, with one such input in
  `OdooScanLaws.UnansweredCountLosesCursor`). Cursors stay sound but progress is lost.
- A retry that selects no source leaves the session as it is, so when a worker is lost just before the
  final snapshot of a scan, the stored copy stays `running` for good
  (`ScanSessionLaws.FinishedButRunningIsStuck`, `ScanRuns.LostBeforeTheEndIsStuck`).
- The retrieval node for Odoo keeps its 50 s budget up to its coverage record; the indexing that
  follows it has no timeout (`OdooNodeLaws.NodeEndsInTime`). The progress saves of a scan have none
  either (`ScanSessionLaws.SessionEndsInTime`).
- The remap moves a correct citation to another document when two documents share a title
  (`DraftLimits.SharedTitleMovesCitation`); exactly when a citation moves is
  `CitationLaws.CitationMovesIff`, and in an unambiguous pack a correctly described one never does
  (`CitationLaws.CorrectCitationStays`).
- An executive summary written from findings whose `evidence_ids` is a bare string cites the
  characters of that string (`DraftLimits.BareStringIsQuotedByCharacter`); a nested list makes the
  node raise (`DraftLimits.NestedListRaises`). Both drafts pass validation, which flattens first.
- An accepted draft can still make the node raise: by an amount that is no number, by an available
  actual cost that cites a list, by an executive answer that is null, or, on a management question, by
  a text of the answer that is no string (`DraftLimits.TextualCostRaises`,
  `DraftLimits.ListedCostRaises`, `DraftLimits.UnmeasuredAnswerRaises`,
  `DraftLimits.NumberAsDecisionRaises`); exactly when the node raises is
  `GroundingLaws.ReportIsProducedIff`.
- A report over retrieved evidence can end with an empty summary, to which the quality gate objects: an
  accepted draft with neither summary nor findings (`DraftLimits.CauseAloneLeavesNoSummary`), and a
  report rebuilt from a cost line without an amount (`DraftLimits.BareCostLineLeavesNoSummary`).
  Exactly when, for every draft, is `SummaryLaws.FinalSummaryIff`.
- The deterministic builder withholds the actual cost from a caller without the right to see it, and
  the corrections that follow write it back: the right changes no report
  (`RebuiltLaws.RightsChangeNothing`).
- A salary report over an empty pack ends with a recommendation that cites nothing
  (`DraftLimits.SalaryOverNothingIsUngrounded`).
- A draft that writes a snapshot figure the node does not extract keeps it, with any id
  (`FinanceLaws.InventedFigureSurvives`, `FinanceLaws.EveryFigureIsBackedIff`), and a draft's own
  actual cost can survive when there are no cost lines, so that the summary and the snapshot quote
  different totals (`FinanceLaws.TwoTotalsAgreeIff`, `FinanceLaws.TwoTotalsDiffer`).
- `cancelled` and `rejected`, which the cancel handler calls terminal, both still lead to `final`, and
  an ordinary approval ignores a failed quality gate (`Review.OnlyFinalIsAbsorbing`,
  `Review.WayToFinal`). Rejections are stored under the label "approve"; the approval log is right all
  the same (`Review.AlwaysConsistent`).
- Per-model costs are not cleared at midnight, only the daily figure is (`CostGuard.ModelCostsConserved`).

## Model

| member | source | states |
|---|---|---|
| OdooScan.ReadSample | apps/edr/admin/odoo_scan_session.py:333-381 | The paging loop with its four exits (budget or target reached, deadline, short page, timeout or exception) leaves exactly the cursor, exit and server state of the recursive definition. |
| OdooScan.ScanOneSource | apps/edr/admin/odoo_scan_session.py:232-391 | One scan on every path (unmapped, count failed, empty, legacy page, counted sample) leaves exactly the defined record and server state. |
| OdooScan.ScanSample | apps/edr/admin/odoo_scan_session.py:333-391 | The counted path: totals are authoritative, a failure before the first page stores no cursor, a later one stores a partial record. |
| OdooScan.ScanLegacyPage | apps/edr/admin/odoo_scan_session.py:296-331 | The legacy path: one page at offset 0, capped when it fills. |
| OdooScanLaws.PagesAreContiguous | apps/edr/admin/odoo_scan_session.py:341-381 | The reads issued are consecutive full-size pages from the cursor on, followed by at most one that brought nothing. |
| OdooScanLaws.ScanKeepsCursorSound | apps/edr/admin/odoo_scan_session.py:232-391 | Any scan turns a sound cursor into a sound one: next_offset is page size times pages done, and every row below it was returned by a read. |
| OdooScanLaws.RescanLosesCursorIff | apps/edr/admin/odoo_scan_session.py:253-381 | A rescan's cursor falls below the prior one exactly when the source is unmapped, the count fails or is zero, the legacy page fails or ends before the cursor, or the first page of the sample is asked for and fails. |
| OdooScanLaws.UnansweredCountLosesCursor | apps/edr/admin/odoo_scan_session.py:265-283 | A record that stood at row 300 restarts at row 0 when the count goes unanswered. |
| OdooScanLaws.ScanEndsInTime | apps/edr/admin/odoo_scan_session.py:265-283 | Every scan ends within max(source timeout, batch timeout) plus one batch timeout, whatever the server does, and duration_ms is the time it took. |
| OdooScanLaws.UndisturbedPageCount | apps/edr/admin/odoo_scan_session.py:341-381 | Without failure or deadline the loop issues exactly the number of pages that target, budget and remaining rows call for. |
| OdooScanLaws.CompletedScanIsOneRead | apps/edr/admin/odoo_scan_session.py:333-391 | A counted scan that completes, from any cursor and with any counted total, read pages that together are one read of the rows from the cursor on. |
| OdooScanLaws.FreshScanReadsThePrefix | apps/edr/admin/odoo_scan_session.py:333-391 | A first scan with an exact count issues ceil(min(total, sample target) / page size) reads and returns exactly that prefix of the table. |
| OdooScanLaws.HealthyScanCompletes | apps/edr/admin/odoo_scan_session.py:232-391 | Against a backend that counts, always answers within d, and has time for the pages one sample needs, every scan ends unmapped, empty or completed, from any prior cursor. |
| OdooScanLaws.DefaultsAreHealthy | apps/edr/admin/odoo_scan_session.py:85-89 | With the shipped limits every backend that counts and answers in less than 15 s is healthy. |
| ScanSession.LiveSession.ScanNext | apps/edr/admin/odoo_scan_session.py:463-496 | One source: marked running with its cursor, scanned, stored, count support learned; both snapshots as defined. |
| ScanSession.LiveSession.RunScan | apps/edr/admin/odoo_scan_session.py:440-503 | A run over any list of sources leaves the session, the server and the emitted snapshots exactly as defined. |
| ScanSession.LiveSession.Conclude | apps/edr/admin/odoo_scan_session.py:498-502 | The end of a run: overall state, finish time and summary. |
| ScanSession.LiveSession.RetryScan | apps/edr/app.py:3070-3148 | A retry selects, requeues and rescans as defined, and does nothing when nothing is selected. |
| ScanSession.LiveSession.Requeue | apps/edr/app.py:3118-3126 | Requeued sources keep only their key and cursor. |
| ScanSessionLaws.SessionEndsInTime | apps/edr/admin/odoo_scan_session.py:431-503 | A session takes at most the number of sources times the bound of one scan, plus the time of its 2n+2 progress saves, which nothing bounds. |
| ScanSessionLaws.ScanSettles | apps/edr/admin/odoo_scan_session.py:232-391 | A scan always returns a settled record for its own key. |
| ScanSessionLaws.SessionRun | apps/edr/admin/odoo_scan_session.py:440-503 | Exactly 2n+2 snapshots, at most one source running in each, done never decreases, unselected sources untouched, all settled at the end, and the final state decided by the mapped statuses. |
| ScanSessionLaws.EndState | apps/edr/admin/odoo_scan_session.py:399-410 | Once all is settled the overall state is completed, failed or partial exactly as the mapped statuses say. |
| ScanSessionLaws.HealthyRetryEnd | apps/edr/app.py:3109-3142 | After an incomplete retry against a healthy backend every selected source the registry knows is done and every other one is untouched. |
| ScanSessionLaws.RetryConverges | apps/edr/admin/odoo_scan_session.py:538-542 | One incomplete retry against a healthy backend ends in completed if and only if it selected something the registry still knows and no record is not_scanned, or had nothing to do. |
| ScanSessionLaws.FinishedButRunningIsStuck | apps/edr/app.py:3109-3116 | A session whose sources are all done but whose state is running is changed by no retry. |
| ScanSnapshot.RecordRoundTrip | apps/edr/admin/odoo_scan_session.py:121-127 | Reading a record's dictionary gives back the record. |
| ScanSnapshot.SnapshotRoundTrip | apps/edr/admin/odoo_scan_session.py:158-187 | Restoring a snapshot gives back the session, for any sources and cursors. |
| ScanRuns.StepKeepsSound | apps/edr/app.py:3088-3142 | A full scan, a live retry, a retry of any stored snapshot, a worker lost at any point of one of these, or a restart keeps every cursor sound, live and stored. |
| ScanRuns.CursorsAreAlwaysSound | apps/edr/admin/odoo_scan_session.py:232-503 | Over every run of such steps, every cursor in the live session and in every stored snapshot is backed by reads really made. |
| ScanRuns.EveryEmissionIsSound | apps/edr/admin/odoo_scan_session.py:431-503 | After any such run, every snapshot any request emits is sound by the reads made when it was emitted. |
| ScanRuns.RestoredRetryIsTheSame | apps/edr/app.py:3101-3109 | Retrying the stored copy of a session does what retrying the live one does. |
| ScanRuns.LostBeforeTheEndIsStuck | apps/edr/app.py:3101-3116 | A worker lost just before the final snapshot of a healthy full scan leaves as its newest copy a `running` session that no retry of it moves. |
| CostGuard.EstimateIsMonotone | apps/edr/llm.py:264-266 | A call within its token estimates costs no more than its cost estimate. |
| CostGuard.CostTracker.CheckBudget | apps/edr/llm.py:218-226 | Passes exactly when today's cost plus the estimate is below the cap, after the daily reset. |
| CostGuard.CostTracker.RecordCost | apps/edr/llm.py:228-233 | Adds the cost to today's figure and to its model, after the daily reset. |
| CostGuard.CostTracker.RecordTokens | apps/edr/llm.py:235-239 | Adds the tokens to one request and touches no other. |
| CostGuard.OverspendBound | apps/edr/llm.py:399-443 | If costs stay within estimates of at most c and at most k calls are in flight, today's cost plus everything in flight stays strictly below cap + (k-1)c over every run. |
| CostGuard.OneAtATimeStaysBelowCap | apps/edr/llm.py:399-443 | Calls made one at a time never reach the cap. |
| CostGuard.OverspendBoundIsTight | apps/edr/llm.py:399-443 | Every level below cap + (k-1)c is exceeded by some admissible run. |
| CostGuard.UntrustedSpendBound | apps/edr/llm.py:399-443 | Even when costs exceed their estimates, today's cost stays below cap + k times the largest cost. |
| CostGuard.ModelCostsConserved | apps/edr/llm.py:228-233 | Over every run the per-model costs add up to every cost ever recorded. |
| Coverage.DecisionState.Record | apps/edr/graph/coverage.py:25-43 | Recording replaces one source's entry and no other. |
| Coverage.SummaryMeaning | apps/edr/graph/coverage.py:46-92 | The summary's flags and its three lists in terms of the entries, both ways. |
| Coverage.NothingIsSkippedSilently | apps/edr/graph/coverage.py:46-92 | After the three nodes every source has a record, no enabled one is skipped without a documented reason, and full means some source is enabled and every enabled one contributed. |
| Coverage.EvidenceIsConserved | apps/edr/graph/coverage.py:25-43 | The evidence held from a source is exactly what its record claims. |
| RetrievalNodes.RunSharePoint | apps/edr/graph/node_05_sharepoint.py:70-153 | The term loop appends and records exactly what is defined, on every path. |
| RetrievalNodes.TermsTriedInOrder | apps/edr/graph/node_05_sharepoint.py:93-114 | Terms are tried in order up to the first that raises or leaves something after screening. |
| RetrievalNodes.SharePointIsAccounted | apps/edr/graph/node_05_sharepoint.py:70-153 | The record counts what was appended on every path; at most three terms are tried, six for financial reports. |
| RetrievalNodes.RunEmail | apps/edr/graph/node_07_email.py:62-172 | The group path, the own-mailbox path and the denial paths append and record exactly what is defined. |
| RetrievalNodes.EmailIsAccounted | apps/edr/graph/node_07_email.py:62-172 | The record counts what was appended on every path, and the own mailbox is read only for an allow-listed, permitted caller. |
| RetrievalNodes.ScreenWorksById | apps/edr/graph/node_07_email.py:37-44 | The financial screen keeps exactly the records that share an id with one that passes the policy. |
| OdooNode.OdooClient.ReadRetrying | apps/edr/graph/node_08_odoo.py:115-158 | One read, and one more after a failure that was no timeout if a full attempt still fits. |
| OdooNode.OdooClient.RetrieveExtended | apps/edr/graph/node_08_odoo.py:161-233 | The extended loop appends, counts and stops exactly as defined. |
| OdooNode.OdooClient.Run | apps/edr/graph/node_08_odoo.py:236-376 | The whole node, with its indexing, leaves the evidence, the record and the clock exactly as defined, on every path. |
| OdooNodeLaws.RetrievalEndsInTime | apps/edr/graph/node_08_odoo.py:62-66 | Every read and sleep up to the coverage record ends within the 50 s budget whatever the server does. |
| OdooNodeLaws.NodeEndsInTime | apps/edr/graph/node_08_odoo.py:236-376 | Every read and sleep, and the coverage record, come within the 50 s budget whatever the server does; the node ends then, or later by exactly the time its indexing takes. |
| OdooNodeLaws.RetryDiscipline | apps/edr/graph/node_08_odoo.py:115-158 | No read without time, at most two, the second only after a failure that was no timeout, begun when one backoff begun at that failure ends, and with its full timeout. |
| OdooNodeLaws.ExtendedBalances | apps/edr/graph/node_08_odoo.py:161-233 | The total is the rows appended and the sum of the per-source counts; each count is the rows of that source; every source looked at has a count and a status. |
| OdooNodeLaws.OdooIsAccounted | apps/edr/graph/node_08_odoo.py:236-376 | The node's record counts what was appended on every path and never hides a skip. |
| RetrievalLaws.RetrievalIsAccounted | apps/edr/graph/coverage.py:46-92 | The three retrieval nodes in a row, for every query, reply, failure and delay: every source has a record, records count the evidence held at that point, no silent skip, and full means what it says. |
| Dedup.HashPass | apps/edr/graph/node_09_normalize.py:29-43 | The dictionary loop computes the defined dictionary, in first-occurrence order. |
| Dedup.TitlePass | apps/edr/graph/node_09_normalize.py:45-63 | The title loop keeps the first item of each title key and every item without one. |
| Dedup.DecisionState.Normalize | apps/edr/graph/node_09_normalize.py:26-69 | The node replaces the evidence by its deduplication and counts what it kept and removed. |
| Dedup.GroupRepresentative | apps/edr/graph/node_09_normalize.py:31-43 | Each hash group is represented by its earliest item of greatest source priority. |
| Dedup.GroupsInOrder | apps/edr/graph/node_09_normalize.py:31-43 | Groups stand in the order of their first occurrence. |
| Dedup.DedupMeetsItsSpecification | apps/edr/graph/node_09_normalize.py:26-69 | The result has unique hash keys, unique type and title pairs, and only group representatives. |
| Dedup.DroppedOnlyForATitle | apps/edr/graph/node_09_normalize.py:45-63 | A representative is missing only because an earlier kept one has its type and title. |
| Dedup.KeptInOrderOfGroups | apps/edr/graph/node_09_normalize.py:26-69 | What is kept stands in the order in which its groups open in the evidence. |
| Dedup.DedupIsIdempotent | apps/edr/graph/node_09_normalize.py:26-69 | Running the node twice changes nothing. |
| Review.StoredReport.PublishNode | apps/edr/graph/node_17_publish.py:28-110 | Publishing turns an approved report final and credits the newest approval row, as far as the stores allow. |
| Review.StoredReport.ApproveReport | apps/edr/app.py:1411-1470 | The approval endpoint answers and changes the report exactly as defined. |
| Review.StoredReport.RejectReport | apps/edr/app.py:1472-1504 | The rejection endpoint answers and changes the report exactly as defined. |
| Review.StoredReport.RequestRevisionOf | apps/edr/app.py:1506-1543 | The revision endpoint answers and changes the report exactly as defined. |
| Review.StoredReport.CancelReport | apps/edr/app.py:1241-1310 | The cancel endpoint answers and changes the report exactly as defined. |
| Review.StoredReport.AdminOverride | apps/edr/app.py:3678-3779 | Both admin overrides answer and change the report exactly as defined. |
| Review.AlwaysConsistent | apps/edr/app.py:1411-1543 | Over every run a report is approved or final exactly when the latest accepted call was an approval, decision rows mirror the accepted calls, and the approval log only names someone who approved. |
| Review.DownloadOnlyAfterApproval | apps/edr/app.py:1546-1607 | Nothing is downloadable behind a failed gate, and an approval-required report only while its latest accepted call is an approval. |
| Review.FixedOverRuns | apps/edr/app.py:1241-1310 | Gate, approval requirement and requester never change, and accepted calls are never forgotten. |
| Review.FinalStays | apps/edr/app.py:1411-1543 | No sequence of calls changes a final report, but for the approval log, which a later publication can set to the newest approval. |
| Review.OnlyFinalIsAbsorbing | apps/edr/app.py:1241-1310 | Final is the only state that no sequence of calls leaves. |
| Review.WayToFinal | apps/edr/app.py:1411-1543 | From every state two calls reach final, whatever the gate says. |
| Review.OverrideRespectsGate | apps/edr/app.py:3678-3734 | The admin override is accepted exactly for an admin other than the requester, on an undecided report whose gate has not failed. |
| Csv.ExportAuditCsv | apps/edr/app.py:2211-2256 | The export loop writes the header and every row of the table. |
| Csv.FieldRoundTrip | apps/edr/app.py:2252-2256 | Whatever a field holds, a quoted-field reader takes it back whole and stops at its separator. |
| Csv.CsvRoundTrip | apps/edr/app.py:2211-2256 | Reading an export (section 2 of RFC 4180, with bare line feeds) gives back exactly the table. |
| Csv.ExportIsInjective | apps/edr/app.py:2211-2256 | No two tables export to the same text. |
| Finance.ComputeCategory | apps/edr/graph/node_12_draft_json.py:675-708 | The category loop computes the defined sum with the first id that backs it. |
| Finance.ExtractOdooContext | apps/edr/graph/node_12_draft_json.py:147-242 | The extraction loops compute the defined context. |
| FinanceLaws.TotalIsTheSumOfItsParts | apps/edr/graph/node_12_draft_json.py:759-770 | The total incurred is exactly the sum of the absolute values of the available actual, payroll and expense costs, for every draft on which no pass raises. |
| FinanceLaws.CommittedNeverCounts | apps/edr/graph/node_12_draft_json.py:755-770 | Changing the committed cost changes no other figure, total or variance. |
| FinanceLaws.VarianceIsEstimateMinusSpend | apps/edr/graph/node_12_draft_json.py:783-819 | A variance that is worked out is the estimate minus the spend its formula names and cites the ids of the two; one that is not worked out is the draft's own. |
| FinanceLaws.EveryFigureIsBackedIff | apps/edr/graph/node_12_draft_json.py:589-819 | After enforcement every available figure carries an id of the pack if and only if no figure of the draft's own survives without one. |
| FinanceLaws.PromptedDraftsAreBacked | apps/edr/graph/node_12_draft_json.py:589-819 | For drafts of the prompted shape every available figure carries an id of the pack. |
| FinanceLaws.ActualCostIsBacked | apps/edr/graph/node_12_draft_json.py:604-647 | For every draft the actual cost is backed or demoted, and no budget is claimed. |
| FinanceLaws.InventedFigureSurvives | apps/edr/graph/node_12_draft_json.py:659-664 | A draft's invented contract value is kept with its unknown id. |
| FinanceLaws.EnforcementIsIdempotent | apps/edr/graph/node_12_draft_json.py:589-819 | Running both passes again changes nothing, for every snapshot. |
| FinanceLaws.EnforcedIs | apps/edr/graph/node_12_draft_json.py:589-819 | What both passes leave, and exactly when they raise, told from the figures of the draft and of the extraction. |
| FinanceLaws.TextualPartRaises | apps/edr/graph/node_12_draft_json.py:763-767 | A payroll cost written as text makes the second pass raise wherever none is extracted. |
| FinanceLaws.TextualActualCostRaises | apps/edr/graph/node_12_draft_json.py:763-767 | So does an actual cost written as text under a known id, over a pack without cost amounts. |
| FinanceLaws.ListedActualCostRaises | apps/edr/graph/node_12_draft_json.py:641-647 | An available actual cost whose id is a list makes the first pass raise over such a pack. |
| FinanceLaws.TwoTotalsAgreeIff | apps/edr/graph/node_12_draft_json.py:165-217 | The total quoted in the summary and the one in the snapshot agree exactly when the analytic lines gave an amount or no draft figure took their place. |
| FinanceLaws.TwoTotalsDiffer | apps/edr/graph/node_12_draft_json.py:165-217 | They differ for a draft that quotes a cost of its own over a pack with a project record only. |
| FinanceLaws.TotalsIgnoreOrder | apps/edr/graph/node_12_draft_json.py:165-217 | Reordering the Odoo rows changes no incurred figure of the extraction, neither its total nor the one recomputed in the snapshot of a prompted draft. |
| AnswerLaws.EnrichedIff | apps/edr/graph/node_12_draft_json.py:1078-1184 | Completing the answer to a management question raises exactly when one of its texts is a truthy value that is no string, or of three bullets or more one that is no string comes before any genuine one. |
| AnswerLaws.EnrichedIsComplete | apps/edr/graph/node_12_draft_json.py:1078-1184 | Otherwise every text of it ends non-blank, the main ones no example, there are three notes or bullets with a genuine one, and the evidence named is that of the first finding. |
| AnswerLaws.EnrichmentKeepsTexts | apps/edr/graph/node_12_draft_json.py:1119-1181 | Every text of the draft that says something is kept in its place, and all else becomes a note. |
| AnswerLaws.EnrichmentIsIdempotent | apps/edr/graph/node_12_draft_json.py:1078-1184 | Completing a completed answer changes nothing. |
| CitationLaws.SyntheticLeadsToPack | apps/edr/graph/node_12_draft_json.py:1669-1704 | Invented ids are replaced by ids of the pack only. |
| CitationLaws.CitationMovesIff | apps/edr/graph/node_12_draft_json.py:1684-1717 | A remap moves a citation exactly when some source entry labelled with its id resolves, by title and then by reference, to another id. |
| CitationLaws.CorrectCitationStays | apps/edr/graph/node_12_draft_json.py:1684-1717 | In a pack with unambiguous titles and URIs a citation whose source entries describe it correctly stays. |
| CitationLaws.RemapKeepsGrounding | apps/edr/graph/node_12_draft_json.py:1706-1728 | Remapping sends a report that cites only known ids to one that does, and back when it renames only known ids. |
| CitationLaws.RemapRebuildsSources | apps/edr/graph/node_12_draft_json.py:1730-1767 | Whenever a remap rewrites anything, the sources are exactly the evidence cited by a claim or the actual cost, each once. |
| CitationLaws.RemapLeavesOnlyKnownSources | apps/edr/graph/node_12_draft_json.py:1657-1767 | After a remap the only ids left to rename are ids of the pack. |
| CitationLaws.RemapTwice | apps/edr/graph/node_12_draft_json.py:1657-1767 | With unambiguous titles and URIs a second remap changes nothing. |
| DraftingLaws.BasicSummaryIsGrounded | apps/edr/graph/node_12_draft_json.py:1240-1327 | The deterministic summary cites something, and only retrieved evidence. |
| DraftingLaws.FindingsGroundedIff | apps/edr/graph/node_12_draft_json.py:926-1008 | The findings of a financial report are grounded exactly when its snapshot cites known ids. |
| DraftingLaws.EnforcedCitesIff | apps/edr/graph/node_12_draft_json.py:589-1008 | After both passes the snapshot cites known ids only, and its findings can be written, exactly when the figures extracted or kept, and a kept variance, allow it. |
| QuotationLaws.SummaryWrittenIff | apps/edr/graph/node_12_draft_json.py:1830-1866 | The summary of last resort can be written exactly when it is not needed, or its first three findings are objects without nested lists. |
| QuotationLaws.SummaryGroundedIff | apps/edr/graph/node_12_draft_json.py:1830-1866 | Filling an empty summary keeps a grounded report grounded exactly when no bare string among its first three findings brings an unknown character to the five ids quoted. |
| BuiltLaws.BuiltIsSound | apps/edr/graph/node_12_draft_json.py:1508-1654 | The deterministic report cites only retrieved evidence, in flat lists, in every claim. |
| BuiltLaws.EnforcementStaysTame | apps/edr/graph/node_12_draft_json.py:589-819 | From a snapshot of numbers and known ids neither pass raises, and such a snapshot is left, whose findings can be written. |
| GroundingLaws.ValidClaimsAreGrounded | apps/edr/graph/node_12_draft_json.py:1047-1075 | A draft that passes validation cites only known ids. |
| GroundingLaws.RebuiltEndsSound | apps/edr/graph/node_12_draft_json.py:2071-2117 | A rebuilt report ends grounded and in flat lists, and no correction of it raises. |
| GroundingLaws.ReportIsProducedIff | apps/edr/graph/node_12_draft_json.py:1874-2135 | For every draft and request the node produces a report instead of raising exactly when the draft's own snapshot, sections, sources, claims and executive answer allow it. |
| GroundingLaws.FinalReportIsGroundedIff | apps/edr/graph/node_12_draft_json.py:1874-2135 | For every draft and request from which a report is produced, every claim of it cites retrieved evidence only if and only if the draft is unreadable or rejected, or its figures and variance cite known ids (financial), or no bare string brings an unknown character to a summary left to be written (otherwise). |
| GroundingLaws.AcceptedOutcome | apps/edr/graph/node_12_draft_json.py:1934-2117 | For an accepted draft, when the corrections raise, and when their result is grounded, told from the draft. |
| GroundingLaws.RenamesAgainIff | apps/edr/graph/node_12_draft_json.py:1657-1767 | The sources a remap leaves rename something again exactly when evidence that is then cited leads, by its own title or reference, to another id. |
| GroundingLaws.FinalAnswerIsComplete | apps/edr/graph/node_12_draft_json.py:2117 | Every report on a management question carries a complete answer that names the evidence of its first finding, which in a grounded report is retrieved evidence. |
| RebuiltLaws.BuiltSnapshotIsBlank | apps/edr/graph/node_12_draft_json.py:1531-1541 | The corrections make of the builder's snapshot what they make of a blank one. |
| RebuiltLaws.RightsChangeNothing | apps/edr/graph/node_12_draft_json.py:1519-1541 | Whether the caller may see finance changes no final report, whatever the draft. |
| GateLaws.GateAgreesOnFlatIff | apps/edr/graph/node_13_quality_gate.py:42-80 | On a list of known ids the quality gate agrees with the drafting node's validation exactly when it holds no null and no nested list. |
| GateLaws.FlatDraftsEndGrounded | apps/edr/graph/node_12_draft_json.py:1874-2135 | Whatever sections, items or texts a draft holds, when its claims cite flat lists every report produced from it cites retrieved evidence only; of its snapshot nothing is asked unless the report is financial. |
| GateLaws.PromptedDraftsEndGrounded | apps/edr/graph/node_12_draft_json.py:1874-2135 | For every draft of the prompted shape, and every unreadable one, the node produces a report whose claims cite retrieved evidence only, in flat lists, and whose figures and variance are backed. |
| GateLaws.PromptedDraftsPassTheGate | apps/edr/graph/node_13_quality_gate.py:42-143 | Such a report passes the gate's checks of claims and figures. |
| SummaryLaws.FinalSummaryIff | apps/edr/graph/node_13_quality_gate.py:176-196 | For every draft and request from which a report is produced, the gate accepts its summary exactly when nothing was retrieved, or the draft, if accepted, or else the pack leaves it a summary or a finding to write one from. |
| SummaryLaws.AcceptedSummaryIff | apps/edr/graph/node_12_draft_json.py:1830-1866 | An accepted draft that is not financial passes exactly when it has a summary or findings. |
| SummaryLaws.AcceptedFinancialSummaryIff | apps/edr/graph/node_12_draft_json.py:1029-1044 | An accepted financial draft passes exactly when its summary is not left empty, or one of the first three findings written from its figures, its variance or the records cites an id. |
| SummaryLaws.RebuiltSummaryIff | apps/edr/graph/node_12_draft_json.py:1508-1654 | A rebuilt report that is not financial passes exactly when the pack is empty, or offers a summary or a leading finding with an id. |
| SummaryLaws.RebuiltFinancialSummaryIff | apps/edr/graph/node_12_draft_json.py:1508-1654 | A rebuilt financial report passes exactly when the pack is empty, or offers a summary, or figures or records to find something in. |
| SummaryLaws.FindingsSpeakIff | apps/edr/graph/node_12_draft_json.py:926-1008 | Whether the leading findings of a financial report cite anything, told from its figures, its variance and the project records. |
| SourceLaws.FinancialSourcesAreExact | apps/edr/graph/node_12_draft_json.py:1770-1812 | Every financial report, from any draft, lists as its sources exactly the evidence its claims, main figures or variance cite. |
| CitationLaws.CitedMeaning | apps/edr/graph/node_12_draft_json.py:1773-1784 | What the source list is built from is every id that a claim of the report cites. |
| DraftLimits.BareStringIsQuotedByCharacter | apps/edr/graph/node_12_draft_json.py:1844-1847 | A bare-string citation is quoted character by character in the summary, which is then ungrounded. |
| DraftLimits.NestedListRaises | apps/edr/graph/node_12_draft_json.py:1844-1847 | A nested citation list is accepted and then makes the node raise. |
| DraftLimits.TextualCostRaises | apps/edr/graph/node_12_draft_json.py:763-767 | An accepted draft whose actual cost is text under a known id makes the node raise. |
| DraftLimits.ListedCostRaises | apps/edr/graph/node_12_draft_json.py:641-647 | An accepted draft whose available actual cost cites a list makes the node raise. |
| DraftLimits.UnmeasuredAnswerRaises | apps/edr/graph/node_12_draft_json.py:2039-2045 | An accepted draft whose executive answer has no length makes the node raise. |
| DraftLimits.NumberAsDecisionRaises | apps/edr/graph/node_12_draft_json.py:1154-1156 | On a management question an accepted draft whose required decision is a number makes the node raise. |
| DraftLimits.CauseAloneLeavesNoSummary | apps/edr/graph/node_12_draft_json.py:1838-1850 | An accepted draft with a root cause and no findings ends with an empty summary. |
| DraftLimits.BareCostLineLeavesNoSummary | apps/edr/graph/node_12_draft_json.py:1240-1327 | Over one cost line without an amount an unreadable draft ends without a summary. |
| DraftLimits.SalaryOverNothingIsUngrounded | apps/edr/graph/node_12_draft_json.py:1350-1505 | A salary report over an empty pack recommends something without a citation. |
| DraftLimits.SharedTitleMovesCitation | apps/edr/graph/node_12_draft_json.py:1669-1704 | With a shared title a correct citation is moved to the other document. |
| DraftReport.LiveReport.EnforceFromOdoo | apps/edr/graph/node_12_draft_json.py:589-647 | The first snapshot pass, in place; fails exactly when it looks up a list of ids. |
| DraftReport.LiveReport.EnforceCategories | apps/edr/graph/node_12_draft_json.py:711-819 | The second snapshot pass, in place, figure by figure, then total and variance; fails exactly when it meets an amount that is no number. |
| DraftReport.LiveReport.RemapEvidenceIds | apps/edr/graph/node_12_draft_json.py:1657-1767 | The remap, in place; fails exactly when a section cannot be iterated or the actual cost lists its ids. |
| DraftReport.LiveReport.RebuildSources | apps/edr/graph/node_12_draft_json.py:1770-1812 | The source list of a financial report, in place. |
| DraftReport.LiveReport.ForceSynthesis | apps/edr/graph/node_12_draft_json.py:1029-1044 | Findings, summary, cleared sections and emptied answer of a financial report, in place; fails exactly when a finding cannot be written. |
| DraftReport.LiveReport.Validate | apps/edr/graph/node_12_draft_json.py:1047-1075 | The validation loops give the verdict: valid, invalid, or raised at a text that is no string before any flaw. |
| DraftReport.LiveReport.EnforceExecutiveSummary | apps/edr/graph/node_12_draft_json.py:1830-1866 | The summary of last resort, in place; fails exactly when the raw ids cannot be collected. |
| DraftReport.LiveReport.EnrichAnswer | apps/edr/graph/node_12_draft_json.py:1078-1184 | The completion of the answer, in place; fails exactly when a text of it cannot be read. |
| DraftReport.LiveReport.Rebuild | apps/edr/graph/node_12_draft_json.py:1508-1654 | The deterministic builder with its loops. |
| DraftReport.LiveReport.Draft | apps/edr/graph/node_12_draft_json.py:1874-2135 | The whole node, in place: fails exactly when the definition does, and otherwise leaves exactly its report. |
| DraftReport.FindingsOf | apps/edr/graph/node_12_draft_json.py:926-1008 | The loop over the snapshot's labelled figures, and the findings after it; fails exactly when one cannot be formatted. |

## Left out

- HTTP, Microsoft Graph, n8n, XML-RPC, Postgres, MinIO, Qdrant and Langfuse: calls are replies, failures or silences given from outside; what a store keeps is a field.
- Local computation takes no time: the clock moves only while a call or a sleep is awaited.
- Floating point: money is whole fils in the reports and real numbers in the cost guard, so rounding to two decimals is the identity; times are whole milliseconds.
- Unicode: stripping and lower-casing of titles and URIs is an arbitrary function `norm`; sorting of ids is by character.
- Regular expressions and policies (financial evidence, salary evidence, placeholder texts, file-name-only excerpts, cost lines, amounts and dates read from excerpts) are fields of the evidence or of the claim.
- Report texts: claim wording beyond its kind, missing_data, the snapshot's note, confidence and used_in labels.
- Merging of loose top-level snapshot keys in `_normalize_financial_snapshot`, and the leftover `evidence_ids` list it folds into an actual cost.
- Numbers and objects as evidence ids or as elements of id lists, and ids of evidence that are no strings or absent; the printed form of a list as an id, which no evidence carries.
- Source entries that are no objects, and source ids, titles or references that are no strings.
- Evidence ids inside management_question_answer, and the evidence a draft says it used, which completing the answer overwrites.
- Finance.ExtractOdooContext: leaves out the categories, the latest date and the number of cost lines of the context, which only the prompt and the texts use.
- JSON parsing and repair: the draft is a report or nothing.
- The reranking of the prompt's evidence, which does not change the pack.
- ScanSnapshot.SnapshotRoundTrip: snapshot keys are an enumeration, and an ill-typed value reads as its default, where the program would keep it.
- The scan's summary sentence and the exact error texts beyond their prefix, and the safety net around a scan that raises, since a scan never does.
- The denylist check of a source query, which raises before anything is read.
- Handler races: each endpoint is one atomic step, and starting a second scan while one is running is not modelled.
- Missing reports and sessions (404 answers), and request validation.
- The self-correction node, which may append SharePoint and Odoo evidence after deduplication and without a coverage record: accounting is stated after the three retrieval nodes, and uniqueness after deduplication.
- The ownCloud node and `derive_search_terms`; and the indexing of evidence, which changes no count, but for the time it takes in the Odoo node.
- Progress saves that fail: every snapshot emitted is stored, which only adds copies to retry from.
- The remaining checks of the quality gate, which look at texts, project identity, the forms of the source and conflict lists, sections that do not belong to the report type, and coverage.
- Review.StoredReport.PublishNode: leaves out the write-once copying of the report's artifacts and the publish errors it records.
- Review.StoredReport.CancelReport: leaves out the request that has a job and no audit row yet.
- Connector classification, source maps, exporters other than the audit CSV, rescan and group enrichment, and the frontend.
- The re-insertion of an audit row when a workflow is run again for the same request.
- CSV: a field that holds a carriage return alone is not quoted by the code; the reader of the model ends records at line feeds only.
