/**
 Checking the database for the evidence an investigation needs
 (agent/application/evidence_service.py) and re-judging the candidates with a
 model (agent/graph/investigation_evidence_policy.py).

 Dates are day numbers; `present` lists the answer fields a posting fills.
 */
module EvidencePolicy {
  import opened Prelude

  datatype Row = Row(
    id: int, platform: string, experienceMin: Option<int>,
    posted: Option<int>, postedText: bool, present: set<string>)

  datatype Requirement = Requirement(
    id: string,
    sites: set<string>,
    exactText: Option<set<int>>,       // postings in which every required text group occurs
    maxExperience: Option<int>,
    from: Option<int>, until: Option<int>,
    dated: bool,                       // a posting date range was asked for
    occupationIds: Option<set<int>>, skillIds: Option<set<int>>, anyMatch: bool,
    semantic: bool,                    // a condition only a model can judge
    explicitTarget: Option<nat>,
    minimum: nat,
    fields: seq<string>)

  datatype RequirementReport = RequirementReport(
    requirementId: string, semanticReview: bool, candidates: seq<Row>, ids: seq<int>, sufficient: bool)

  datatype Report = Report(requirements: seq<RequirementReport>, sufficient: bool, docs: set<int>)

  const NO_REPORT := Report([], false, {})

  // ---------------------------------------------------------------- database check

  /** `_document_scope_ids` */
  function DocumentScope(ids: Option<set<int>>): Option<set<int>> {
    if ids.None? then None else Some(set id | id in ids.value && id > 0)
  }

  function TaxonomyIds(r: Requirement): Option<set<int>> {
    if r.occupationIds.None? then r.skillIds
    else if r.skillIds.None? then r.occupationIds
    else if r.anyMatch then Some(r.occupationIds.value + r.skillIds.value)
    else Some(r.occupationIds.value * r.skillIds.value)
  }

  function AllowedIds(r: Requirement, scope: Option<set<int>>): Option<set<int>> {
    if scope.None? then TaxonomyIds(r)
    else if TaxonomyIds(r).None? then scope
    else Some(TaxonomyIds(r).value * scope.value)
  }

  predicate RowMatches(row: Row, r: Requirement, allowed: Option<set<int>>) {
    && (allowed.Some? ==> row.id in allowed.value)
    && (r.sites != {} ==> row.platform in r.sites)
    && (r.exactText.Some? ==> row.id in r.exactText.value)
    && (r.maxExperience.Some? ==> row.experienceMin.Some? && row.experienceMin.value <= r.maxExperience.value)
    && (r.from.Some? ==> row.posted.Some? && row.posted.value >= r.from.value)
    && (r.until.Some? ==> row.posted.Some? && row.posted.value <= r.until.value)
  }

  function RowsFor(rows: seq<Row>, r: Requirement, allowed: Option<set<int>>): seq<Row> {
    if rows == [] then []
    else
      RowsFor(rows[..|rows| - 1], r, allowed) +
      if RowMatches(rows[|rows| - 1], r, allowed) then [rows[|rows| - 1]] else []
  }

  /** `_rows_for_requirement`: a chain of exclusions keeps exactly the matching rows. */
  method RowsForRequirement(rows: seq<Row>, r: Requirement, allowed: Option<set<int>>) returns (matched: seq<Row>)
    ensures matched == RowsFor(rows, r, allowed)
  {
    matched := [];
    for i := 0 to |rows|
      invariant matched == RowsFor(rows[..i], r, allowed)
    {
      assert rows[..i + 1][..i] == rows[..i];
      var row := rows[i];
      if allowed.Some? && row.id !in allowed.value { continue; }
      if r.sites != {} && row.platform !in r.sites { continue; }
      if r.exactText.Some? && row.id !in r.exactText.value { continue; }
      if r.maxExperience.Some? {
        if row.experienceMin.None? || row.experienceMin.value > r.maxExperience.value { continue; }
      }
      if r.from.Some? && (row.posted.None? || row.posted.value < r.from.value) { continue; }
      if r.until.Some? && (row.posted.None? || row.posted.value > r.until.value) { continue; }
      matched := matched + [row];
    }
    assert rows[..|rows|] == rows;
  }

  lemma {:induction false} RowsForMembers(rows: seq<Row>, r: Requirement, allowed: Option<set<int>>)
    ensures forall row :: row in RowsFor(rows, r, allowed) <==> row in rows && RowMatches(row, r, allowed)
  {
    if rows != [] {
      RowsForMembers(rows[..|rows| - 1], r, allowed);
      assert rows == rows[..|rows| - 1] + [rows[|rows| - 1]];
    }
  }

  function CountWith(rows: seq<Row>, field: string): nat {
    if rows == [] then 0
    else CountWith(rows[..|rows| - 1], field) + if field in rows[|rows| - 1].present then 1 else 0
  }

  function CountDated(rows: seq<Row>, readable: bool): nat {
    if rows == [] then 0
    else
      var last := rows[|rows| - 1];
      CountDated(rows[..|rows| - 1], readable) + if (if readable then last.posted.Some? else last.postedText) then 1 else 0
  }

  /** Nothing is missing: enough postings, enough of each field, enough dates. */
  predicate Enough(r: Requirement, selected: seq<Row>, dates: nat) {
    && |selected| >= r.minimum
    && (forall field | field in r.fields :: CountWith(selected, field) >= r.minimum)
    && (r.dated ==> dates >= r.minimum)
  }

  function Ids(rows: seq<Row>): seq<int> {
    seq(|rows|, i requires 0 <= i < |rows| => rows[i].id)
  }

  /** `_match_requirement_evidence` and `_requirement_report` */
  function RequirementEvidence(rows: seq<Row>, r: Requirement, scope: Option<set<int>>, force: bool): RequirementReport {
    var matched := RowsFor(rows, r, AllowedIds(r, scope));
    RequirementReport(r.id, force || r.semantic, matched, Ids(matched), Enough(r, matched, CountDated(matched, true)))
  }

  function AllIds(reports: seq<RequirementReport>): set<int> {
    set report, id | report in reports && id in report.ids :: id
  }

  /** `inspect_job_evidence` */
  function Inspect(rows: seq<Row>, requirements: seq<Requirement>, scopeIds: Option<set<int>>, force: bool): Report {
    var reports := seq(|requirements|, i requires 0 <= i < |requirements| =>
      RequirementEvidence(rows, requirements[i], DocumentScope(scopeIds), force));
    Report(reports, reports != [] && (forall report | report in reports :: report.sufficient), AllIds(reports))
  }

  // --------------------------------------------------------------- model validation

  datatype Decision = Decision(requirementId: string, matching: seq<int>)

  /** `{item.id: item for item in items}`: the last entry of an id wins. */
  function FindRequirement(items: seq<Requirement>, id: string): (r: Option<Requirement>)
    ensures r.Some? ==> r.value in items && r.value.id == id
    ensures r.None? <==> forall item | item in items :: item.id != id
  {
    if items == [] then None
    else if items[|items| - 1].id == id then Some(items[|items| - 1])
    else FindRequirement(items[..|items| - 1], id)
  }

  function FindDecision(items: seq<Decision>, id: string): Option<Decision> {
    if items == [] then None
    else if items[|items| - 1].requirementId == id then Some(items[|items| - 1])
    else FindDecision(items[..|items| - 1], id)
  }

  function KeepKnown(ids: seq<int>, known: set<int>): seq<int> {
    if ids == [] then []
    else KeepKnown(ids[..|ids| - 1], known) + if ids[|ids| - 1] in known then [ids[|ids| - 1]] else []
  }

  lemma {:induction false} KeepKnownMembers(ids: seq<int>, known: set<int>)
    ensures forall id :: id in KeepKnown(ids, known) <==> id in ids && id in known
  {
    if ids != [] {
      KeepKnownMembers(ids[..|ids| - 1], known);
      assert ids == ids[..|ids| - 1] + [ids[|ids| - 1]];
    }
  }

  predicate IsCandidate(candidates: seq<Row>, id: int) {
    exists k :: 0 <= k < |candidates| && candidates[k].id == id
  }

  function Candidate(candidates: seq<Row>, id: int): (row: Row)
    requires IsCandidate(candidates, id)
    ensures row in candidates && row.id == id
  {
    if candidates[|candidates| - 1].id == id then candidates[|candidates| - 1]
    else Candidate(candidates[..|candidates| - 1], id)
  }

  lemma CandidateIds(candidates: seq<Row>)
    ensures forall id | id in (set c | c in candidates :: c.id) :: IsCandidate(candidates, id)
  {
    forall id | id in (set c | c in candidates :: c.id) ensures IsCandidate(candidates, id) {
      var k :| 0 <= k < |candidates| && candidates[k].id == id;
    }
  }

  /** The documents one requirement keeps: the model's choice, limited to the candidates and the target. */
  function SelectedIds(item: RequirementReport, r: Requirement, decision: Option<Decision>): (ids: seq<int>)
    ensures Distinct(ids)
    ensures forall id | id in ids :: IsCandidate(item.candidates, id)
    ensures r.explicitTarget.Some? ==> |ids| <= r.explicitTarget.value
    ensures item.semanticReview ==>
      forall id | id in ids :: decision.Some? && id in decision.value.matching
  {
    var known := set c | c in item.candidates :: c.id;
    var proposed :=
      if !item.semanticReview then Ids(item.candidates)
      else if decision.Some? then decision.value.matching
      else [];
    var matching := Dedup(KeepKnown(proposed, known));
    DedupKeepsMembers(KeepKnown(proposed, known));
    KeepKnownMembers(proposed, known);
    CandidateIds(item.candidates);
    assert forall id | id in matching :: IsCandidate(item.candidates, id);
    if r.explicitTarget.Some? && r.explicitTarget.value < |matching| then matching[..r.explicitTarget.value] else matching
  }

  function Selected(item: RequirementReport, r: Requirement, decision: Option<Decision>): seq<Row> {
    var ids := SelectedIds(item, r, decision);
    seq(|ids|, i requires 0 <= i < |ids| => Candidate(item.candidates, ids[i]))
  }

  /** `_validated_requirement_report` */
  function Validated(item: RequirementReport, r: Requirement, decision: Option<Decision>): RequirementReport {
    var selected := Selected(item, r, decision);
    item.(candidates := selected, ids := SelectedIds(item, r, decision),
          sufficient := Enough(r, selected, CountDated(selected, false)))
  }

  /** The report of one item, or nothing when its requirement is unknown. */
  function ValidatedOne(item: RequirementReport, requirements: seq<Requirement>, decisions: seq<Decision>)
    : seq<RequirementReport>
  {
    match FindRequirement(requirements, item.requirementId)
    case None => []
    case Some(r) => [Validated(item, r, FindDecision(decisions, r.id))]
  }

  function ValidatedAll(items: seq<RequirementReport>, requirements: seq<Requirement>, decisions: seq<Decision>)
    : seq<RequirementReport>
  {
    if items == [] then []
    else
      ValidatedAll(items[..|items| - 1], requirements, decisions) +
      ValidatedOne(items[|items| - 1], requirements, decisions)
  }

  /** `apply_evidence_validation` as a function of the report. */
  function Validate(report: Report, requirements: seq<Requirement>, decisions: seq<Decision>): Report {
    var reports := ValidatedAll(report.requirements, requirements, decisions);
    Report(reports, reports != [] && (forall item | item in reports :: item.sufficient), AllIds(reports))
  }

  function Flatten(reports: seq<RequirementReport>): seq<int> {
    if reports == [] then [] else Flatten(reports[..|reports| - 1]) + reports[|reports| - 1].ids
  }

  lemma DedupAppend(s: seq<int>, x: int)
    ensures Dedup(s + [x]) == if x in Dedup(s) then Dedup(s) else Dedup(s) + [x]
  {
    assert (s + [x])[..|s|] == s;
  }

  /** The inner loop: documents not seen before are appended. */
  method AppendUnseen(ids: seq<int>, seen: set<int>, more: seq<int>, ghost all: seq<int>)
    returns (ids': seq<int>, seen': set<int>)
    requires ids == Dedup(all) && forall id :: id in seen <==> id in ids
    ensures ids' == Dedup(all + more) && forall id :: id in seen' <==> id in ids'
  {
    ids', seen' := ids, seen;
    assert all + more[..0] == all;
    for k := 0 to |more|
      invariant ids' == Dedup(all + more[..k])
      invariant forall id :: id in seen' <==> id in ids'
    {
      assert all + more[..k + 1] == all + more[..k] + [more[k]];
      DedupAppend(all + more[..k], more[k]);
      if more[k] !in seen' {
        seen' := seen' + {more[k]};
        ids' := ids' + [more[k]];
      }
    }
    assert more[..|more|] == more;
  }

  lemma ValidatedAllStep(
      items: seq<RequirementReport>, requirements: seq<Requirement>, decisions: seq<Decision>, i: nat)
    requires i < |items|
    ensures ValidatedAll(items[..i + 1], requirements, decisions) ==
      ValidatedAll(items[..i], requirements, decisions) + ValidatedOne(items[i], requirements, decisions)
  {
    assert items[..i + 1][..i] == items[..i];
  }

  lemma FlattenAppend(reports: seq<RequirementReport>, report: RequirementReport)
    ensures Flatten(reports + [report]) == Flatten(reports) + report.ids
  {
    assert (reports + [report])[..|reports|] == reports;
  }

  /** The loop of `apply_evidence_validation`; `ids` are the kept documents in first-seen order. */
  method ApplyEvidenceValidation(report: Report, requirements: seq<Requirement>, decisions: seq<Decision>)
    returns (result: Report, ids: seq<int>)
    ensures result == Validate(report, requirements, decisions)
    ensures ids == Dedup(Flatten(result.requirements))
    ensures forall id :: id in ids <==> id in result.docs
  {
    ids := [];
    var seen: set<int> := {};
    var reports: seq<RequirementReport> := [];
    for i := 0 to |report.requirements|
      invariant reports == ValidatedAll(report.requirements[..i], requirements, decisions)
      invariant ids == Dedup(Flatten(reports))
      invariant forall id :: id in seen <==> id in ids
    {
      ValidatedAllStep(report.requirements, requirements, decisions, i);
      var validated := ValidatedOne(report.requirements[i], requirements, decisions);
      if validated != [] {
        ids, seen := AppendUnseen(ids, seen, validated[0].ids, Flatten(reports));
        FlattenAppend(reports, validated[0]);
        assert reports + validated == reports + [validated[0]];
        reports := reports + [validated[0]];
      }
    }
    assert report.requirements[..|report.requirements|] == report.requirements;
    DedupKeepsMembers(Flatten(reports));
    FlattenMembers(reports);
    assert seen == AllIds(reports) by {
      forall id ensures id in seen <==> id in AllIds(reports) {
        assert id in Dedup(Flatten(reports)) <==> id in Flatten(reports);
      }
    }
    result := Report(reports, reports != [] && (forall item | item in reports :: item.sufficient), seen);
  }

  lemma {:induction false} FlattenMembers(reports: seq<RequirementReport>)
    ensures forall id :: id in Flatten(reports) <==> id in AllIds(reports)
  {
    if reports != [] {
      var front, last := reports[..|reports| - 1], reports[|reports| - 1];
      FlattenMembers(front);
      assert reports == front + [last];
      forall id ensures id in AllIds(reports) <==> id in AllIds(front) || id in last.ids {
        if id in AllIds(reports) {
          var report :| report in reports && id in report.ids;
        }
      }
    }
  }

  // ------------------------------------------------------------------ main results

  /** Inside a document scope the database check reports documents of that scope only. */
  lemma InspectStaysInScope(rows: seq<Row>, requirements: seq<Requirement>, scopeIds: set<int>, force: bool)
    ensures Inspect(rows, requirements, Some(scopeIds), force).docs <= scopeIds
  {
    var report := Inspect(rows, requirements, Some(scopeIds), force);
    forall id | id in report.docs ensures id in scopeIds {
      var item :| item in report.requirements && id in item.ids;
      var i :| 0 <= i < |requirements| && report.requirements[i] == item;
      RowsForMembers(rows, requirements[i], AllowedIds(requirements[i], DocumentScope(Some(scopeIds))));
      var k :| 0 <= k < |item.ids| && item.ids[k] == id;
      assert item.candidates[k] in item.candidates && item.candidates[k].id == id;
    }
  }

  /** Every reported id belongs to a candidate of the same requirement. */
  ghost predicate Grounded(report: Report) {
    && report.docs == AllIds(report.requirements)
    && forall item | item in report.requirements ::
         forall c | c in item.candidates :: c.id in item.ids
  }

  lemma InspectIsGrounded(rows: seq<Row>, requirements: seq<Requirement>, scopeIds: Option<set<int>>, force: bool)
    ensures Grounded(Inspect(rows, requirements, scopeIds, force))
  {
    var report := Inspect(rows, requirements, scopeIds, force);
    forall item, c | item in report.requirements && c in item.candidates ensures c.id in item.ids {
      var k :| 0 <= k < |item.candidates| && item.candidates[k] == c;
      assert item.ids[k] == c.id;
    }
  }

  lemma {:induction false} ValidatedAllOrigin(
      items: seq<RequirementReport>, requirements: seq<Requirement>, decisions: seq<Decision>, report: RequirementReport)
    returns (item: RequirementReport, r: Requirement)
    requires report in ValidatedAll(items, requirements, decisions)
    ensures item in items && r in requirements && r.id == item.requirementId
    ensures report == Validated(item, r, FindDecision(decisions, r.id))
  {
    var front := items[..|items| - 1];
    var last := items[|items| - 1];
    if report in ValidatedAll(front, requirements, decisions) {
      item, r := ValidatedAllOrigin(front, requirements, decisions, report);
    } else {
      assert report in ValidatedOne(last, requirements, decisions);
      item, r := last, FindRequirement(requirements, last.requirementId).value;
    }
  }

  /** The model can only narrow the candidates, never add a document. */
  lemma ValidationNarrows(report: Report, requirements: seq<Requirement>, decisions: seq<Decision>)
    requires Grounded(report)
    ensures Validate(report, requirements, decisions).docs <= report.docs
  {
    var result := Validate(report, requirements, decisions);
    forall id | id in result.docs ensures id in report.docs {
      var kept :| kept in result.requirements && id in kept.ids;
      var item, r := ValidatedAllOrigin(report.requirements, requirements, decisions, kept);
    }
  }

  /** A sufficient verdict is backed by distinct documents, fields and dates for every requirement. */
  lemma SufficientMeansEnough(
      report: Report, requirements: seq<Requirement>, decisions: seq<Decision>, kept: RequirementReport)
    returns (r: Requirement)
    requires Validate(report, requirements, decisions).sufficient
    requires kept in Validate(report, requirements, decisions).requirements
    ensures r in requirements && r.id == kept.requirementId
    ensures Distinct(kept.ids) && |kept.ids| >= r.minimum && |kept.candidates| == |kept.ids|
    ensures forall k :: 0 <= k < |kept.ids| ==> kept.candidates[k].id == kept.ids[k]
    ensures forall field | field in r.fields :: CountWith(kept.candidates, field) >= r.minimum
    ensures r.dated ==> CountDated(kept.candidates, false) >= r.minimum
    ensures r.explicitTarget.Some? ==> |kept.ids| <= r.explicitTarget.value
  {
    var item;
    item, r := ValidatedAllOrigin(report.requirements, requirements, decisions, kept);
  }

  /** Whether a posting is a candidate, condition by condition. */
  lemma CandidatesMeetConditions(rows: seq<Row>, r: Requirement, scope: Option<set<int>>, force: bool, row: Row)
    ensures row in RequirementEvidence(rows, r, DocumentScope(scope), force).candidates <==>
      && row in rows
      && (scope.Some? ==> row.id in scope.value && row.id > 0)
      && (var known := r.occupationIds.Some? && row.id in r.occupationIds.value;
          var skilled := r.skillIds.Some? && row.id in r.skillIds.value;
          if r.occupationIds.Some? && r.skillIds.Some? then (if r.anyMatch then known || skilled else known && skilled)
          else (r.occupationIds.Some? ==> known) && (r.skillIds.Some? ==> skilled))
      && (r.sites != {} ==> row.platform in r.sites)
      && (r.exactText.Some? ==> row.id in r.exactText.value)
      && (r.maxExperience.Some? ==> row.experienceMin.Some? && row.experienceMin.value <= r.maxExperience.value)
      && (r.from.Some? ==> row.posted.Some? && row.posted.value >= r.from.value)
      && (r.until.Some? ==> row.posted.Some? && row.posted.value <= r.until.value)
  {
    RowsForMembers(rows, r, AllowedIds(r, DocumentScope(scope)));
  }
}
