/**
 From the end of an investigation to its answer: the documents that are loaded
 for it, and the citations that survive validation
 (agent/graph/investigation_answer_nodes.py).
 */
module InvestigationAnswers {
  import opened Prelude
  import E = EvidencePolicy
  import I = Investigation
  import InvestigationRuns
  import opened GroundedAnswer

  /** `_load_documents`: stored postings of the report, under positive ids. */
  predicate LoadedFor(documents: seq<Document>, report: E.Report) {
    forall d | d in documents :: d.id > 0 && d.id in report.docs
  }

  /** Every document an answer names or cites is one of these. */
  predicate Within(answer: Answer, ids: set<int>) {
    && (forall line | line in answer.lines && line.doc.Some? :: line.doc.value in ids)
    && (forall c | c in answer.citations :: c.pointer.doc in ids)
  }

  /** An answer speaks only of the documents loaded for it. */
  lemma AnswerIsWithinReport(cfg: Setup, documents: seq<Document>, draft: seq<DraftLine>, report: E.Report)
    requires LoadedFor(documents, report) && Validated(cfg, DocumentsById(documents), draft).Ok?
    ensures Within(Validated(cfg, DocumentsById(documents), draft).value, report.docs)
  {
    var docs := DocumentsById(documents);
    var answer := Validated(cfg, docs, draft).value;
    var at, sections := ValidatedAnswerIsGrounded(cfg, docs, draft);
    forall line | line in answer.lines && line.doc.Some? ensures line.doc.value in report.docs {
      var k :| 0 <= k < |answer.lines| && answer.lines[k] == line;
      assert LineOk(cfg, docs, answer.lines[k], answer.citations);
      assert docs[line.doc.value] in documents;
    }
    forall c | c in answer.citations ensures c.pointer.doc in report.docs {
      var i :| 0 <= i < |answer.citations| && answer.citations[i] == c;
      assert EvidenceValue(cfg, docs, answer.citations[i].pointer).Some?;
      assert docs[c.pointer.doc] in documents;
    }
  }

  /**
   The answer to a web investigation that collected anything names and cites
   only documents collected in that investigation, whatever its model drafts.
   */
  lemma AnswersCiteCollectedDocuments(
      setup: I.Setup, request: I.Request, worlds: nat -> I.World,
      cfg: Setup, documents: seq<Document>, draft: seq<DraftLine>)
    requires I.Inv(I.Initial(request))
    requires var end := InvestigationRuns.RunFrom(setup, I.Initial(request), worlds, 0).0;
      && end.node == I.Answer && end.s.request.policy == I.WebRequired && end.s.collected != {}
      && LoadedFor(documents, end.s.report)
    requires Validated(cfg, DocumentsById(documents), draft).Ok?
    ensures var end := InvestigationRuns.RunFrom(setup, I.Initial(request), worlds, 0).0;
      Within(Validated(cfg, DocumentsById(documents), draft).value, end.s.collected)
  {
    var end := InvestigationRuns.RunFrom(setup, I.Initial(request), worlds, 0).0;
    InvestigationRuns.AnswersAreScoped(setup, request, worlds);
    AnswerIsWithinReport(cfg, documents, draft, end.s.report);
  }
}
