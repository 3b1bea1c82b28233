/**
 Keeping only the answer lines that database fields support
 (agent/graph/investigation_answer_nodes.py, the limits of
 shared/schema/investigation_schema.py).
 */
module GroundedAnswer {
  import opened Prelude

  datatype Kind = Overview | Detail | Caveat

  datatype Pointer = Pointer(doc: nat, field: string, item: Option<nat>)

  datatype DraftLine = DraftLine(kind: Kind, doc: Option<nat>, title: string, text: string, evidence: seq<Pointer>)

  datatype Citation = Citation(id: nat, pointer: Pointer, text: string)

  datatype Line = Line(kind: Kind, doc: Option<nat>, title: string, text: string, citations: seq<nat>)

  datatype Answer = Answer(lines: seq<Line>, citations: seq<Citation>)

  /** A stored posting: its text fields, and the fields that hold lists. */
  datatype Document = Document(id: nat, texts: map<string, string>, lists: map<string, seq<string>>)

  type Documents = map<nat, Document>

  /** `{document.id: document}` over the documents with a positive id. */
  function DocumentsById(documents: seq<Document>): (r: Documents)
    ensures forall id | id in r :: id > 0 && r[id].id == id && r[id] in documents
  {
    if documents == [] then map[]
    else
      var front := DocumentsById(documents[..|documents| - 1]);
      var last := documents[|documents| - 1];
      if last.id > 0 then front[last.id := last] else front
  }

  /** `strip` is Python's; `listFields` are the fields cited item by item. */
  datatype Setup = Setup(
    strip: string -> string, listFields: set<string>, requireEvidence: bool, maxSections: Option<nat>)

  datatype AnswerError = InvalidLine | TooManyLines | TooManyCitations

  const MAX_TITLE := 160
  const MAX_LINES := 80
  const MAX_CITATIONS := 120

  // -------------------------------------------------------------------- references

  /** `_evidence_value` */
  function EvidenceValue(cfg: Setup, docs: Documents, p: Pointer): Option<string> {
    if p.doc !in docs then None
    else if p.field in cfg.listFields then
      var d := docs[p.doc];
      if p.field !in d.lists || p.item.None? || p.item.value >= |d.lists[p.field]| then None
      else if cfg.strip(d.lists[p.field][p.item.value]) == "" then None
      else Some(d.lists[p.field][p.item.value])
    else
      var d := docs[p.doc];
      if p.item.Some? || p.field !in d.texts || d.texts[p.field] == "" then None
      else Some(d.texts[p.field])
  }

  /** The number of the citation that already has this pointer. */
  function KnownId(citations: seq<Citation>, p: Pointer): (id: Option<nat>)
    ensures id.Some? ==> exists i :: 0 <= i < |citations| && citations[i].pointer == p && citations[i].id == id.value
    ensures id.None? <==> forall i :: 0 <= i < |citations| ==> citations[i].pointer != p
  {
    if citations == [] then None
    else if citations[|citations| - 1].pointer == p then Some(citations[|citations| - 1].id)
    else KnownId(citations[..|citations| - 1], p)
  }

  /** Citations so far, and the numbers the current line refers to. */
  datatype Cited = Cited(citations: seq<Citation>, ids: seq<nat>)

  function CitePointer(cfg: Setup, docs: Documents, line: DraftLine, c: Cited, p: Pointer): Cited {
    if line.kind == Detail && line.doc != Some(p.doc) then c
    else
      match KnownId(c.citations, p)
      case Some(id) => c.(ids := c.ids + [id])
      case None =>
        match EvidenceValue(cfg, docs, p)
        case None => c
        case Some(value) =>
          var id := |c.citations| + 1;
          Cited(c.citations + [Citation(id, p, cfg.strip(value))], c.ids + [id])
  }

  function CitePointers(cfg: Setup, docs: Documents, line: DraftLine, citations: seq<Citation>, n: nat): Cited
    requires n <= |line.evidence|
  {
    if n == 0 then Cited(citations, [])
    else CitePointer(cfg, docs, line, CitePointers(cfg, docs, line, citations, n - 1), line.evidence[n - 1])
  }

  function CiteLine(cfg: Setup, docs: Documents, line: DraftLine, citations: seq<Citation>): Cited {
    var c := CitePointers(cfg, docs, line, citations, |line.evidence|);
    c.(ids := Dedup(c.ids))
  }

  // --------------------------------------------------------------------- the filter

  datatype Progress = Progress(lines: seq<Line>, citations: seq<Citation>, sections: seq<nat>)

  predicate Skipped(cfg: Setup, docs: Documents, sections: seq<nat>, line: DraftLine) {
    || (line.doc.Some? && line.doc.value !in docs)
    || (line.kind == Detail && line.doc.None? && cfg.strip(line.title) == "")
    || (line.kind == Detail && line.doc.Some? && line.doc.value !in sections &&
        cfg.maxSections.Some? && |sections| >= cfg.maxSections.value)
  }

  function AddLine(cfg: Setup, docs: Documents, p: Progress, line: DraftLine): Result<Progress, AnswerError> {
    if Skipped(cfg, docs, p.sections, line) then Ok(p)
    else
      var c := CiteLine(cfg, docs, line, p.citations);
      if cfg.requireEvidence && line.kind != Caveat && c.ids == [] then Ok(p.(citations := c.citations))
      else if |cfg.strip(line.title)| > MAX_TITLE || cfg.strip(line.text) == "" then Err(InvalidLine)
      else
        Ok(Progress(
          p.lines + [Line(line.kind, line.doc, cfg.strip(line.title), cfg.strip(line.text), c.ids)],
          c.citations,
          if line.kind == Detail && line.doc.Some? && line.doc.value !in p.sections
          then p.sections + [line.doc.value] else p.sections))
  }

  function AddLines(cfg: Setup, docs: Documents, draft: seq<DraftLine>, n: nat): Result<Progress, AnswerError>
    requires n <= |draft|
  {
    if n == 0 then Ok(Progress([], [], []))
    else
      match AddLines(cfg, docs, draft, n - 1)
      case Err(e) => Err(e)
      case Ok(p) => AddLine(cfg, docs, p, draft[n - 1])
  }

  function Validated(cfg: Setup, docs: Documents, draft: seq<DraftLine>): Result<Answer, AnswerError> {
    match AddLines(cfg, docs, draft, |draft|)
    case Err(e) => Err(e)
    case Ok(p) =>
      if |p.lines| > MAX_LINES then Err(TooManyLines)
      else if |p.citations| > MAX_CITATIONS then Err(TooManyCitations)
      else Ok(Answer(p.lines, p.citations))
  }

  // --------------------------------------------------------------- imperative form

  lemma CitePointersStep(cfg: Setup, docs: Documents, line: DraftLine, citations: seq<Citation>, n: nat)
    requires n < |line.evidence|
    ensures CitePointers(cfg, docs, line, citations, n + 1) ==
      CitePointer(cfg, docs, line, CitePointers(cfg, docs, line, citations, n), line.evidence[n])
  {}

  /** `citation_ids_by_pointer` holds exactly the pointers of the citations. */
  predicate Indexes(byPointer: map<Pointer, nat>, citations: seq<Citation>) {
    && (forall i :: 0 <= i < |citations| ==> citations[i].pointer in byPointer)
    && (forall p | p in byPointer :: KnownId(citations, p) == Some(byPointer[p]))
  }

  /** One pointer, looked up in the index instead of the list. */
  method CiteOne(
      cfg: Setup, docs: Documents, line: DraftLine, c: Cited, byPointer: map<Pointer, nat>, p: Pointer)
    returns (c': Cited, byPointer': map<Pointer, nat>)
    requires Indexes(byPointer, c.citations)
    ensures c' == CitePointer(cfg, docs, line, c, p) && Indexes(byPointer', c'.citations)
  {
    c', byPointer' := c, byPointer;
    if line.kind == Detail && line.doc != Some(p.doc) { return; }
    if p in byPointer {
      c' := c.(ids := c.ids + [byPointer[p]]);
      return;
    }
    assert KnownId(c.citations, p).None?;
    var value := EvidenceValue(cfg, docs, p);
    if value.None? { return; }
    var id := |c.citations| + 1;
    var next := c.citations + [Citation(id, p, cfg.strip(value.value))];
    assert next[..|c.citations|] == c.citations;
    byPointer' := byPointer[p := id];
    c' := Cited(next, c.ids + [id]);
  }

  method AnswerLineReferences(
      cfg: Setup, docs: Documents, line: DraftLine, citations: seq<Citation>, byPointer: map<Pointer, nat>)
    returns (ids: seq<nat>, citations': seq<Citation>, byPointer': map<Pointer, nat>)
    requires Indexes(byPointer, citations)
    ensures Cited(citations', ids) == CiteLine(cfg, docs, line, citations)
    ensures Indexes(byPointer', citations')
  {
    var c := Cited(citations, []);
    byPointer' := byPointer;
    for i := 0 to |line.evidence|
      invariant c == CitePointers(cfg, docs, line, citations, i)
      invariant Indexes(byPointer', c.citations)
    {
      CitePointersStep(cfg, docs, line, citations, i);
      c, byPointer' := CiteOne(cfg, docs, line, c, byPointer', line.evidence[i]);
    }
    return Dedup(c.ids), c.citations, byPointer';
  }

  method ValidateGroundedAnswer(cfg: Setup, documents: seq<Document>, draft: seq<DraftLine>)
    returns (result: Result<Answer, AnswerError>)
    ensures result == Validated(cfg, DocumentsById(documents), draft)
  {
    var docs := DocumentsById(documents);
    var lines: seq<Line>, citations: seq<Citation>, sections: seq<nat> := [], [], [];
    var byPointer: map<Pointer, nat> := map[];
    for i := 0 to |draft|
      invariant AddLines(cfg, docs, draft, i) == Ok(Progress(lines, citations, sections))
      invariant Indexes(byPointer, citations)
    {
      var line := draft[i];
      if Skipped(cfg, docs, sections, line) { continue; }
      var ids;
      ids, citations, byPointer := AnswerLineReferences(cfg, docs, line, citations, byPointer);
      if cfg.requireEvidence && line.kind != Caveat && ids == [] { continue; }
      if |cfg.strip(line.title)| > MAX_TITLE || cfg.strip(line.text) == "" {
        AddLinesStops(cfg, docs, draft, i + 1);
        return Err(InvalidLine);
      }
      if line.kind == Detail && line.doc.Some? {
        if line.doc.value !in sections { sections := sections + [line.doc.value]; }
      }
      lines := lines + [Line(line.kind, line.doc, cfg.strip(line.title), cfg.strip(line.text), ids)];
    }
    if |lines| > MAX_LINES { return Err(TooManyLines); }
    if |citations| > MAX_CITATIONS { return Err(TooManyCitations); }
    return Ok(Answer(lines, citations));
  }

  lemma AddLinesStops(cfg: Setup, docs: Documents, draft: seq<DraftLine>, i: nat)
    requires i <= |draft| && AddLines(cfg, docs, draft, i).Err?
    ensures AddLines(cfg, docs, draft, |draft|) == AddLines(cfg, docs, draft, i)
    decreases |draft| - i
  {
    if i < |draft| { AddLinesStops(cfg, docs, draft, i + 1); }
  }

  // -------------------------------------------------------------------- what it keeps

  /** Citation i is number i + 1, points where nobody else does, and shows the stored value. */
  ghost predicate CitationsOk(cfg: Setup, docs: Documents, citations: seq<Citation>) {
    && (forall i :: 0 <= i < |citations| ==>
          && citations[i].id == i + 1
          && EvidenceValue(cfg, docs, citations[i].pointer).Some?
          && citations[i].text == cfg.strip(EvidenceValue(cfg, docs, citations[i].pointer).value))
    && (forall i, j :: 0 <= i < j < |citations| ==> citations[i].pointer != citations[j].pointer)
  }

  /** A line's numbers are citations, each once, and of its own document when it is a detail line. */
  predicate IdsOk(kind: Kind, doc: Option<nat>, ids: seq<nat>, citations: seq<Citation>) {
    forall id | id in ids :: IdOk(kind, doc, id, citations)
  }

  predicate IdOk(kind: Kind, doc: Option<nat>, id: nat, citations: seq<Citation>) {
    1 <= id <= |citations| && (kind == Detail ==> doc == Some(citations[id - 1].pointer.doc))
  }

  /** Some of the numbers from position `from` on are not referred to by `ids`. */
  ghost predicate AllUsed(from: nat, to: nat, ids: seq<nat>) {
    forall n :: from < n <= to ==> n in ids
  }

  lemma AppendCitation(cfg: Setup, docs: Documents, citations: seq<Citation>, p: Pointer, value: string)
    requires CitationsOk(cfg, docs, citations) && KnownId(citations, p).None?
    requires EvidenceValue(cfg, docs, p) == Some(value)
    ensures CitationsOk(cfg, docs, citations + [Citation(|citations| + 1, p, cfg.strip(value))])
  {}

  /** Citing one pointer reads as: nothing, a known citation, or a new one, always of an allowed document. */
  lemma CitePointerCases(cfg: Setup, docs: Documents, line: DraftLine, c: Cited, p: Pointer)
    requires CitationsOk(cfg, docs, c.citations)
    ensures var r := CitePointer(cfg, docs, line, c, p);
      && CitationsOk(cfg, docs, r.citations)
      && c.citations <= r.citations && |r.citations| <= |c.citations| + 1
      && (r.ids == c.ids ==> r.citations == c.citations)
      && (r.ids != c.ids ==>
            |r.ids| == |c.ids| + 1 && r.ids[..|c.ids|] == c.ids &&
            IdOk(line.kind, line.doc, r.ids[|c.ids|], r.citations) &&
            (r.citations != c.citations ==> r.ids[|c.ids|] == |r.citations|))
  {
    if !(line.kind == Detail && line.doc != Some(p.doc)) {
      match KnownId(c.citations, p)
      case Some(id) =>
        assert (c.ids + [id])[..|c.ids|] == c.ids;
      case None =>
        if EvidenceValue(cfg, docs, p).Some? {
          AppendCitation(cfg, docs, c.citations, p, EvidenceValue(cfg, docs, p).value);
          assert (c.ids + [|c.citations| + 1])[..|c.ids|] == c.ids;
        }
    }
  }

  lemma CitePointerKeeps(cfg: Setup, docs: Documents, line: DraftLine, c: Cited, p: Pointer, base: nat)
    requires CitationsOk(cfg, docs, c.citations) && IdsOk(line.kind, line.doc, c.ids, c.citations)
    requires base <= |c.citations| && AllUsed(base, |c.citations|, c.ids)
    ensures var r := CitePointer(cfg, docs, line, c, p);
      && CitationsOk(cfg, docs, r.citations) && IdsOk(line.kind, line.doc, r.ids, r.citations)
      && c.citations <= r.citations && AllUsed(base, |r.citations|, r.ids)
  {
    CitePointerCases(cfg, docs, line, c, p);
    var r := CitePointer(cfg, docs, line, c, p);
    CitedKeeps(line.kind, line.doc, c, r, base);
  }

  lemma CitedKeeps(kind: Kind, doc: Option<nat>, c: Cited, r: Cited, base: nat)
    requires IdsOk(kind, doc, c.ids, c.citations) && AllUsed(base, |c.citations|, c.ids) && base <= |c.citations|
    requires c.citations <= r.citations && |r.citations| <= |c.citations| + 1
    requires r.ids == c.ids ==> r.citations == c.citations
    requires r.ids != c.ids ==>
      |r.ids| == |c.ids| + 1 && r.ids[..|c.ids|] == c.ids && IdOk(kind, doc, r.ids[|c.ids|], r.citations) &&
      (r.citations != c.citations ==> r.ids[|c.ids|] == |r.citations|)
    ensures IdsOk(kind, doc, r.ids, r.citations) && AllUsed(base, |r.citations|, r.ids)
  {
    if r.ids != c.ids {
      assert r.ids == c.ids + [r.ids[|c.ids|]];
      forall id | id in r.ids ensures IdOk(kind, doc, id, r.citations) {
        if id in c.ids { assert IdOk(kind, doc, id, c.citations); }
      }
      forall n | base < n <= |r.citations| ensures n in r.ids {
        if n <= |c.citations| { assert n in c.ids; }
      }
    }
  }

  lemma {:induction false} CitePointersKeep(cfg: Setup, docs: Documents, line: DraftLine, citations: seq<Citation>, n: nat)
    requires n <= |line.evidence| && CitationsOk(cfg, docs, citations)
    ensures var r := CitePointers(cfg, docs, line, citations, n);
      && CitationsOk(cfg, docs, r.citations) && IdsOk(line.kind, line.doc, r.ids, r.citations)
      && citations <= r.citations && AllUsed(|citations|, |r.citations|, r.ids)
  {
    if n > 0 {
      CitePointersKeep(cfg, docs, line, citations, n - 1);
      CitePointerKeeps(cfg, docs, line, CitePointers(cfg, docs, line, citations, n - 1), line.evidence[n - 1], |citations|);
    }
  }

  lemma CiteLineKeeps(cfg: Setup, docs: Documents, line: DraftLine, citations: seq<Citation>)
    requires CitationsOk(cfg, docs, citations)
    ensures var r := CiteLine(cfg, docs, line, citations);
      && CitationsOk(cfg, docs, r.citations) && IdsOk(line.kind, line.doc, r.ids, r.citations) && Distinct(r.ids)
      && citations <= r.citations && AllUsed(|citations|, |r.citations|, r.ids)
  {
    CitePointersKeep(cfg, docs, line, citations, |line.evidence|);
    var c := CitePointers(cfg, docs, line, citations, |line.evidence|);
    DedupKeepsMembers(c.ids);
  }

  ghost predicate LineOk(cfg: Setup, docs: Documents, line: Line, citations: seq<Citation>) {
    && (line.doc.Some? ==> line.doc.value in docs)
    && (line.kind == Detail && line.doc.None? ==> line.title != "")
    && line.text != ""
    && Distinct(line.citations)
    && IdsOk(line.kind, line.doc, line.citations, citations)
    && (cfg.requireEvidence && line.kind != Caveat ==> line.citations != [])
  }

  ghost predicate Used(n: nat, lines: seq<Line>) {
    exists k :: 0 <= k < |lines| && n in lines[k].citations
  }

  ghost predicate LinesOk(cfg: Setup, docs: Documents, lines: seq<Line>, citations: seq<Citation>) {
    && CitationsOk(cfg, docs, citations)
    && (forall k :: 0 <= k < |lines| ==> LineOk(cfg, docs, lines[k], citations))
    && (forall n :: 1 <= n <= |citations| ==> Used(n, lines))
  }

  ghost predicate SectionsOk(cfg: Setup, p: Progress) {
    && Distinct(p.sections)
    && (cfg.maxSections.Some? ==> |p.sections| <= cfg.maxSections.value)
    && (forall k :: 0 <= k < |p.lines| && p.lines[k].kind == Detail && p.lines[k].doc.Some? ==>
          p.lines[k].doc.value in p.sections)
  }

  lemma AddLineKeeps(cfg: Setup, docs: Documents, p: Progress, line: DraftLine)
    requires LinesOk(cfg, docs, p.lines, p.citations) && SectionsOk(cfg, p)
    requires AddLine(cfg, docs, p, line).Ok?
    ensures var r := AddLine(cfg, docs, p, line).value;
      LinesOk(cfg, docs, r.lines, r.citations) && SectionsOk(cfg, r)
  {
    if !Skipped(cfg, docs, p.sections, line) {
      CiteLineKeeps(cfg, docs, line, p.citations);
      var c := CiteLine(cfg, docs, line, p.citations);
      var r := AddLine(cfg, docs, p, line).value;
      if cfg.requireEvidence && line.kind != Caveat && c.ids == [] {
        assert |c.citations| !in c.ids;
        assert c.citations == p.citations;
      } else {
        NewLineKeeps(cfg, docs, p, r, c.ids);
      }
    }
  }

  /** A kept line keeps every citation used: the old ones by older lines, the new ones by itself. */
  lemma NewLineKeeps(cfg: Setup, docs: Documents, p: Progress, r: Progress, ids: seq<nat>)
    requires LinesOk(cfg, docs, p.lines, p.citations)
    requires |r.lines| == |p.lines| + 1 && p.lines == r.lines[..|p.lines|] && r.lines[|p.lines|].citations == ids
    requires CitationsOk(cfg, docs, r.citations) && p.citations <= r.citations
    requires LineOk(cfg, docs, r.lines[|p.lines|], r.citations)
    requires AllUsed(|p.citations|, |r.citations|, ids)
    ensures LinesOk(cfg, docs, r.lines, r.citations)
  {
    forall k | 0 <= k < |r.lines| ensures LineOk(cfg, docs, r.lines[k], r.citations) {
      if k < |p.lines| { assert r.lines[k] == p.lines[k] && LineOk(cfg, docs, p.lines[k], p.citations); }
    }
    forall n | 1 <= n <= |r.citations| ensures Used(n, r.lines) {
      if n <= |p.citations| {
        assert Used(n, p.lines);
        var k :| 0 <= k < |p.lines| && n in p.lines[k].citations;
        assert n in r.lines[k].citations;
      } else {
        assert n in r.lines[|p.lines|].citations;
      }
    }
  }

  /** The kept line `line` was made from the draft line `from`. */
  predicate MadeFrom(cfg: Setup, line: Line, from: DraftLine) {
    line.kind == from.kind && line.doc == from.doc &&
    line.title == cfg.strip(from.title) && line.text == cfg.strip(from.text)
  }

  ghost predicate InOrder(cfg: Setup, lines: seq<Line>, draft: seq<DraftLine>, at: seq<nat>) {
    && |at| == |lines|
    && (forall k :: 0 <= k < |at| ==> at[k] < |draft| && MadeFrom(cfg, lines[k], draft[at[k]]))
    && (forall j, k :: 0 <= j < k < |at| ==> at[j] < at[k])
  }

  lemma AddLineAppends(cfg: Setup, docs: Documents, p: Progress, line: DraftLine)
    requires AddLine(cfg, docs, p, line).Ok?
    ensures var r := AddLine(cfg, docs, p, line).value;
      r.lines == p.lines ||
      (|r.lines| == |p.lines| + 1 && r.lines[..|p.lines|] == p.lines && MadeFrom(cfg, r.lines[|p.lines|], line))
  {}

  lemma {:induction false} LinesKeepOrder(cfg: Setup, docs: Documents, draft: seq<DraftLine>, n: nat) returns (at: seq<nat>)
    requires n <= |draft| && AddLines(cfg, docs, draft, n).Ok?
    ensures InOrder(cfg, AddLines(cfg, docs, draft, n).value.lines, draft, at)
    ensures forall k :: 0 <= k < |at| ==> at[k] < n
  {
    if n == 0 {
      at := [];
    } else {
      at := LinesKeepOrder(cfg, docs, draft, n - 1);
      var p := AddLines(cfg, docs, draft, n - 1).value;
      AddLineAppends(cfg, docs, p, draft[n - 1]);
      if |AddLine(cfg, docs, p, draft[n - 1]).value.lines| > |p.lines| { at := at + [n - 1]; }
    }
  }

  lemma {:induction false} AddLinesKeep(cfg: Setup, docs: Documents, draft: seq<DraftLine>, n: nat)
    requires n <= |draft| && AddLines(cfg, docs, draft, n).Ok?
    ensures var p := AddLines(cfg, docs, draft, n).value; LinesOk(cfg, docs, p.lines, p.citations) && SectionsOk(cfg, p)
  {
    if n > 0 {
      AddLinesKeep(cfg, docs, draft, n - 1);
      AddLineKeeps(cfg, docs, AddLines(cfg, docs, draft, n - 1).value, draft[n - 1]);
    }
  }

  /**
   A validated answer is grounded: citations are numbered 1..n over distinct
   pointers to existing values, each used by a line; detail lines cite their
   own document; lines keep the draft's order; and the distinct documents of
   detail lines stay within the limit.
   */
  lemma ValidatedAnswerIsGrounded(cfg: Setup, docs: Documents, draft: seq<DraftLine>)
    returns (at: seq<nat>, sections: seq<nat>)
    requires Validated(cfg, docs, draft).Ok?
    ensures var answer := Validated(cfg, docs, draft).value;
      && LinesOk(cfg, docs, answer.lines, answer.citations)
      && InOrder(cfg, answer.lines, draft, at)
      && Distinct(sections) && (cfg.maxSections.Some? ==> |sections| <= cfg.maxSections.value)
      && (forall line | line in answer.lines && line.kind == Detail && line.doc.Some? :: line.doc.value in sections)
      && |answer.lines| <= MAX_LINES && |answer.citations| <= MAX_CITATIONS
  {
    AddLinesKeep(cfg, docs, draft, |draft|);
    at := LinesKeepOrder(cfg, docs, draft, |draft|);
    sections := AddLines(cfg, docs, draft, |draft|).value.sections;
  }

  /**
   A citation of a list item always shows text; one of a plain field shows
   text exactly when the stored value is not blank.
   */
  lemma CitedTextIsVisible(cfg: Setup, docs: Documents, citations: seq<Citation>, i: nat)
    requires CitationsOk(cfg, docs, citations) && i < |citations|
    ensures citations[i].pointer.field in cfg.listFields ==> citations[i].text != ""
    ensures citations[i].pointer.field !in cfg.listFields ==>
      var p := citations[i].pointer;
      p.doc in docs && p.field in docs[p.doc].texts &&
      (citations[i].text != "" <==> cfg.strip(docs[p.doc].texts[p.field]) != "")
  {}

  /** A stored plain field that is not empty but shows nothing. */
  predicate IsBlank(cfg: Setup, d: Document, field: string) {
    field !in cfg.listFields && field in d.texts && d.texts[field] != "" && cfg.strip(d.texts[field]) == ""
  }

  ghost predicate HasBlankField(cfg: Setup, docs: Documents) {
    exists id, field :: id in docs && IsBlank(cfg, docs[id], field)
  }

  ghost predicate ShowsNothing(citations: seq<Citation>) {
    exists i :: 0 <= i < |citations| && citations[i].text == ""
  }

  /** What the schema asks of a draft line: a text, at most twelve pointers, no document 0. */
  predicate WellFormed(draft: seq<DraftLine>) {
    forall line | line in draft ::
      1 <= |line.text| <= 600 && |line.evidence| <= 12 && line.doc != Some(0) &&
      forall p | p in line.evidence :: p.doc > 0
  }

  /** A draft that is validated with a citation of empty text. */
  ghost predicate ObtainsNothing(cfg: Setup, docs: Documents, draft: seq<DraftLine>) {
    WellFormed(draft) && Validated(cfg, docs, draft).Ok? && ShowsNothing(Validated(cfg, docs, draft).value.citations)
  }

  /** `strip` on the empty text and on one letter. */
  predicate StripsBlanks(cfg: Setup) { cfg.strip("") == "" && cfg.strip("x") == "x" }

  function CitingDraft(id: nat, field: string): seq<DraftLine> {
    [DraftLine(Overview, None, "", "x", [Pointer(id, field, None)])]
  }

  lemma CitingDraftIsValidated(cfg: Setup, docs: Documents, id: nat, field: string)
    requires StripsBlanks(cfg) && id in docs && IsBlank(cfg, docs[id], field)
    ensures Validated(cfg, docs, CitingDraft(id, field)) ==
      Ok(Answer([Line(Overview, None, "", "x", [1])], [Citation(1, Pointer(id, field, None), "")]))
  {
    var draft := CitingDraft(id, field);
    var line := draft[0];
    assert CitePointers(cfg, docs, line, [], 1) == CitePointer(cfg, docs, line, Cited([], []), line.evidence[0]);
    assert CitePointers(cfg, docs, line, [], 1) == Cited([Citation(1, line.evidence[0], "")], [1]);
    assert [1][..0] == [] && Dedup([1]) == [1];
    assert CiteLine(cfg, docs, line, []) == Cited([Citation(1, line.evidence[0], "")], [1]);
    var kept := [Line(Overview, None, "", "x", [1])];
    assert [] + kept == kept;
    assert AddLine(cfg, docs, Progress([], [], []), line) == Ok(Progress(kept, [Citation(1, line.evidence[0], "")], []));
    assert AddLines(cfg, docs, draft, 1) == AddLine(cfg, docs, Progress([], [], []), line);
  }

  /**
   Some draft obtains a citation that shows nothing if and only if some loaded
   document has a blank plain field.
   */
  lemma EmptyCitationIff(cfg: Setup, docs: Documents)
    requires StripsBlanks(cfg) && forall id | id in docs :: id > 0
    ensures (exists draft :: ObtainsNothing(cfg, docs, draft)) <==> HasBlankField(cfg, docs)
  {
    if draft :| ObtainsNothing(cfg, docs, draft) {
      var at, sections := ValidatedAnswerIsGrounded(cfg, docs, draft);
      var citations := Validated(cfg, docs, draft).value.citations;
      var i :| 0 <= i < |citations| && citations[i].text == "";
      CitedTextIsVisible(cfg, docs, citations, i);
      assert IsBlank(cfg, docs[citations[i].pointer.doc], citations[i].pointer.field);
    }
    if HasBlankField(cfg, docs) {
      var id, field :| id in docs && IsBlank(cfg, docs[id], field);
      CitingDraftIsValidated(cfg, docs, id, field);
      assert Validated(cfg, docs, CitingDraft(id, field)).value.citations[0].text == "";
      assert ObtainsNothing(cfg, docs, CitingDraft(id, field));
    }
  }

  /** The input: a posting whose location is one blank is cited with an empty text. */
  lemma BlankLocationIsCited(cfg: Setup)
    requires StripsBlanks(cfg) && cfg.strip(" ") == "" && "location" !in cfg.listFields
    ensures var documents := [Document(1, map["location" := " "], map[])];
      Validated(cfg, DocumentsById(documents), CitingDraft(1, "location")) ==
        Ok(Answer([Line(Overview, None, "", "x", [1])], [Citation(1, Pointer(1, "location", None), "")]))
  {
    var documents := [Document(1, map["location" := " "], map[])];
    assert documents[..0] == [];
    assert DocumentsById(documents) == map[1 := documents[0]];
    CitingDraftIsValidated(cfg, DocumentsById(documents), 1, "location");
  }
}
