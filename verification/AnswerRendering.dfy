/**
 Arranging a validated answer into blocks (`render_grounded_answer` in
 agent/graph/investigation_answer_nodes.py).
 */
module AnswerRendering {
  import opened Prelude
  import opened GroundedAnswer

  /** A section of detail lines: one document, or one free title. */
  datatype Group = Group(doc: Option<nat>, title: string, lines: seq<Line>)

  type GroupKey = (Option<nat>, string)

  function KeyOf(line: Line): GroupKey { (line.doc, if line.doc.Some? then "" else line.title) }

  function GroupKeyOf(g: Group): GroupKey { (g.doc, if g.doc.Some? then "" else g.title) }

  function OfKind(lines: seq<Line>, kind: Kind): seq<Line> {
    if lines == [] then []
    else OfKind(lines[..|lines| - 1], kind) + if lines[|lines| - 1].kind == kind then [lines[|lines| - 1]] else []
  }

  function WithKey(lines: seq<Line>, key: GroupKey): seq<Line> {
    if lines == [] then []
    else
      WithKey(lines[..|lines| - 1], key) +
      if lines[|lines| - 1].kind == Detail && KeyOf(lines[|lines| - 1]) == key then [lines[|lines| - 1]] else []
  }

  /** What grouping means: one group per key, holding exactly the key's detail lines in answer order. */
  ghost predicate GroupsOf(groups: seq<Group>, lines: seq<Line>) {
    && (forall i, j :: 0 <= i < j < |groups| ==> GroupKeyOf(groups[i]) != GroupKeyOf(groups[j]))
    && (forall i :: 0 <= i < |groups| ==>
          groups[i].lines != [] && groups[i].lines == WithKey(lines, GroupKeyOf(groups[i])))
    && (forall k :: 0 <= k < |lines| && lines[k].kind == Detail ==> HasGroup(groups, KeyOf(lines[k])))
  }

  ghost predicate HasGroup(groups: seq<Group>, key: GroupKey) {
    exists i :: 0 <= i < |groups| && GroupKeyOf(groups[i]) == key
  }

  lemma {:induction false} WithKeyMembers(lines: seq<Line>, key: GroupKey)
    ensures forall line :: line in WithKey(lines, key) <==> line in lines && line.kind == Detail && KeyOf(line) == key
  {
    if lines != [] {
      WithKeyMembers(lines[..|lines| - 1], key);
      assert lines == lines[..|lines| - 1] + [lines[|lines| - 1]];
    }
  }

  lemma WithKeyStep(lines: seq<Line>, i: nat, key: GroupKey)
    requires i < |lines|
    ensures WithKey(lines[..i + 1], key) ==
      WithKey(lines[..i], key) + if lines[i].kind == Detail && KeyOf(lines[i]) == key then [lines[i]] else []
  {
    assert lines[..i + 1][..i] == lines[..i];
  }

  lemma {:induction false} NoSuchLine(lines: seq<Line>, key: GroupKey)
    requires forall k :: 0 <= k < |lines| && lines[k].kind == Detail ==> KeyOf(lines[k]) != key
    ensures WithKey(lines, key) == []
  {
    if lines != [] {
      assert forall k :: 0 <= k < |lines| - 1 ==> lines[..|lines| - 1][k] == lines[k];
      NoSuchLine(lines[..|lines| - 1], key);
    }
  }

  /** The groups after one more line, `at` being the position of its key, if it has a group. */
  lemma GroupsStep(groups: seq<Group>, lines: seq<Line>, i: nat, at: Option<nat>, next: seq<Group>)
    requires i < |lines| && GroupsOf(groups, lines[..i]) && lines[i].kind == Detail
    requires at.Some? ==>
      && at.value < |groups|
      && GroupKeyOf(groups[at.value]) == KeyOf(lines[i])
      && next == groups[at.value := groups[at.value].(lines := groups[at.value].lines + [lines[i]])]
    requires at.None? ==>
      && !HasGroup(groups, KeyOf(lines[i]))
      && next == groups + [Group(lines[i].doc, lines[i].title, [lines[i]])]
    ensures GroupsOf(next, lines[..i + 1])
  {
    var line, prefix, longer := lines[i], lines[..i], lines[..i + 1];
    forall g | 0 <= g < |next| ensures next[g].lines != [] && next[g].lines == WithKey(lines[..i + 1], GroupKeyOf(next[g])) {
      WithKeyStep(lines, i, GroupKeyOf(next[g]));
      if g < |groups| { assert GroupKeyOf(next[g]) == GroupKeyOf(groups[g]); }
      if g == |groups| {
        forall k | 0 <= k < i && prefix[k].kind == Detail ensures KeyOf(prefix[k]) != KeyOf(line) {
          assert HasGroup(groups, KeyOf(prefix[k]));
        }
        NoSuchLine(prefix, KeyOf(line));
      }
      if at.Some? && g != at.value { assert GroupKeyOf(groups[g]) != GroupKeyOf(groups[at.value]); }
    }
    forall k | 0 <= k < |longer| && longer[k].kind == Detail ensures HasGroup(next, KeyOf(longer[k])) {
      if k < i {
        assert longer[k] == prefix[k] && HasGroup(groups, KeyOf(prefix[k]));
        var g :| 0 <= g < |groups| && GroupKeyOf(groups[g]) == KeyOf(prefix[k]);
        assert GroupKeyOf(next[g]) == KeyOf(prefix[k]);
      } else {
        var g := if at.Some? then at.value else |groups|;
        assert GroupKeyOf(next[g]) == KeyOf(line);
      }
    }
    forall a, b | 0 <= a < b < |next| ensures GroupKeyOf(next[a]) != GroupKeyOf(next[b]) {
      assert GroupKeyOf(next[a]) == GroupKeyOf(groups[a]);
      if b < |groups| { assert GroupKeyOf(next[b]) == GroupKeyOf(groups[b]); }
    }
  }

  lemma OtherLineStep(groups: seq<Group>, lines: seq<Line>, i: nat)
    requires i < |lines| && GroupsOf(groups, lines[..i]) && lines[i].kind != Detail
    ensures GroupsOf(groups, lines[..i + 1])
  {
    forall g | 0 <= g < |groups| ensures groups[g].lines == WithKey(lines[..i + 1], GroupKeyOf(groups[g])) {
      WithKeyStep(lines, i, GroupKeyOf(groups[g]));
    }
    var prefix, longer := lines[..i], lines[..i + 1];
    forall k | 0 <= k < |longer| && longer[k].kind == Detail ensures HasGroup(groups, KeyOf(longer[k])) {
      assert longer[k] == prefix[k];
    }
  }

  /** `detail_group_indexes` finds the group of every key. */
  predicate Indexed(indexes: map<GroupKey, nat>, groups: seq<Group>) {
    && (forall key | key in indexes :: indexes[key] < |groups| && GroupKeyOf(groups[indexes[key]]) == key)
    && (forall g :: 0 <= g < |groups| ==> GroupKeyOf(groups[g]) in indexes)
  }

  /** One detail line joins the group of its key, or opens it. */
  method AddDetail(groups: seq<Group>, indexes: map<GroupKey, nat>, line: Line)
    returns (groups': seq<Group>, indexes': map<GroupKey, nat>)
    requires Indexed(indexes, groups)
    ensures Indexed(indexes', groups')
    ensures KeyOf(line) in indexes ==>
      groups' == groups[indexes[KeyOf(line)] :=
        groups[indexes[KeyOf(line)]].(lines := groups[indexes[KeyOf(line)]].lines + [line])]
    ensures KeyOf(line) !in indexes ==> groups' == groups + [Group(line.doc, line.title, [line])]
  {
    var key := KeyOf(line);
    groups', indexes' := groups, indexes;
    if key !in indexes {
      indexes' := indexes[key := |groups|];
      groups' := groups + [Group(line.doc, line.title, [])];
    }
    var g := indexes'[key];
    assert [] + [line] == [line];
    groups' := groups'[g := groups'[g].(lines := groups'[g].lines + [line])];
    assert forall k :: 0 <= k < |groups| ==> GroupKeyOf(groups'[k]) == GroupKeyOf(groups[k]);
  }

  /** The grouping loop. */
  method DetailGroups(lines: seq<Line>) returns (groups: seq<Group>)
    ensures GroupsOf(groups, lines)
  {
    groups := [];
    var indexes: map<GroupKey, nat> := map[];
    for i := 0 to |lines|
      invariant GroupsOf(groups, lines[..i])
      invariant Indexed(indexes, groups)
    {
      if lines[i].kind == Detail {
        var next, nextIndexes := AddDetail(groups, indexes, lines[i]);
        var key := KeyOf(lines[i]);
        GroupsStep(groups, lines, i, if key in indexes then Some(indexes[key]) else None, next);
        groups, indexes := next, nextIndexes;
      } else {
        OtherLineStep(groups, lines, i);
      }
    }
    assert lines[..|lines|] == lines;
  }

  // ------------------------------------------------------------------------- blocks

  /** `number` counts the document sections. */
  datatype Block =
    | Statement(line: Line)
    | DocumentSection(number: nat, doc: nat, lines: seq<Line>)
    | TitledSection(title: string, lines: seq<Line>)
    | Caveats(lines: seq<Line>)

  function LinesOf(b: Block): seq<Line> {
    match b
    case Statement(line) => [line]
    case DocumentSection(_, _, lines) => lines
    case TitledSection(_, lines) => lines
    case Caveats(lines) => lines
  }

  function AllLines(blocks: seq<Block>): seq<Line> {
    if blocks == [] then [] else AllLines(blocks[..|blocks| - 1]) + LinesOf(blocks[|blocks| - 1])
  }

  function GroupLines(groups: seq<Group>): seq<Line> {
    if groups == [] then [] else GroupLines(groups[..|groups| - 1]) + groups[|groups| - 1].lines
  }

  /** Documents of sections, in order: each once, each loaded. */
  ghost predicate SectionsOk(blocks: seq<Block>, docs: Documents) {
    && (forall i :: 0 <= i < |blocks| && blocks[i].DocumentSection? ==>
          blocks[i].doc in docs && forall line | line in blocks[i].lines :: line.doc == Some(blocks[i].doc))
    && (forall i, j :: 0 <= i < j < |blocks| && blocks[i].DocumentSection? && blocks[j].DocumentSection? ==>
          blocks[i].number < blocks[j].number && blocks[i].doc != blocks[j].doc)
  }

  lemma AppendBlock(blocks: seq<Block>, b: Block)
    ensures AllLines(blocks + [b]) == AllLines(blocks) + LinesOf(b)
  {
    assert (blocks + [b])[..|blocks|] == blocks;
  }

  lemma GroupLinesStep(groups: seq<Group>, i: nat)
    requires i < |groups|
    ensures GroupLines(groups[..i + 1]) == GroupLines(groups[..i]) + groups[i].lines
  {
    assert groups[..i + 1][..i] == groups[..i];
  }

  /** Block k shows group k, with documents numbered as they come. */
  ghost predicate Shows(blocks: seq<Block>, groups: seq<Group>, number: nat) {
    && |blocks| <= |groups|
    && forall k :: 0 <= k < |blocks| ==>
         && LinesOf(blocks[k]) == groups[k].lines
         && (blocks[k].DocumentSection? <==> groups[k].doc.Some?)
         && (blocks[k].DocumentSection? ==> groups[k].doc == Some(blocks[k].doc) && blocks[k].number <= number)
  }

  predicate MadeOf(b: Block, g: Group, number: nat) {
    b == if g.doc.Some? then DocumentSection(number + 1, g.doc.value, g.lines) else TitledSection(g.title, g.lines)
  }

  /** The document of a section is loaded, and no earlier section is about it. */
  lemma SectionIsFresh(
      groups: seq<Group>, lines: seq<Line>, docs: Documents, blocks: seq<Block>, number: nat, b: Block)
    requires GroupsOf(groups, lines) && Shows(blocks, groups, number) && |blocks| < |groups|
    requires forall line | line in lines && line.doc.Some? :: line.doc.value in docs
    requires MadeOf(b, groups[|blocks|], number) && b.DocumentSection?
    ensures b.doc in docs && forall line | line in b.lines :: line.doc == Some(b.doc)
    ensures forall k :: 0 <= k < |blocks| && blocks[k].DocumentSection? ==>
      blocks[k].number < b.number && blocks[k].doc != b.doc
  {
    GroupOfDocument(groups, lines, |blocks|);
    forall k | 0 <= k < |blocks| && blocks[k].DocumentSection?
      ensures blocks[k].number < b.number && blocks[k].doc != b.doc
    {
      assert GroupKeyOf(groups[k]) != GroupKeyOf(groups[|blocks|]);
    }
  }

  /** One more group keeps the sections in order. */
  lemma SectionStep(groups: seq<Group>, lines: seq<Line>, docs: Documents, blocks: seq<Block>, number: nat, b: Block)
    requires GroupsOf(groups, lines) && Shows(blocks, groups, number) && |blocks| < |groups|
    requires SectionsOk(blocks, docs)
    requires forall line | line in lines && line.doc.Some? :: line.doc.value in docs
    requires MadeOf(b, groups[|blocks|], number)
    ensures SectionsOk(blocks + [b], docs)
  {
    if b.DocumentSection? { SectionIsFresh(groups, lines, docs, blocks, number, b); }
  }

  lemma ShowsStep(groups: seq<Group>, blocks: seq<Block>, number: nat, b: Block)
    requires Shows(blocks, groups, number) && |blocks| < |groups| && MadeOf(b, groups[|blocks|], number)
    ensures Shows(blocks + [b], groups, if b.DocumentSection? then number + 1 else number)
  {}

  method SectionBlocks(groups: seq<Group>, lines: seq<Line>, docs: Documents) returns (blocks: seq<Block>)
    requires GroupsOf(groups, lines)
    requires forall line | line in lines && line.doc.Some? :: line.doc.value in docs
    ensures AllLines(blocks) == GroupLines(groups)
    ensures SectionsOk(blocks, docs)
  {
    blocks := [];
    var number: nat := 0;
    for i := 0 to |groups|
      invariant |blocks| == i
      invariant AllLines(blocks) == GroupLines(groups[..i])
      invariant SectionsOk(blocks, docs) && Shows(blocks, groups, number)
    {
      var group := groups[i];
      GroupLinesStep(groups, i);
      var block :=
        if group.doc.Some? then DocumentSection(number + 1, group.doc.value, group.lines)
        else TitledSection(group.title, group.lines);
      SectionStep(groups, lines, docs, blocks, number, block);
      ShowsStep(groups, blocks, number, block);
      AppendBlock(blocks, block);
      if group.doc.Some? { number := number + 1; }
      blocks := blocks + [block];
    }
    assert groups[..|groups|] == groups;
  }

  lemma GroupOfDocument(groups: seq<Group>, lines: seq<Line>, i: nat)
    requires GroupsOf(groups, lines) && i < |groups|
    ensures forall line | line in groups[i].lines :: line in lines && line.doc == groups[i].doc
    ensures exists line :: line in lines && line.doc == groups[i].doc
  {
    WithKeyMembers(lines, GroupKeyOf(groups[i]));
    assert groups[i].lines[0] in groups[i].lines;
  }

  method Statements(lines: seq<Line>) returns (blocks: seq<Block>)
    ensures AllLines(blocks) == OfKind(lines, Overview)
    ensures forall k :: 0 <= k < |blocks| ==> blocks[k].Statement?
  {
    blocks := [];
    for i := 0 to |lines|
      invariant AllLines(blocks) == OfKind(lines[..i], Overview)
      invariant forall k :: 0 <= k < |blocks| ==> blocks[k].Statement?
    {
      assert lines[..i + 1][..i] == lines[..i];
      if lines[i].kind == Overview {
        AppendBlock(blocks, Statement(lines[i]));
        blocks := blocks + [Statement(lines[i])];
      }
    }
    assert lines[..|lines|] == lines;
  }

  /** `render_grounded_answer`: statements, then sections, then caveats; every line shown exactly once. */
  method RenderGroundedAnswer(answer: Answer, docs: Documents) returns (blocks: seq<Block>)
    requires forall line | line in answer.lines && line.doc.Some? :: line.doc.value in docs
    ensures multiset(AllLines(blocks)) == multiset(answer.lines)
    ensures SectionsOk(blocks, docs)
  {
    var statements := Statements(answer.lines);
    var groups := DetailGroups(answer.lines);
    var sections := SectionBlocks(groups, answer.lines, docs);
    var last := CaveatBlocks(OfKind(answer.lines, Caveat));
    blocks := statements + sections + last;
    AllLinesConcat(statements, sections);
    AllLinesConcat(statements + sections, last);
    ShownOnce(answer.lines, groups);
    SectionsBetween(statements, sections, last, docs);
  }

  function CaveatBlocks(caveats: seq<Line>): (r: seq<Block>)
    ensures AllLines(r) == caveats
    ensures forall k :: 0 <= k < |r| ==> r[k].Caveats?
  {
    if caveats == [] then []
    else
      AppendBlock([], Caveats(caveats));
      assert [] + [Caveats(caveats)] == [Caveats(caveats)];
      [Caveats(caveats)]
  }

  lemma SectionsBetween(statements: seq<Block>, sections: seq<Block>, last: seq<Block>, docs: Documents)
    requires SectionsOk(sections, docs)
    requires forall k :: 0 <= k < |statements| ==> !statements[k].DocumentSection?
    requires forall k :: 0 <= k < |last| ==> !last[k].DocumentSection?
    ensures SectionsOk(statements + sections + last, docs)
  {
    var all := statements + sections + last;
    assert forall k :: 0 <= k < |all| && all[k].DocumentSection? ==>
      |statements| <= k < |statements| + |sections| && all[k] == sections[k - |statements|];
  }

  lemma ShownOnce(lines: seq<Line>, groups: seq<Group>)
    requires GroupsOf(groups, lines)
    ensures multiset(OfKind(lines, Overview) + GroupLines(groups) + OfKind(lines, Caveat)) == multiset(lines)
  {
    GroupsHoldEveryDetail(groups, lines);
    forall line
      ensures multiset(OfKind(lines, Overview) + GroupLines(groups) + OfKind(lines, Caveat))[line] == multiset(lines)[line]
    {
      KindCount(lines, Overview, line);
      KindCount(lines, Detail, line);
      KindCount(lines, Caveat, line);
    }
  }

  lemma {:induction false} KindCount(lines: seq<Line>, kind: Kind, line: Line)
    ensures multiset(OfKind(lines, kind))[line] == if line.kind == kind then multiset(lines)[line] else 0
  {
    if lines != [] {
      var front, last := lines[..|lines| - 1], lines[|lines| - 1];
      KindCount(front, kind, line);
      assert lines == front + [last];
    }
  }

  lemma {:induction false} AllLinesConcat(a: seq<Block>, b: seq<Block>)
    ensures AllLines(a + b) == AllLines(a) + AllLines(b)
  {
    if b == [] {
      assert a + b == a;
    } else {
      assert (a + b)[..|a + b| - 1] == a + b[..|b| - 1];
      AllLinesConcat(a, b[..|b| - 1]);
    }
  }

  lemma {:induction false} WithKeyCount(lines: seq<Line>, key: GroupKey, line: Line)
    ensures multiset(WithKey(lines, key))[line] ==
      if KeyOf(line) == key then multiset(OfKind(lines, Detail))[line] else 0
  {
    if lines != [] { WithKeyCount(lines[..|lines| - 1], key, line); }
  }

  ghost predicate HasGroupBelow(groups: seq<Group>, n: nat, key: GroupKey)
    requires n <= |groups|
  {
    exists i :: 0 <= i < n && GroupKeyOf(groups[i]) == key
  }

  lemma HasGroupStep(groups: seq<Group>, lines: seq<Line>, n: nat, key: GroupKey)
    requires GroupsOf(groups, lines) && n < |groups|
    ensures HasGroupBelow(groups, n + 1, key) <==> HasGroupBelow(groups, n, key) || GroupKeyOf(groups[n]) == key
    ensures GroupKeyOf(groups[n]) == key ==> !HasGroupBelow(groups, n, key)
  {}

  /** A line is counted in the group of its key and in no other. */
  lemma {:induction false} GroupCount(groups: seq<Group>, lines: seq<Line>, n: nat, line: Line)
    requires GroupsOf(groups, lines) && n <= |groups|
    ensures multiset(GroupLines(groups[..n]))[line] ==
      if HasGroupBelow(groups, n, KeyOf(line)) then multiset(OfKind(lines, Detail))[line] else 0
  {
    if n > 0 {
      GroupCount(groups, lines, n - 1, line);
      GroupLinesStep(groups, n - 1);
      HasGroupStep(groups, lines, n - 1, KeyOf(line));
      WithKeyCount(lines, GroupKeyOf(groups[n - 1]), line);
      CountsAdd(GroupLines(groups[..n - 1]), groups[n - 1].lines, line);
    }
  }

  lemma CountsAdd(a: seq<Line>, b: seq<Line>, line: Line)
    ensures multiset(a + b)[line] == multiset(a)[line] + multiset(b)[line]
  {}

  lemma {:induction false} OfKindMembers(lines: seq<Line>, kind: Kind)
    ensures forall line :: line in OfKind(lines, kind) <==> line in lines && line.kind == kind
  {
    if lines != [] {
      OfKindMembers(lines[..|lines| - 1], kind);
      assert lines == lines[..|lines| - 1] + [lines[|lines| - 1]];
    }
  }

  /** Grouping neither drops nor repeats a detail line. */
  lemma GroupsHoldEveryDetail(groups: seq<Group>, lines: seq<Line>)
    requires GroupsOf(groups, lines)
    ensures multiset(GroupLines(groups)) == multiset(OfKind(lines, Detail))
  {
    OfKindMembers(lines, Detail);
    assert groups[..|groups|] == groups;
    forall line ensures multiset(GroupLines(groups))[line] == multiset(OfKind(lines, Detail))[line] {
      GroupCount(groups, lines, |groups|, line);
      if multiset(OfKind(lines, Detail))[line] > 0 {
        assert line in OfKind(lines, Detail);
        var k :| 0 <= k < |lines| && lines[k] == line;
        assert HasGroup(groups, KeyOf(lines[k]));
        assert HasGroupBelow(groups, |groups|, KeyOf(line));
      }
    }
  }

  /** A validated answer meets the renderer's assumption: all its documents are loaded. */
  lemma ValidatedAnswerRenders(cfg: Setup, docs: Documents, draft: seq<DraftLine>)
    requires Validated(cfg, docs, draft).Ok?
    ensures forall line | line in Validated(cfg, docs, draft).value.lines && line.doc.Some? :: line.doc.value in docs
  {
    var _, _ := ValidatedAnswerIsGrounded(cfg, docs, draft);
    var answer := Validated(cfg, docs, draft).value;
    forall line | line in answer.lines && line.doc.Some? ensures line.doc.value in docs {
      var k :| 0 <= k < |answer.lines| && answer.lines[k] == line;
      assert LineOk(cfg, docs, answer.lines[k], answer.citations);
    }
  }

  /** The end of the answer node: validate the draft, then render what is left; no lookup can fail. */
  method ValidateAndRender(cfg: Setup, documents: seq<Document>, draft: seq<DraftLine>)
    returns (result: Result<seq<Block>, AnswerError>)
    ensures var validated := Validated(cfg, DocumentsById(documents), draft);
      match validated
      case Err(e) => result == Err(e)
      case Ok(answer) =>
        && result.Ok?
        && multiset(AllLines(result.value)) == multiset(answer.lines)
        && SectionsOk(result.value, DocumentsById(documents))
  {
    var validated := ValidateGroundedAnswer(cfg, documents, draft);
    if validated.Err? { return Err(validated.error); }
    ValidatedAnswerRenders(cfg, DocumentsById(documents), draft);
    var blocks := RenderGroundedAnswer(validated.value, DocumentsById(documents));
    return Ok(blocks);
  }
}
