/**
 Matching search words against the taxonomy's aliases
 (agent/application/search_taxonomy_utils.py,
 agent/application/search_taxonomy_service.py).  `isAlnum` is Python's
 `str.isalnum` on one character; texts are modelled after `normalize_term`.
 */
module Taxonomy {
  import opened Prelude

  type CharClass = char -> bool

  predicate OccursAt(text: string, alias: string, i: nat) {
    i + |alias| <= |text| && text[i..i + |alias|] == alias
  }

  /** An occurrence that does not cut an alphanumeric token on either side. */
  predicate BoundedAt(isAlnum: CharClass, text: string, alias: string, i: nat) {
    && alias != ""
    && OccursAt(text, alias, i)
    && (i == 0 || !(isAlnum(text[i - 1]) && isAlnum(alias[0])))
    && (i + |alias| == |text| || !(isAlnum(text[i + |alias|]) && isAlnum(alias[|alias| - 1])))
  }

  predicate Contains(isAlnum: CharClass, text: string, alias: string) {
    exists i :: 0 <= i <= |text| && BoundedAt(isAlnum, text, alias, i)
  }

  /** `text.find(alias, start)` */
  method Find(text: string, alias: string, start: nat) returns (index: Option<nat>)
    requires alias != ""
    ensures index.Some? ==>
      start <= index.value && OccursAt(text, alias, index.value) &&
      forall i :: start <= i < index.value ==> !OccursAt(text, alias, i)
    ensures index.None? ==> forall i :: start <= i <= |text| ==> !OccursAt(text, alias, i)
  {
    var i := start;
    while i + |alias| <= |text|
      invariant start <= i
      invariant forall k :: start <= k < i ==> !OccursAt(text, alias, k)
    {
      if text[i..i + |alias|] == alias { return Some(i); }
      i := i + 1;
    }
    return None;
  }

  /** The scan is complete: skipping to one past each rejected hit misses no bounded occurrence. */
  method ContainsTaxonomyAlias(isAlnum: CharClass, text: string, alias: string) returns (found: bool)
    ensures found == Contains(isAlnum, text, alias)
  {
    if text == "" || alias == "" { return false; }
    var start := 0;
    while true
      invariant 0 <= start <= |text| + 1
      invariant forall i :: 0 <= i < start ==> !BoundedAt(isAlnum, text, alias, i)
      decreases |text| + 1 - start
    {
      var hit := Find(text, alias, start);
      if hit.None? { return false; }
      var index := hit.value;
      var end := index + |alias|;
      var leftOk := index == 0 || !(isAlnum(text[index - 1]) && isAlnum(alias[0]));
      var rightOk := end == |text| || !(isAlnum(text[end]) && isAlnum(alias[|alias| - 1]));
      if leftOk && rightOk {
        assert BoundedAt(isAlnum, text, alias, index);
        return true;
      }
      start := index + 1;
    }
  }

  /** Reading a text inside another, position by position. */
  lemma InsideAt(text: string, alias: string, i: nat, n: nat)
    requires OccursAt(text, alias, i) && n < |alias|
    ensures text[i + n] == alias[n]
  {
    assert text[i..i + |alias|][n] == alias[n];
  }

  lemma OccursInside(a: string, b: string, c: string, i: nat, j: nat)
    requires OccursAt(b, a, i) && OccursAt(c, b, j)
    ensures OccursAt(c, a, i + j)
  {
    forall n | 0 <= n < |a| ensures c[i + j + n] == a[n] {
      InsideAt(b, a, i, n);
      InsideAt(c, b, j, i + n);
    }
  }

  lemma BoundedInside(isAlnum: CharClass, a: string, b: string, c: string, i: nat, j: nat)
    requires BoundedAt(isAlnum, b, a, i) && BoundedAt(isAlnum, c, b, j)
    ensures BoundedAt(isAlnum, c, a, i + j)
  {
    OccursInside(a, b, c, i, j);
    InsideAt(b, a, i, 0);
    InsideAt(b, a, i, |a| - 1);
    if i > 0 { InsideAt(c, b, j, i - 1); }
    if i + |a| < |b| { InsideAt(c, b, j, i + |a|); }
  }

  /** Bounded containment composes. */
  lemma ContainsIsTransitive(isAlnum: CharClass, a: string, b: string, c: string)
    requires Contains(isAlnum, b, a) && Contains(isAlnum, c, b)
    ensures Contains(isAlnum, c, a)
  {
    var i :| 0 <= i <= |b| && BoundedAt(isAlnum, b, a, i);
    var j :| 0 <= j <= |c| && BoundedAt(isAlnum, c, b, j);
    BoundedInside(isAlnum, a, b, c, i, j);
  }

  lemma ContainsLengthens(isAlnum: CharClass, text: string, alias: string)
    requires Contains(isAlnum, text, alias) && alias != text
    ensures |alias| < |text|
  {
    var i :| 0 <= i <= |text| && BoundedAt(isAlnum, text, alias, i);
    assert text[0..|text|] == text;
  }

  lemma ContainsItself(isAlnum: CharClass, text: string)
    requires text != ""
    ensures Contains(isAlnum, text, text)
  {
    assert text[0..|text|] == text;
    assert BoundedAt(isAlnum, text, text, 0);
  }

  // ------------------------------------------------------------- specificity filter

  datatype Match = Match(alias: string, concept: string)

  /** Another candidate's alias contains this one. */
  predicate Shadowed(isAlnum: CharClass, m: Match, candidates: seq<Match>) {
    exists i :: 0 <= i < |candidates| && candidates[i].alias != m.alias && Contains(isAlnum, candidates[i].alias, m.alias)
  }

  function Survivors(isAlnum: CharClass, matches: seq<Match>, candidates: seq<Match>): seq<Match> {
    if matches == [] then []
    else
      var last := matches[|matches| - 1];
      Survivors(isAlnum, matches[..|matches| - 1], candidates) +
      if Shadowed(isAlnum, last, candidates) then [] else [last]
  }

  function Concepts(matches: seq<Match>): seq<string> {
    seq(|matches|, i requires 0 <= i < |matches| => matches[i].concept)
  }

  /** `_specific_alias_concept_keys` */
  function SpecificConcepts(isAlnum: CharClass, candidates: seq<Match>): seq<string> {
    Dedup(Concepts(Survivors(isAlnum, candidates, candidates)))
  }

  lemma {:induction false} SurvivorsMembers(isAlnum: CharClass, matches: seq<Match>, candidates: seq<Match>)
    ensures forall m :: m in Survivors(isAlnum, matches, candidates) <==>
      m in matches && !Shadowed(isAlnum, m, candidates)
  {
    if matches != [] {
      SurvivorsMembers(isAlnum, matches[..|matches| - 1], candidates);
      assert matches == matches[..|matches| - 1] + [matches[|matches| - 1]];
    }
  }

  function LongestAlias(candidates: seq<Match>): (n: nat)
    ensures forall i :: 0 <= i < |candidates| ==> |candidates[i].alias| <= n
  {
    if candidates == [] then 0
    else
      var rest := LongestAlias(candidates[..|candidates| - 1]);
      var last := |candidates[|candidates| - 1].alias|;
      assert forall i :: 0 <= i < |candidates| - 1 ==> candidates[i] == candidates[..|candidates| - 1][i];
      if last > rest then last else rest
  }

  /** Climbing from an alias to one that contains it ends in a survivor. */
  lemma {:induction false} CoveringSurvivor(isAlnum: CharClass, candidates: seq<Match>, m: Match) returns (s: Match)
    requires m in candidates && m.alias != ""
    ensures s in candidates && !Shadowed(isAlnum, s, candidates)
    ensures Contains(isAlnum, s.alias, m.alias)
    decreases LongestAlias(candidates) - |m.alias|
  {
    if !Shadowed(isAlnum, m, candidates) {
      ContainsItself(isAlnum, m.alias);
      s := m;
    } else {
      var i :| 0 <= i < |candidates| && candidates[i].alias != m.alias &&
        Contains(isAlnum, candidates[i].alias, m.alias);
      var k :| 0 <= k < |candidates| && candidates[k] == m;
      ContainsLengthens(isAlnum, candidates[i].alias, m.alias);
      s := CoveringSurvivor(isAlnum, candidates, candidates[i]);
      ContainsIsTransitive(isAlnum, m.alias, candidates[i].alias, s.alias);
    }
  }

  lemma ConceptOfSurvivor(isAlnum: CharClass, candidates: seq<Match>, s: Match)
    requires s in candidates && !Shadowed(isAlnum, s, candidates)
    ensures s.concept in SpecificConcepts(isAlnum, candidates)
  {
    var survivors := Survivors(isAlnum, candidates, candidates);
    SurvivorsMembers(isAlnum, candidates, candidates);
    var i :| 0 <= i < |survivors| && survivors[i] == s;
    assert Concepts(survivors)[i] == s.concept;
    DedupKeepsMembers(Concepts(survivors));
  }

  lemma SameAliasSameFate(isAlnum: CharClass, a: Match, b: Match, candidates: seq<Match>)
    requires a.alias == b.alias
    ensures Shadowed(isAlnum, a, candidates) <==> Shadowed(isAlnum, b, candidates)
  {}

  /** The filter empties nothing, and every candidate it drops is contained in one it keeps. */
  lemma FilterKeepsSpecific(isAlnum: CharClass, candidates: seq<Match>, m: Match) returns (s: Match)
    requires m in candidates && m.alias != ""
    ensures SpecificConcepts(isAlnum, candidates) != []
    ensures s in candidates && s.concept in SpecificConcepts(isAlnum, candidates)
    ensures Contains(isAlnum, s.alias, m.alias)
    ensures Shadowed(isAlnum, m, candidates) ==> s.alias != m.alias
  {
    s := CoveringSurvivor(isAlnum, candidates, m);
    ConceptOfSurvivor(isAlnum, candidates, s);
    if s.alias == m.alias { SameAliasSameFate(isAlnum, s, m, candidates); }
  }

  /** A kept concept has an alias no other candidate contains. */
  lemma KeptConceptsAreSpecific(isAlnum: CharClass, candidates: seq<Match>, concept: string) returns (s: Match)
    requires concept in SpecificConcepts(isAlnum, candidates)
    ensures s in candidates && s.concept == concept && !Shadowed(isAlnum, s, candidates)
  {
    var survivors := Survivors(isAlnum, candidates, candidates);
    DedupKeepsMembers(Concepts(survivors));
    SurvivorsMembers(isAlnum, candidates, candidates);
    var i :| 0 <= i < |survivors| && Concepts(survivors)[i] == concept;
    s := survivors[i];
    assert s in survivors;
  }

  // ---------------------------------------------------------------------- resolvers

  function Exact(rows: seq<Match>, text: string): seq<Match> {
    if rows == [] then []
    else Exact(rows[..|rows| - 1], text) + if rows[|rows| - 1].alias == text then [rows[|rows| - 1]] else []
  }

  function Contained(isAlnum: CharClass, rows: seq<Match>, text: string): seq<Match> {
    if rows == [] then []
    else
      Contained(isAlnum, rows[..|rows| - 1], text) +
      if Contains(isAlnum, text, rows[|rows| - 1].alias) then [rows[|rows| - 1]] else []
  }

  /** The concepts of one search text: exact aliases first, specific contained ones otherwise. */
  function ConceptsOf(isAlnum: CharClass, rows: seq<Match>, text: string): seq<string> {
    if text == "" then []
    else if Exact(rows, text) != [] then Dedup(Concepts(Exact(rows, text)))
    else SpecificConcepts(isAlnum, Contained(isAlnum, rows, text))
  }

  method ResolveOccupationConcepts(isAlnum: CharClass, rows: seq<Match>, text: string) returns (keys: seq<string>)
    ensures keys == ConceptsOf(isAlnum, rows, text)
  {
    if text == "" { return []; }
    var exact := Exact(rows, text);
    if exact != [] { return Dedup(Concepts(exact)); }
    var matches: seq<Match> := [];
    for i := 0 to |rows|
      invariant matches == Contained(isAlnum, rows[..i], text)
    {
      assert rows[..i + 1][..i] == rows[..i];
      var found := ContainsTaxonomyAlias(isAlnum, text, rows[i].alias);
      if found { matches := matches + [rows[i]]; }
    }
    assert rows[..|rows|] == rows;
    if matches == [] { return []; }
    return SpecificConcepts(isAlnum, matches);
  }

  function SkillConcepts(isAlnum: CharClass, rows: seq<Match>, terms: seq<string>): seq<string> {
    if terms == [] then []
    else SkillConcepts(isAlnum, rows, terms[..|terms| - 1]) + ConceptsOfTerm(isAlnum, rows, terms[|terms| - 1])
  }

  /** One term of `resolve_skill_concepts`; exact aliases are not deduplicated here. */
  function ConceptsOfTerm(isAlnum: CharClass, rows: seq<Match>, term: string): seq<string> {
    if Exact(rows, term) != [] then Concepts(Exact(rows, term))
    else SpecificConcepts(isAlnum, Contained(isAlnum, rows, term))
  }

  /** `terms` are the distinct non-empty terms in sorted order. */
  method ResolveSkillConcepts(isAlnum: CharClass, rows: seq<Match>, terms: seq<string>) returns (keys: seq<string>)
    ensures keys == Dedup(SkillConcepts(isAlnum, rows, terms))
  {
    var resolved: seq<string> := [];
    for i := 0 to |terms|
      invariant resolved == SkillConcepts(isAlnum, rows, terms[..i])
    {
      assert terms[..i + 1][..i] == terms[..i];
      var candidates := Exact(rows, terms[i]);
      if candidates != [] {
        resolved := resolved + Concepts(candidates);
        continue;
      }
      resolved := resolved + SpecificConcepts(isAlnum, Contained(isAlnum, rows, terms[i]));
    }
    assert terms[..|terms|] == terms;
    keys := Dedup(resolved);
  }

  lemma {:induction false} ContainedMembers(isAlnum: CharClass, rows: seq<Match>, text: string)
    ensures forall m :: m in Contained(isAlnum, rows, text) <==> m in rows && Contains(isAlnum, text, m.alias)
    ensures forall m :: m in Exact(rows, text) <==> m in rows && m.alias == text
  {
    if rows != [] {
      ContainedMembers(isAlnum, rows[..|rows| - 1], text);
      assert rows == rows[..|rows| - 1] + [rows[|rows| - 1]];
    }
  }

  /** A text resolves to something exactly when some alias occurs in it at token boundaries. */
  lemma ResolvesIffContained(isAlnum: CharClass, rows: seq<Match>, text: string)
    requires text != ""
    ensures ConceptsOf(isAlnum, rows, text) != [] <==> exists m :: m in rows && Contains(isAlnum, text, m.alias)
  {
    ContainedMembers(isAlnum, rows, text);
    ContainsItself(isAlnum, text);
    var exact, contained := Exact(rows, text), Contained(isAlnum, rows, text);
    if exact != [] {
      assert exact[0] in exact;
      DedupKeepsMembers(Concepts(exact));
      assert Concepts(exact)[0] in Dedup(Concepts(exact));
    } else if exists m :: m in rows && Contains(isAlnum, text, m.alias) {
      var m :| m in rows && Contains(isAlnum, text, m.alias);
      var s := FilterKeepsSpecific(isAlnum, contained, m);
    } else if SpecificConcepts(isAlnum, contained) != [] {
      var s := KeptConceptsAreSpecific(isAlnum, contained, SpecificConcepts(isAlnum, contained)[0]);
    }
  }
}
