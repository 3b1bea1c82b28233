/**
 Turning a proposed action plan into collection steps
 (agent/graph/investigation_evidence_policy.py).  Texts are modelled after
 `strip()`, so "" stands for every blank text.
 */
module CollectionPlan {
  import opened Prelude

  datatype Arguments = Arguments(site: string, keyword: string, details: string)

  /** `realtime_scraping`, `realtime_scraping:<site>`, or any other tool name. */
  datatype Tool = AnySite | SiteTool(site: string) | OtherTool

  datatype Step = Step(id: string, tool: Tool, arguments: Arguments, expected: seq<string>, purpose: string)

  function KnownOnly(items: seq<string>, known: set<string>): seq<string> {
    if items == [] then []
    else KnownOnly(items[..|items| - 1], known) + if items[|items| - 1] in known then [items[|items| - 1]] else []
  }

  function Expected(step: Step, requirements: set<string>): seq<string> {
    Dedup(KnownOnly(step.expected, requirements))
  }

  /** The step names an offered site, a keyword, and at least one known requirement. */
  predicate Admissible(step: Step, sites: set<string>, requirements: set<string>) {
    && step.tool != OtherTool
    && step.arguments.site != "" && step.arguments.site in sites
    && (step.tool.SiteTool? ==> step.tool.site == step.arguments.site)
    && step.arguments.keyword != ""
    && Expected(step, requirements) != []
  }

  function Normalize(step: Step, requirements: set<string>): Step {
    step.(tool := AnySite, expected := Expected(step, requirements))
  }

  predicate SameInput(a: Step, b: Step) { a.arguments == b.arguments && a.expected == b.expected }

  /** `select_collection_steps`, one proposed step. */
  function SelectOne(chosen: seq<Step>, step: Step, sites: set<string>, requirements: set<string>): seq<Step> {
    var n := Normalize(step, requirements);
    if Admissible(step, sites, requirements) && (forall c | c in chosen :: !SameInput(c, n)) then chosen + [n] else chosen
  }

  function MaximumSteps(sites: set<string>, requirements: set<string>): nat {
    |sites| * if |requirements| == 0 then 1 else |requirements|
  }

  function SelectSteps(steps: seq<Step>, sites: set<string>, requirements: set<string>): seq<Step> {
    if steps == [] then []
    else
      var chosen := SelectSteps(steps[..|steps| - 1], sites, requirements);
      if chosen != [] && |chosen| >= MaximumSteps(sites, requirements) then chosen
      else SelectOne(chosen, steps[|steps| - 1], sites, requirements)
  }

  method SelectCollectionSteps(steps: seq<Step>, sites: set<string>, requirements: set<string>)
    returns (chosen: seq<Step>)
    ensures chosen == SelectSteps(steps, sites, requirements)
  {
    chosen := [];
    var signatures: set<(Arguments, seq<string>)> := {};
    for i := 0 to |steps|
      invariant chosen == SelectSteps(steps[..i], sites, requirements)
      invariant chosen != [] ==> |chosen| < MaximumSteps(sites, requirements)
      invariant forall a, e :: (a, e) in signatures <==> exists c :: c in chosen && c.arguments == a && c.expected == e
    {
      assert steps[..i + 1][..i] == steps[..i];
      var step := steps[i];
      if !Admissible(step, sites, requirements) { continue; }
      var expected := Expected(step, requirements);
      if (step.arguments, expected) in signatures { continue; }
      var n := Normalize(step, requirements);
      signatures := signatures + {(step.arguments, expected)};
      chosen := chosen + [n];
      if |chosen| >= MaximumSteps(sites, requirements) {
        SelectStepsStops(steps, sites, requirements, i + 1);
        return;
      }
    }
    assert steps[..|steps|] == steps;
  }

  lemma {:induction false} SelectStepsStops(steps: seq<Step>, sites: set<string>, requirements: set<string>, i: nat)
    requires i <= |steps|
    requires SelectSteps(steps[..i], sites, requirements) != []
    requires |SelectSteps(steps[..i], sites, requirements)| >= MaximumSteps(sites, requirements)
    ensures SelectSteps(steps, sites, requirements) == SelectSteps(steps[..i], sites, requirements)
    decreases |steps|
  {
    if i == |steps| {
      assert steps[..i] == steps;
    } else {
      var front := steps[..|steps| - 1];
      assert front[..i] == steps[..i];
      SelectStepsStops(front, sites, requirements, i);
    }
  }

  predicate ComesFrom(steps: seq<Step>, n: Step, sites: set<string>, requirements: set<string>) {
    exists i :: 0 <= i < |steps| && Admissible(steps[i], sites, requirements) && n == Normalize(steps[i], requirements)
  }

  predicate AllFrom(steps: seq<Step>, chosen: seq<Step>, sites: set<string>, requirements: set<string>) {
    forall i :: 0 <= i < |chosen| ==> ComesFrom(steps, chosen[i], sites, requirements)
  }

  predicate AllDifferent(chosen: seq<Step>) {
    forall i, j :: 0 <= i < j < |chosen| ==> !SameInput(chosen[i], chosen[j])
  }

  /** Selected steps are executable and pairwise different inputs; their ids are not compared. */
  lemma {:induction false} SelectedStepsAreAdmissible(steps: seq<Step>, sites: set<string>, requirements: set<string>)
    ensures AllDifferent(SelectSteps(steps, sites, requirements))
    ensures AllFrom(steps, SelectSteps(steps, sites, requirements), sites, requirements)
  {
    if steps != [] {
      var front, last := steps[..|steps| - 1], steps[|steps| - 1];
      var chosen := SelectSteps(front, sites, requirements);
      SelectedStepsAreAdmissible(front, sites, requirements);
      assert AllFrom(front, chosen, sites, requirements) && AllDifferent(chosen);
      var r := SelectSteps(steps, sites, requirements);
      assert r == chosen || r == chosen + [Normalize(last, requirements)];
      forall i | 0 <= i < |r| ensures ComesFrom(steps, r[i], sites, requirements) {
        if i < |chosen| {
          assert r[i] == chosen[i] && ComesFrom(front, chosen[i], sites, requirements);
          var k :| 0 <= k < |front| && Admissible(front[k], sites, requirements) && r[i] == Normalize(front[k], requirements);
          assert steps[k] == front[k];
        } else {
          assert steps[|steps| - 1] == last;
        }
      }
      forall i, j | 0 <= i < j < |r| ensures !SameInput(r[i], r[j]) {
        assert r[i] == chosen[i];
        if j == |chosen| { assert chosen[i] in chosen; } else { assert r[j] == chosen[j]; }
      }
    }
  }

  ghost predicate Covered(chosen: seq<Step>, n: Step) {
    exists i :: 0 <= i < |chosen| && SameInput(chosen[i], n)
  }

  /** No admissible proposal is lost below the step cap. */
  lemma {:induction false} AdmissibleStepsAreCovered(
      steps: seq<Step>, sites: set<string>, requirements: set<string>, k: nat)
    requires k < |steps| && Admissible(steps[k], sites, requirements)
    ensures var chosen := SelectSteps(steps, sites, requirements);
      Covered(chosen, Normalize(steps[k], requirements)) ||
      (chosen != [] && |chosen| >= MaximumSteps(sites, requirements))
    decreases |steps|
  {
    var front, last := steps[..|steps| - 1], steps[|steps| - 1];
    var before := SelectSteps(front, sites, requirements);
    if before == [] || |before| < MaximumSteps(sites, requirements) {
      var chosen := SelectOne(before, last, sites, requirements);
      if k < |front| {
        AdmissibleStepsAreCovered(front, sites, requirements, k);
        var i :| 0 <= i < |before| && SameInput(before[i], Normalize(steps[k], requirements));
        assert chosen[i] == before[i];
      } else {
        CoveredAfter(before, last, sites, requirements);
      }
    }
  }

  lemma CoveredAfter(chosen: seq<Step>, step: Step, sites: set<string>, requirements: set<string>)
    requires Admissible(step, sites, requirements)
    ensures Covered(SelectOne(chosen, step, sites, requirements), Normalize(step, requirements))
  {
    var n := Normalize(step, requirements);
    var r := SelectOne(chosen, step, sites, requirements);
    if exists c | c in chosen :: SameInput(c, n) {
      var c :| c in chosen && SameInput(c, n);
      var i :| 0 <= i < |chosen| && chosen[i] == c;
      assert SameInput(r[i], n);
    } else {
      assert SameInput(r[|chosen|], n);
    }
  }

  lemma SelectedSitesAreOffered(steps: seq<Step>, sites: set<string>, requirements: set<string>, step: Step)
    requires step in SelectSteps(steps, sites, requirements)
    ensures step.arguments.site in sites
  {
    var chosen := SelectSteps(steps, sites, requirements);
    SelectedStepsAreAdmissible(steps, sites, requirements);
    var i :| 0 <= i < |chosen| && chosen[i] == step;
    assert ComesFrom(steps, chosen[i], sites, requirements);
  }

  /** Two admissible steps of one id are both selected when their inputs differ: one collection then covers both. */
  lemma SelectedIdsMayRepeat(a: Step, b: Step, sites: set<string>, requirements: set<string>)
    requires Admissible(a, sites, requirements) && Admissible(b, sites, requirements)
    requires a.id == b.id && MaximumSteps(sites, requirements) > 1
    ensures var r := SelectSteps([a, b], sites, requirements);
      |r| == 2 <==> !SameInput(Normalize(a, requirements), Normalize(b, requirements))
    ensures forall n | n in SelectSteps([a, b], sites, requirements) :: n.id == a.id
  {
    assert [a, b][..1] == [a] && [a][..0] == [];
    assert SelectSteps([], sites, requirements) == [];
    assert SelectSteps([a], sites, requirements) == [Normalize(a, requirements)];
  }

  // ----------------------------------------------------------------- a second plan

  /** Same tool input and the same set of expected evidence. */
  predicate SameRun(a: Step, b: Step) {
    a.arguments == b.arguments && (set e | e in a.expected) == (set e | e in b.expected)
  }

  predicate IsNew(existing: seq<Step>, accepted: seq<Step>, step: Step) {
    forall known | known in existing + accepted :: known.id != step.id && !SameRun(known, step)
  }

  function NewSteps(existing: seq<Step>, proposed: seq<Step>): seq<Step> {
    if proposed == [] then []
    else
      var accepted := NewSteps(existing, proposed[..|proposed| - 1]);
      var step := proposed[|proposed| - 1];
      if IsNew(existing, accepted, step) then accepted + [step] else accepted
  }

  method NewCollectionSteps(existing: seq<Step>, proposed: seq<Step>) returns (accepted: seq<Step>)
    ensures accepted == NewSteps(existing, proposed)
  {
    accepted := [];
    var knownIds := set step | step in existing :: step.id;
    var knownRuns := set step | step in existing :: Signature(step);
    for i := 0 to |proposed|
      invariant accepted == NewSteps(existing, proposed[..i])
      invariant knownIds == set step | step in existing + accepted :: step.id
      invariant knownRuns == set step | step in existing + accepted :: Signature(step)
    {
      assert proposed[..i + 1][..i] == proposed[..i];
      var step := proposed[i];
      SignatureIsSameRun(existing + accepted, step);
      if step.id in knownIds || Signature(step) in knownRuns { continue; }
      assert existing + (accepted + [step]) == existing + accepted + [step];
      knownIds := knownIds + {step.id};
      knownRuns := knownRuns + {Signature(step)};
      accepted := accepted + [step];
    }
    assert proposed[..|proposed|] == proposed;
  }

  /** `collection_step_signature` */
  function Signature(step: Step): (Arguments, set<string>) { (step.arguments, set e | e in step.expected) }

  lemma SignatureIsSameRun(known: seq<Step>, step: Step)
    ensures Signature(step) in (set k | k in known :: Signature(k)) <==> exists k | k in known :: SameRun(k, step)
  {
    forall k | k in known ensures SameRun(k, step) <==> Signature(k) == Signature(step) {}
  }

  lemma NewStepIsNew(existing: seq<Step>, proposed: seq<Step>, step: Step)
    requires step in NewSteps(existing, proposed)
    ensures step in proposed && forall known | known in existing :: known.id != step.id
  {
    NewStepsAreNew(existing, proposed);
  }

  /** A second plan never reuses an id or an input, of the first plan or of its own. */
  lemma {:induction false} NewStepsAreNew(existing: seq<Step>, proposed: seq<Step>)
    ensures var r := NewSteps(existing, proposed);
      && (forall i, j :: 0 <= i < j < |r| ==> r[i].id != r[j].id && !SameRun(r[i], r[j]))
      && (forall a, b | a in existing && b in r :: a.id != b.id && !SameRun(a, b))
      && (forall step | step in r :: step in proposed)
  {
    if proposed != [] {
      var front := proposed[..|proposed| - 1];
      NewStepsAreNew(existing, front);
      assert proposed == front + [proposed[|proposed| - 1]];
    }
  }
}
