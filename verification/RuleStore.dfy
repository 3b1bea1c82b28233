/**
 The store of active experience rules and their supporting runs
 (agent/recipe/store.py).  Run ids and texts are strings, "" when missing;
 a rule's payload is its stored JSON text.
 */
module RuleStore {
  import opened Prelude

  /** Purpose of a rule: normalised site and task category. */
  type Key = (string, string)

  datatype NewRule = NewRule(site: string, siteKey: string, category: string, payload: string)

  datatype RuleRow = RuleRow(site: string, payload: string, support: nat, successes: nat, failures: nat)

  predicate ValidKey(rule: NewRule) { rule.siteKey != "" && rule.category != "" }

  function KeyOf(rule: NewRule): Key { (rule.siteKey, rule.category) }

  // -------------------------------------------------------------------- reference

  datatype Event =
    | Saved(rule: NewRule, runId: string)
    | Replayed(key: Key, succeeded: bool)
    | Cleared(site: string)            // "" clears every site

  predicate IsSave(e: Event, key: Key) { e.Saved? && KeyOf(e.rule) == key }

  predicate IsReplay(e: Event, key: Key) { e.Replayed? && e.key == key }

  /**
   The events the current rule of a key rests on: since its payload last
   changed, or since it was last cleared.
   */
  ghost function Era(history: seq<Event>, key: Key): (era: seq<Event>)
    ensures era != [] ==> IsSave(era[0], key)
    ensures forall i :: 0 <= i < |era| ==> IsSave(era[i], key) || IsReplay(era[i], key)
    ensures forall i :: 0 <= i < |era| && era[i].Saved? ==> era[i].rule.payload == era[0].rule.payload
  {
    if history == [] then []
    else
      var before := Era(history[..|history| - 1], key);
      var e := history[|history| - 1];
      if IsSave(e, key) then
        if before != [] && before[0].rule.payload == e.rule.payload then before + [e] else [e]
      else if IsReplay(e, key) then (if before != [] then before + [e] else [])
      else if e.Cleared? && before != [] && (e.site == "" || e.site == before[0].rule.site) then []
      else before
  }

  /** The distinct runs that saved the rule. */
  ghost function Runs(era: seq<Event>): set<string> {
    set i | 0 <= i < |era| && era[i].Saved? && era[i].runId != "" :: era[i].runId
  }

  ghost function AnonymousSaves(era: seq<Event>): nat {
    if era == [] then 0
    else
      var e := era[|era| - 1];
      AnonymousSaves(era[..|era| - 1]) + if e.Saved? && e.runId == "" then 1 else 0
  }

  ghost function Replays(era: seq<Event>, succeeded: bool): nat {
    if era == [] then 0
    else
      var e := era[|era| - 1];
      Replays(era[..|era| - 1], succeeded) + if e.Replayed? && e.succeeded == succeeded then 1 else 0
  }

  /** The row and sources of a key are what its era says. */
  ghost predicate Reflects(era: seq<Event>, row: Option<RuleRow>, sources: set<string>) {
    && (row.Some? <==> era != [])
    && sources == Runs(era)
    && (row.Some? ==>
          && era[0].Saved?
          && row.value.site == era[0].rule.site
          && row.value.payload == era[0].rule.payload
          && row.value.support == |Runs(era)| + AnonymousSaves(era)
          && row.value.successes == Replays(era, true)
          && row.value.failures == Replays(era, false))
  }

  // ---------------------------------------------------------------- era arithmetic

  lemma EraAppend(history: seq<Event>, e: Event, key: Key)
    ensures var before, after := Era(history, key), Era(history + [e], key);
      after ==
        if IsSave(e, key) then
          (if before != [] && before[0].rule.payload == e.rule.payload then before + [e] else [e])
        else if IsReplay(e, key) then (if before != [] then before + [e] else [])
        else if e.Cleared? && before != [] && (e.site == "" || e.site == before[0].rule.site) then []
        else before
  {
    assert (history + [e])[..|history|] == history;
  }

  lemma TotalsAppend(era: seq<Event>, e: Event)
    ensures Runs(era + [e]) == Runs(era) + if e.Saved? && e.runId != "" then {e.runId} else {}
    ensures AnonymousSaves(era + [e]) == AnonymousSaves(era) + if e.Saved? && e.runId == "" then 1 else 0
    ensures forall b :: Replays(era + [e], b) == Replays(era, b) + if e.Replayed? && e.succeeded == b then 1 else 0
  {
    var all := era + [e];
    assert all[..|era|] == era;
    forall id | id in Runs(era) ensures id in Runs(all) {
      var i :| 0 <= i < |era| && era[i].Saved? && era[i].runId != "" && era[i].runId == id;
      assert all[i] == era[i];
    }
    if e.Saved? && e.runId != "" { assert all[|era|] == e; }
  }

  lemma TotalsOfOne(e: Event)
    requires e.Saved?
    ensures Runs([e]) == (if e.runId != "" then {e.runId} else {})
    ensures AnonymousSaves([e]) == if e.runId == "" then 1 else 0
    ensures Replays([e], true) == 0 && Replays([e], false) == 0
  {
    TotalsAppend([], e);
    assert [] + [e] == [e];
    assert Runs([]) == {};
  }

  lemma SavedRowReflects(history: seq<Event>, rule: NewRule, runId: string)
    ensures var key, e := KeyOf(rule), Saved(rule, runId);
      var before, after := Era(history, key), Era(history + [e], key);
      if before != [] && before[0].rule.payload == rule.payload then
        && after == before + [e]
        && Runs(after) == Runs(before) + (if runId != "" then {runId} else {})
        && |Runs(after)| + AnonymousSaves(after) ==
             |Runs(before)| + AnonymousSaves(before) + (if runId != "" && runId in Runs(before) then 0 else 1)
        && Replays(after, true) == Replays(before, true) && Replays(after, false) == Replays(before, false)
      else
        && after == [e]
        && Runs(after) == (if runId != "" then {runId} else {})
        && |Runs(after)| + AnonymousSaves(after) == 1
        && Replays(after, true) == 0 && Replays(after, false) == 0
  {
    var key, e := KeyOf(rule), Saved(rule, runId);
    EraAppend(history, e, key);
    TotalsAppend(Era(history, key), e);
    TotalsOfOne(e);
    if runId in Runs(Era(history, key)) {
      assert Runs(Era(history, key)) + {runId} == Runs(Era(history, key));
    }
  }

  // ------------------------------------------------------------------ row updates

  function SavedSources(row: Option<RuleRow>, known: set<string>, rule: NewRule, runId: string): set<string> {
    (if row.Some? && row.value.payload == rule.payload then known else {}) + if runId != "" then {runId} else {}
  }

  function SavedRow(row: Option<RuleRow>, known: set<string>, rule: NewRule, runId: string): RuleRow {
    if row.Some? && row.value.payload == rule.payload
    then row.value.(support := row.value.support + if runId != "" && runId in known then 0 else 1)
    else RuleRow(rule.site, rule.payload, 1, 0, 0)
  }

  lemma SaveReflects(history: seq<Event>, rule: NewRule, runId: string, row: Option<RuleRow>, known: set<string>)
    requires Reflects(Era(history, KeyOf(rule)), row, known)
    ensures Reflects(Era(history + [Saved(rule, runId)], KeyOf(rule)),
                     Some(SavedRow(row, known, rule, runId)), SavedSources(row, known, rule, runId))
  {
    SavedRowReflects(history, rule, runId);
  }

  function ReplayedRow(row: RuleRow, succeeded: bool): RuleRow {
    if succeeded then row.(successes := row.successes + 1) else row.(failures := row.failures + 1)
  }

  lemma ReplayReflects(history: seq<Event>, key: Key, succeeded: bool, row: Option<RuleRow>, known: set<string>)
    requires Reflects(Era(history, key), row, known)
    ensures Reflects(Era(history + [Replayed(key, succeeded)], key),
                     if row.Some? then Some(ReplayedRow(row.value, succeeded)) else None, known)
  {
    EraAppend(history, Replayed(key, succeeded), key);
    TotalsAppend(Era(history, key), Replayed(key, succeeded));
  }

  function RowAt(rules: map<Key, RuleRow>, key: Key): Option<RuleRow> {
    if key in rules then Some(rules[key]) else None
  }

  function SourcesAt(sources: map<Key, set<string>>, key: Key): set<string> {
    if key in sources then sources[key] else {}
  }

  /** Both tables are what the history says. */
  ghost predicate Consistent(history: seq<Event>, rules: map<Key, RuleRow>, sources: map<Key, set<string>>) {
    forall key: Key :: Reflects(Era(history, key), RowAt(rules, key), SourcesAt(sources, key))
  }

  /** An event of one key leaves every other key as it is. */
  lemma OtherKeysKeep(
      history: seq<Event>, e: Event, key: Key, rules: map<Key, RuleRow>, sources: map<Key, set<string>>,
      rules': map<Key, RuleRow>, sources': map<Key, set<string>>)
    requires Consistent(history, rules, sources) && (IsSave(e, key) || IsReplay(e, key))
    requires forall other: Key | other != key ::
      RowAt(rules', other) == RowAt(rules, other) && SourcesAt(sources', other) == SourcesAt(sources, other)
    requires Reflects(Era(history + [e], key), RowAt(rules', key), SourcesAt(sources', key))
    ensures Consistent(history + [e], rules', sources')
  {
    forall other: Key
      ensures Reflects(Era(history + [e], other), RowAt(rules', other), SourcesAt(sources', other))
    {
      assert Reflects(Era(history, other), RowAt(rules, other), SourcesAt(sources, other));
      if other != key { EraAppend(history, e, other); }
    }
  }

  lemma UnknownKeysHaveNoSources(
      history: seq<Event>, rules: map<Key, RuleRow>, sources: map<Key, set<string>>, key: Key)
    requires Consistent(history, rules, sources)
    ensures key !in rules ==> SourcesAt(sources, key) == {}
    ensures Reflects(Era(history, key), RowAt(rules, key), SourcesAt(sources, key))
  {
    assert Reflects(Era(history, key), RowAt(rules, key), SourcesAt(sources, key));
    assert Runs([]) == {};
  }

  predicate OfSite(row: RuleRow, site: string) { site == "" || row.site == site }

  lemma ClearedKeep(history: seq<Event>, site: string, rules: map<Key, RuleRow>, sources: map<Key, set<string>>, gone: set<Key>)
    requires Consistent(history, rules, sources)
    requires forall key :: key in gone <==> key in rules && OfSite(rules[key], site)
    ensures Consistent(history + [Cleared(site)], rules - gone, sources - gone)
  {
    forall key: Key
      ensures Reflects(Era(history + [Cleared(site)], key), RowAt(rules - gone, key), SourcesAt(sources - gone, key))
    {
      assert Reflects(Era(history, key), RowAt(rules, key), SourcesAt(sources, key));
      EraAppend(history, Cleared(site), key);
      assert Runs([]) == {};
    }
  }

  // ---------------------------------------------------------------------- the store

  class ExperienceRuleStore {
    var rules: map<Key, RuleRow>
    var sources: map<Key, set<string>>
    ghost var history: seq<Event>

    ghost predicate Valid()
      reads this
    {
      Consistent(history, rules, sources)
    }

    constructor ()
      ensures Valid() && history == []
    {
      rules, sources, history := map[], map[], [];
      new;
      assert Runs([]) == {};
    }

    /** Same payload: one more supporter unless the run is known.  New payload: everything starts over. */
    method SaveRule(rule: NewRule, runId: string) returns (saved: bool)
      requires Valid()
      modifies this
      ensures saved <==> ValidKey(rule)
      ensures Valid() && history == if saved then old(history) + [Saved(rule, runId)] else old(history)
    {
      if !ValidKey(rule) { return false; }
      var key := KeyOf(rule);
      ghost var rules0, sources0 := rules, sources;
      UnknownKeysHaveNoSources(history, rules, sources, key);
      var row, known := UpdateRow(RowAt(rules, key), SourcesAt(sources, key), rule, runId);
      rules, sources := rules[key := row], sources[key := known];
      SaveReflects(history, rule, runId, RowAt(rules0, key), SourcesAt(sources0, key));
      OtherKeysKeep(history, Saved(rule, runId), key, rules0, sources0, rules, sources);
      history := history + [Saved(rule, runId)];
      return true;
    }

    /** The three branches of the save, on the row and the source rows of one key. */
    static method UpdateRow(row: Option<RuleRow>, known: set<string>, rule: NewRule, runId: string)
      returns (updated: RuleRow, sources: set<string>)
      requires row.None? ==> known == {}
      ensures updated == SavedRow(row, known, rule, runId)
      ensures sources == SavedSources(row, known, rule, runId)
    {
      var sourceExists := runId != "" && runId in known;
      sources := known;
      if row.Some? && row.value.payload == rule.payload {
        updated := row.value.(support := row.value.support + if sourceExists then 0 else 1);
      } else if row.Some? {
        sources := {};
        updated := RuleRow(rule.site, rule.payload, 1, 0, 0);
        sourceExists := false;
      } else {
        updated := RuleRow(rule.site, rule.payload, 1, 0, 0);
      }
      if runId != "" && !sourceExists { sources := sources + {runId}; }
    }

    method RecordReplayResult(key: Key, succeeded: bool) returns (recorded: bool)
      requires Valid()
      modifies this
      ensures recorded <==> key in old(rules)
      ensures Valid() && history == old(history) + [Replayed(key, succeeded)]
    {
      ghost var rules0 := rules;
      recorded := key in rules;
      if recorded { rules := rules[key := ReplayedRow(rules[key], succeeded)]; }
      ReplayReflects(history, key, succeeded, RowAt(rules0, key), SourcesAt(sources, key));
      OtherKeysKeep(history, Replayed(key, succeeded), key, rules0, sources, rules, sources);
      history := history + [Replayed(key, succeeded)];
    }

    /** Deleting a rule deletes its source rows with it. */
    method ClearRules(site: string) returns (removed: nat)
      requires Valid()
      modifies this
      ensures Valid() && history == old(history) + [Cleared(site)]
      ensures removed == |set key | key in old(rules) && OfSite(old(rules)[key], site)|
    {
      var gone := set key | key in rules && OfSite(rules[key], site);
      removed := |gone|;
      ClearedKeep(history, site, rules, sources, gone);
      rules, sources := rules - gone, sources - gone;
      history := history + [Cleared(site)];
    }
  }

  // ------------------------------------------------------------------ main results

  lemma {:induction false} NoAnonymousSaves(era: seq<Event>)
    requires forall i :: 0 <= i < |era| && era[i].Saved? ==> era[i].runId != ""
    ensures AnonymousSaves(era) == 0
  {
    if era != [] {
      assert forall i :: 0 <= i < |era| - 1 ==> era[..|era| - 1][i] == era[i];
      NoAnonymousSaves(era[..|era| - 1]);
    }
  }

  lemma {:induction false} EraEventsAreHistory(history: seq<Event>, key: Key)
    ensures forall e | e in Era(history, key) :: e in history
  {
    if history != [] {
      EraEventsAreHistory(history[..|history| - 1], key);
      assert history == history[..|history| - 1] + [history[|history| - 1]];
    }
  }

  /** If every save names its run, a rule's support is the number of distinct runs behind it. */
  lemma SupportIsDistinctRuns(history: seq<Event>, key: Key, row: RuleRow, sources: set<string>)
    requires forall e | e in history && e.Saved? :: e.runId != ""
    requires Reflects(Era(history, key), Some(row), sources)
    ensures row.support == |sources| && sources == Runs(Era(history, key))
  {
    EraEventsAreHistory(history, key);
    var era := Era(history, key);
    forall i | 0 <= i < |era| && era[i].Saved? ensures era[i].runId != "" { assert era[i] in era; }
    NoAnonymousSaves(era);
  }

  /** Saving the same rule again for the same run changes neither support, nor sources, nor counters. */
  lemma RepeatedSaveIsIdempotent(
      history: seq<Event>, rule: NewRule, runId: string, a: RuleRow, aSources: set<string>, b: RuleRow, bSources: set<string>)
    requires runId != ""
    requires Reflects(Era(history + [Saved(rule, runId)], KeyOf(rule)), Some(a), aSources)
    requires Reflects(
      Era(history + [Saved(rule, runId)] + [Saved(rule, runId)], KeyOf(rule)), Some(b), bSources)
    ensures a == b && aSources == bSources
  {
    var e := Saved(rule, runId);
    SavedRowReflects(history, rule, runId);
    SavedRowReflects(history + [e], rule, runId);
    assert runId in Runs(Era(history + [e], KeyOf(rule)));
  }

  /** A changed payload starts over: one supporter, no replays. */
  lemma ChangedPayloadResets(
      history: seq<Event>, rule: NewRule, runId: string, earlier: RuleRow, row: RuleRow, sources: set<string>)
    requires exists s :: Reflects(Era(history, KeyOf(rule)), Some(earlier), s)
    requires earlier.payload != rule.payload
    requires Reflects(Era(history + [Saved(rule, runId)], KeyOf(rule)), Some(row), sources)
    ensures row == RuleRow(rule.site, rule.payload, 1, 0, 0)
    ensures sources == if runId != "" then {runId} else {}
  {
    SavedRowReflects(history, rule, runId);
  }
}
