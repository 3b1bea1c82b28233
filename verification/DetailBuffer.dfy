/**
 Collecting the text of one posting over several screens
 (agent/runtime/detail_runtime.py).  `clip` cuts a long line and marks the cut,
 `key` is the lower-case text with single spaces; lines are modelled after
 `strip()`.
 */
module DetailBuffer {
  import opened Prelude

  datatype Limits = Limits(maxLines: nat, clip: string -> string, key: string -> string)

  datatype BufferLine = BufferLine(id: nat, text: string)

  datatype Stats = Stats(screens: nat, added: nat, duplicates: nat, total: nat)

  datatype Buffer = Buffer(url: string, detailKey: string, lines: seq<BufferLine>, keys: seq<string>, stats: Stats)

  function NewBuffer(url: string, detailKey: string): Buffer { Buffer(url, detailKey, [], [], Stats(0, 0, 0, 0)) }

  // ------------------------------------------------------------------ one screen

  /** The line is long enough to be kept and has a key. */
  predicate Eligible(cfg: Limits, text: string) { |text| >= 2 && cfg.key(cfg.clip(text)) != "" }

  function MaxId(lines: seq<BufferLine>): (n: nat)
    ensures forall i :: 0 <= i < |lines| ==> lines[i].id <= n
    ensures lines == [] ==> n == 0
    ensures lines != [] ==> exists i :: 0 <= i < |lines| && lines[i].id == n
  {
    if lines == [] then 0
    else
      var rest := MaxId(lines[..|lines| - 1]);
      var last := lines[|lines| - 1].id;
      assert forall i :: 0 <= i < |lines| - 1 ==> lines[i] == lines[..|lines| - 1][i];
      if last > rest || |lines| == 1 then last else rest
  }

  /** Progress through one screen; `full` means the loop has stopped. */
  datatype Filling = Filling(lines: seq<BufferLine>, keys: seq<string>, nextId: nat, added: nat, duplicates: nat, full: bool)

  function Begin(b: Buffer): Filling { Filling(b.lines, b.keys, MaxId(b.lines) + 1, 0, 0, false) }

  function Fill(cfg: Limits, f: Filling, text: string): Filling {
    if f.full || !Eligible(cfg, text) then f
    else
      var clipped := cfg.clip(text);
      var key := cfg.key(clipped);
      if key in f.keys then f.(duplicates := f.duplicates + 1)
      else
        Filling(f.lines + [BufferLine(f.nextId, clipped)], f.keys + [key], f.nextId + 1, f.added + 1, f.duplicates,
                |f.lines| + 1 >= cfg.maxLines)
  }

  function FillAll(cfg: Limits, b: Buffer, texts: seq<string>): Filling {
    if texts == [] then Begin(b) else Fill(cfg, FillAll(cfg, b, texts[..|texts| - 1]), texts[|texts| - 1])
  }

  function Clipped<T>(s: seq<T>, n: nat): seq<T> { if |s| <= n then s else s[..n] }

  /** `detail_context_matches`: the card decides when both sides know it, the URL otherwise. */
  predicate ContextMatches(b: Buffer, url: string, detailKey: string) {
    if b.detailKey != "" && detailKey != "" then b.detailKey == detailKey else url != "" && b.url == url
  }

  function Restarted(b: Buffer, url: string, detailKey: string): Buffer {
    if ContextMatches(b, url, detailKey) then b else NewBuffer(url, detailKey)
  }

  /** A capture: its URL, whether it shows a posting, and its text lines. */
  datatype Screen = Screen(url: string, detailPage: bool, texts: seq<string>)

  /** `update_job_detail_buffer` */
  function Update(cfg: Limits, b: Buffer, detailKey: string, screen: Screen): Buffer {
    if screen.url == "" || !screen.detailPage then b
    else
      var start := Restarted(b, screen.url, detailKey);
      var f := FillAll(cfg, start, screen.texts);
      Buffer(screen.url, if detailKey != "" then detailKey else start.detailKey,
             Clipped(f.lines, cfg.maxLines), Clipped(f.keys, cfg.maxLines),
             Stats(start.stats.screens + 1, f.added, f.duplicates, |f.lines|))
  }

  /** `_append_detail_buffer_lines` */
  method AppendDetailBufferLines(cfg: Limits, b: Buffer, texts: seq<string>)
    returns (lines: seq<BufferLine>, keys: seq<string>, added: nat, duplicates: nat)
    ensures var f := FillAll(cfg, b, texts);
      lines == f.lines && keys == f.keys && added == f.added && duplicates == f.duplicates
  {
    lines, keys, added, duplicates := b.lines, b.keys, 0, 0;
    var seen := set key | key in keys;
    var nextId: nat := MaxId(lines) + 1;
    for i := 0 to |texts|
      invariant FillAll(cfg, b, texts[..i]) == Filling(lines, keys, nextId, added, duplicates, false)
      invariant forall key :: key in seen <==> key in keys
    {
      assert texts[..i + 1][..i] == texts[..i];
      var text := texts[i];
      if |text| < 2 { continue; }
      text := cfg.clip(text);
      var key := cfg.key(text);
      if key == "" { continue; }
      if key in seen {
        duplicates := duplicates + 1;
        continue;
      }
      seen := seen + {key};
      keys := keys + [key];
      lines := lines + [BufferLine(nextId, text)];
      nextId := nextId + 1;
      added := added + 1;
      if |lines| >= cfg.maxLines {
        FullStays(cfg, b, texts, i + 1);
        return;
      }
    }
    assert texts[..|texts|] == texts;
  }

  method UpdateJobDetailBuffer(cfg: Limits, b: Buffer, detailKey: string, screen: Screen) returns (updated: Buffer)
    ensures updated == Update(cfg, b, detailKey, screen)
  {
    if screen.url == "" || !screen.detailPage { return b; }
    var start := b;
    if !ContextMatches(b, screen.url, detailKey) { start := NewBuffer(screen.url, detailKey); }
    var lines, keys, added, duplicates := AppendDetailBufferLines(cfg, start, screen.texts);
    updated := Buffer(
      screen.url, if detailKey != "" then detailKey else start.detailKey,
      Clipped(lines, cfg.maxLines), Clipped(keys, cfg.maxLines),
      Stats(start.stats.screens + 1, added, duplicates, |lines|));
  }

  lemma {:induction false} FullStays(cfg: Limits, b: Buffer, texts: seq<string>, i: nat)
    requires i <= |texts| && FillAll(cfg, b, texts[..i]).full
    ensures FillAll(cfg, b, texts) == FillAll(cfg, b, texts[..i])
    decreases |texts|
  {
    if i == |texts| {
      assert texts[..i] == texts;
    } else {
      var front := texts[..|texts| - 1];
      assert front[..i] == texts[..i];
      FullStays(cfg, b, front, i);
    }
  }

  // -------------------------------------------------------------------- invariant

  /** Keys are distinct and aligned with the lines, and line i has id i + 1. */
  ghost predicate Aligned(cfg: Limits, lines: seq<BufferLine>, keys: seq<string>) {
    && |lines| == |keys|
    && Distinct(keys)
    && forall i :: 0 <= i < |lines| ==> lines[i].id == i + 1 && keys[i] == cfg.key(lines[i].text)
  }

  ghost predicate BufferOk(cfg: Limits, b: Buffer) {
    Aligned(cfg, b.lines, b.keys) && |b.lines| <= cfg.maxLines && b.stats.total <= cfg.maxLines + 1
  }

  ghost predicate FillingOk(cfg: Limits, b: Buffer, f: Filling) {
    && Aligned(cfg, f.lines, f.keys)
    && f.nextId == |f.lines| + 1
    && b.lines <= f.lines && b.keys <= f.keys
    && |f.lines| == |b.lines| + f.added
    && (f.full ==> |f.lines| >= cfg.maxLines)
    && (!f.full && f.added > 0 ==> |f.lines| < cfg.maxLines)
    && (f.full ==> f.added >= 1 && |f.lines| - 1 <= Larger(cfg.maxLines - 1, |b.lines|))
  }

  function Larger(a: int, b: int): int { if a >= b then a else b }

  lemma FillKeeps(cfg: Limits, b: Buffer, f: Filling, text: string)
    requires BufferOk(cfg, b) && FillingOk(cfg, b, f)
    ensures FillingOk(cfg, b, Fill(cfg, f, text))
    ensures f.keys <= Fill(cfg, f, text).keys
  {}

  lemma {:induction false} FillAllKeeps(cfg: Limits, b: Buffer, texts: seq<string>)
    requires BufferOk(cfg, b)
    ensures FillingOk(cfg, b, FillAll(cfg, b, texts))
  {
    if texts == [] {
      BeginOk(cfg, b);
    } else {
      FillAllKeeps(cfg, b, texts[..|texts| - 1]);
      FillKeeps(cfg, b, FillAll(cfg, b, texts[..|texts| - 1]), texts[|texts| - 1]);
    }
  }

  lemma BeginOk(cfg: Limits, b: Buffer)
    requires BufferOk(cfg, b)
    ensures FillingOk(cfg, b, Begin(b))
  {
    if b.lines != [] {
      assert b.lines[|b.lines| - 1].id == |b.lines|;
    }
  }

  /** As long as the loop has not stopped, every eligible line's key is known. */
  lemma {:induction false} EligibleKeysAreKnown(cfg: Limits, b: Buffer, texts: seq<string>, i: nat)
    requires BufferOk(cfg, b) && i < |texts| && Eligible(cfg, texts[i])
    ensures !FillAll(cfg, b, texts).full ==> cfg.key(cfg.clip(texts[i])) in FillAll(cfg, b, texts).keys
    decreases |texts|
  {
    var n := |texts| - 1;
    var front := texts[..n];
    FillAllKeeps(cfg, b, front);
    FillKeeps(cfg, b, FillAll(cfg, b, front), texts[n]);
    if i < n { EligibleKeysAreKnown(cfg, b, front, i); }
  }

  // ------------------------------------------------------------------ main results

  /**
   One more screen: keys stay distinct and aligned, ids stay 1..n, the cap
   holds, old lines of the same posting stay a prefix, and the reported total
   exceeds the cap, by one, only when a full buffer met a new line.
   */
  lemma UpdateKeepsBuffer(cfg: Limits, b: Buffer, detailKey: string, screen: Screen)
    requires BufferOk(cfg, b) && cfg.maxLines > 0
    ensures var r := Update(cfg, b, detailKey, screen);
      && BufferOk(cfg, r)
      && (ContextMatches(b, screen.url, detailKey) ==> b.lines <= r.lines && b.keys <= r.keys)
      && (r.stats.total > cfg.maxLines && r != b ==> r.stats.added == 1 && |b.lines| == cfg.maxLines)
  {
    FillAllKeeps(cfg, Restarted(b, screen.url, detailKey), screen.texts);
  }

  /** Below the cap nothing eligible is missing. */
  lemma NothingMissingBelowCap(cfg: Limits, b: Buffer, detailKey: string, screen: Screen, i: nat)
    requires BufferOk(cfg, b) && i < |screen.texts| && Eligible(cfg, screen.texts[i])
    requires screen.url != "" && screen.detailPage
    requires |Update(cfg, b, detailKey, screen).lines| < cfg.maxLines
    ensures cfg.key(cfg.clip(screen.texts[i])) in Update(cfg, b, detailKey, screen).keys
  {
    var start := Restarted(b, screen.url, detailKey);
    FillAllKeeps(cfg, start, screen.texts);
    EligibleKeysAreKnown(cfg, start, screen.texts, i);
  }

  function Screens(cfg: Limits, b: Buffer, detailKey: string, screens: seq<Screen>): Buffer
    decreases |screens|
  {
    if screens == [] then b else Screens(cfg, Update(cfg, b, detailKey, screens[0]), detailKey, screens[1..])
  }

  /** All screens belong to the posting the buffer was opened for. */
  predicate SamePosting(b: Buffer, detailKey: string, screens: seq<Screen>) {
    (b.detailKey != "" && b.detailKey == detailKey) ||
    ((b.detailKey == "" || detailKey == "") && forall i :: 0 <= i < |screens| ==> screens[i].url == b.url != "")
  }

  /** Over any sequence of screens of one posting the buffer only grows, within its limits. */
  lemma {:induction false} ScreensKeepBuffer(cfg: Limits, b: Buffer, detailKey: string, screens: seq<Screen>)
    requires BufferOk(cfg, b) && cfg.maxLines > 0 && SamePosting(b, detailKey, screens)
    ensures var r := Screens(cfg, b, detailKey, screens);
      BufferOk(cfg, r) && b.lines <= r.lines && b.keys <= r.keys
    decreases |screens|
  {
    if screens != [] {
      UpdateKeepsBuffer(cfg, b, detailKey, screens[0]);
      assert SamePosting(Update(cfg, b, detailKey, screens[0]), detailKey, screens[1..]);
      ScreensKeepBuffer(cfg, Update(cfg, b, detailKey, screens[0]), detailKey, screens[1..]);
    }
  }

  // ---------------------------------------------------------------------- rendering

  function Decimal(n: nat): (s: string)
    ensures s != ""
  {
    var digit := ["0", "1", "2", "3", "4", "5", "6", "7", "8", "9"][n % 10];
    if n < 10 then digit else Decimal(n / 10) + digit
  }

  function RowOf(lines: seq<BufferLine>, i: nat): string
    requires i < |lines|
  {
    Decimal(i + 1) + ". " + lines[i].text
  }

  /** The numbered rows of the first n lines that have text. */
  function Rows(lines: seq<BufferLine>, n: nat): seq<string>
    requires n <= |lines|
  {
    if n == 0 then []
    else Rows(lines, n - 1) + if lines[n - 1].text != "" then [RowOf(lines, n - 1)] else []
  }

  function Size(rows: seq<string>): nat {
    if rows == [] then 0 else Size(rows[..|rows| - 1]) + |rows[|rows| - 1]| + 1
  }

  function JoinLines(rows: seq<string>): string {
    if rows == [] then ""
    else if |rows| == 1 then rows[0]
    else JoinLines(rows[..|rows| - 1]) + "\n" + rows[|rows| - 1]
  }

  lemma {:induction false} JoinedSize(rows: seq<string>)
    ensures rows != [] ==> |JoinLines(rows)| + 1 == Size(rows)
  {
    if |rows| == 1 {
      assert rows[..0] == [];
      assert Size(rows[..0]) == 0;
    } else if |rows| > 1 {
      JoinedSize(rows[..|rows| - 1]);
    }
  }

  /**
   `detail_buffer_text`: the numbered rows of a prefix of the lines, shorter
   than the limit, and stopped only by a row that would not fit.
   */
  method DetailBufferText(lines: seq<BufferLine>, maxChars: nat) returns (text: string, ghost used: nat)
    ensures used <= |lines| && text == JoinLines(Rows(lines, used))
    ensures |text| < maxChars || text == ""
    ensures used < |lines| ==>
      lines[used].text != "" && Size(Rows(lines, used)) + |RowOf(lines, used)| + 1 > maxChars
  {
    var rendered: seq<string> := [];
    var total := 0;
    used := 0;
    for i := 0 to |lines|
      invariant used == i
      invariant rendered == Rows(lines, i) && total == Size(rendered) <= maxChars
    {
      if lines[i].text != "" {
        var row := RowOf(lines, i);
        if total + |row| + 1 > maxChars {
          JoinedSize(rendered);
          return JoinLines(rendered), used;
        }
        assert (rendered + [row])[..|rendered|] == rendered;
        rendered := rendered + [row];
        total := total + |row| + 1;
      }
      used := i + 1;
    }
    JoinedSize(rendered);
    text := JoinLines(rendered);
  }
}
