/** Switching the plugin on in a configuration text (plugin-config.py): a structural edit of its lines. */
module PluginConfig {
  import opened Basics
  import opened Text

  /** What the tool sees of a line: the spaces in front of it and the text without surrounding blanks. */
  datatype Row = Row(indent: nat, body: string)

  type Viewer = string -> Row

  function View(line: string): Row {
    Row(Indent(line), Strip(line))
  }

  predicate Content(r: Row) {
    r.body != "" && r.body[0] != '#'
  }

  function Blanks(n: nat): string {
    if n == 0 then "" else " " + Blanks(n - 1)
  }

  /** The line that reads as a given row. */
  function Written(r: Row): string {
    Blanks(r.indent) + r.body
  }

  const EMPTY := Row(0, "")
  const PLUGINS := Row(0, "plugins:")
  const SWITCH := Row(2, "enabled: true")
  const CONFIGS := Row(2, "configs:")
  const PLUGIN := Row(4, "deepseek-web-go:")
  const ENABLED := Row(6, "enabled: true")
  const DISABLED := Row(6, "enabled: false")

  /** The lines the tool writes read back as the rows they stand for. */
  predicate Faithful(view: Viewer) {
    && view(Written(EMPTY)) == EMPTY && view(Written(PLUGINS)) == PLUGINS && view(Written(SWITCH)) == SWITCH
    && view(Written(CONFIGS)) == CONFIGS && view(Written(PLUGIN)) == PLUGIN && view(Written(ENABLED)) == ENABLED
  }

  function Rows(lines: seq<string>, view: Viewer): (rows: seq<Row>)
    ensures |rows| == |lines| && forall i :: 0 <= i < |lines| ==> rows[i] == view(lines[i])
  {
    seq(|lines|, i requires 0 <= i < |lines| => view(lines[i]))
  }

  /** The first line in a range that reads as a given row, or -1. */
  function First(rows: seq<Row>, start: nat, end: nat, want: Row): (k: int)
    requires start <= end <= |rows|
    ensures k == -1 || (start <= k < end && rows[k] == want)
    ensures forall i :: start <= i < (if k == -1 then end else k) ==> rows[i] != want
    decreases end - start
  {
    if start == end then -1 else if rows[start] == want then start else First(rows, start + 1, end, want)
  }

  /** The first line with content that is not deeper than the block's own line, or the end. */
  function BlockEnd(rows: seq<Row>, start: nat, indent: nat): (k: nat)
    requires start <= |rows|
    ensures start <= k <= |rows| && (k < |rows| ==> Content(rows[k]) && rows[k].indent <= indent)
    ensures Deeper(rows, start, k, indent)
    decreases |rows| - start
  {
    if start == |rows| || (Content(rows[start]) && rows[start].indent <= indent) then start
    else BlockEnd(rows, start + 1, indent)
  }

  predicate Deeper(rows: seq<Row>, start: nat, end: nat, indent: nat)
    requires end <= |rows|
  {
    forall i :: start <= i < end && Content(rows[i]) ==> rows[i].indent > indent
  }

  predicate Absent(rows: seq<Row>, start: nat, end: nat, row: Row)
    requires end <= |rows|
  {
    forall i :: start <= i < end ==> rows[i] != row
  }

  /** The way to the configs entry: the first one in the first plugins entry. */
  predicate PathToConfigs(rows: seq<Row>, p: nat, c: nat) {
    && p < c < |rows| && rows[p] == PLUGINS && rows[c] == CONFIGS
    && Absent(rows, 0, p, PLUGINS) && Absent(rows, p + 1, c, CONFIGS) && Deeper(rows, p + 1, c, 0)
  }

  /** The path to the plugin's own line. */
  predicate PathTo(rows: seq<Row>, p: nat, c: nat, g: nat) {
    && PathToConfigs(rows, p, c) && c < g < |rows|
    && rows[g] == PLUGIN && Absent(rows, c + 1, g, PLUGIN) && Deeper(rows, c + 1, g, 2)
  }

  /** The plugin is on: enabled: true stands in the block of the first entry of the plugin there. */
  predicate On(rows: seq<Row>, p: nat, c: nat, g: nat, e: nat) {
    && PathTo(rows, p, c, g) && g < e < |rows| && rows[e] == ENABLED && Deeper(rows, g + 1, e, 4)
  }

  ghost predicate SwitchedOn(rows: seq<Row>) {
    exists p, c, g, e :: On(rows, p, c, g, e)
  }

  const CONFIGS_BLOCK := [Written(CONFIGS), Written(PLUGIN), Written(ENABLED)]
  const PLUGIN_BLOCK := [Written(PLUGIN), Written(ENABLED)]
  const PLUGINS_BLOCK := [Written(PLUGINS), Written(SWITCH), Written(CONFIGS), Written(PLUGIN), Written(ENABLED)]

  function Insert(lines: seq<string>, at: nat, added: seq<string>): seq<string>
    requires at <= |lines|
  {
    lines[..at] + added + lines[at..]
  }

  /** A blank line in front of an appended block, unless there is one. */
  function Gap(rows: seq<Row>): seq<string> {
    if rows != [] && rows[|rows| - 1].body != "" then [""] else []
  }

  /** The lines after the edit. */
  function Merged(lines: seq<string>, view: Viewer): seq<string> {
    var rows := Rows(lines, view);
    var p := First(rows, 0, |rows|, PLUGINS);
    if p < 0 then
      lines + Gap(rows) + PLUGINS_BLOCK
    else MergedPlugins(lines, rows, p)
  }

  function MergedPlugins(lines: seq<string>, rows: seq<Row>, p: nat): seq<string>
    requires |rows| == |lines| && p < |rows|
  {
    var end := BlockEnd(rows, p + 1, 0);
    var c := First(rows, p + 1, end, CONFIGS);
    if c < 0 then Insert(lines, end, CONFIGS_BLOCK) else MergedConfigs(lines, rows, c)
  }

  function MergedConfigs(lines: seq<string>, rows: seq<Row>, c: nat): seq<string>
    requires |rows| == |lines| && c < |rows|
  {
    var end := BlockEnd(rows, c + 1, 2);
    var g := First(rows, c + 1, end, PLUGIN);
    if g < 0 then Insert(lines, end, PLUGIN_BLOCK) else MergedPlugin(lines, rows, g)
  }

  function MergedPlugin(lines: seq<string>, rows: seq<Row>, g: nat): seq<string>
    requires |rows| == |lines| && g < |rows|
  {
    var end := BlockEnd(rows, g + 1, 4);
    if First(rows, g + 1, end, ENABLED) >= 0 then lines
    else
      var d := First(rows, g + 1, end, DISABLED);
      if d >= 0 then lines[d := Written(ENABLED)] else Insert(lines, g + 1, [Written(ENABLED)])
  }

  // ---- the edit as written ----

  method FindLine(lines: seq<string>, start: nat, end: nat, want: Row, view: Viewer) returns (k: int)
    requires start <= end <= |lines|
    ensures k == First(Rows(lines, view), start, end, want)
  {
    ghost var rows := Rows(lines, view);
    for i := start to end
      invariant First(rows, start, end, want) == First(rows, i, end, want)
    {
      if view(lines[i]) == want {
        return i;
      }
    }
    k := -1;
  }

  method FindBlockEnd(lines: seq<string>, start: nat, indent: nat, view: Viewer) returns (i: nat)
    requires start <= |lines|
    ensures i == BlockEnd(Rows(lines, view), start, indent)
  {
    ghost var rows := Rows(lines, view);
    i := start;
    while i < |lines|
      invariant start <= i <= |lines|
      invariant BlockEnd(rows, start, indent) == BlockEnd(rows, i, indent)
    {
      var r := view(lines[i]);
      if Content(r) && r.indent <= indent {
        return;
      }
      i := i + 1;
    }
  }

  /** The last part of the edit, in the plugin's own block. */
  method SwitchOn(lines: seq<string>, plugin: nat, view: Viewer) returns (out: seq<string>)
    requires plugin < |lines|
    ensures out == MergedPlugin(lines, Rows(lines, view), plugin)
  {
    out := lines;
    var pluginEnd := FindBlockEnd(out, plugin + 1, 4, view);
    var enabled := FindLine(out, plugin + 1, pluginEnd, ENABLED, view);
    if enabled < 0 {
      enabled := FindLine(out, plugin + 1, pluginEnd, DISABLED, view);
      if enabled >= 0 {
        out := out[enabled := Written(ENABLED)];
      } else {
        out := Insert(out, plugin + 1, [Written(ENABLED)]);
      }
    }
  }

  method MergeConfigs(lines: seq<string>, configs: nat, view: Viewer) returns (out: seq<string>)
    requires configs < |lines|
    ensures out == MergedConfigs(lines, Rows(lines, view), configs)
  {
    var end := FindBlockEnd(lines, configs + 1, 2, view);
    var plugin := FindLine(lines, configs + 1, end, PLUGIN, view);
    if plugin >= 0 {
      out := SwitchOn(lines, plugin, view);
    } else {
      out := Insert(lines, end, PLUGIN_BLOCK);
    }
  }

  method MergePlugins(lines: seq<string>, plugins: nat, view: Viewer) returns (out: seq<string>)
    requires plugins < |lines|
    ensures out == MergedPlugins(lines, Rows(lines, view), plugins)
  {
    var end := FindBlockEnd(lines, plugins + 1, 0, view);
    var configs := FindLine(lines, plugins + 1, end, CONFIGS, view);
    if configs < 0 {
      out := Insert(lines, end, CONFIGS_BLOCK);
    } else {
      out := MergeConfigs(lines, configs, view);
    }
  }

  method MergeLines(lines: seq<string>, view: Viewer) returns (out: seq<string>)
    ensures out == Merged(lines, view)
  {
    out := lines;
    var plugins := FindLine(out, 0, |out|, PLUGINS, view);
    if plugins < 0 {
      if out != [] && view(out[|out| - 1]).body != "" {
        out := out + [""];
      }
      out := out + PLUGINS_BLOCK;
    } else {
      out := MergePlugins(out, plugins, view);
    }
  }

  /** merge: the text with the plugin on. */
  method Merge(text: string) returns (out: string)
    ensures out == MergedText(text)
  {
    var lines := SplitLines(text);
    lines := MergeLines(lines, View);
    out := Terminated(lines);
  }

  function MergedText(text: string): string {
    Terminated(Merged(SplitLines(text), View))
  }

  // ---- the plugin is on afterwards ----

  lemma FirstIs(rows: seq<Row>, start: nat, k: nat, end: nat, want: Row)
    requires start <= k < end <= |rows| && rows[k] == want && Absent(rows, start, k, want)
    ensures First(rows, start, end, want) == k
  {
  }

  lemma LeftAloneBelowConfigs(lines: seq<string>, rows: seq<Row>, c: nat, g: nat, e: nat)
    requires |rows| == |lines| && c < g < e < |rows|
    requires rows[g] == PLUGIN && Absent(rows, c + 1, g, PLUGIN) && Deeper(rows, c + 1, g, 2)
    requires rows[e] == ENABLED && Deeper(rows, g + 1, e, 4)
    ensures MergedConfigs(lines, rows, c) == lines
  {
    EndBeyond(rows, c + 1, g, 2);
    EndBeyond(rows, g + 1, e, 4);
    FirstIs(rows, c + 1, g, BlockEnd(rows, c + 1, 2), PLUGIN);
    LeftAloneBelowPlugin(lines, rows, g, e);
  }

  lemma LeftAloneBelowPlugin(lines: seq<string>, rows: seq<Row>, g: nat, e: nat)
    requires |rows| == |lines| && g < e < |rows| && rows[e] == ENABLED
    requires e < BlockEnd(rows, g + 1, 4)
    ensures MergedPlugin(lines, rows, g) == lines
  {
    assert First(rows, g + 1, BlockEnd(rows, g + 1, 4), ENABLED) >= 0;
  }

  /** A configuration with the plugin on is left as it is. */
  lemma OnIsLeftAlone(lines: seq<string>, view: Viewer, p: nat, c: nat, g: nat, e: nat)
    requires On(Rows(lines, view), p, c, g, e)
    ensures Merged(lines, view) == lines
  {
    var rows := Rows(lines, view);
    LeftAloneBelowConfigs(lines, rows, c, g, e);
    EndBeyond(rows, p + 1, c, 0);
    FirstIs(rows, p + 1, c, BlockEnd(rows, p + 1, 0), CONFIGS);
    assert MergedPlugins(lines, rows, p) == lines;
    FirstIs(rows, 0, p, |rows|, PLUGINS);
  }

  /** A block reaches past a line with content that is deeper than it. */
  lemma EndBeyond(rows: seq<Row>, start: nat, at: nat, indent: nat)
    requires start <= at < |rows| && Deeper(rows, start, at, indent)
    requires Content(rows[at]) && rows[at].indent > indent
    ensures BlockEnd(rows, start, indent) > at
  {
    var k := BlockEnd(rows, start, indent);
    if k <= at {
      assert false;
    }
  }

  lemma AppendedIsOn(lines: seq<string>, gap: seq<string>, view: Viewer)
    requires Faithful(view) && Absent(Rows(lines, view), 0, |lines|, PLUGINS)
    requires forall i :: 0 <= i < |gap| ==> view(gap[i]) == EMPTY
    ensures SwitchedOn(Rows(lines + gap + PLUGINS_BLOCK, view))
  {
    var front := lines + gap;
    var out := front + PLUGINS_BLOCK;
    var after, p := Rows(out, view), |front|;
    forall i | 0 <= i < p ensures after[i] != PLUGINS {
      if i < |lines| {
        assert out[i] == lines[i] && Rows(lines, view)[i] != PLUGINS;
      } else {
        assert out[i] == gap[i - |lines|];
      }
    }
    assert forall i :: 0 <= i < 5 ==> out[p + i] == PLUGINS_BLOCK[i];
    assert after[p + 0] == PLUGINS && after[p + 1] == SWITCH && after[p + 2] == CONFIGS;
    assert after[p + 3] == PLUGIN && after[p + 4] == ENABLED;
    assert On(after, p, p + 2, p + 3, p + 4);
  }

  /** Where the lines of an edited text come from. */
  lemma Inserted(lines: seq<string>, at: nat, added: seq<string>, view: Viewer)
    requires at <= |lines|
    ensures var rows, after := Rows(lines, view), Rows(Insert(lines, at, added), view);
      && |after| == |rows| + |added| && (forall i :: 0 <= i < at ==> after[i] == rows[i])
      && (forall i :: 0 <= i < |added| ==> after[at + i] == view(added[i]))
  {
    var out := Insert(lines, at, added);
    assert forall i :: 0 <= i < |added| ==> out[at + i] == added[i];
  }

  lemma ConfigsIsOn(lines: seq<string>, view: Viewer, p: nat, end: nat)
    requires Faithful(view) && p < end <= |lines|
    requires var rows := Rows(lines, view);
      && rows[p] == PLUGINS && Absent(rows, 0, p, PLUGINS)
      && Deeper(rows, p + 1, end, 0) && Absent(rows, p + 1, end, CONFIGS)
    ensures SwitchedOn(Rows(Insert(lines, end, CONFIGS_BLOCK), view))
  {
    var rows, after := Rows(lines, view), Rows(Insert(lines, end, CONFIGS_BLOCK), view);
    Inserted(lines, end, CONFIGS_BLOCK, view);
    assert CONFIGS_BLOCK[0] == Written(CONFIGS) && CONFIGS_BLOCK[1] == Written(PLUGIN);
    assert CONFIGS_BLOCK[2] == Written(ENABLED);
    assert after[end + 0] == CONFIGS && after[end + 1] == PLUGIN && after[end + 2] == ENABLED;
    assert On(after, p, end, end + 1, end + 2);
  }

  lemma PluginIsOn(lines: seq<string>, view: Viewer, p: nat, c: nat, end: nat)
    requires Faithful(view) && PathToConfigs(Rows(lines, view), p, c) && c < end <= |lines|
    requires Deeper(Rows(lines, view), c + 1, end, 2) && Absent(Rows(lines, view), c + 1, end, PLUGIN)
    ensures SwitchedOn(Rows(Insert(lines, end, PLUGIN_BLOCK), view))
  {
    var rows, after := Rows(lines, view), Rows(Insert(lines, end, PLUGIN_BLOCK), view);
    Inserted(lines, end, PLUGIN_BLOCK, view);
    assert PLUGIN_BLOCK[0] == Written(PLUGIN) && PLUGIN_BLOCK[1] == Written(ENABLED);
    assert after[end + 0] == PLUGIN && after[end + 1] == ENABLED;
    assert On(after, p, c, end, end + 1);
  }

  lemma EnabledIsOn(lines: seq<string>, view: Viewer, p: nat, c: nat, g: nat)
    requires Faithful(view) && PathTo(Rows(lines, view), p, c, g)
    ensures SwitchedOn(Rows(MergedPlugin(lines, Rows(lines, view), g), view))
  {
    var rows := Rows(lines, view);
    var end := BlockEnd(rows, g + 1, 4);
    var e, d := First(rows, g + 1, end, ENABLED), First(rows, g + 1, end, DISABLED);
    if e >= 0 {
      assert On(rows, p, c, g, e);
    } else if d >= 0 {
      FlippedIsOn(lines, view, p, c, g, d);
    } else {
      AddedIsOn(lines, view, p, c, g);
    }
  }

  lemma FlippedIsOn(lines: seq<string>, view: Viewer, p: nat, c: nat, g: nat, d: nat)
    requires Faithful(view) && PathTo(Rows(lines, view), p, c, g)
    requires g < d < |lines| && Deeper(Rows(lines, view), g + 1, d, 4)
    ensures SwitchedOn(Rows(lines[d := Written(ENABLED)], view))
  {
    var rows, after := Rows(lines, view), Rows(lines[d := Written(ENABLED)], view);
    assert forall i :: 0 <= i < |rows| && i != d ==> after[i] == rows[i];
    assert On(after, p, c, g, d);
  }

  lemma AddedIsOn(lines: seq<string>, view: Viewer, p: nat, c: nat, g: nat)
    requires Faithful(view) && PathTo(Rows(lines, view), p, c, g)
    ensures SwitchedOn(Rows(Insert(lines, g + 1, [Written(ENABLED)]), view))
  {
    var after := Rows(Insert(lines, g + 1, [Written(ENABLED)]), view);
    Inserted(lines, g + 1, [Written(ENABLED)], view);
    assert after[g + 1 + 0] == ENABLED;
    assert On(after, p, c, g, g + 1);
  }

  lemma BelowConfigsIsOn(lines: seq<string>, view: Viewer, p: nat, c: nat)
    requires Faithful(view) && PathToConfigs(Rows(lines, view), p, c)
    ensures SwitchedOn(Rows(MergedConfigs(lines, Rows(lines, view), c), view))
  {
    var rows := Rows(lines, view);
    var end := BlockEnd(rows, c + 1, 2);
    var g := First(rows, c + 1, end, PLUGIN);
    if g < 0 {
      PluginIsOn(lines, view, p, c, end);
    } else {
      EnabledIsOn(lines, view, p, c, g);
    }
  }

  lemma BelowPluginsIsOn(lines: seq<string>, view: Viewer, p: nat)
    requires Faithful(view) && p < |lines|
    requires Rows(lines, view)[p] == PLUGINS && Absent(Rows(lines, view), 0, p, PLUGINS)
    ensures SwitchedOn(Rows(MergedPlugins(lines, Rows(lines, view), p), view))
  {
    var rows := Rows(lines, view);
    var end := BlockEnd(rows, p + 1, 0);
    var c := First(rows, p + 1, end, CONFIGS);
    if c < 0 {
      ConfigsIsOn(lines, view, p, end);
    } else {
      BelowConfigsIsOn(lines, view, p, c);
    }
  }

  /** After the edit the plugin is on, whatever the lines were. */
  lemma MergedIsOn(lines: seq<string>, view: Viewer)
    requires Faithful(view)
    ensures SwitchedOn(Rows(Merged(lines, view), view))
  {
    var rows := Rows(lines, view);
    var p := First(rows, 0, |rows|, PLUGINS);
    if p < 0 {
      assert Written(EMPTY) == "";
      AppendedIsOn(lines, Gap(rows), view);
    } else {
      BelowPluginsIsOn(lines, view, p);
    }
  }

  /** The edit leaves the lines alone exactly when the plugin is on already. */
  lemma LeftAloneIffOn(lines: seq<string>, view: Viewer)
    requires Faithful(view)
    ensures Merged(lines, view) == lines <==> SwitchedOn(Rows(lines, view))
  {
    MergedIsOn(lines, view);
    if p, c, g, e :| On(Rows(lines, view), p, c, g, e) {
      OnIsLeftAlone(lines, view, p, c, g, e);
    }
  }

  // ---- nothing else changes ----

  /** The lines are the old ones with one run of new lines between them, or with the plugin's own switch flipped. */
  ghost predicate Conservative(before: seq<string>, after: seq<string>, view: Viewer) {
    || after == before
    || (exists at | 0 <= at <= |before| :: AddsAt(before, after, at))
    || (exists p, c, g, d :: FlipsAt(before, after, view, p, c, g, d))
  }

  predicate AddsAt(before: seq<string>, after: seq<string>, at: nat)
    requires at <= |before|
  {
    && |after| > |before| && after[..at] == before[..at]
    && after[at + |after| - |before|..] == before[at..]
    && after[at..at + |after| - |before|] in
       [[""] + PLUGINS_BLOCK, PLUGINS_BLOCK, CONFIGS_BLOCK, PLUGIN_BLOCK, [Written(ENABLED)]]
  }

  predicate FlipsAt(before: seq<string>, after: seq<string>, view: Viewer, p: nat, c: nat, g: nat, d: nat) {
    var rows := Rows(before, view);
    && PathTo(rows, p, c, g) && g < d < |rows| && Deeper(rows, g + 1, d, 4)
    && rows[d] == DISABLED && after == before[d := Written(ENABLED)]
  }

  lemma InsertAdds(lines: seq<string>, at: nat, added: seq<string>)
    requires at <= |lines| && added != []
    requires added in [[""] + PLUGINS_BLOCK, PLUGINS_BLOCK, CONFIGS_BLOCK, PLUGIN_BLOCK, [Written(ENABLED)]]
    ensures AddsAt(lines, Insert(lines, at, added), at)
  {
    var out := Insert(lines, at, added);
    assert out[at..at + |added|] == added;
    assert out[..at] == lines[..at];
    assert out[at + |added|..] == lines[at..];
  }

  lemma AppendAdds(lines: seq<string>, gap: seq<string>)
    requires gap == [] || gap == [""]
    ensures AddsAt(lines, lines + gap + PLUGINS_BLOCK, |lines|)
  {
    var added := gap + PLUGINS_BLOCK;
    if gap == [] {
      assert added == PLUGINS_BLOCK;
    }
    InsertAdds(lines, |lines|, added);
    InsertAtEnd(lines, added);
    Assoc(lines, gap, PLUGINS_BLOCK);
  }

  lemma InsertAtEnd(lines: seq<string>, added: seq<string>)
    ensures Insert(lines, |lines|, added) == lines + added
  {
  }

  lemma PluginIsConservative(lines: seq<string>, view: Viewer, p: nat, c: nat, g: nat)
    requires PathTo(Rows(lines, view), p, c, g)
    ensures Conservative(lines, MergedPlugin(lines, Rows(lines, view), g), view)
  {
    var rows := Rows(lines, view);
    var out := MergedPlugin(lines, rows, g);
    var end := BlockEnd(rows, g + 1, 4);
    var d := First(rows, g + 1, end, DISABLED);
    if First(rows, g + 1, end, ENABLED) < 0 {
      if d >= 0 {
        assert FlipsAt(lines, out, view, p, c, g, d);
      } else {
        InsertAdds(lines, g + 1, [Written(ENABLED)]);
      }
    }
  }

  lemma BelowConfigsIsConservative(lines: seq<string>, view: Viewer, p: nat, c: nat)
    requires PathToConfigs(Rows(lines, view), p, c)
    ensures Conservative(lines, MergedConfigs(lines, Rows(lines, view), c), view)
  {
    var rows := Rows(lines, view);
    var end := BlockEnd(rows, c + 1, 2);
    var g := First(rows, c + 1, end, PLUGIN);
    if g < 0 {
      InsertAdds(lines, end, PLUGIN_BLOCK);
    } else {
      PluginIsConservative(lines, view, p, c, g);
    }
  }

  lemma BelowPluginsIsConservative(lines: seq<string>, view: Viewer, p: nat)
    requires p < |lines| && Rows(lines, view)[p] == PLUGINS && Absent(Rows(lines, view), 0, p, PLUGINS)
    ensures Conservative(lines, MergedPlugins(lines, Rows(lines, view), p), view)
  {
    var rows := Rows(lines, view);
    var end := BlockEnd(rows, p + 1, 0);
    var c := First(rows, p + 1, end, CONFIGS);
    if c < 0 {
      InsertAdds(lines, end, CONFIGS_BLOCK);
    } else {
      BelowConfigsIsConservative(lines, view, p, c);
    }
  }

  lemma MergedIsConservative(lines: seq<string>, view: Viewer)
    ensures Conservative(lines, Merged(lines, view), view)
  {
    var rows := Rows(lines, view);
    var p := First(rows, 0, |rows|, PLUGINS);
    if p < 0 {
      AppendAdds(lines, Gap(rows));
    } else {
      BelowPluginsIsConservative(lines, view, p);
    }
  }

  // ---- on texts ----

  lemma {:induction false} WrittenReads(n: nat, body: string)
    requires body != "" && !IsSpace(body[0]) && !IsSpace(body[|body| - 1])
    ensures View(Blanks(n) + body) == Row(n, body)
  {
    if n == 0 {
      assert Blanks(n) + body == body;
      StripFixed(body);
    } else {
      WrittenReads(n - 1, body);
      Assoc(" ", Blanks(n - 1), body);
      BlankInFront(Blanks(n - 1) + body);
    }
  }

  lemma BlankInFront(rest: string)
    ensures View(" " + rest) == Row(1 + Indent(rest), Strip(rest))
  {
    assert (" " + rest)[1..] == rest;
  }

  lemma {:induction false} NoBreakInBlanks(n: nat, body: string)
    requires NoBreaks(body)
    ensures NoBreaks(Blanks(n) + body)
  {
    if n == 0 {
      assert Blanks(n) + body == body;
    } else {
      NoBreakInBlanks(n - 1, body);
      assert Blanks(n) + body == " " + (Blanks(n - 1) + body);
    }
  }

  lemma TheViewIsFaithful()
    ensures Faithful(View)
  {
    assert Written(EMPTY) == "";
    SectionLinesRead();
    SwitchLinesRead();
  }

  lemma SectionLinesRead()
    ensures View(Written(PLUGINS)) == PLUGINS && View(Written(CONFIGS)) == CONFIGS && View(Written(PLUGIN)) == PLUGIN
  {
    WrittenReads(PLUGINS.indent, PLUGINS.body);
    WrittenReads(CONFIGS.indent, CONFIGS.body);
    WrittenReads(PLUGIN.indent, PLUGIN.body);
  }

  lemma SwitchLinesRead()
    ensures View(Written(SWITCH)) == SWITCH && View(Written(ENABLED)) == ENABLED
  {
    WrittenReads(SWITCH.indent, SWITCH.body);
    WrittenReads(ENABLED.indent, ENABLED.body);
  }

  /** The edited text: the plugin is on in it, editing it again changes nothing, and its lines are the old ones
      but for one run of new lines or the flipped switch of the plugin. */
  lemma MergeTwice(text: string)
    ensures var out := MergedText(text);
      && MergedText(out) == out
      && SwitchedOn(Rows(SplitLines(out), View))
      && Conservative(SplitLines(text), SplitLines(out), View)
  {
    var lines := SplitLines(text);
    var out := Merged(lines, View);
    LinesHaveNoBreaks(text);
    TheViewIsFaithful();
    MergedIsOn(lines, View);
    MergedIsConservative(lines, View);
    ConservativeHasNoBreaks(lines, out, View);
    SplitAgain(out);
    var p, c, g, e :| On(Rows(out, View), p, c, g, e);
    OnIsLeftAlone(out, View, p, c, g, e);
  }

  lemma SplitAgain(lines: seq<string>)
    requires AllNoBreaks(lines)
    ensures SplitLines(Terminated(lines)) == lines
  {
    SplitTerminated(lines, "");
    assert Terminated(lines) + "" == Terminated(lines);
  }

  lemma VisibleHasNoBreaks(s: string)
    requires forall i :: 0 <= i < |s| ==> ' ' <= s[i] <= '~'
    ensures NoBreaks(s)
  {
  }

  lemma BodiesHaveNoBreaks()
    ensures NoBreaks(PLUGINS.body) && NoBreaks(SWITCH.body) && NoBreaks(CONFIGS.body)
    ensures NoBreaks(PLUGIN.body) && NoBreaks(ENABLED.body)
  {
    VisibleHasNoBreaks("plugins:");
    VisibleHasNoBreaks("enabled: true");
    VisibleHasNoBreaks("configs:");
    VisibleHasNoBreaks("deepseek-web-go:");
  }

  lemma WrittenHaveNoBreaks()
    ensures NoBreaks(Written(PLUGINS)) && NoBreaks(Written(SWITCH)) && NoBreaks(Written(CONFIGS))
    ensures NoBreaks(Written(PLUGIN)) && NoBreaks(Written(ENABLED))
  {
    BodiesHaveNoBreaks();
    NoBreakInBlanks(PLUGINS.indent, PLUGINS.body);
    NoBreakInBlanks(SWITCH.indent, SWITCH.body);
    NoBreakInBlanks(CONFIGS.indent, CONFIGS.body);
    NoBreakInBlanks(PLUGIN.indent, PLUGIN.body);
    NoBreakInBlanks(ENABLED.indent, ENABLED.body);
  }

  lemma AddedHasNoBreaks(added: seq<string>)
    requires added in [[""] + PLUGINS_BLOCK, PLUGINS_BLOCK, CONFIGS_BLOCK, PLUGIN_BLOCK, [Written(ENABLED)]]
    ensures AllNoBreaks(added)
  {
    WrittenHaveNoBreaks();
  }

  lemma ConservativeHasNoBreaks(before: seq<string>, after: seq<string>, view: Viewer)
    requires AllNoBreaks(before) && Conservative(before, after, view)
    ensures AllNoBreaks(after)
  {
    if at :| 0 <= at <= |before| && AddsAt(before, after, at) {
      AddingKeepsNoBreaks(before, after, at);
    } else {
      WrittenHaveNoBreaks();
    }
  }

  lemma AddingKeepsNoBreaks(before: seq<string>, after: seq<string>, at: nat)
    requires AllNoBreaks(before) && at <= |before| && AddsAt(before, after, at)
    ensures AllNoBreaks(after)
  {
    var n := |after| - |before|;
    AddedHasNoBreaks(after[at..at + n]);
    Slices(after, at, at + n);
    Pieces(after, after[..at], after[at..at + n], after[at + n..]);
  }

  lemma Pieces(s: seq<string>, a: seq<string>, b: seq<string>, c: seq<string>)
    requires s == a + b + c && AllNoBreaks(a) && AllNoBreaks(b) && AllNoBreaks(c)
    ensures AllNoBreaks(s)
  {
  }
}
