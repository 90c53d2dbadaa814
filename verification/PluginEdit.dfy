/** The edit of plugin-config.py told line by line: which lines it looks for and what it puts where. */
module PluginEdit {
  import opened Text
  import opened PluginConfig

  predicate Reads(line: string, r: Row) {
    Indent(line) == r.indent && Strip(line) == r.body
  }

  /** A line that does not end a block of this indent: blank, a comment, or deeper. */
  predicate Inside(line: string, indent: nat) {
    Strip(line) == "" || StartsWith(Strip(line), "#") || Indent(line) > indent
  }

  predicate NoneReads(lines: seq<string>, start: nat, end: nat, r: Row)
    requires end <= |lines|
  {
    forall i :: start <= i < end ==> !Reads(lines[i], r)
  }

  predicate AllInside(lines: seq<string>, start: nat, end: nat, indent: nat)
    requires end <= |lines|
  {
    forall i :: start <= i < end ==> Inside(lines[i], indent)
  }

  /** The block that begins at start reaches to end. */
  predicate Reaches(lines: seq<string>, start: nat, end: nat, indent: nat) {
    start <= end <= |lines| && AllInside(lines, start, end, indent) && (end < |lines| ==> !Inside(lines[end], indent))
  }

  /** The line that opens the section, the first to read so. */
  predicate Section(lines: seq<string>, p: nat) {
    p < |lines| && Reads(lines[p], PLUGINS) && NoneReads(lines, 0, p, PLUGINS)
  }

  predicate ConfigsAt(lines: seq<string>, p: nat, c: nat) {
    && Section(lines, p) && p < c < |lines| && Reads(lines[c], CONFIGS)
    && NoneReads(lines, p + 1, c, CONFIGS) && AllInside(lines, p + 1, c, 0)
  }

  predicate PluginAt(lines: seq<string>, p: nat, c: nat, g: nat) {
    && ConfigsAt(lines, p, c) && c < g < |lines| && Reads(lines[g], PLUGIN)
    && NoneReads(lines, c + 1, g, PLUGIN) && AllInside(lines, c + 1, g, 2)
  }

  lemma FirstReads(lines: seq<string>, start: nat, end: nat, r: Row)
    requires start <= end <= |lines|
    ensures var k := First(Rows(lines, View), start, end, r);
      && (k == -1 <==> NoneReads(lines, start, end, r))
      && (k != -1 ==> start <= k < end && Reads(lines[k], r) && NoneReads(lines, start, k, r))
  {
    var rows := Rows(lines, View);
    assert forall i :: 0 <= i < |lines| ==> rows[i] == View(lines[i]);
    assert forall i :: 0 <= i < |lines| ==> (rows[i] == r <==> Reads(lines[i], r));
  }

  lemma FirstReadsAt(lines: seq<string>, start: nat, k: nat, end: nat, r: Row)
    requires start <= k < end <= |lines| && Reads(lines[k], r) && NoneReads(lines, start, k, r)
    ensures First(Rows(lines, View), start, end, r) == k
  {
    FirstReads(lines, start, end, r);
  }

  lemma EndOfBlock(lines: seq<string>, start: nat, end: nat, indent: nat)
    requires Reaches(lines, start, end, indent)
    ensures BlockEnd(Rows(lines, View), start, indent) == end
  {
    var rows := Rows(lines, View);
    assert forall i :: 0 <= i < |lines| ==>
      (Inside(lines[i], indent) <==> !(Content(rows[i]) && rows[i].indent <= indent));
  }

  /** A line further in is passed on the way to the end of the block. */
  lemma ReachesBeyond(lines: seq<string>, start: nat, at: nat, indent: nat, r: Row)
    requires start <= at < |lines| && AllInside(lines, start, at, indent) && Reads(lines[at], r) && r.indent > indent
    ensures BlockEnd(Rows(lines, View), start, indent) > at
  {
    var rows := Rows(lines, View);
    assert forall i :: 0 <= i < |lines| ==>
      (Inside(lines[i], indent) <==> !(Content(rows[i]) && rows[i].indent <= indent));
  }

  /** Without the section, it is appended, behind a blank line unless the text is empty or ends in one. */
  lemma AppendsSection(lines: seq<string>)
    requires NoneReads(lines, 0, |lines|, PLUGINS)
    ensures Merged(lines, View) == lines + (if lines != [] && Strip(lines[|lines| - 1]) != "" then [""] else [])
      + [Written(PLUGINS), Written(SWITCH), Written(CONFIGS), Written(PLUGIN), Written(ENABLED)]
  {
    FirstReads(lines, 0, |lines|, PLUGINS);
    assert lines != [] ==> Rows(lines, View)[|lines| - 1].body == Strip(lines[|lines| - 1]);
  }

  /** The rows the edit looks for. */
  lemma RowsLookedFor()
    ensures PLUGINS == Row(0, "plugins:") && CONFIGS == Row(2, "configs:") && PLUGIN == Row(4, "deepseek-web-go:")
    ensures ENABLED == Row(6, "enabled: true") && DISABLED == Row(6, "enabled: false")
  {
  }

  /** The lines it writes. */
  lemma LinesWritten()
    ensures Written(PLUGINS) == "plugins:" && Written(SWITCH) == "  enabled: true" && Written(CONFIGS) == "  configs:"
    ensures Written(PLUGIN) == "    deepseek-web-go:" && Written(ENABLED) == "      enabled: true"
  {
    SixBlanks();
    OuterLines();
    InnerLines();
  }

  lemma OuterLines()
    requires Blanks(0) == "" && Blanks(2) == "  "
    ensures Written(PLUGINS) == "plugins:" && Written(SWITCH) == "  enabled: true" && Written(CONFIGS) == "  configs:"
  {
  }

  lemma InnerLines()
    requires Blanks(4) == "    " && Blanks(6) == "      "
    ensures Written(PLUGIN) == "    deepseek-web-go:" && Written(ENABLED) == "      enabled: true"
  {
  }

  lemma SixBlanks()
    ensures Blanks(0) == "" && Blanks(2) == "  " && Blanks(4) == "    " && Blanks(6) == "      "
  {
    assert Blanks(1) == " " && Blanks(3) == "   " && Blanks(5) == "     ";
  }

  /** A section without configs gets them at its end. */
  lemma AddsConfigs(lines: seq<string>, p: nat, end: nat)
    requires Section(lines, p) && p < end && Reaches(lines, p + 1, end, 0) && NoneReads(lines, p + 1, end, CONFIGS)
    ensures Merged(lines, View)
         == lines[..end] + [Written(CONFIGS), Written(PLUGIN), Written(ENABLED)] + lines[end..]
  {
    FirstReadsAt(lines, 0, p, |lines|, PLUGINS);
    EndOfBlock(lines, p + 1, end, 0);
    FirstReads(lines, p + 1, end, CONFIGS);
  }

  lemma AtConfigs(lines: seq<string>, p: nat, c: nat)
    requires ConfigsAt(lines, p, c)
    ensures Merged(lines, View) == MergedConfigs(lines, Rows(lines, View), c)
  {
    FirstReadsAt(lines, 0, p, |lines|, PLUGINS);
    ReachesBeyond(lines, p + 1, c, 0, CONFIGS);
    FirstReadsAt(lines, p + 1, c, BlockEnd(Rows(lines, View), p + 1, 0), CONFIGS);
  }

  /** Configs without the plugin get it at their end. */
  lemma AddsPlugin(lines: seq<string>, p: nat, c: nat, end: nat)
    requires ConfigsAt(lines, p, c) && c < end && Reaches(lines, c + 1, end, 2)
    requires NoneReads(lines, c + 1, end, PLUGIN)
    ensures Merged(lines, View) == lines[..end] + [Written(PLUGIN), Written(ENABLED)] + lines[end..]
  {
    AtConfigs(lines, p, c);
    EndOfBlock(lines, c + 1, end, 2);
    FirstReads(lines, c + 1, end, PLUGIN);
    PluginAtEnd(lines, Rows(lines, View), c, end);
  }

  lemma PluginAtEnd(lines: seq<string>, rows: seq<Row>, c: nat, end: nat)
    requires |rows| == |lines| && c < end <= |rows| && BlockEnd(rows, c + 1, 2) == end
    requires First(rows, c + 1, end, PLUGIN) == -1
    ensures MergedConfigs(lines, rows, c) == lines[..end] + [Written(PLUGIN), Written(ENABLED)] + lines[end..]
  {
  }

  lemma FindsPlugin(lines: seq<string>, c: nat, g: nat)
    requires c < g < |lines| && Reads(lines[g], PLUGIN) && NoneReads(lines, c + 1, g, PLUGIN)
    requires AllInside(lines, c + 1, g, 2)
    ensures MergedConfigs(lines, Rows(lines, View), c) == MergedPlugin(lines, Rows(lines, View), g)
  {
    ReachesBeyond(lines, c + 1, g, 2, PLUGIN);
    FirstReadsAt(lines, c + 1, g, BlockEnd(Rows(lines, View), c + 1, 2), PLUGIN);
    GoesOnAtPlugin(lines, Rows(lines, View), c, g);
  }

  lemma GoesOnAtPlugin(lines: seq<string>, rows: seq<Row>, c: nat, g: nat)
    requires |rows| == |lines| && c < g < |rows| && First(rows, c + 1, BlockEnd(rows, c + 1, 2), PLUGIN) == g
    ensures MergedConfigs(lines, rows, c) == MergedPlugin(lines, rows, g)
  {
  }

  /** A switch that is there and on. */
  lemma FindsSwitchOn(lines: seq<string>, g: nat, end: nat)
    requires g < end && Reaches(lines, g + 1, end, 4) && !NoneReads(lines, g + 1, end, ENABLED)
    ensures MergedPlugin(lines, Rows(lines, View), g) == lines
  {
    EndOfBlock(lines, g + 1, end, 4);
    FirstReads(lines, g + 1, end, ENABLED);
  }

  lemma FindsSwitchOff(lines: seq<string>, g: nat, end: nat, d: nat)
    requires g < d < end && Reaches(lines, g + 1, end, 4) && NoneReads(lines, g + 1, end, ENABLED)
    requires Reads(lines[d], DISABLED) && NoneReads(lines, g + 1, d, DISABLED)
    ensures MergedPlugin(lines, Rows(lines, View), g) == lines[d := Written(ENABLED)]
  {
    EndOfBlock(lines, g + 1, end, 4);
    FirstReads(lines, g + 1, end, ENABLED);
    FirstReadsAt(lines, g + 1, d, end, DISABLED);
    SwitchFlips(lines, Rows(lines, View), g, end, d);
  }

  lemma SwitchFlips(lines: seq<string>, rows: seq<Row>, g: nat, end: nat, d: nat)
    requires |rows| == |lines| && g < end <= |rows| && BlockEnd(rows, g + 1, 4) == end
    requires First(rows, g + 1, end, ENABLED) == -1 && First(rows, g + 1, end, DISABLED) == d
    ensures MergedPlugin(lines, rows, g) == lines[d := Written(ENABLED)]
  {
  }

  lemma FindsNoSwitch(lines: seq<string>, g: nat, end: nat)
    requires g < end && Reaches(lines, g + 1, end, 4) && NoneReads(lines, g + 1, end, ENABLED)
    requires NoneReads(lines, g + 1, end, DISABLED)
    ensures MergedPlugin(lines, Rows(lines, View), g) == lines[..g + 1] + [Written(ENABLED)] + lines[g + 1..]
  {
    EndOfBlock(lines, g + 1, end, 4);
    FirstReads(lines, g + 1, end, ENABLED);
    FirstReads(lines, g + 1, end, DISABLED);
  }

  /** In the plugin's own block: nothing is done if it is switched on there; else the first switch that is off is
      flipped; a switch is put in only where there is none. */
  lemma SwitchesPlugin(lines: seq<string>, p: nat, c: nat, g: nat, end: nat)
    requires PluginAt(lines, p, c, g) && g < end && Reaches(lines, g + 1, end, 4)
    ensures !NoneReads(lines, g + 1, end, ENABLED) ==> Merged(lines, View) == lines
    ensures NoneReads(lines, g + 1, end, ENABLED) ==>
      && (forall d :: g < d < end && Reads(lines[d], DISABLED) && NoneReads(lines, g + 1, d, DISABLED) ==>
            Merged(lines, View) == lines[d := Written(ENABLED)])
      && (NoneReads(lines, g + 1, end, DISABLED) ==>
            Merged(lines, View) == lines[..g + 1] + [Written(ENABLED)] + lines[g + 1..])
  {
    AtConfigs(lines, p, c);
    FindsPlugin(lines, c, g);
    if !NoneReads(lines, g + 1, end, ENABLED) {
      FindsSwitchOn(lines, g, end);
    } else {
      forall d | g < d < end && Reads(lines[d], DISABLED) && NoneReads(lines, g + 1, d, DISABLED)
        ensures Merged(lines, View) == lines[d := Written(ENABLED)]
      {
        FindsSwitchOff(lines, g, end, d);
      }
      if NoneReads(lines, g + 1, end, DISABLED) {
        FindsNoSwitch(lines, g, end);
      }
    }
  }
}
