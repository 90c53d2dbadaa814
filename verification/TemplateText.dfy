/** What rendering does to the lines of a template, told by how the lines look. */
module TemplateText {
  import opened Basics
  import opened Text
  import opened Render
  import opened ClientKeys
  import opened KeyRoundTrip
  import opened KeyForms
  import opened KeyBlocks

  predicate HeadLine(line: string) {
    StartsWith(line, "api-keys:")
  }

  predicate Blank(line: string) {
    Strip(line) == ""
  }

  predicate Dashed(line: string) {
    StartsWith(Strip(line), "-")
  }

  lemma HeadHasText(line: string)
    requires HeadLine(line)
    ensures !Blank(line) && !Dashed(line)
  {
    assert line[0] == "api-keys:"[0];
    DropBackKeeps(line);
  }

  /** How the rewriting tells lines apart. */
  lemma KindsAre(line: string)
    ensures KINDS(line) == if HeadLine(line) then Head else if Blank(line) then Empty
                           else if Dashed(line) then Item else Other
  {
  }

  // ---- lines that stay ----

  /** A line with text that neither opens a key list nor looks like a list item. */
  predicate Solid(line: string) {
    !HeadLine(line) && !Blank(line) && !Dashed(line)
  }

  function Solids(lines: seq<string>): seq<string> {
    if lines == [] then [] else (if Solid(lines[0]) then [lines[0]] else []) + Solids(lines[1..])
  }

  lemma {:induction false} SolidsConcat(a: seq<string>, b: seq<string>)
    ensures Solids(a + b) == Solids(a) + Solids(b)
  {
    if a == [] {
      assert a + b == b;
    } else {
      HeadAndTail(a, b);
      SolidsConcat(a[1..], b);
      Assoc(if Solid(a[0]) then [a[0]] else [], Solids(a[1..]), Solids(b));
    }
  }

  lemma {:induction false} NoSolids(lines: seq<string>)
    requires forall i :: 0 <= i < |lines| ==> !Solid(lines[i])
    ensures Solids(lines) == []
  {
    if lines != [] {
      NoSolids(lines[1..]);
    }
  }

  lemma {:induction false} SkipKeepsSolids(lines: seq<string>)
    ensures Solids(Skip(lines, KINDS)) == Solids(lines)
  {
    if lines != [] {
      KindsAre(lines[0]);
      SkipKeepsSolids(lines[1..]);
    }
  }

  lemma {:induction false} RewriteKeepsSolids(lines: seq<string>, block: seq<string>)
    requires Solids(block) == []
    ensures Solids(Rewrite(lines, block, KINDS)) == Solids(lines)
    decreases |lines|
  {
    if lines != [] {
      KindsAre(lines[0]);
      if HeadLine(lines[0]) {
        var rest := Skip(lines[1..], KINDS);
        SkipKeepsSolids(lines[1..]);
        RewriteKeepsSolids(rest, block);
        SolidsConcat(block, Rewrite(rest, block, KINDS));
      } else {
        RewriteKeepsSolids(lines[1..], block);
        SolidsCons(lines[0], Rewrite(lines[1..], block, KINDS));
      }
    }
  }

  lemma SolidsCons(line: string, rest: seq<string>)
    ensures Solids([line] + rest) == (if Solid(line) then [line] else []) + Solids(rest)
  {
    assert ([line] + rest)[1..] == rest;
  }

  lemma PrintedIsNotSolid(keys: seq<string>)
    ensures Solids(PrintedBlock(keys)) == []
  {
    var block := PrintedBlock(keys);
    forall i | 0 <= i < |block| ensures !Solid(block[i]) {
      if i > 0 {
        ItemsAt(keys, i - 1);
        ItemStripped(keys[i - 1]);
      }
    }
    NoSolids(block);
  }

  lemma SeenKeepsSolids(lines: seq<string>, newline: bool)
    ensures Solids(Seen(lines, newline)) == Solids(lines)
  {
    if !newline && LastEmpty(lines) {
      var front := lines[..|lines| - 1];
      assert lines == front + [""];
      SolidsConcat(front, [""]);
      SolidsCons("", []);
      assert Strip("") == "" && [""] + [] == [""];
    }
  }

  /** The lines with text that are no list items and open no key list are the same in the rendered text, in order. */
  lemma SolidLinesStay(text: string, keys: seq<string>)
    requires AllNoBreaks(keys) && Replaced(text, keys, KINDS).Some?
    ensures Solids(SplitLines(Replaced(text, keys, KINDS).value)) == Solids(SplitLines(text))
  {
    RenderedText(text, keys);
    PrintedIsNotSolid(keys);
    RewriteKeepsSolids(SplitLines(text), PrintedBlock(keys));
    SeenKeepsSolids(Rewrite(SplitLines(text), PrintedBlock(keys), KINDS), EndsWith(text, "\n"));
  }

  // ---- one list ----

  /** The next line with text is there and is no list item. */
  predicate SectionNext(lines: seq<string>) {
    lines != [] && if Blank(lines[0]) then SectionNext(lines[1..]) else !Dashed(lines[0])
  }

  /** Here the list is over: at the end, at another section, or at a blank line in front of one. */
  predicate ListOver(lines: seq<string>) {
    lines == [] || (!Blank(lines[0]) && !Dashed(lines[0])) || (Blank(lines[0]) && SectionNext(lines[1..]))
  }

  /** A key list: its head, items and blank lines, up to where it is over. */
  predicate OneList(front: seq<string>, head: string, items: seq<string>, rest: seq<string>) {
    && HeadLine(head) && (forall i :: 0 <= i < |front| ==> !HeadLine(front[i]))
    && (forall i :: 0 <= i < |rest| ==> !HeadLine(rest[i]))
    && (forall i :: 0 <= i < |items| ==> !ListOver(items[i..] + rest)) && ListOver(rest)
  }

  lemma {:induction false} SectionNextIs(lines: seq<string>)
    ensures NextIsOther(lines, KINDS) <==> SectionNext(lines)
  {
    if lines != [] {
      KindsAre(lines[0]);
      if HeadLine(lines[0]) {
        HeadHasText(lines[0]);
      } else {
        SectionNextIs(lines[1..]);
      }
    }
  }

  lemma OverIsStopped(lines: seq<string>)
    requires ListOver(lines)
    ensures Skip(lines, KINDS) == lines
  {
    if lines != [] {
      KindsAre(lines[0]);
      SectionNextIs(lines[1..]);
    }
  }

  lemma NotOverIsSkipped(lines: seq<string>)
    requires !ListOver(lines)
    ensures Skip(lines, KINDS) == Skip(lines[1..], KINDS)
  {
    KindsAre(lines[0]);
    SectionNextIs(lines[1..]);
    if HeadLine(lines[0]) {
      HeadHasText(lines[0]);
    }
  }

  lemma {:induction false} SkipsToRest(items: seq<string>, rest: seq<string>)
    requires (forall i :: 0 <= i < |items| ==> !ListOver(items[i..] + rest)) && ListOver(rest)
    ensures Skip(items + rest, KINDS) == rest
  {
    if items == [] {
      assert items + rest == rest;
      OverIsStopped(rest);
    } else {
      assert items[0..] == items;
      NotOverIsSkipped(items + rest);
      HeadAndTail(items, rest);
      forall i | 0 <= i < |items[1..]| ensures !ListOver(items[1..][i..] + rest) {
        assert items[1..][i..] == items[i + 1..];
      }
      SkipsToRest(items[1..], rest);
    }
  }

  lemma {:induction false} CopiesFront(front: seq<string>, more: seq<string>, block: seq<string>)
    requires forall i :: 0 <= i < |front| ==> !HeadLine(front[i])
    ensures Rewrite(front + more, block, KINDS) == front + Rewrite(more, block, KINDS)
  {
    if front == [] {
      assert front + more == more;
    } else {
      KindsAre(front[0]);
      HeadAndTail(front, more);
      CopiesFront(front[1..], more, block);
      ConsAppend(front, Rewrite(more, block, KINDS));
    }
  }

  lemma RewritesList(front: seq<string>, head: string, items: seq<string>, rest: seq<string>, block: seq<string>)
    requires OneList(front, head, items, rest)
    ensures Rewrite(front + ([head] + (items + rest)), block, KINDS) == front + (block + rest)
  {
    var list := [head] + (items + rest);
    CopiesFront(front, list, block);
    KindsAre(head);
    HeadAndTail([head], items + rest);
    assert list[1..] == items + rest;
    SkipsToRest(items, rest);
    CopiesFront(rest, [], block);
    assert rest + [] == rest;
  }

  /** A template with one key list: the list is replaced by the printed one, everything in front of it and behind it
      stays as it is, and so does whether the text ends in a newline. */
  lemma ListIsReplaced(text: string, keys: seq<string>, front: seq<string>, head: string, items: seq<string>,
                       rest: seq<string>)
    requires SplitLines(text) == front + ([head] + (items + rest)) && OneList(front, head, items, rest)
    ensures Replaced(text, keys, KINDS)
         == Some(Joined(front + (PrintedBlock(keys) + rest)) + if EndsWith(text, "\n") then "\n" else "")
  {
    RewritesList(front, head, items, rest, PrintedBlock(keys));
    KindsAre(head);
    assert SplitLines(text)[|front|] == head;
  }

  // ---- and what the scanner makes of it ----

  /** The printed items as lines of a block. */
  function Entries(keys: seq<string>): seq<Line> {
    if keys == [] then [] else [Entry("  ", keys[0], AsDouble(""))] + Entries(keys[1..])
  }

  lemma {:induction false} ItemsFirst(keys: seq<string>)
    requires keys != []
    ensures Items(keys) == [ItemLine(keys[0])] + Items(keys[1..])
  {
    if |keys| == 1 {
      assert keys[..0] == [] && keys[1..] == [];
    } else {
      var n := |keys| - 1;
      ItemsFirst(keys[..n]);
      assert keys[..n][1..] == keys[1..][..n - 1];
      Assoc([ItemLine(keys[0])], Items(keys[1..][..n - 1]), [ItemLine(keys[n])]);
    }
  }

  lemma ItemIsEntry(k: string)
    ensures LineText(Entry("  ", k, AsDouble(""))) == ItemLine(k)
  {
    ItemText(Escape(k));
  }

  lemma ItemText(e: string)
    ensures "  " + ("- " + (("\"" + e + "\"") + "")) == "  - \"" + e + "\""
  {
    assert ("\"" + e + "\"") + "" == "\"" + e + "\"";
    assert "  - \"" == "  " + ("- " + "\"");
  }

  lemma {:induction false} ItemsAreEntries(keys: seq<string>)
    requires AllPrintable(keys)
    ensures Texts(Entries(keys)) == Items(keys) && KeyList(Entries(keys)) == keys && AllProper(Entries(keys), 0)
  {
    if keys != [] {
      ItemsFirst(keys);
      ItemIsEntry(keys[0]);
      ItemsAreEntries(keys[1..]);
      assert Printable(keys[0]) && [keys[0]] + keys[1..] == keys;
      EntriesFirst(keys);
    }
  }

  lemma EntriesFirst(keys: seq<string>)
    requires keys != []
    ensures var es := Entries(keys); es[0] == Entry("  ", keys[0], AsDouble("")) && es[1..] == Entries(keys[1..])
  {
  }

  lemma ReplacedHasNoBreaks(text: string, keys: seq<string>, front: seq<string>, list: seq<string>, rest: seq<string>)
    requires AllPrintable(keys) && SplitLines(text) == front + (list + rest)
    ensures AllNoBreaks(front + (PrintedBlock(keys) + rest))
  {
    PrintedNoBreaks(keys);
    LinesHaveNoBreaks(text);
    var lines := SplitLines(text);
    forall i | 0 <= i < |front| ensures NoBreaks(front[i]) {
      assert front[i] == lines[i];
    }
    forall i | 0 <= i < |rest| ensures NoBreaks(rest[i]) {
      assert rest[i] == lines[|front| + |list| + i];
    }
  }

  /** Rendering a template whose key list is followed by a top-level section, and in which no other line opens a key
      list, gives a text in which the scanner finds the rendered keys, all of them and nothing else, in order. */
  lemma RenderedTemplate(text: string, keys: seq<string>, front: seq<string>, head: string, items: seq<string>,
                         rest: seq<string>, arrays: JsonArrays)
    requires SplitLines(text) == front + ([head] + (items + rest)) && OneList(front, head, items, rest)
    requires EndsWith(text, "\n") && AllPrintable(keys) && Distinct(keys)
    requires AllQuiet(front) && AllQuiet(rest) && Leaves(rest, 0)
    ensures Replaced(text, keys, KINDS).Some? && KeysOf(Replaced(text, keys, KINDS).value, arrays) == keys
  {
    var lines := front + (PrintedBlock(keys) + rest);
    ListIsReplaced(text, keys, front, head, items, rest);
    Assoc([head], items, rest);
    ReplacedHasNoBreaks(text, keys, front, [head] + items, rest);
    SplitWithNewline(lines);
    PrintedIsRead(Joined(lines) + "\n", keys, front, rest, arrays);
  }

  lemma PrintedIsRead(text: string, keys: seq<string>, front: seq<string>, rest: seq<string>, arrays: JsonArrays)
    requires SplitLines(text) == front + (PrintedBlock(keys) + rest) && AllPrintable(keys) && Distinct(keys)
    requires AllQuiet(front) && AllQuiet(rest) && Leaves(rest, 0)
    ensures KeysOf(text, arrays) == keys
  {
    ItemsAreEntries(keys);
    PrintedLines(keys, rest);
    BlockKeysAreRead(text, front, "", Entries(keys), rest, arrays);
  }

  lemma PrintedLines(keys: seq<string>, rest: seq<string>)
    ensures PrintedBlock(keys) + rest == ["" + "api-keys:"] + (Items(keys) + rest)
  {
    assert "" + "api-keys:" == "api-keys:";
  }
}
