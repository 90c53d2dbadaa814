/** The printer against the scanner: what a rendered configuration gives back. */
module KeyRoundTrip {
  import opened Basics
  import opened Text
  import opened ClientKeys
  import opened Render

  // ---- one key ----

  /** No control character: what a JSON string may hold unescaped. */
  predicate NoControl(k: string) {
    forall c :: c in k ==> ' ' <= c
  }

  lemma JsonCharsFirst(c: char, rest: string)
    ensures JsonChars(EscapeChar(c) + rest) == if ' ' <= c then Prepend(c, JsonChars(rest)) else None
  {
    var s := EscapeChar(c) + rest;
    if c == '\\' || c == '"' {
      assert s[2..] == rest;
    } else {
      assert s[1..] == rest;
    }
  }

  lemma ControlFirst(c: char, rest: string, k: string)
    requires [c] + rest == k
    ensures NoControl(k) <==> ' ' <= c && NoControl(rest)
  {
    assert c in k && forall x :: x in rest ==> x in k by {
      assert k[0] == c;
      assert forall i :: 0 <= i < |rest| ==> k[i + 1] == rest[i];
    }
  }

  /** The scalar decoder undoes the escaping exactly when the key has no control character. */
  lemma {:induction false} JsonUndoesEscape(k: string)
    ensures JsonChars(Escape(k) + "\"") == if NoControl(k) then Some(k) else None
  {
    if k == "" {
      assert Escape(k) + "\"" == "\"";
    } else {
      EscapeFirst(k);
      var rest := Escape(k[1..]) + "\"";
      assert Escape(k) + "\"" == EscapeChar(k[0]) + rest;
      JsonCharsFirst(k[0], rest);
      JsonUndoesEscape(k[1..]);
      assert [k[0]] + k[1..] == k;
      ControlFirst(k[0], k[1..], k);
    }
  }

  /** Inside an escaped key no quote closes the scalar. */
  lemma {:induction false} QuoteCloses(v: string, i: nat, k: string, tail: string)
    requires i <= |v| && v[i..] == Escape(k) + ("\"" + tail)
    ensures CloseQuote(v, i) == i + |Escape(k)| < |v|
    decreases |k|
  {
    if k == "" {
      DropAt(v, i, "\"", tail);
    } else {
      EscapeFirst(k);
      var e := EscapeChar(k[0]);
      Assoc(e, Escape(k[1..]), "\"" + tail);
      DropAt(v, i, e, Escape(k[1..]) + ("\"" + tail));
      QuoteCloses(v, i + |e|, k[1..], tail);
      CharPassed(v, i, k[0]);
    }
  }

  /** The scan passes an escaped character. */
  lemma CharPassed(v: string, i: nat, c: char)
    requires i + |EscapeChar(c)| <= |v| && forall j :: 0 <= j < |EscapeChar(c)| ==> v[i + j] == EscapeChar(c)[j]
    ensures CloseQuote(v, i) == CloseQuote(v, i + |EscapeChar(c)|)
  {
    assert v[i + 0] == EscapeChar(c)[0];
  }

  lemma QuotedScalar(k: string)
    ensures Scalar("\"" + Escape(k) + "\"") == if NoControl(k) then Some(k) else None
  {
    var v := "\"" + Escape(k) + "\"";
    StripFixed(v);
    assert v[1..] == Escape(k) + ("\"" + "");
    QuoteCloses(v, 1, k, "");
    assert v[1..1 + |Escape(k)| + 1] == Escape(k) + "\"";
    JsonUndoesEscape(k);
  }

  /** The row of a printed item. */
  function ItemRow(k: string): Row {
    Row(2, false, true, false, false, None, if k != "" && NoControl(k) then [k] else [])
  }

  lemma ItemStripped(k: string)
    ensures Strip(ItemLine(k)) == "- \"" + Escape(k) + "\"" && Indent(ItemLine(k)) == 2
  {
    var line, s := ItemLine(k), "- \"" + Escape(k) + "\"";
    assert line[1..][1..] == s;
    assert DropFront(line) == DropFront(line[1..]) == DropFront(line[1..][1..]) == s;
    assert DropBack(s) == s;
    assert Indent(s) == 0 && Indent(line[1..]) == 1;
  }

  lemma LookAtItem(k: string, arrays: JsonArrays)
    ensures Look(ItemLine(k), arrays) == ItemRow(k)
  {
    ItemStripped(k);
    var s := "- \"" + Escape(k) + "\"";
    assert s[2..] == "\"" + Escape(k) + "\"";
    QuotedScalar(k);
    assert s[0] == '-' && s[1] == ' ';
    assert !StartsWith(s, "#") && !StartsWith(s, "access:") && !StartsWith(s, "api-keys:");
  }

  const HEAD_ROW := Row(0, false, false, false, true, None, [])

  lemma LookAtHead(arrays: JsonArrays)
    ensures Look("api-keys:", arrays) == HEAD_ROW
  {
    StripFixed("api-keys:");
    assert "api-keys:"[|"api-keys:"|..] == "";
    assert "api-keys:"[1] == 'p' && "access:"[1] == 'c';
    assert Strip("") == "";
  }

  lemma LookAtEmpty(arrays: JsonArrays)
    ensures Look("", arrays) == EMPTY_ROW
  {
  }

  const EMPTY_ROW := Row(0, true, false, false, false, None, [])

  /** What the proofs below need to know about looking at a line. */
  ghost predicate Faithful(look: Looker) {
    && look("api-keys:") == HEAD_ROW
    && look("") == EMPTY_ROW
    && forall k :: look(ItemLine(k)) == ItemRow(k)
  }

  lemma LookerIsFaithful(arrays: JsonArrays)
    ensures Faithful(LookerFor(arrays))
  {
    var look := LookerFor(arrays);
    LookAtHead(arrays);
    LookAtEmpty(arrays);
    forall k ensures look(ItemLine(k)) == ItemRow(k) {
      LookAtItem(k, arrays);
    }
  }

  // ---- one block ----

  function ItemRows(keys: seq<string>): seq<Row> {
    if keys == [] then [] else ItemRows(keys[..|keys| - 1]) + [ItemRow(keys[|keys| - 1])]
  }

  lemma {:induction false} RowsOfItems(keys: seq<string>, look: Looker)
    requires Faithful(look)
    ensures Rows(Items(keys), look) == ItemRows(keys)
  {
    if keys != [] {
      var n := |keys| - 1;
      RowsOfItems(keys[..n], look);
      RowsConcat(Items(keys[..n]), [ItemLine(keys[n])], look);
      SingleRow(ItemLine(keys[n]), look);
    }
  }

  lemma SingleRow(line: string, look: Looker)
    ensures Rows([line], look) == [look(line)]
  {
    assert [line][1..] == [];
  }

  lemma ScanSingle(m: Mode, r: Row)
    ensures Scan(m, [r]) == ScanRow(m, r).1 && ModeAfter(m, [r]) == ScanRow(m, r).0
  {
    assert [r][1..] == [];
    assert ScanRow(m, r).1 + [] == ScanRow(m, r).1;
  }

  /** A key the round trip keeps. */
  predicate Printable(k: string) {
    k != "" && NoControl(k) && NoBreaks(k)
  }

  predicate AllPrintable(keys: seq<string>) {
    forall i :: 0 <= i < |keys| ==> Printable(keys[i])
  }

  lemma {:induction false} ScanItems(keys: seq<string>, access: bool)
    requires AllPrintable(keys)
    ensures Scan(Block(access, 0), ItemRows(keys)) == keys
    ensures ModeAfter(Block(access, 0), ItemRows(keys)) == Block(access, 0)
  {
    if keys != [] {
      var n := |keys| - 1;
      ScanItems(keys[..n], access);
      var m, row := Block(access, 0), [ItemRow(keys[n])];
      ScanConcat(m, ItemRows(keys[..n]), row);
      ModeConcat(m, ItemRows(keys[..n]), row);
      assert row[1..] == [];
      assert keys[..n] + [keys[n]] == keys;
    }
  }

  lemma {:induction false} ModeConcat(m: Mode, a: seq<Row>, b: seq<Row>)
    ensures ModeAfter(m, a + b) == ModeAfter(ModeAfter(m, a), b)
    decreases |a|
  {
    if a == [] {
      assert a + b == b;
    } else {
      ModeConcat(ScanRow(m, a[0]).0, a[1..], b);
      assert (a + b)[1..] == a[1..] + b;
    }
  }

  lemma BlockRows(keys: seq<string>, look: Looker)
    requires Faithful(look)
    ensures Rows(PrintedBlock(keys), look) == [HEAD_ROW] + ItemRows(keys)
  {
    RowsConcat(["api-keys:"], Items(keys), look);
    SingleRow("api-keys:", look);
    RowsOfItems(keys, look);
  }

  /** Whatever came before it, a printed block is entered at once and yields its keys. */
  lemma ScanBlock(m: Mode, keys: seq<string>, tail: seq<Row>)
    requires AllPrintable(keys)
    ensures Scan(m, ([HEAD_ROW] + ItemRows(keys)) + tail) == keys + Scan(Block(false, 0), tail)
  {
    var items := ItemRows(keys);
    assert ([HEAD_ROW] + items) + tail == [HEAD_ROW] + (items + tail);
    ScanConcat(m, [HEAD_ROW], items + tail);
    ScanSingle(m, HEAD_ROW);
    ScanConcat(Block(false, 0), items, tail);
    ScanItems(keys, false);
  }

  // ---- a whole template ----

  /** The lines before the first key list. */
  function Before(lines: seq<string>, kind: Kinds): seq<string> {
    if lines == [] || kind(lines[0]) == Head then [] else [lines[0]] + Before(lines[1..], kind)
  }

  /** The lines after the first key list. */
  function Behind(lines: seq<string>, kind: Kinds): seq<string> {
    if lines == [] then []
    else if kind(lines[0]) == Head then Skip(lines[1..], kind)
    else Behind(lines[1..], kind)
  }

  lemma {:induction false} RewriteShape(lines: seq<string>, block: seq<string>, kind: Kinds)
    requires HasBlock(lines, kind)
    ensures Rewrite(lines, block, kind) ==
      Before(lines, kind) + (block + Rewrite(Behind(lines, kind), block, kind))
    decreases |lines|
  {
    if kind(lines[0]) != Head {
      var i :| 0 <= i < |lines| && kind(lines[i]) == Head;
      assert lines[1..][i - 1] == lines[i];
      RewriteShape(lines[1..], block, kind);
      ConsAppend([lines[0]] + Before(lines[1..], kind), block + Rewrite(Behind(lines[1..], kind), block, kind));
    }
  }

  /** The keys of the rendered lines: those found before the list, the printed ones, those found behind. */
  lemma ScanRendered(lines: seq<string>, keys: seq<string>, kind: Kinds, look: Looker)
    requires HasBlock(lines, kind) && AllPrintable(keys) && Faithful(look)
    ensures Scan(Outside(false), Rows(Rewrite(lines, PrintedBlock(keys), kind), look))
         == Scan(Outside(false), Rows(Before(lines, kind), look)) + (keys +
            Scan(Block(false, 0), Rows(Rewrite(Behind(lines, kind), PrintedBlock(keys), kind), look)))
  {
    var block := PrintedBlock(keys);
    var front, rest := Before(lines, kind), Rewrite(Behind(lines, kind), block, kind);
    RewriteShape(lines, block, kind);
    RowsConcat(front, block + rest, look);
    RowsConcat(block, rest, look);
    BlockRows(keys, look);
    ScanConcat(Outside(false), Rows(front, look), Rows(block, look) + Rows(rest, look));
    ScanBlock(ModeAfter(Outside(false), Rows(front, look)), keys, Rows(rest, look));
  }

  /** An empty last line says nothing. */
  lemma ScanWithoutLast(lines: seq<string>, look: Looker)
    requires lines != [] && lines[|lines| - 1] == "" && Faithful(look)
    ensures Scan(Outside(false), Rows(lines, look)) == Scan(Outside(false), Rows(lines[..|lines| - 1], look))
  {
    var front := lines[..|lines| - 1];
    assert lines == front + [""];
    RowsConcat(front, [""], look);
    SingleRow("", look);
    ScanBlankEnd(Rows(front, look));
  }

  lemma ScanBlankEnd(rows: seq<Row>)
    ensures Scan(Outside(false), rows + [EMPTY_ROW]) == Scan(Outside(false), rows)
  {
    ScanConcat(Outside(false), rows, [EMPTY_ROW]);
    ScanSingle(ModeAfter(Outside(false), rows), EMPTY_ROW);
  }

  // ---- the text ----

  lemma PrintedIsBlock(keys: seq<string>)
    ensures IsBlock(PrintedBlock(keys), KINDS)
  {
    var block := PrintedBlock(keys);
    forall i | 1 <= i < |block| ensures KINDS(block[i]) == Item {
      ItemsAt(keys, i - 1);
      ItemStripped(keys[i - 1]);
      assert block[i][0] == ' ';
    }
  }

  lemma {:induction false} EscapeNoBreaks(k: string)
    requires NoBreaks(k)
    ensures NoBreaks(Escape(k))
  {
    if k != "" {
      EscapeFirst(k);
      assert k[0] in k && forall c :: c in k[1..] ==> c in k;
      EscapeNoBreaks(k[1..]);
    }
  }

  lemma PrintedNoBreaks(keys: seq<string>)
    requires AllNoBreaks(keys)
    ensures AllNoBreaks(PrintedBlock(keys))
  {
    var block := PrintedBlock(keys);
    forall i | 1 <= i < |block| ensures NoBreaks(block[i]) {
      ItemsAt(keys, i - 1);
      EscapeNoBreaks(keys[i - 1]);
    }
  }

  lemma {:induction false} RewriteNoBreaks(lines: seq<string>, block: seq<string>, kind: Kinds)
    requires AllNoBreaks(lines) && AllNoBreaks(block)
    ensures AllNoBreaks(Rewrite(lines, block, kind))
    decreases |lines|
  {
    if lines != [] {
      if kind(lines[0]) == Head {
        SkipIsSuffix(lines[1..], kind);
        RewriteNoBreaks(Skip(lines[1..], kind), block, kind);
      } else {
        RewriteNoBreaks(lines[1..], block, kind);
      }
    }
  }

  lemma {:induction false} RewriteNotEmpty(lines: seq<string>, block: seq<string>, kind: Kinds)
    requires lines != [] && block != []
    ensures Rewrite(lines, block, kind) != []
  {
  }

  /** The rendered text splits into the rewritten lines, less an empty last one. */
  lemma RenderedLines(lines: seq<string>, newline: bool, s: string)
    requires lines != [] && AllNoBreaks(lines) && s == Joined(lines) + if newline then "\n" else ""
    ensures SplitLines(s) ==
      if newline || lines[|lines| - 1] != "" then lines else lines[..|lines| - 1]
  {
    if newline {
      SplitWithNewline(lines);
    } else {
      assert s == Joined(lines);
      SplitJoined(lines, s);
    }
  }

  lemma ScanRenderedText(lines: seq<string>, newline: bool, s: string, look: Looker)
    requires lines != [] && AllNoBreaks(lines) && s == Joined(lines) + if newline then "\n" else ""
    requires Faithful(look)
    ensures Scan(Outside(false), Rows(SplitLines(s), look)) == Scan(Outside(false), Rows(lines, look))
  {
    RenderedLines(lines, newline, s);
    if !newline && lines[|lines| - 1] == "" {
      ScanWithoutLast(lines, look);
    }
  }

  /** The last line is empty, stands in no key list and ends in no newline, but in another kind of line break. */
  predicate LosesLast(text: string) {
    !EndsWith(text, "\n") && EndsBlank(SplitLines(text), KINDS)
  }

  /** The lines seen again in a text of these lines. */
  function Seen(lines: seq<string>, newline: bool): seq<string> {
    if newline || !LastEmpty(lines) then lines else lines[..|lines| - 1]
  }

  lemma RenderedText(text: string, keys: seq<string>)
    requires AllNoBreaks(keys) && Replaced(text, keys, KINDS).Some?
    ensures SplitLines(Replaced(text, keys, KINDS).value)
         == Seen(Rewrite(SplitLines(text), PrintedBlock(keys), KINDS), EndsWith(text, "\n"))
  {
    var lines, block := SplitLines(text), PrintedBlock(keys);
    PrintedNoBreaks(keys);
    LinesHaveNoBreaks(text);
    RewriteNoBreaks(lines, block, KINDS);
    RewriteNotEmpty(lines, block, KINDS);
    RenderedLines(Rewrite(lines, block, KINDS), EndsWith(text, "\n"), Replaced(text, keys, KINDS).value);
  }

  /** Rendering changes no line outside the key lists, printed or found; all it may lose is such a last line. */
  lemma OutsideUnchanged(text: string, keys: seq<string>)
    requires AllNoBreaks(keys) && Replaced(text, keys, KINDS).Some?
    ensures Outer(SplitLines(text), KINDS)
         == Outer(SplitLines(Replaced(text, keys, KINDS).value), KINDS) + if LosesLast(text) then [""] else []
  {
    PrintedIsBlock(keys);
    PrintedEnd(keys);
    RenderedText(text, keys);
    OutsideOfLines(SplitLines(text), PrintedBlock(keys), EndsWith(text, "\n"));
  }

  /** A text that ends in a lone carriage return behind another section. */
  lemma LastLineExample(text: string)
    requires text == Terminated(["api-keys:", "a:"]) + "\r"
    ensures LosesLast(text)
  {
    EndsBehindSection();
    EndsInReturn(["api-keys:", "a:"], text);
  }

  lemma EndsInReturn(front: seq<string>, text: string)
    requires AllNoBreaks(front) && text == Terminated(front) + "\r" && EndsBlank(front + [""], KINDS)
    ensures LosesLast(text)
  {
    SplitTerminated(front, "\r");
    LoneReturn();
    assert text[|text| - 1] == '\r';
  }

  lemma LoneReturn()
    ensures SplitLines("\r") == [""]
  {
    assert LineEnd("\r") == 0 && "\r"[1..] == "";
  }

  lemma EndsBehindSection()
    ensures EndsBlank(["api-keys:", "a:", ""], KINDS)
  {
    var lines := ["api-keys:", "a:", ""];
    StripFixed("a:");
    assert KINDS("a:") == Other;
    assert lines[1..] == ["a:", ""] && lines[1..][1..] == [""];
    EmptyKind();
    assert Skip(lines[1..], KINDS) == lines[1..];
  }

  lemma OutsideOfLines(lines: seq<string>, block: seq<string>, newline: bool)
    requires IsBlock(block, KINDS) && block[|block| - 1] != ""
    ensures Outer(lines, KINDS) == Outer(Seen(Rewrite(lines, block, KINDS), newline), KINDS)
         + if !newline && EndsBlank(lines, KINDS) then [""] else []
  {
    BlankEndStays(lines, block, KINDS);
    if !newline && EndsBlank(lines, KINDS) {
      OutsideLosesLast(lines, block);
    } else {
      RewriteTwice(lines, block, [], KINDS);
      assert Outer(lines, KINDS) + [] == Outer(lines, KINDS);
    }
  }

  lemma OutsideLosesLast(lines: seq<string>, block: seq<string>)
    requires IsBlock(block, KINDS) && EndsBlank(lines, KINDS)
    ensures var out := Rewrite(lines, block, KINDS);
      out != [] && Outer(lines, KINDS) == Outer(out[..|out| - 1], KINDS) + [""]
  {
    var front, out := lines[..|lines| - 1], Rewrite(lines, block, KINDS);
    EmptyKind();
    DropBlankEnd(lines, block, KINDS);
    DropBlankEnd(lines, [], KINDS);
    RewriteTwice(front, block, [], KINDS);
    assert out[..|out| - 1] == Rewrite(front, block, KINDS);
  }

  lemma PrintedEnd(keys: seq<string>)
    ensures var block := PrintedBlock(keys); block[|block| - 1] != ""
  {
    if keys != [] {
      ItemsAt(keys, |keys| - 1);
    }
  }

  /** Keys the scanner finds in the template outside its first key list, before and behind it. */
  function ForeignBefore(text: string, arrays: JsonArrays): seq<string> {
    Scan(Outside(false), Rows(Before(SplitLines(text), KINDS), LookerFor(arrays)))
  }

  function ForeignBehind(text: string, keys: seq<string>, arrays: JsonArrays): seq<string> {
    Scan(Block(false, 0),
         Rows(Rewrite(Behind(SplitLines(text), KINDS), PrintedBlock(keys), KINDS), LookerFor(arrays)))
  }

  /** What the scanner finds in a rendered template, whatever the template. */
  lemma RenderedKeys(text: string, keys: seq<string>, arrays: JsonArrays)
    requires AllPrintable(keys) && Replaced(text, keys, KINDS).Some?
    ensures KeysOf(Replaced(text, keys, KINDS).value, arrays)
         == Dedup(ForeignBefore(text, arrays) + (keys + ForeignBehind(text, keys, arrays)))
  {
    var lines, block, look := SplitLines(text), PrintedBlock(keys), LookerFor(arrays);
    var out := Rewrite(lines, block, KINDS);
    PrintedNoBreaks(keys);
    LinesHaveNoBreaks(text);
    RewriteNoBreaks(lines, block, KINDS);
    RewriteNotEmpty(lines, block, KINDS);
    LookerIsFaithful(arrays);
    ScanRenderedText(out, EndsWith(text, "\n"), Replaced(text, keys, KINDS).value, look);
    ScanRendered(lines, keys, KINDS, look);
  }

  /** Every key written into any template is found again. */
  lemma EveryKeyIsFound(text: string, keys: seq<string>, arrays: JsonArrays)
    requires AllPrintable(keys) && Replaced(text, keys, KINDS).Some?
    ensures forall k :: k in keys ==> k in KeysOf(Replaced(text, keys, KINDS).value, arrays)
  {
    RenderedKeys(text, keys, arrays);
    forall k | k in keys ensures k in ForeignBefore(text, arrays) + (keys + ForeignBehind(text, keys, arrays)) {
      assert k in keys + ForeignBehind(text, keys, arrays);
    }
  }

  /** A template with one key list. */
  predicate SingleList(text: string) {
    !HasBlock(Behind(SplitLines(text), KINDS), KINDS)
  }

  lemma {:induction false} RewriteNoBlock(lines: seq<string>, block: seq<string>, kind: Kinds)
    requires !HasBlock(lines, kind)
    ensures Rewrite(lines, block, kind) == lines
  {
    if lines != [] {
      assert kind(lines[0]) != Head;
      assert forall i :: 0 <= i < |lines[1..]| ==> lines[1..][i] == lines[i + 1];
      RewriteNoBlock(lines[1..], block, kind);
    }
  }

  /** Nothing outside the key list is taken for a key: a property of the template alone. */
  predicate NothingForeign(text: string, arrays: JsonArrays) {
    && ForeignBefore(text, arrays) == []
    && Scan(Block(false, 0), Rows(Behind(SplitLines(text), KINDS), LookerFor(arrays))) == []
  }

  ghost predicate RoundTrips(text: string, keys: seq<string>, arrays: JsonArrays) {
    AllPrintable(keys) && Distinct(keys) && Replaced(text, keys, KINDS).Some? ==>
      KeysOf(Replaced(text, keys, KINDS).value, arrays) == keys
  }

  lemma BehindSingle(text: string, keys: seq<string>, arrays: JsonArrays)
    requires SingleList(text)
    ensures ForeignBehind(text, keys, arrays)
         == Scan(Block(false, 0), Rows(Behind(SplitLines(text), KINDS), LookerFor(arrays)))
  {
    RewriteNoBlock(Behind(SplitLines(text), KINDS), PrintedBlock(keys), KINDS);
  }

  /** A key list that is printable, and in which x is not the first key. */
  lemma OtherKey(x: string) returns (y: string)
    ensures Printable(y) && y != x
  {
    y := if x == "a" then "b" else "a";
    StripFixed(y);
  }

  lemma ForeignBreaks(before: seq<string>, y: string, behind: seq<string>)
    requires (before != [] && before[0] != y) || (before == [] && behind != [] && behind[0] != y)
    ensures Dedup(before + ([y] + behind)) != [y]
  {
    var all := before + ([y] + behind);
    var x := if before != [] then before[0] else behind[0];
    assert x == if before != [] then all[0] else all[1];
    assert x in Dedup(all);
    assert x !in [y];
  }

  /** The round trip: for a template with one key list, rendering any distinct printable keys and scanning the
      result gives exactly those keys, in order, if and only if nothing else in the template looks like a key. */
  lemma RoundTrip(text: string, arrays: JsonArrays)
    requires HasBlock(SplitLines(text), KINDS) && SingleList(text)
    ensures (forall keys :: RoundTrips(text, keys, arrays)) <==> NothingForeign(text, arrays)
  {
    if NothingForeign(text, arrays) {
      forall keys | AllPrintable(keys) && Distinct(keys) ensures RoundTrips(text, keys, arrays) {
        RenderedKeys(text, keys, arrays);
        BehindSingle(text, keys, arrays);
        assert [] + (keys + []) == keys;
        DedupDistinct(keys);
      }
    } else {
      var before := ForeignBefore(text, arrays);
      var behind := Scan(Block(false, 0), Rows(Behind(SplitLines(text), KINDS), LookerFor(arrays)));
      var y := OtherKey(if before != [] then before[0] else behind[0]);
      RenderedKeys(text, [y], arrays);
      BehindSingle(text, [y], arrays);
      ForeignBreaks(before, y, behind);
      assert !RoundTrips(text, [y], arrays);
    }
  }

  predicate NoneOpens(rows: seq<Row>) {
    forall i :: 0 <= i < |rows| ==> !rows[i].opens
  }

  /** The first row with content, if there is one, is a top-level one that is no list item. */
  predicate TopLevelNext(rows: seq<Row>) {
    rows == [] || (if rows[0].ignored then TopLevelNext(rows[1..]) else rows[0].indent == 0 && !rows[0].dash)
  }

  lemma {:induction false} NothingOpened(access: bool, rows: seq<Row>)
    requires NoneOpens(rows)
    ensures Scan(Outside(access), rows) == []
    decreases |rows|
  {
    if rows != [] {
      NothingOpened(AccessAfter(access, rows[0]), rows[1..]);
    }
  }

  lemma {:induction false} BlockLeft(rows: seq<Row>)
    requires NoneOpens(rows) && TopLevelNext(rows)
    ensures Scan(Block(false, 0), rows) == []
    decreases |rows|
  {
    if rows != [] {
      if rows[0].ignored {
        BlockLeft(rows[1..]);
      } else {
        NothingOpened(AccessAfter(false, rows[0]), rows[1..]);
      }
    }
  }

  /** A template whose one key list is contiguous: no other line opens a key list, at the top or under access, and
      what follows the list is another top-level section or nothing. */
  predicate Contiguous(text: string, arrays: JsonArrays) {
    var lines, look := SplitLines(text), LookerFor(arrays);
    && HasBlock(lines, KINDS) && SingleList(text)
    && NoneOpens(Rows(Before(lines, KINDS), look)) && NoneOpens(Rows(Behind(lines, KINDS), look))
    && TopLevelNext(Rows(Behind(lines, KINDS), look))
  }

  /** For such a template the round trip holds outright. */
  lemma ContiguousRoundTrip(text: string, keys: seq<string>, arrays: JsonArrays)
    requires Contiguous(text, arrays) && AllPrintable(keys) && Distinct(keys)
    ensures Replaced(text, keys, KINDS).Some?
    ensures KeysOf(Replaced(text, keys, KINDS).value, arrays) == keys
  {
    var lines, look := SplitLines(text), LookerFor(arrays);
    NothingOpened(false, Rows(Before(lines, KINDS), look));
    BlockLeft(Rows(Behind(lines, KINDS), look));
    RoundTrip(text, arrays);
    assert RoundTrips(text, keys, arrays);
  }

  /** A key with a blank at an end is a key for the scanner, but no file of keys to keep can hold it. */
  lemma BlankKeyIsLost(text: string, k: string, arrays: JsonArrays, wanted: string)
    requires Printable(k) && Strip(k) != k && HasBlock(SplitLines(text), KINDS)
    ensures var rendered := Replaced(text, [k], KINDS);
      rendered.Some? && k in KeysOf(rendered.value, arrays) && k !in WantedOf(wanted)
  {
    EveryKeyIsFound(text, [k], arrays);
    assert k in [k];
    if k in WantedOf(wanted) {
      SomethingSurvives(wanted, k);
    }
  }

  lemma SmallestTemplate()
    ensures HasBlock(SplitLines("api-keys:"), KINDS)
  {
    SplitSingle("api-keys:");
    var lines := ["api-keys:"];
    assert KINDS(lines[0]) == Head;
  }

  lemma BlankInFront()
    ensures Printable(" a") && Strip(" a") != " a"
  {
    assert DropFront(" a") == DropFront("a") == "a";
  }

  /** For example the key " a" in the smallest template. */
  lemma BlankKeyExample(arrays: JsonArrays, wanted: string)
    ensures var rendered := Replaced("api-keys:", [" a"], KINDS);
      rendered.Some? && " a" in KeysOf(rendered.value, arrays) && " a" !in WantedOf(wanted)
  {
    SmallestTemplate();
    BlankInFront();
    BlankKeyIsLost("api-keys:", " a", arrays, wanted);
  }

  /** Rendering a rendered text with the same keys changes nothing, for every template. */
  lemma RenderTwice(text: string, keys: seq<string>)
    requires AllNoBreaks(keys) && Replaced(text, keys, KINDS).Some?
    ensures Replaced(Replaced(text, keys, KINDS).value, keys, KINDS) == Replaced(text, keys, KINDS)
  {
    var lines, block, newline := SplitLines(text), PrintedBlock(keys), EndsWith(text, "\n");
    var out, s := Rewrite(lines, block, KINDS), Replaced(text, keys, KINDS).value;
    PrintedIsBlock(keys);
    PrintedNoBreaks(keys);
    LinesHaveNoBreaks(text);
    RewriteNoBreaks(lines, block, KINDS);
    RewriteNotEmpty(lines, block, KINDS);
    RenderedLines(out, newline, s);
    RewriteHasBlock(lines, block, KINDS);
    RewriteTwice(lines, block, block, KINDS);
    if newline {
      assert EndsWith(s, "\n");
    } else if out[|out| - 1] != "" {
      JoinedEnd(out);
    } else {
      PrintedEnd(keys);
      RenderTwiceUnterminated(lines, out, block, s);
    }
  }

  lemma {:induction false} RewriteHasBlock(lines: seq<string>, block: seq<string>, kind: Kinds)
    requires HasBlock(lines, kind) && IsBlock(block, kind)
    ensures HasBlock(Rewrite(lines, block, kind), kind)
  {
    RewriteShape(lines, block, kind);
    var front := Before(lines, kind);
    assert Rewrite(lines, block, kind)[|front|] == block[0];
  }

  /** A joined text whose last line has text does not end in a newline. */
  lemma JoinedEnd(lines: seq<string>)
    requires lines != [] && lines[|lines| - 1] != "" && AllNoBreaks(lines)
    ensures !EndsWith(Joined(lines), "\n")
  {
    JoinedLast(lines);
    var front, last := Terminated(lines[..|lines| - 1]), lines[|lines| - 1];
    LastOfBoth(front, last);
    LastIsNewline(front + last);
    assert last[|last| - 1] in last;
  }

  lemma LastOfBoth(a: string, b: string)
    requires b != ""
    ensures (a + b)[|a + b| - 1] == b[|b| - 1]
  {
  }

  lemma LastIsNewline(s: string)
    requires s != ""
    ensures EndsWith(s, "\n") <==> s[|s| - 1] == '\n'
  {
    assert s[|s| - 1..] == [s[|s| - 1]];
  }

  lemma RenderTwiceUnterminated(lines: seq<string>, out: seq<string>, block: seq<string>, s: string)
    requires IsBlock(block, KINDS) && block[|block| - 1] != ""
    requires out == Rewrite(lines, block, KINDS) && HasBlock(out, KINDS)
    requires out != [] && out[|out| - 1] == "" && s == Joined(out)
    ensures var front := out[..|out| - 1];
      HasBlock(front, KINDS) && EndsWith(s, "\n") && Joined(Rewrite(front, block, KINDS)) + "\n" == s
  {
    var front := out[..|out| - 1];
    EmptyKind();
    BlankEndStays(lines, block, KINDS);
    DropBlankEnd(lines, block, KINDS);
    RewriteTwice(lines[..|lines| - 1], block, block, KINDS);
    assert front == Rewrite(lines[..|lines| - 1], block, KINDS);
    FrontHasBlock(out);
    JoinedLast(out);
    JoinedNewline(front);
    assert Terminated(front) + "" == Terminated(front);
  }

  lemma FrontHasBlock(lines: seq<string>)
    requires HasBlock(lines, KINDS) && lines[|lines| - 1] == ""
    ensures HasBlock(lines[..|lines| - 1], KINDS)
  {
    EmptyKind();
    var front := lines[..|lines| - 1];
    var i :| 0 <= i < |lines| && KINDS(lines[i]) == Head;
    assert front[i] == lines[i];
  }

  lemma EmptyKind()
    ensures KINDS("") == Empty
  {
    assert Strip("") == "";
  }
}
