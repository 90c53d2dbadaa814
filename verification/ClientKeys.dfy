/** The hand-written scanner for client keys in a proxy configuration, and the list of keys to keep. */
module ClientKeys {
  import opened Basics
  import opened Text

  /** The string elements of a text that is a JSON array, or None: the JSON library, applied to flow lists. */
  type JsonArrays = string -> Option<seq<string>>

  // ---- JSON strings, section 7 of RFC 8259 ----

  function HexDigit(c: char): Option<nat> {
    if '0' <= c <= '9' then Some(c as nat - '0' as nat)
    else if 'a' <= c <= 'f' then Some(c as nat - 'a' as nat + 10)
    else if 'A' <= c <= 'F' then Some(c as nat - 'A' as nat + 10)
    else None
  }

  function Hex4(s: string): (r: Option<nat>)
    ensures r.Some? ==> r.value < 0x1_0000
  {
    if |s| < 4 then None
    else
      var a, b, c, d := HexDigit(s[0]), HexDigit(s[1]), HexDigit(s[2]), HexDigit(s[3]);
      if a.Some? && b.Some? && c.Some? && d.Some? && a.value < 16 && b.value < 16 && c.value < 16 && d.value < 16
      then Some(((a.value * 16 + b.value) * 16 + c.value) * 16 + d.value)
      else None
  }

  function SimpleEscape(c: char): Option<char> {
    match c
    case '"' => Some('"')
    case '\\' => Some('\\')
    case '/' => Some('/')
    case 'b' => Some('\U{08}')
    case 'f' => Some('\U{0C}')
    case 'n' => Some('\n')
    case 'r' => Some('\r')
    case 't' => Some('\t')
    case _ => None
  }

  /** One \u escape, or a surrogate pair of two; the number of characters it takes. */
  function UnicodeEscape(s: string): (r: Option<(char, nat)>)
    ensures r.Some? ==> 0 < r.value.1 <= |s|
  {
    var u := if |s| < 2 then None else Hex4(s[2..]);
    if u == None || |s| < 6 then None
    else if u.value < 0xD800 || 0xE000 <= u.value then Some((u.value as char, 6))
    else if u.value < 0xDC00 && |s| >= 12 && s[6] == '\\' && s[7] == 'u' then
      var v := Hex4(s[8..]);
      if v.Some? && 0xDC00 <= v.value < 0xE000
      then Some(((0x1_0000 + (u.value - 0xD800) * 0x400 + (v.value - 0xDC00)) as char, 12))
      else None
    else None
  }

  /** The characters up to a closing quote that must be the last one. */
  function JsonChars(s: string): Option<string>
    decreases |s|
  {
    if s == "" || s[0] < ' ' then None
    else if s[0] == '"' then if |s| == 1 then Some("") else None
    else if s[0] != '\\' then Prepend(s[0], JsonChars(s[1..]))
    else if |s| < 2 then None
    else if s[1] == 'u' then
      var e := UnicodeEscape(s);
      if e == None then None else Prepend(e.value.0, JsonChars(s[e.value.1..]))
    else
      var e := SimpleEscape(s[1]);
      if e == None then None else Prepend(e.value, JsonChars(s[2..]))
  }

  function Prepend(c: char, s: Option<string>): Option<string> {
    if s == None then None else Some([c] + s.value)
  }

  // ---- scalars ----

  /** The first quote from i on that no backslash precedes, or a place past the end. */
  function CloseQuote(v: string, i: nat): (end: nat)
    ensures i <= end
    decreases if i < |v| then |v| - i else 0
  {
    if i >= |v| then i
    else if v[i] == '\\' then CloseQuote(v, i + 2)
    else if v[i] == '"' then i
    else CloseQuote(v, i + 1)
  }

  /** The end of a single-quoted scalar; two quotes in a row stand for one. */
  function SingleEnd(v: string, i: nat): (end: nat)
    requires i <= |v|
    ensures i <= end <= |v|
    decreases |v| - i
  {
    if i == |v| then i
    else if v[i] != '\'' then SingleEnd(v, i + 1)
    else if i + 1 < |v| && v[i + 1] == '\'' then SingleEnd(v, i + 2)
    else i
  }

  function Unpair(s: string): string {
    if |s| >= 2 && s[0] == '\'' && s[1] == '\'' then "'" + Unpair(s[2..])
    else if s == "" then "" else [s[0]] + Unpair(s[1..])
  }

  function CutComment(v: string): string {
    if Contains(v, " #") then DropBack(v[..Find(v, " #")]) else v
  }

  function Plain(v: string): Option<string> {
    var w := CutComment(v);
    if Contains(w, ": ") || EndsWith(w, ":") || (w != "" && w[0] in "{[&*!") then None else Some(w)
  }

  function Scalar(raw: string): Option<string> {
    var v := Strip(raw);
    if v == "" || v[0] == '#' then None
    else if v[0] == '"' then
      var end := CloseQuote(v, 1);
      JsonChars(if end < |v| then v[1..end + 1] else v[1..])
    else if v[0] == '\'' then
      var end := SingleEnd(v, 1);
      if end == |v| then None else Some(Unpair(v[1..end]))
    else Plain(v)
  }

  function SplitCommas(s: string): (parts: seq<string>)
    ensures |parts| > 0
  {
    if s == "" then [""]
    else
      var rest := SplitCommas(s[1..]);
      if s[0] == ',' then [""] + rest else [[s[0]] + rest[0]] + rest[1..]
  }

  function Scalars(parts: seq<string>): seq<string> {
    if parts == [] then []
    else
      var v := Scalar(parts[0]);
      (if v.Some? then [v.value] else []) + Scalars(parts[1..])
  }

  function FlowList(raw: string, arrays: JsonArrays): Option<seq<string>> {
    var v0 := Strip(raw);
    var v := if Contains(v0, " #") && !StartsWith(v0, "[\"") then CutComment(v0) else v0;
    if !(StartsWith(v, "[") && EndsWith(v, "]")) then None
    else if arrays(v).Some? then Some(NonEmpty(arrays(v).value))
    else
      var inner := Strip(if |v| < 2 then "" else v[1..|v| - 1]);
      Some(if inner == "" then [] else NonEmpty(Scalars(SplitCommas(inner))))
  }

  // ---- the scanner, line by line ----

  /** access: the last top-level line was an access section; Block: inside a key list at this indent. */
  datatype Mode = Outside(access: bool) | Block(access: bool, indent: nat)

  /** What the scanner looks at in a line. ignored: blank or comment; dash: a list item; access, opens: it
      starts an access section or a key list; flow: the list on the same line; item: the key of an item. */
  datatype Row = Row(indent: nat, ignored: bool, dash: bool, access: bool, opens: bool,
                     flow: Option<seq<string>>, item: seq<string>)

  function ItemKey(text: string): seq<string> {
    var v := Scalar(text);
    if v.Some? && v.value != "" then [v.value] else []
  }

  function Look(line: string, arrays: JsonArrays): Row {
    var s := Strip(line);
    Row(Indent(line), s == "" || StartsWith(s, "#"), StartsWith(s, "- "), StartsWith(s, "access:"),
        StartsWith(s, "api-keys:"),
        if StartsWith(s, "api-keys:") then FlowList(s[|"api-keys:"|..], arrays) else None,
        if StartsWith(s, "- ") then ItemKey(s[2..]) else [])
  }

  /** How a line is looked at, as a value: the loops below do not depend on it. */
  type Looker = string -> Row

  function LookerFor(arrays: JsonArrays): Looker {
    line => Look(line, arrays)
  }

  function Rows(lines: seq<string>, look: Looker): (rows: seq<Row>)
    ensures |rows| == |lines|
  {
    if lines == [] then [] else [look(lines[0])] + Rows(lines[1..], look)
  }

  predicate LeavesBlock(m: Mode, r: Row)
    requires m.Block?
  {
    r.indent < m.indent || (r.indent == m.indent && !r.dash)
  }

  function AccessAfter(access: bool, r: Row): bool {
    if r.indent == 0 && !r.ignored then r.access else access
  }

  function ScanOutside(access: bool, r: Row): (Mode, seq<string>) {
    var acc := AccessAfter(access, r);
    if !(r.opens && (r.indent == 0 || acc)) then (Outside(acc), [])
    else if r.flow.Some? then (Outside(acc), r.flow.value)
    else (Block(acc, r.indent), [])
  }

  function ScanRow(m: Mode, r: Row): (Mode, seq<string>) {
    if m.Block? && r.ignored then (m, [])
    else if m.Block? && !LeavesBlock(m, r) then (m, if r.dash && r.indent <= m.indent + 2 then r.item else [])
    else ScanOutside(m.access, r)
  }

  function Scan(m: Mode, rows: seq<Row>): seq<string>
    decreases |rows|
  {
    if rows == [] then [] else ScanRow(m, rows[0]).1 + Scan(ScanRow(m, rows[0]).0, rows[1..])
  }

  function ModeAfter(m: Mode, rows: seq<Row>): Mode
    decreases |rows|
  {
    if rows == [] then m else ModeAfter(ScanRow(m, rows[0]).0, rows[1..])
  }

  lemma {:induction false} ScanConcat(m: Mode, a: seq<Row>, b: seq<Row>)
    ensures Scan(m, a + b) == Scan(m, a) + Scan(ModeAfter(m, a), b)
    decreases |a|
  {
    if a == [] {
      assert a + b == b;
    } else {
      var next, keys := ScanRow(m, a[0]).0, ScanRow(m, a[0]).1;
      ScanConcat(next, a[1..], b);
      assert (a + b)[1..] == a[1..] + b && (a + b)[0] == a[0];
      Assoc(keys, Scan(next, a[1..]), Scan(ModeAfter(next, a[1..]), b));
    }
  }

  lemma {:induction false} RowsConcat(a: seq<string>, b: seq<string>, look: Looker)
    ensures Rows(a + b, look) == Rows(a, look) + Rows(b, look)
  {
    if a == [] {
      assert a + b == b;
    } else {
      RowsConcat(a[1..], b, look);
      assert (a + b)[1..] == a[1..] + b && (a + b)[0] == a[0];
      Assoc([look(a[0])], Rows(a[1..], look), Rows(b, look));
    }
  }

  lemma {:induction false} RowAt(lines: seq<string>, look: Looker, i: nat)
    requires i < |lines|
    ensures Rows(lines, look)[i] == look(lines[i])
  {
    if i > 0 {
      RowAt(lines[1..], look, i - 1);
    }
  }

  function KeysOf(text: string, arrays: JsonArrays): seq<string> {
    Dedup(Scan(Outside(false), Rows(SplitLines(text), LookerFor(arrays))))
  }

  /** One more row read. */
  lemma ScanNext(m: Mode, rows: seq<Row>, i: nat)
    requires i < |rows|
    ensures Scan(m, rows[i..]) == ScanRow(m, rows[i]).1 + Scan(ScanRow(m, rows[i]).0, rows[i + 1..])
  {
    assert rows[i..][1..] == rows[i + 1..];
  }

  method Unique(found: seq<string>) returns (out: seq<string>)
    ensures out == Dedup(found)
  {
    out := [];
    for j := 0 to |found|
      invariant out == Dedup(found[..j])
    {
      assert found[..j + 1][..j] == found[..j];
      if found[j] !in out {
        out := out + [found[j]];
      }
    }
    assert found[..|found|] == found;
  }

  method KeysFromText(text: string, arrays: JsonArrays) returns (out: seq<string>)
    ensures out == KeysOf(text, arrays)
  {
    var lines := SplitLines(text);
    var found := ScanLines(lines, LookerFor(arrays));
    out := Unique(found);
  }

  /** What a line outside a block adds, and whether it opens one. */
  method OuterRow(access: bool, r: Row) returns (m: Mode, ks: seq<string>)
    ensures (m, ks) == ScanRow(Outside(access), r)
  {
    var parent := access;
    if r.indent == 0 && !r.ignored {
      parent := r.access;
    }
    var isTop := r.indent == 0 && r.opens;
    var isAccess := parent && r.indent > 0 && r.opens;
    if !(isTop || isAccess) {
      return Outside(parent), [];
    }
    if r.flow.Some? {
      return Outside(parent), r.flow.value;
    }
    return Block(parent, r.indent), [];
  }

  /** What a line inside a block adds. */
  function Taken(m: Mode, r: Row): seq<string>
    requires m.Block?
  {
    if !r.ignored && r.dash && r.indent <= m.indent + 2 then r.item else []
  }

  /** found and what is still to be scanned make up all. */
  ghost predicate Remaining(m: Mode, rows: seq<Row>, i: nat, found: seq<string>, all: seq<string>)
    requires i <= |rows|
  {
    found + Scan(m, rows[i..]) == all
  }

  /** A line inside a block either belongs to it or ends it. */
  lemma BlockNext(m: Mode, rows: seq<Row>, i: nat, found: seq<string>, all: seq<string>)
    requires i < |rows| && m.Block? && Remaining(m, rows, i, found, all)
    ensures rows[i].ignored || !LeavesBlock(m, rows[i]) ==> Remaining(m, rows, i + 1, found + Taken(m, rows[i]), all)
    ensures !rows[i].ignored && LeavesBlock(m, rows[i]) ==> Remaining(Outside(m.access), rows, i, found, all)
  {
    ScanNext(m, rows, i);
    ScanNext(Outside(m.access), rows, i);
    Assoc(found, Taken(m, rows[i]), Scan(m, rows[i + 1..]));
  }

  lemma AtEnd(m: Mode, rows: seq<Row>, found: seq<string>, all: seq<string>)
    requires Remaining(m, rows, |rows|, found, all)
    ensures found == all && Remaining(Outside(m.access), rows, |rows|, found, all)
  {
    assert rows[|rows|..] == [] && found + [] == found;
  }

  /** The inner loop: it stops at the line that ends the block and leaves it to the outer one. */
  method ReadItems(lines: seq<string>, start: nat, m: Mode, before: seq<string>, look: Looker, ghost rows: seq<Row>,
                   ghost all: seq<string>)
    returns (i: nat, found: seq<string>)
    requires start <= |lines| && m.Block? && rows == Rows(lines, look) && Remaining(m, rows, start, before, all)
    ensures start <= i <= |lines| && Remaining(Outside(m.access), rows, i, found, all)
  {
    i, found := start, before;
    while i < |lines|
      invariant start <= i <= |lines|
      invariant Remaining(m, rows, i, found, all)
    {
      BlockNext(m, rows, i, found, all);
      RowAt(lines, look, i);
      var r := look(lines[i]);
      if r.ignored {
        i := i + 1;
        continue;
      }
      if r.indent < m.indent || (r.indent == m.indent && !r.dash) {
        return;
      }
      if r.dash && r.indent <= m.indent + 2 {
        found := found + r.item;
      }
      i := i + 1;
    }
    AtEnd(m, rows, found, all);
  }

  lemma OuterNext(access: bool, rows: seq<Row>, i: nat, found: seq<string>, all: seq<string>)
    requires i < |rows| && Remaining(Outside(access), rows, i, found, all)
    ensures var (m, ks) := ScanRow(Outside(access), rows[i]); Remaining(m, rows, i + 1, found + ks, all)
  {
    ScanNext(Outside(access), rows, i);
    Assoc(found, ScanRow(Outside(access), rows[i]).1, Scan(ScanRow(Outside(access), rows[i]).0, rows[i + 1..]));
  }

  /** The scanner as written: an outer loop looking for key lists and an inner one reading items. */
  method ScanLines(lines: seq<string>, look: Looker) returns (found: seq<string>)
    ensures found == Scan(Outside(false), Rows(lines, look))
  {
    ghost var rows := Rows(lines, look);
    ghost var all := Scan(Outside(false), rows);
    var i := 0;
    var access := false;
    found := [];
    assert rows[0..] == rows && [] + all == all;
    while i < |lines|
      invariant 0 <= i <= |lines|
      invariant Remaining(Outside(access), rows, i, found, all)
    {
      OuterNext(access, rows, i, found, all);
      RowAt(lines, look, i);
      var m, ks := OuterRow(access, look(lines[i]));
      i := i + 1;
      found := found + ks;
      access := m.access;
      if m.Block? {
        i, found := ReadItems(lines, i, m, found, look, rows, all);
      }
    }
    AtEnd(Outside(access), rows, found, all);
  }

  // ---- the list of keys to keep ----

  const SAMPLE_KEYS := {"your-api-key-1", "your-api-key-2", "your-api-key-3"}

  predicate Worth(k: string) {
    k !in SAMPLE_KEYS && !StartsWith(k, "__")
  }

  /** All keys of the readable files in order; an unreadable file counts as none. */
  function AllKeys(files: seq<Option<string>>, arrays: JsonArrays): seq<string> {
    if files == [] then []
    else
      var last := files[|files| - 1];
      AllKeys(files[..|files| - 1], arrays) + if last.Some? then KeysOf(last.value, arrays) else []
  }

  function WorthyOf(keys: seq<string>): (r: seq<string>)
    ensures forall k :: k in r <==> Worth(k) && k in keys
  {
    if keys == [] then [] else WorthyOf(keys[..|keys| - 1]) + if Worth(keys[|keys| - 1]) then [keys[|keys| - 1]] else []
  }

  lemma {:induction false} WorthyConcat(a: seq<string>, b: seq<string>)
    ensures WorthyOf(a + b) == WorthyOf(a) + WorthyOf(b)
  {
    if b == [] {
      assert a + b == a;
    } else {
      var more: seq<string> := if Worth(b[|b| - 1]) then [b[|b| - 1]] else [];
      WorthyConcat(a, b[..|b| - 1]);
      assert (a + b)[..|a + b| - 1] == a + b[..|b| - 1];
      Assoc(WorthyOf(a), WorthyOf(b[..|b| - 1]), more);
    }
  }

  method AddWorthy(before: seq<string>, keys: seq<string>) returns (out: seq<string>)
    requires Distinct(before)
    ensures out == Dedup(before + WorthyOf(keys))
  {
    out := before;
    DedupDistinct(before);
    assert before + [] == before;
    for j := 0 to |keys|
      invariant out == Dedup(before + WorthyOf(keys[..j]))
    {
      WorthySnoc(before, keys, j);
      if Worth(keys[j]) && keys[j] !in out {
        out := out + [keys[j]];
      }
    }
    assert keys[..|keys|] == keys;
  }

  lemma WorthySnoc(before: seq<string>, keys: seq<string>, j: nat)
    requires j < |keys|
    ensures var d, k := Dedup(before + WorthyOf(keys[..j])), keys[j];
      Dedup(before + WorthyOf(keys[..j + 1])) == if Worth(k) && k !in d then d + [k] else d
  {
    var more: seq<string> := if Worth(keys[j]) then [keys[j]] else [];
    assert keys[..j + 1][..j] == keys[..j];
    Assoc(before, WorthyOf(keys[..j]), more);
    DedupAppend(before + WorthyOf(keys[..j]), more);
  }

  lemma WorthyFile(before: seq<string>, keys: seq<string>)
    ensures Dedup(Dedup(WorthyOf(before)) + WorthyOf(keys)) == Dedup(WorthyOf(before + keys))
  {
    DedupEarly(WorthyOf(before), WorthyOf(keys));
    WorthyConcat(before, keys);
  }

  /** extract: every key of every readable file except samples and placeholders, in the order first met. */
  method Extract(files: seq<Option<string>>, arrays: JsonArrays) returns (out: seq<string>)
    ensures out == Dedup(WorthyOf(AllKeys(files, arrays)))
    ensures forall k :: k in out <==> Worth(k) && k in AllKeys(files, arrays)
  {
    out := [];
    for i := 0 to |files|
      invariant out == Dedup(WorthyOf(AllKeys(files[..i], arrays)))
    {
      assert files[..i + 1][..i] == files[..i];
      if files[i].Some? {
        var keys := KeysFromText(files[i].value, arrays);
        WorthyFile(AllKeys(files[..i], arrays), keys);
        out := AddWorthy(out, keys);
      } else {
        assert AllKeys(files[..i], arrays) + [] == AllKeys(files[..i], arrays);
      }
    }
    assert files[..|files|] == files;
  }

  /** The lines without surrounding blanks; what is blank is dropped. */
  function Stripped(lines: seq<string>): seq<string> {
    if lines == [] then [] else Kept(lines[0]) + Stripped(lines[1..])
  }

  function Kept(line: string): seq<string> {
    if Strip(line) != "" then [Strip(line)] else []
  }

  lemma {:induction false} StrippedSource(lines: seq<string>, k: string) returns (l: string)
    requires k in Stripped(lines)
    ensures l in lines && k == Strip(l)
  {
    if k in Kept(lines[0]) {
      l := lines[0];
    } else {
      l := StrippedSource(lines[1..], k);
    }
  }

  function WantedOf(text: string): seq<string> {
    Dedup(Stripped(SplitLines(text)))
  }

  lemma {:induction false} StrippedSnoc(lines: seq<string>, l: string)
    ensures Stripped(lines + [l]) == Stripped(lines) + Kept(l)
  {
    if lines != [] {
      StrippedSnoc(lines[1..], l);
      assert (lines + [l])[1..] == lines[1..] + [l];
    }
  }

  lemma WantedSnoc(lines: seq<string>, l: string)
    ensures var d, k := Dedup(Stripped(lines)), Strip(l);
      Dedup(Stripped(lines + [l])) == if k != "" && k !in d then d + [k] else d
  {
    StrippedSnoc(lines, l);
    DedupAppend(Stripped(lines), Kept(l));
  }

  method WantedLines(lines: seq<string>) returns (out: seq<string>)
    ensures out == Dedup(Stripped(lines))
  {
    out := [];
    for i := 0 to |lines|
      invariant out == Dedup(Stripped(lines[..i]))
    {
      assert lines[..i + 1] == lines[..i] + [lines[i]];
      WantedSnoc(lines[..i], lines[i]);
      var k := Strip(lines[i]);
      if k != "" && k !in out {
        out := out + [k];
      }
    }
    assert lines[..|lines|] == lines;
  }

  /** read_wanted: the keys of the wanted file, each once. */
  method ReadWanted(text: string) returns (out: seq<string>)
    ensures out == WantedOf(text)
  {
    out := WantedLines(SplitLines(text));
  }

  /** A key is a line of its own in the wanted file: no line break inside, no blank at either end. */
  predicate Survives(k: string) {
    NoBreaks(k) && Strip(k) == k
  }

  lemma {:induction false} StrippedKeeps(keys: seq<string>)
    requires forall i :: 0 <= i < |keys| ==> keys[i] != "" && Strip(keys[i]) == keys[i]
    ensures Stripped(keys) == keys
  {
    if keys != [] {
      StrippedKeeps(keys[1..]);
    }
  }

  lemma SomethingSurvives(text: string, k: string)
    requires k in WantedOf(text)
    ensures Survives(k)
  {
    var l := StrippedSource(SplitLines(text), k);
    LinesHaveNoBreaks(text);
    StripIs(l);
    StripFixed(k);
  }

  /** The wanted file gives back the extracted keys exactly when each of them survives as a line: a key with a
      blank at either end, or with a line break, is lost on the way. */
  lemma WantedRoundTrip(keys: seq<string>)
    requires Distinct(keys) && forall i :: 0 <= i < |keys| ==> keys[i] != ""
    ensures WantedOf(Terminated(keys)) == keys <==> forall i :: 0 <= i < |keys| ==> Survives(keys[i])
  {
    if forall i :: 0 <= i < |keys| ==> Survives(keys[i]) {
      SplitTerminated(keys, "");
      assert Terminated(keys) + "" == Terminated(keys) && keys + [] == keys;
      StrippedKeeps(keys);
      DedupDistinct(keys);
    } else {
      var i :| 0 <= i < |keys| && !Survives(keys[i]);
      if WantedOf(Terminated(keys)) == keys {
        SomethingSurvives(Terminated(keys), keys[i]);
        assert false;
      }
    }
  }

  lemma {:induction false} StrippedHas(lines: seq<string>, k: string)
    requires k in lines && Strip(k) == k && k != ""
    ensures k in Stripped(lines)
  {
    if lines[0] != k {
      StrippedHas(lines[1..], k);
    }
  }

  lemma {:induction false} SplitKeeps(keys: seq<string>, k: string)
    requires k in keys && k != "" && NoBreaks(k)
    ensures k in SplitLines(Terminated(keys))
  {
    var rest := Terminated(keys[1..]);
    SplitBehindNewline(keys[0] + "\n", rest);
    if keys[0] == k {
      SplitFirst(k, rest, k + "\n" + rest);
    } else {
      SplitKeeps(keys[1..], k);
    }
  }

  /** A key is read back exactly when it survives as a line, whatever the other keys are. */
  lemma KeyIsKept(keys: seq<string>, k: string)
    requires k in keys && k != ""
    ensures k in WantedOf(Terminated(keys)) <==> Survives(k)
  {
    if Survives(k) {
      SplitKeeps(keys, k);
      StrippedHas(SplitLines(Terminated(keys)), k);
    } else if k in WantedOf(Terminated(keys)) {
      SomethingSurvives(Terminated(keys), k);
    }
  }
}
