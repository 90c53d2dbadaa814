/** Whole key lists: a block of items or a list on one line, at the top level or under access. */
module KeyBlocks {
  import opened Basics
  import opened Text
  import opened ClientKeys
  import opened KeyForms

  // ---- the lines around a list ----

  /** A line that opens no key list. */
  predicate Quiet(line: string) {
    !StartsWith(Strip(line), "api-keys:")
  }

  predicate AllQuiet(lines: seq<string>) {
    forall i :: 0 <= i < |lines| ==> Quiet(lines[i])
  }

  predicate TopLevel(line: string) {
    Indent(line) == 0 && !IsAside(line)
  }

  /** Some line opens the access section and no top-level line comes after it. */
  predicate UnderAccess(front: seq<string>) {
    exists a :: 0 <= a < |front| && AccessLine(front[a]) && forall i :: a < i < |front| ==> !TopLevel(front[i])
  }

  predicate AccessLine(line: string) {
    TopLevel(line) && StartsWith(Strip(line), "access:")
  }

  /** The first line with content is no part of a block of this indent. */
  predicate Leaves(rest: seq<string>, indent: nat) {
    rest == [] ||
    if IsAside(rest[0]) then Leaves(rest[1..], indent)
    else Indent(rest[0]) < indent || (Indent(rest[0]) == indent && !StartsWith(Strip(rest[0]), "- "))
  }

  lemma LookAround(line: string, arrays: JsonArrays)
    ensures var r := Look(line, arrays);
      && r.indent == Indent(line) && r.ignored == IsAside(line) && r.opens == !Quiet(line)
      && r.dash == StartsWith(Strip(line), "- ") && r.access == StartsWith(Strip(line), "access:")
  {
  }

  /** Whether the lines end below access. */
  function Access(access: bool, lines: seq<string>): bool
    decreases |lines|
  {
    if lines == [] then access else Access(NowAccess(access, lines[0]), lines[1..])
  }

  function NowAccess(access: bool, line: string): bool {
    if TopLevel(line) then StartsWith(Strip(line), "access:") else access
  }

  lemma QuietRow(access: bool, line: string, arrays: JsonArrays)
    requires Quiet(line)
    ensures ScanRow(Outside(access), Look(line, arrays)) == (Outside(NowAccess(access, line)), [])
  {
    LookAround(line, arrays);
  }

  lemma {:induction false} QuietLines(access: bool, lines: seq<string>, arrays: JsonArrays)
    requires AllQuiet(lines)
    ensures var rows := Rows(lines, LookerFor(arrays));
      Scan(Outside(access), rows) == [] && ModeAfter(Outside(access), rows) == Outside(Access(access, lines))
    decreases |lines|
  {
    if lines != [] {
      RowsFirst(lines, arrays);
      QuietRow(access, lines[0], arrays);
      QuietLines(NowAccess(access, lines[0]), lines[1..], arrays);
    }
  }

  lemma {:induction false} StaysUnderAccess(access: bool, lines: seq<string>)
    requires access && forall i :: 0 <= i < |lines| ==> !TopLevel(lines[i])
    ensures Access(access, lines)
  {
    if lines != [] {
      assert !TopLevel(lines[0]);
      StaysUnderAccess(access, lines[1..]);
    }
  }

  lemma {:induction false} AccessFound(access: bool, front: seq<string>, a: nat)
    requires a < |front| && AccessLine(front[a]) && forall i :: a < i < |front| ==> !TopLevel(front[i])
    ensures Access(access, front)
    decreases |front|
  {
    if a == 0 {
      StaysUnderAccess(true, front[1..]);
    } else {
      AccessFound(NowAccess(access, front[0]), front[1..], a - 1);
    }
  }

  lemma {:induction false} LeavesQuietly(m: Mode, rest: seq<string>, arrays: JsonArrays)
    requires m.Block? && AllQuiet(rest) && Leaves(rest, m.indent)
    ensures Scan(m, Rows(rest, LookerFor(arrays))) == []
  {
    if rest != [] {
      RowsFirst(rest, arrays);
      LookAround(rest[0], arrays);
      if IsAside(rest[0]) {
        LeavesQuietly(m, rest[1..], arrays);
      } else {
        QuietRow(m.access, rest[0], arrays);
        QuietLines(NowAccess(m.access, rest[0]), rest[1..], arrays);
      }
    }
  }

  // ---- a block ----

  lemma LookAtOpening(lead: string, arrays: JsonArrays)
    requires OnlySpaces(lead)
    ensures Look(lead + "api-keys:", arrays) == Row(|lead|, false, false, false, true, None, [])
  {
    DropSpaces(lead, "api-keys:");
    StripFixed("api-keys:");
    assert "api-keys:"[|"api-keys:"|..] == "" && Strip("") == "";
    assert "api-keys:"[0] == 'a' && "api-keys:"[1] == 'p' && "access:"[1] == 'c';
  }

  /** A list stands at the top level, or further in under access. */
  predicate Placed(lead: string, front: seq<string>) {
    OnlySpaces(lead) && (lead == "" || UnderAccess(front))
  }

  lemma PlacedIsSeen(lead: string, front: seq<string>, arrays: JsonArrays)
    requires Placed(lead, front) && AllQuiet(front)
    ensures var m := ModeAfter(Outside(false), Rows(front, LookerFor(arrays)));
      m.Outside? && (|lead| == 0 || m.access)
  {
    QuietLines(false, front, arrays);
    if lead != "" {
      var a :| 0 <= a < |front| && AccessLine(front[a]) && forall i :: a < i < |front| ==> !TopLevel(front[i]);
      AccessFound(false, front, a);
    }
  }

  lemma Opened(access: bool, lead: string, arrays: JsonArrays)
    requires OnlySpaces(lead) && (|lead| == 0 || access)
    ensures var (m, ks) := ScanRow(Outside(access), Look(lead + "api-keys:", arrays));
      ks == [] && m.Block? && m.indent == |lead|
  {
    LookAtOpening(lead, arrays);
  }

  lemma BlockFrom(access: bool, lead: string, ls: seq<Line>, rest: seq<string>, arrays: JsonArrays)
    requires OnlySpaces(lead) && (|lead| == 0 || access) && AllProper(ls, |lead|)
    requires AllQuiet(rest) && Leaves(rest, |lead|)
    ensures Scan(Outside(access), Rows([lead + "api-keys:"] + (Texts(ls) + rest), LookerFor(arrays))) == KeyList(ls)
  {
    var look, lines := LookerFor(arrays), [lead + "api-keys:"] + (Texts(ls) + rest);
    RowsFirst(lines, arrays);
    assert lines[1..] == Texts(ls) + rest;
    Opened(access, lead, arrays);
    var m := ScanRow(Outside(access), Look(lead + "api-keys:", arrays)).0;
    RowsConcat(Texts(ls), rest, look);
    BlockIsScanned(m, ls, arrays);
    ScanConcat(m, Rows(Texts(ls), look), Rows(rest, look));
    LeavesQuietly(m, rest, arrays);
    assert KeyList(ls) + [] == KeyList(ls) && [] + KeyList(ls) == KeyList(ls);
  }

  /** The keys of a block are read, in order and each once, however each of them is written, with blank lines and
      comments between them, at the top level or under access. */
  lemma BlockKeysAreRead(text: string, front: seq<string>, lead: string, ls: seq<Line>, rest: seq<string>,
                         arrays: JsonArrays)
    requires SplitLines(text) == front + ([lead + "api-keys:"] + (Texts(ls) + rest))
    requires AllQuiet(front) && AllQuiet(rest) && Placed(lead, front)
    requires AllProper(ls, |lead|) && Leaves(rest, |lead|)
    ensures KeysOf(text, arrays) == Dedup(KeyList(ls))
    ensures Distinct(KeyList(ls)) ==> KeysOf(text, arrays) == KeyList(ls)
  {
    var look, list := LookerFor(arrays), [lead + "api-keys:"] + (Texts(ls) + rest);
    RowsConcat(front, list, look);
    QuietLines(false, front, arrays);
    PlacedIsSeen(lead, front, arrays);
    var m := ModeAfter(Outside(false), Rows(front, look));
    ScanConcat(Outside(false), Rows(front, look), Rows(list, look));
    BlockFrom(m.access, lead, ls, rest, arrays);
    assert [] + KeyList(ls) == KeyList(ls);
    if Distinct(KeyList(ls)) {
      DedupDistinct(KeyList(ls));
    }
  }

  // ---- a list on one line ----

  /** A key and how it stands in the list. */
  datatype Part = Part(key: string, form: Form)

  /** Nothing stands behind the key, and no comma in it. */
  predicate Listable(p: Part) {
    && p.key != "" && MayBe(p.key, p.form) && ',' !in Worded(p.key, p.form)
    && (p.form == AsPlain || p.form == AsSingle("") || p.form == AsDouble("") || p.form == AsJson(""))
  }

  predicate AllListable(ps: seq<Part>) {
    forall i :: 0 <= i < |ps| ==> Listable(ps[i])
  }

  function PartKeys(ps: seq<Part>): seq<string> {
    if ps == [] then [] else [ps[0].key] + PartKeys(ps[1..])
  }

  /** The keys with a comma and a blank between them. */
  function Enumerated(ps: seq<Part>): string {
    if ps == [] then ""
    else if |ps| == 1 then Worded(ps[0].key, ps[0].form)
    else Worded(ps[0].key, ps[0].form) + (", " + Enumerated(ps[1..]))
  }

  lemma ListableIsFirm(p: Part)
    requires Listable(p)
    ensures Firm(Worded(p.key, p.form)) && Scalar(Worded(p.key, p.form)) == Some(p.key)
    ensures Scalar(" " + Worded(p.key, p.form)) == Some(p.key)
  {
    var w := Worded(p.key, p.form);
    WordedRead(p.key, p.form);
    WordedBegins(p.key, p.form);
    ScalarOfStripped(" ", w);
    if !p.form.AsPlain? {
      assert Single(p.key) + "" == Single(p.key) && Double(p.key) + "" == Double(p.key);
      assert Json(p.key) + "" == Json(p.key);
    }
  }

  lemma {:induction false} EnumeratedIsFirm(ps: seq<Part>)
    requires AllListable(ps) && ps != []
    ensures Firm(Enumerated(ps))
  {
    ListableIsFirm(ps[0]);
    if |ps| > 1 {
      EnumeratedIsFirm(ps[1..]);
      EndsLike(Worded(ps[0].key, ps[0].form) + ", ", Enumerated(ps[1..]));
      Assoc(Worded(ps[0].key, ps[0].form), ", ", Enumerated(ps[1..]));
    }
  }

  lemma EndsLike(a: string, b: string)
    requires a != "" && !IsSpace(a[0]) && Firm(b)
    ensures Firm(a + b)
  {
    assert (a + b)[|a + b| - 1] == b[|b| - 1];
  }

  lemma {:induction false} SplitAtComma(a: string, b: string)
    requires ',' !in a
    ensures SplitCommas(a) == [a] && SplitCommas(a + ("," + b)) == [a] + SplitCommas(b)
  {
    if a == "" {
      assert ("," + b)[1..] == b && a + ("," + b) == "," + b;
    } else {
      HeadAndTail(a, "," + b);
      SplitAtComma(a[1..], b);
      assert [a[0]] + a[1..] == a;
    }
  }

  lemma {:induction false} EnumeratedIsSplit(lead: string, ps: seq<Part>)
    requires AllListable(ps) && ps != [] && (lead == "" || lead == " ")
    ensures Scalars(SplitCommas(lead + Enumerated(ps))) == PartKeys(ps)
    decreases |ps|
  {
    var w := Worded(ps[0].key, ps[0].form);
    ListableIsFirm(ps[0]);
    FirstPart(lead, w, ps[0].key);
    if |ps| == 1 {
      SplitAtComma(lead + w, "");
      assert [lead + w][1..] == [] && PartKeys(ps[1..]) == [];
    } else {
      var more := " " + Enumerated(ps[1..]);
      FirstComma(lead, w, Enumerated(ps[1..]));
      SplitAtComma(lead + w, more);
      EnumeratedIsSplit(" ", ps[1..]);
      ScalarsCons(lead + w, SplitCommas(more));
    }
  }

  lemma FirstComma(lead: string, w: string, more: string)
    ensures lead + (w + (", " + more)) == (lead + w) + ("," + (" " + more))
  {
  }

  lemma ScalarsCons(part: string, parts: seq<string>)
    ensures Scalars([part] + parts) == (if Scalar(part).Some? then [Scalar(part).value] else []) + Scalars(parts)
  {
    assert ([part] + parts)[1..] == parts;
  }

  lemma FirstPart(lead: string, w: string, key: string)
    requires (lead == "" || lead == " ") && ',' !in w && Scalar(w) == Some(key) && Scalar(" " + w) == Some(key)
    ensures ',' !in lead + w && Scalar(lead + w) == Some(key)
  {
    assert "" + w == w;
  }

  lemma {:induction false} AllNonEmpty(ks: seq<string>)
    requires "" !in ks
    ensures NonEmpty(ks) == ks
  {
    if ks != [] {
      var n := |ks| - 1;
      assert ks == ks[..n] + [ks[n]];
      AllNonEmpty(ks[..n]);
    }
  }

  lemma {:induction false} PartKeysNonEmpty(ps: seq<Part>)
    requires AllListable(ps)
    ensures "" !in PartKeys(ps)
  {
    if ps != [] {
      PartKeysNonEmpty(ps[1..]);
      assert Listable(ps[0]);
    }
  }

  /** A list in brackets that is no JSON array and holds no comment is read part by part. */
  lemma FlowIsRead(ps: seq<Part>, arrays: JsonArrays)
    requires AllListable(ps) && ps != []
    requires var list := "[" + Enumerated(ps) + "]"; arrays(list) == None && !Contains(list, " #")
    ensures FlowList(" " + ("[" + Enumerated(ps) + "]"), arrays) == Some(PartKeys(ps))
  {
    var inner := Enumerated(ps);
    var list := "[" + inner + "]";
    EnumeratedIsFirm(ps);
    EnumeratedIsSplit("", ps);
    assert "" + inner == inner;
    StripFixed(inner);
    PartKeysNonEmpty(ps);
    AllNonEmpty(PartKeys(ps));
    ListIs(inner);
  }

  lemma ListIs(inner: string)
    requires Firm(inner)
    ensures var list := "[" + inner + "]";
      && Strip(" " + list) == list && StartsWith(list, "[") && EndsWith(list, "]") && |list| >= 2
      && list[1..|list| - 1] == inner
  {
    var list := "[" + inner + "]";
    DropSpaces(" ", list);
    StripFixed(list);
    assert list[|list| - 1..] == "]";
  }

  lemma JsonIsRead(list: string, ks: seq<string>, arrays: JsonArrays)
    requires Firm(list) && StartsWith(list, "[") && EndsWith(list, "]") && arrays(list) == Some(ks)
    requires !Contains(list, " #") || StartsWith(list, "[\"")
    ensures FlowList(" " + list, arrays) == Some(NonEmpty(ks))
  {
    DropSpaces(" ", list);
    StripFixed(list);
  }

  lemma LookAtFlow(lead: string, list: string, arrays: JsonArrays)
    requires OnlySpaces(lead) && Firm(list)
    ensures var r := Look(lead + ("api-keys: " + list), arrays);
      r.indent == |lead| && !r.ignored && r.opens && !r.access && r.flow == FlowList(" " + list, arrays)
  {
    FlowStripped(lead, "api-keys: " + list, list);
    FlowRow(lead + ("api-keys: " + list), "api-keys: " + list, list, arrays);
  }

  lemma FlowStripped(lead: string, s: string, list: string)
    requires OnlySpaces(lead) && Firm(list) && s == "api-keys: " + list
    ensures Strip(lead + s) == s && Indent(lead + s) == |lead|
  {
    EndsLike("api-keys: ", list);
    assert s[0] == 'a';
    DropSpaces(lead, s);
    StripFixed(s);
  }

  lemma FlowRow(line: string, s: string, list: string, arrays: JsonArrays)
    requires Strip(line) == s && s == "api-keys: " + list
    ensures var r := Look(line, arrays); !r.ignored && r.opens && !r.access && r.flow == FlowList(" " + list, arrays)
  {
    FlowPart(s, list);
    assert s[0] == 'a' && s[1] == 'p' && "access:"[1] == 'c';
  }

  lemma FlowPart(s: string, list: string)
    requires s == "api-keys: " + list
    ensures StartsWith(s, "api-keys:") && s[|"api-keys:"|..] == " " + list
  {
  }

  lemma FlowLine(text: string, front: seq<string>, lead: string, list: string, rest: seq<string>, keys: seq<string>,
                 arrays: JsonArrays)
    requires SplitLines(text) == front + ([lead + ("api-keys: " + list)] + rest)
    requires AllQuiet(front) && AllQuiet(rest) && Placed(lead, front) && Firm(list)
    requires FlowList(" " + list, arrays) == Some(keys)
    ensures KeysOf(text, arrays) == Dedup(keys)
  {
    var look, lines := LookerFor(arrays), [lead + ("api-keys: " + list)] + rest;
    RowsConcat(front, lines, look);
    QuietLines(false, front, arrays);
    PlacedIsSeen(lead, front, arrays);
    var m := ModeAfter(Outside(false), Rows(front, look));
    ScanConcat(Outside(false), Rows(front, look), Rows(lines, look));
    LookAtFlow(lead, list, arrays);
    RowsFirst(lines, arrays);
    assert lines[1..] == rest;
    QuietLines(ScanRow(m, Look(lines[0], arrays)).0.access, rest, arrays);
    assert keys + [] == keys && [] + keys == keys;
  }

  lemma ListIsRead(ps: seq<Part>, list: string, arrays: JsonArrays)
    requires AllListable(ps) && ps != [] && list == "[" + Enumerated(ps) + "]" && !Contains(list, " #")
    requires arrays(list) in {None, Some(PartKeys(ps))}
    ensures Firm(list) && FlowList(" " + list, arrays) == Some(PartKeys(ps))
  {
    EnumeratedIsFirm(ps);
    ListIs(Enumerated(ps));
    if arrays(list) == None {
      FlowIsRead(ps, arrays);
    } else {
      JsonIsRead(list, PartKeys(ps), arrays);
      PartKeysNonEmpty(ps);
      AllNonEmpty(PartKeys(ps));
    }
  }

  /** The keys of a list on one line are read, whether the JSON library takes the list or it is read part by part. */
  lemma FlowKeysAreRead(text: string, front: seq<string>, lead: string, ps: seq<Part>, rest: seq<string>,
                        arrays: JsonArrays)
    requires AllListable(ps) && ps != []
    requires var list := "[" + Enumerated(ps) + "]";
      && SplitLines(text) == front + ([lead + ("api-keys: " + list)] + rest)
      && !Contains(list, " #") && arrays(list) in {None, Some(PartKeys(ps))}
    requires AllQuiet(front) && AllQuiet(rest) && Placed(lead, front)
    ensures KeysOf(text, arrays) == Dedup(PartKeys(ps))
    ensures Distinct(PartKeys(ps)) ==> KeysOf(text, arrays) == PartKeys(ps)
  {
    var list := "[" + Enumerated(ps) + "]";
    ListIsRead(ps, list, arrays);
    FlowLine(text, front, lead, list, rest, PartKeys(ps), arrays);
    if Distinct(PartKeys(ps)) {
      DedupDistinct(PartKeys(ps));
    }
  }
}
