/** The ways a client key may be written in a configuration, and that the scanner reads each of them. */
module KeyForms {
  import opened Basics
  import opened Text
  import opened ClientKeys
  import opened Render
  import opened KeyRoundTrip
  import opened JsonStrings

  // ---- blanks at the ends ----

  lemma {:induction false} DropBackConcat(a: string, b: string)
    ensures DropBack(a + b) == if DropBack(b) == "" then DropBack(a) else a + DropBack(b)
  {
    if b == "" {
      assert a + b == a;
    } else if IsSpace(b[|b| - 1]) {
      assert (a + b)[..|a + b| - 1] == a + b[..|b| - 1];
      DropBackConcat(a, b[..|b| - 1]);
    }
  }

  predicate OnlySpaces(s: string) {
    forall i :: 0 <= i < |s| ==> s[i] == ' '
  }

  lemma {:induction false} DropSpaces(lead: string, s: string)
    requires OnlySpaces(lead)
    ensures DropFront(lead + s) == DropFront(s)
    ensures s == "" || s[0] != ' ' ==> Indent(lead + s) == |lead|
  {
    if lead == "" {
      assert lead + s == s;
    } else {
      HeadAndTail(lead, s);
      DropSpaces(lead[1..], s);
    }
  }

  /** A text that begins and ends without a blank. */
  predicate Firm(s: string) {
    s != "" && !IsSpace(s[0]) && !IsSpace(s[|s| - 1])
  }

  lemma StripFirm(a: string, tail: string)
    requires Firm(a)
    ensures Strip(a + tail) == a + DropBack(tail)
  {
    DropBackConcat(a, tail);
    assert (a + tail)[0] == a[0];
    assert DropBack(tail) == "" ==> a + DropBack(tail) == a;
  }

  // ---- plain ----

  /** A key that may stand without quotes. */
  predicate PlainOk(k: string) {
    && Firm(k) && k[0] !in "#\"'{[&*!" && !Contains(k, " #") && !Contains(k, ": ") && !EndsWith(k, ":")
  }

  lemma {:induction false} FindIs(s: string, pattern: string, k: nat)
    requires k < |s| && StartsWith(s[k..], pattern) && forall i :: 0 <= i < k ==> !StartsWith(s[i..], pattern)
    ensures Find(s, pattern) == k
  {
    assert s[0..] == s;
    if k > 0 {
      assert s[1..][k - 1..] == s[k..];
      forall i | 0 <= i < k - 1 ensures !StartsWith(s[1..][i..], pattern) {
        assert s[1..][i..] == s[i + 1..];
      }
      FindIs(s[1..], pattern, k - 1);
    }
  }

  lemma {:induction false} NotFound(s: string, pattern: string, i: nat)
    requires !Contains(s, pattern) && i < |s|
    ensures !StartsWith(s[i..], pattern)
  {
    assert s[0..] == s;
    if i > 0 {
      assert s[1..][i - 1..] == s[i..];
      NotFound(s[1..], pattern, i - 1);
    }
  }

  /** A comment behind a key that holds none begins where the key ends. */
  lemma CommentStarts(k: string, c: string)
    requires k != "" && k[|k| - 1] != ' ' && !Contains(k, " #")
    ensures Find(k + (" #" + c), " #") == |k|
  {
    var s := k + (" #" + c);
    forall i | 0 <= i < |k| ensures !StartsWith(s[i..], " #") {
      NotFound(k, " #", i);
      assert s[i..][0] == k[i];
      assert i + 1 < |k| ==> k[i..][..2] == s[i..][..2];
    }
    assert s[|k|..] == " #" + c;
    FindIs(s, " #", |k|);
  }

  lemma PlainAlone(k: string)
    requires PlainOk(k)
    ensures Scalar(k) == Some(k)
  {
    StripFixed(k);
  }

  /** Without quotes and comment, a text is a key if and only if it is none of these. */
  lemma PlainIff(v: string)
    requires Firm(v) && v[0] !in "#\"'" && !Contains(v, " #")
    ensures Scalar(v) == if Contains(v, ": ") || EndsWith(v, ":") || v[0] in "{[&*!" then None else Some(v)
  {
    StripFixed(v);
  }

  lemma PlainWithComment(k: string, c: string)
    requires PlainOk(k)
    ensures Scalar(k + (" #" + c)) == Some(k)
  {
    StripFirm(k, " #" + c);
    DropBackConcat(" #", c);
    CommentKept(c);
    var v := k + (" #" + DropBack(c));
    CommentStarts(k, DropBack(c));
    assert v[..|k|] == k && v[0] == k[0];
  }

  lemma CommentKept(c: string)
    ensures DropBack(" #" + c) == " #" + DropBack(c)
  {
    DropBackConcat(" #", c);
    assert DropBack(" #") == " #" && " #" + "" == " #";
  }

  // ---- single quotes ----

  function Doubled(k: string): string {
    if k == "" then "" else (if k[0] == '\'' then "''" else [k[0]]) + Doubled(k[1..])
  }

  lemma {:induction false} UnpairDoubled(k: string)
    ensures Unpair(Doubled(k)) == k
  {
    if k != "" {
      UnpairDoubled(k[1..]);
      var d := Doubled(k[1..]);
      assert k == [k[0]] + k[1..];
      if k[0] == '\'' {
        assert ("''" + d)[2..] == d;
      } else {
        assert ([k[0]] + d)[1..] == d;
      }
    }
  }

  lemma {:induction false} SingleCloses(v: string, i: nat, k: string, tail: string)
    requires i <= |v| && v[i..] == Doubled(k) + ("'" + tail) && (tail == "" || tail[0] != '\'')
    ensures SingleEnd(v, i) == i + |Doubled(k)|
    decreases |k|
  {
    if k == "" {
      DropAt(v, i, "'", tail);
      assert tail != "" ==> v[i + 1..][0] == tail[0];
    } else {
      var e := if k[0] == '\'' then "''" else [k[0]];
      Assoc(e, Doubled(k[1..]), "'" + tail);
      DropAt(v, i, e, Doubled(k[1..]) + ("'" + tail));
      SingleCloses(v, i + |e|, k[1..], tail);
      assert v[i + 0] == e[0];
    }
  }

  lemma InQuotes(q: string, d: string, t: string)
    requires |q| == 1
    ensures var v := q + d + q + t; v[0] == q[0] && v[1..] == d + (q + t) && v[1..1 + |d|] == d && 1 + |d| < |v|
    ensures (q + d + q + t)[1..1 + |d| + 1] == d + q
  {
  }

  function Single(k: string): string {
    "'" + Doubled(k) + "'"
  }

  lemma SingleRead(k: string, tail: string)
    requires DropBack(tail) == "" || DropBack(tail)[0] != '\''
    ensures Scalar(Single(k) + tail) == Some(k)
  {
    StripFirm(Single(k), tail);
    SingleAt(Single(k) + DropBack(tail), k, DropBack(tail));
    UnpairDoubled(k);
  }

  lemma SingleAt(v: string, k: string, t: string)
    requires v == Single(k) + t && (t == "" || t[0] != '\'')
    ensures var end := SingleEnd(v, 1); v[0] == '\'' && end < |v| && v[1..end] == Doubled(k)
  {
    InQuotes("'", Doubled(k), t);
    SingleCloses(v, 1, k, t);
  }

  // ---- double quotes ----

  function Double(k: string): string {
    "\"" + Escape(k) + "\""
  }

  lemma DoubleRead(k: string, tail: string)
    requires NoControl(k)
    ensures Scalar(Double(k) + tail) == Some(k)
  {
    StripFirm(Double(k), tail);
    var v, t := Double(k) + DropBack(tail), DropBack(tail);
    InQuotes("\"", Escape(k), t);
    QuoteCloses(v, 1, k, t);
    JsonUndoesEscape(k);
  }

  function Json(k: string): string {
    "\"" + Ascii(k) + "\""
  }

  lemma JsonRead(k: string, tail: string)
    ensures Scalar(Json(k) + tail) == Some(k)
  {
    StripFirm(Json(k), tail);
    var v, t := Json(k) + DropBack(tail), DropBack(tail);
    InQuotes("\"", Ascii(k), t);
    AsciiCloses(v, 1, k, t);
    JsonUndoesAscii(k);
  }

  // ---- any of them ----

  /** How a key is written, and what stands behind it on the line. */
  datatype Form =
    AsPlain | AsPlainBefore(comment: string) | AsSingle(tail: string) | AsDouble(tail: string) | AsJson(tail: string)

  function Worded(k: string, form: Form): string {
    match form
    case AsPlain => k
    case AsPlainBefore(c) => k + (" #" + c)
    case AsSingle(tail) => Single(k) + tail
    case AsDouble(tail) => Double(k) + tail
    case AsJson(tail) => Json(k) + tail
  }

  /** Any key may stand in single quotes or as a JSON string in ASCII, and any key without control characters in
      double quotes with only quotes and backslashes escaped. */
  predicate MayBe(k: string, form: Form) {
    match form
    case AsPlain => PlainOk(k)
    case AsPlainBefore(_) => PlainOk(k)
    case AsSingle(tail) => tail == "" || tail[0] == ' '
    case AsDouble(tail) => NoControl(k)
    case AsJson(_) => true
  }

  lemma BlankTail(tail: string)
    requires tail == "" || tail[0] == ' '
    ensures DropBack(tail) == "" || DropBack(tail)[0] == ' '
  {
    DropBackIs(tail);
  }

  lemma WordedRead(k: string, form: Form)
    requires MayBe(k, form)
    ensures Scalar(Worded(k, form)) == Some(k)
  {
    match form
    case AsPlain => PlainAlone(k);
    case AsPlainBefore(c) => PlainWithComment(k, c);
    case AsSingle(tail) => BlankTail(tail); SingleRead(k, tail);
    case AsDouble(tail) => DoubleRead(k, tail);
    case AsJson(tail) => JsonRead(k, tail);
  }

  lemma WordedBegins(k: string, form: Form)
    requires MayBe(k, form)
    ensures var w := Worded(k, form); w != "" && !IsSpace(w[0])
  {
  }

  /** Blanks around a scalar do not count. */
  lemma ScalarOfStripped(lead: string, w: string)
    requires OnlySpaces(lead) && w != "" && !IsSpace(w[0])
    ensures Scalar(lead + DropBack(w)) == Scalar(w) && Scalar(lead + w) == Scalar(w)
  {
    SameStripped(lead, w);
    SameScalar(lead + DropBack(w), w);
    SameScalar(lead + w, w);
  }

  lemma SameScalar(a: string, b: string)
    requires Strip(a) == Strip(b)
    ensures Scalar(a) == Scalar(b)
  {
  }

  lemma SameStripped(lead: string, w: string)
    requires OnlySpaces(lead) && w != "" && !IsSpace(w[0])
    ensures Strip(lead + DropBack(w)) == Strip(w) && Strip(lead + w) == Strip(w)
  {
    DropBackKeeps(w);
    DropSpaces(lead, DropBack(w));
    DropSpaces(lead, w);
    DropBackIs(w);
  }

  // ---- a block of keys ----

  /** A line of a block: an item, or one that is blank or a comment. */
  datatype Line = Entry(lead: string, key: string, form: Form) | Aside(text: string)

  function LineText(l: Line): string {
    match l
    case Entry(lead, key, form) => lead + ("- " + Worded(key, form))
    case Aside(text) => text
  }

  predicate IsAside(line: string) {
    Strip(line) == "" || StartsWith(Strip(line), "#")
  }

  /** Items stand no further out than the list's own line and at most two further in. */
  predicate Proper(l: Line, indent: nat) {
    match l
    case Entry(lead, key, form) =>
      OnlySpaces(lead) && indent <= |lead| <= indent + 2 && key != "" && MayBe(key, form)
    case Aside(text) => IsAside(text)
  }

  predicate AllProper(ls: seq<Line>, indent: nat) {
    forall i :: 0 <= i < |ls| ==> Proper(ls[i], indent)
  }

  function Texts(ls: seq<Line>): seq<string> {
    if ls == [] then [] else [LineText(ls[0])] + Texts(ls[1..])
  }

  function KeyList(ls: seq<Line>): seq<string> {
    if ls == [] then [] else (if ls[0].Entry? then [ls[0].key] else []) + KeyList(ls[1..])
  }

  lemma EntryStripped(lead: string, w: string)
    requires OnlySpaces(lead) && w != "" && !IsSpace(w[0])
    ensures Strip(lead + ("- " + w)) == "- " + DropBack(w) && Indent(lead + ("- " + w)) == |lead|
  {
    DropSpaces(lead, "- " + w);
    DropBackConcat("- ", w);
    DropBackKeeps(w);
  }

  lemma LookAtEntry(lead: string, key: string, form: Form, arrays: JsonArrays)
    requires OnlySpaces(lead) && key != "" && MayBe(key, form)
    ensures Look(LineText(Entry(lead, key, form)), arrays) == Row(|lead|, false, true, false, false, None, [key])
  {
    var w := Worded(key, form);
    WordedBegins(key, form);
    WordedRead(key, form);
    EntryStripped(lead, w);
    ScalarOfStripped("", w);
    DashedRow(lead + ("- " + w), DropBack(w), arrays);
    assert "" + DropBack(w) == DropBack(w);
  }

  lemma DashedRow(line: string, v: string, arrays: JsonArrays)
    requires Strip(line) == "- " + v
    ensures Look(line, arrays) == Row(Indent(line), false, true, false, false, None, ItemKey(v))
  {
    var s := "- " + v;
    assert s[2..] == v && s[0] == '-' && s[1] == ' ';
    assert !StartsWith(s, "#") && !StartsWith(s, "access:") && !StartsWith(s, "api-keys:");
  }

  lemma LookAtLine(m: Mode, l: Line, arrays: JsonArrays)
    requires m.Block? && Proper(l, m.indent)
    ensures ScanRow(m, Look(LineText(l), arrays)) == (m, if l.Entry? then [l.key] else [])
  {
    if l.Entry? {
      LookAtEntry(l.lead, l.key, l.form, arrays);
    }
  }

  lemma {:induction false} BlockIsScanned(m: Mode, ls: seq<Line>, arrays: JsonArrays)
    requires m.Block? && AllProper(ls, m.indent)
    ensures Scan(m, Rows(Texts(ls), LookerFor(arrays))) == KeyList(ls)
    ensures ModeAfter(m, Rows(Texts(ls), LookerFor(arrays))) == m
  {
    if ls != [] {
      LookAtLine(m, ls[0], arrays);
      BlockIsScanned(m, ls[1..], arrays);
      var texts := Texts(ls);
      assert texts[0] == LineText(ls[0]) && texts[1..] == Texts(ls[1..]);
      RowsFirst(texts, arrays);
    }
  }

  lemma RowsFirst(lines: seq<string>, arrays: JsonArrays)
    requires lines != []
    ensures var rows := Rows(lines, LookerFor(arrays));
      rows[0] == Look(lines[0], arrays) && rows[1..] == Rows(lines[1..], LookerFor(arrays))
  {
  }
}
