/** Which routes the agent is willing to advertise: a comma-separated list, each field
    without blanks, a bare address completed to /32, anything wider than /24 left out. */
module RouteFilter {
  import opened Basics

  function Fields(s: string): (fs: seq<string>)
    ensures |fs| > 0 && forall i :: 0 <= i < |fs| ==> ',' !in fs[i]
  {
    if s == "" then [""]
    else
      var rest := Fields(s[1..]);
      if s[0] == ',' then [""] + rest else [[s[0]] + rest[0]] + rest[1..]
  }

  function NoBlanks(s: string): (r: string)
    ensures ' ' !in r && forall c :: c in r ==> c in s
  {
    if s == "" then "" else (if s[0] == ' ' then "" else [s[0]]) + NoBlanks(s[1..])
  }

  /** The text after the last slash, or all of it. */
  function AfterSlash(s: string): (r: string)
    ensures '/' !in r && |r| <= |s| && s[|s| - |r|..] == r
    ensures '/' in s ==> |r| < |s| && s[|s| - |r| - 1] == '/'
  {
    if '/' !in s then s
    else if '/' in s[1..] then AfterSlash(s[1..])
    else assert s[0] == '/'; s[1..]
  }

  predicate Digit(c: char) {
    '0' <= c <= '9'
  }

  predicate Digits(s: string) {
    s != "" && forall c :: c in s ==> Digit(c)
  }

  function Decimal(s: string): nat
    requires forall c :: c in s ==> Digit(c)
  {
    if s == "" then 0
    else
      var last := s[|s| - 1];
      assert Digit(last);
      Decimal(s[..|s| - 1]) * 10 + (last as int - '0' as int)
  }

  predicate LeadingSpace(c: char) {
    c == ' ' || '\t' <= c <= '\r'
  }

  function DropLeading(s: string): string {
    if s != "" && LeadingSpace(s[0]) then DropLeading(s[1..]) else s
  }

  function DropTrailing(s: string): string {
    if s != "" && s[|s| - 1] in " \t" then DropTrailing(s[..|s| - 1]) else s
  }

  /** What the shell's -ge accepts as a number: an optional sign and digits of a 64-bit value. */
  predicate AtLeast(s: string, bound: nat) {
    var t := DropTrailing(DropLeading(s));
    var d := if t != "" && t[0] in "+-" then t[1..] else t;
    && Digits(d)
    && bound <= Decimal(d) < 0x8000_0000_0000_0000
    && !(t[0] == '-' && Decimal(d) != 0)
  }

  /** What becomes of one field: nothing, or a prefix of /24 or longer. */
  function SafeField(field: string): seq<string> {
    var f := NoBlanks(field);
    if f == "" then []
    else if '/' in f then if AtLeast(AfterSlash(f), 24) then [f] else []
    else [f + "/32"]
  }

  predicate SafeRoute(r: string) {
    '/' in r && AtLeast(AfterSlash(r), 24)
  }

  lemma {:induction false} SlashLast(f: string, tail: string)
    requires '/' !in f && '/' !in tail
    ensures AfterSlash(f + "/" + tail) == tail
  {
    var s := f + "/" + tail;
    assert s[|f|] == '/';
    if f != "" {
      assert s[1..] == f[1..] + "/" + tail;
      SlashLast(f[1..], tail);
      assert '/' in s[1..];
    } else {
      assert s[1..] == tail;
    }
  }

  lemma BareIsSafe(f: string)
    requires '/' !in f
    ensures SafeRoute(f + "/32")
  {
    SlashLast(f, "32");
    assert f + "/" + "32" == f + "/32";
    assert (f + "/32")[|f|] == '/';
    TwoDigitValue('3', '2');
  }

  function SafeFields(fs: seq<string>): seq<string> {
    if fs == [] then [] else SafeFields(fs[..|fs| - 1]) + SafeField(fs[|fs| - 1])
  }

  /** The routes of a list that may be written to the tailnet. */
  function SafeRoutes(list: string): seq<string> {
    SafeFields(Fields(list))
  }

  lemma {:induction false} OnlySafe(fs: seq<string>, r: string)
    requires r in SafeFields(fs)
    ensures SafeRoute(r)
  {
    var n := |fs| - 1;
    if r in SafeFields(fs[..n]) {
      OnlySafe(fs[..n], r);
    } else {
      var f := NoBlanks(fs[n]);
      if '/' !in f {
        BareIsSafe(f);
      }
    }
  }

  /** The loop that builds the list. */
  method FilterRoutes(list: string) returns (safe: seq<string>)
    ensures safe == SafeRoutes(list)
  {
    var fields := Fields(list);
    safe := [];
    for i := 0 to |fields|
      invariant safe == SafeFields(fields[..i])
    {
      assert fields[..i + 1][..i] == fields[..i];
      var r := NoBlanks(fields[i]);
      if r == "" {
        continue;
      }
      if '/' in r {
        if !AtLeast(AfterSlash(r), 24) {
          continue;
        }
      } else {
        r := r + "/32";
      }
      safe := safe + [r];
    }
    assert fields[..|fields|] == fields;
  }

  // ---- what the filter lets through ----

  lemma {:induction false} NoBlanksConcat(a: string, b: string)
    ensures NoBlanks(a + b) == NoBlanks(a) + NoBlanks(b)
  {
    if a == "" {
      assert a + b == b;
    } else {
      HeadAndTail(a, b);
      NoBlanksConcat(a[1..], b);
      Assoc(if a[0] == ' ' then "" else [a[0]], NoBlanks(a[1..]), NoBlanks(b));
    }
  }

  lemma BlankDrops(a: string, b: string)
    ensures NoBlanks(a + " " + b) == NoBlanks(a + b)
  {
    NoBlanksConcat(a + " ", b);
    NoBlanksConcat(a, " ");
    NoBlanksConcat(a, b);
    BlankAlone(NoBlanks(a));
  }

  lemma BlankAlone(s: string)
    ensures s + NoBlanks(" ") == s
  {
    assert NoBlanks(" ") == NoBlanks(" "[1..]) == "";
  }

  /** Blanks do not count, wherever they stand, and nothing else is taken out. */
  lemma BlanksDoNotCount(a: string, b: string)
    ensures SafeField(a + " " + b) == SafeField(a + b)
    ensures ' ' !in a ==> NoBlanks(a) == a
  {
    BlankDrops(a, b);
    if ' ' !in a {
      KeepsAll(a);
    }
  }

  lemma {:induction false} KeepsAll(s: string)
    requires ' ' !in s
    ensures NoBlanks(s) == s
  {
    if s != "" {
      KeepsAll(s[1..]);
      assert s == [s[0]] + s[1..];
    }
  }

  lemma TwoDigitValue(a: char, b: char)
    requires Digit(a) && Digit(b)
    ensures AtLeast([a, b], 24) <==> 10 * (a as int - '0' as int) + (b as int - '0' as int) >= 24
  {
    var s := [a, b];
    assert DropLeading(s) == s && DropTrailing(s) == s;
    assert s[..1] == [a] && [a][..0] == [];
    assert Decimal([a]) == Decimal([]) * 10 + (a as int - '0' as int);
    assert Decimal(s) == Decimal([a]) * 10 + (b as int - '0' as int);
  }

  lemma OneDigitValue(a: char)
    requires Digit(a)
    ensures !AtLeast([a], 24)
  {
    var s := [a];
    assert DropLeading(s) == s && DropTrailing(s) == s;
    assert s[..0] == [];
    assert Decimal(s) == Decimal([]) * 10 + (a as int - '0' as int);
  }

  /** An address with a prefix length passes if and only if that is 24 or more; one without becomes a /32. */
  lemma PrefixDecides(head: string, a: char, b: char)
    requires '/' !in head && ' ' !in head && Digit(a) && Digit(b)
    ensures var r := head + "/" + [a, b];
      SafeField(r) == if 10 * (a as int - '0' as int) + (b as int - '0' as int) >= 24 then [r] else []
    ensures SafeField(head + "/" + [a]) == []
    ensures SafeField(head) == if head == "" then [] else [head + "/32"]
  {
    KeepsAll(head + "/" + [a, b]);
    KeepsAll(head + "/" + [a]);
    KeepsAll(head);
    SlashLast(head, [a, b]);
    SlashLast(head, [a]);
    TwoDigitValue(a, b);
    OneDigitValue(a);
    assert (head + "/" + [a, b])[|head|] == '/' && (head + "/" + [a])[|head|] == '/';
  }

  lemma {:induction false} FieldsFirst(f: string, rest: string)
    requires ',' !in f
    ensures Fields(f) == [f] && Fields(f + "," + rest) == [f] + Fields(rest)
  {
    var s := f + "," + rest;
    if f == "" {
      assert s[1..] == rest;
    } else {
      assert s[1..] == f[1..] + "," + rest;
      FieldsFirst(f[1..], rest);
      assert f == [f[0]] + f[1..];
    }
  }

  lemma LastOfAll(f: string, fs: seq<string>)
    requires fs != []
    ensures var all := [f] + fs; all[..|all| - 1] == [f] + fs[..|fs| - 1] && all[|all| - 1] == fs[|fs| - 1]
  {
  }

  lemma {:induction false} SafeFieldsFirst(f: string, fs: seq<string>)
    ensures SafeFields([f] + fs) == SafeField(f) + SafeFields(fs)
  {
    var all := [f] + fs;
    if fs == [] {
      assert all == [f] && all[..0] == [];
      assert SafeFields(all) == SafeFields(all[..0]) + SafeField(f);
    } else {
      var front, last := fs[..|fs| - 1], fs[|fs| - 1];
      SafeFieldsFirst(f, front);
      LastOfAll(f, fs);
      Assoc(SafeField(f), SafeFields(front), SafeField(last));
    }
  }

  /** The fields of a list are filtered one by one, in order. */
  lemma FieldByField(f: string, rest: string)
    requires ',' !in f
    ensures SafeRoutes(f) == SafeField(f) && SafeRoutes(f + "," + rest) == SafeField(f) + SafeRoutes(rest)
  {
    FieldsFirst(f, rest);
    SafeFieldsFirst(f, Fields(rest));
    SafeFieldsFirst(f, []);
    assert [f] + [] == [f];
  }
}
