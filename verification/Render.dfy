/** Rewriting the key list of a configuration template: the block of client keys is printed
    anew, everything outside it is copied. */
module Render {
  import opened Basics
  import opened Text

  datatype Kind = Head | Item | Empty | Other

  function KindOf(line: string): Kind {
    if StartsWith(line, "api-keys:") then Head
    else if Strip(line) == "" then Empty
    else if StartsWith(Strip(line), "-") then Item
    else Other
  }

  /** How lines are told apart, as a value: the rewriting does not depend on it. */
  type Kinds = string -> Kind

  const KINDS: Kinds := line => KindOf(line)

  // ---- line by line ----

  /** Whether something other than an item is the next line with text. */
  predicate NextIsOther(lines: seq<string>, kind: Kinds) {
    lines != [] && (if kind(lines[0]) == Empty then NextIsOther(lines[1..], kind) else kind(lines[0]) != Item)
  }

  /** Past the items of a block, and past empty lines unless another section follows them. */
  function Skip(lines: seq<string>, kind: Kinds): (rest: seq<string>)
    ensures |rest| <= |lines|
  {
    if lines == [] then []
    else if kind(lines[0]) == Item then Skip(lines[1..], kind)
    else if kind(lines[0]) == Empty && !NextIsOther(lines[1..], kind) then Skip(lines[1..], kind)
    else lines
  }

  function Rewrite(lines: seq<string>, block: seq<string>, kind: Kinds): seq<string>
    decreases |lines|
  {
    if lines == [] then []
    else if kind(lines[0]) == Head then block + Rewrite(Skip(lines[1..], kind), block, kind)
    else [lines[0]] + Rewrite(lines[1..], block, kind)
  }

  /** The lines that are in no block. */
  function Outer(lines: seq<string>, kind: Kinds): seq<string> {
    Rewrite(lines, [], kind)
  }

  predicate HasBlock(lines: seq<string>, kind: Kinds) {
    exists i :: 0 <= i < |lines| && kind(lines[i]) == Head
  }

  predicate IsBlock(block: seq<string>, kind: Kinds) {
    && |block| > 0 && kind(block[0]) == Head
    && forall i :: 1 <= i < |block| ==> kind(block[i]) == Item
  }

  predicate Stopped(lines: seq<string>, kind: Kinds) {
    Skip(lines, kind) == lines
  }

  lemma {:induction false} SkipStops(lines: seq<string>, kind: Kinds)
    ensures Stopped(Skip(lines, kind), kind)
  {
    if lines != [] && (kind(lines[0]) == Item || (kind(lines[0]) == Empty && !NextIsOther(lines[1..], kind))) {
      SkipStops(lines[1..], kind);
    }
  }

  lemma {:induction false} StoppedMeans(lines: seq<string>, kind: Kinds)
    requires lines != [] && Stopped(lines, kind)
    ensures kind(lines[0]) != Item && (kind(lines[0]) == Empty ==> NextIsOther(lines[1..], kind))
  {
    assert |Skip(lines[1..], kind)| < |lines|;
  }

  /** Rewriting does not bring an item to the front. */
  lemma {:induction false} RewriteNextIsOther(lines: seq<string>, block: seq<string>, kind: Kinds)
    requires NextIsOther(lines, kind) && IsBlock(block, kind)
    ensures NextIsOther(Rewrite(lines, block, kind), kind)
  {
    if kind(lines[0]) == Empty {
      RewriteNextIsOther(lines[1..], block, kind);
      assert ([lines[0]] + Rewrite(lines[1..], block, kind))[1..] == Rewrite(lines[1..], block, kind);
    }
  }

  lemma RewriteStaysStopped(lines: seq<string>, block: seq<string>, kind: Kinds)
    requires Stopped(lines, kind) && IsBlock(block, kind)
    ensures Stopped(Rewrite(lines, block, kind), kind)
  {
    if lines != [] {
      StoppedMeans(lines, kind);
      if kind(lines[0]) == Empty {
        RewriteNextIsOther(lines[1..], block, kind);
        assert ([lines[0]] + Rewrite(lines[1..], block, kind))[1..] == Rewrite(lines[1..], block, kind);
      }
    }
  }

  lemma {:induction false} SkipItems(items: seq<string>, rest: seq<string>, kind: Kinds)
    requires (forall i :: 0 <= i < |items| ==> kind(items[i]) == Item) && Stopped(rest, kind)
    ensures Skip(items + rest, kind) == rest
  {
    if items == [] {
      assert items + rest == rest;
    } else {
      assert (items + rest)[1..] == items[1..] + rest;
      SkipItems(items[1..], rest, kind);
    }
  }

  /** A printed block in front of a stopped rest is read back as one block. */
  lemma RewriteBlock(block: seq<string>, rest: seq<string>, other: seq<string>, kind: Kinds)
    requires IsBlock(block, kind) && Stopped(rest, kind)
    ensures Rewrite(block + rest, other, kind) == other + Rewrite(rest, other, kind)
  {
    assert (block + rest)[1..] == block[1..] + rest;
    SkipItems(block[1..], rest, kind);
  }

  /** Rewriting what was rewritten: only the block printed last counts. */
  lemma {:induction false} RewriteTwice(lines: seq<string>, block: seq<string>, other: seq<string>, kind: Kinds)
    requires IsBlock(block, kind)
    ensures Rewrite(Rewrite(lines, block, kind), other, kind) == Rewrite(lines, other, kind)
    decreases |lines|
  {
    if lines != [] {
      if kind(lines[0]) == Head {
        var rest := Skip(lines[1..], kind);
        SkipStops(lines[1..], kind);
        RewriteStaysStopped(rest, block, kind);
        RewriteTwice(rest, block, other, kind);
        RewriteBlock(block, Rewrite(rest, block, kind), other, kind);
      } else {
        RewriteTwice(lines[1..], block, other, kind);
        assert ([lines[0]] + Rewrite(lines[1..], block, kind))[1..] == Rewrite(lines[1..], block, kind);
      }
    }
  }

  /** The last line is empty and in no block. */
  predicate EndsBlank(lines: seq<string>, kind: Kinds)
    decreases |lines|
  {
    && lines != []
    && if kind(lines[0]) == Head then EndsBlank(Skip(lines[1..], kind), kind)
       else if |lines| == 1 then lines[0] == ""
       else EndsBlank(lines[1..], kind)
  }

  /** Such a line, and no other empty one, is the last after rewriting. */
  lemma {:induction false} BlankEndStays(lines: seq<string>, block: seq<string>, kind: Kinds)
    ensures var r := Rewrite(lines, block, kind);
      && (EndsBlank(lines, kind) ==> r != [] && r[|r| - 1] == "")
      && (block != [] && block[|block| - 1] != "" && r != [] && r[|r| - 1] == "" ==> EndsBlank(lines, kind))
    decreases |lines|
  {
    if lines != [] {
      var r := Rewrite(lines, block, kind);
      if kind(lines[0]) == Head {
        var rest := Skip(lines[1..], kind);
        BlankEndStays(rest, block, kind);
        EndOf(block, Rewrite(rest, block, kind));
      } else {
        BlankEndStays(lines[1..], block, kind);
        EndOf([lines[0]], Rewrite(lines[1..], block, kind));
      }
    }
  }

  lemma EndOf(a: seq<string>, b: seq<string>)
    ensures a + b != [] ==> (a + b)[|a + b| - 1] == if b == [] then a[|a| - 1] else b[|b| - 1]
  {
  }

  predicate LastEmpty(lines: seq<string>) {
    lines != [] && lines[|lines| - 1] == ""
  }

  lemma {:induction false} EndsBlankIsLast(lines: seq<string>, kind: Kinds)
    requires EndsBlank(lines, kind)
    ensures LastEmpty(lines)
    decreases |lines|
  {
    if kind(lines[0]) == Head {
      SkipIsSuffix(lines[1..], kind);
      EndsBlankIsLast(Skip(lines[1..], kind), kind);
    } else if |lines| > 1 {
      EndsBlankIsLast(lines[1..], kind);
    }
  }

  lemma {:induction false} SkipIsSuffix(lines: seq<string>, kind: Kinds)
    ensures var r := Skip(lines, kind); r == lines[|lines| - |r|..]
  {
    if lines != [] {
      SkipIsSuffix(lines[1..], kind);
    }
  }

  lemma ShorterTail(lines: seq<string>)
    requires |lines| > 1
    ensures lines[..|lines| - 1] == [lines[0]] + lines[1..][..|lines| - 2]
    ensures lines[..|lines| - 1][1..] == lines[1..][..|lines| - 2]
    ensures LastEmpty(lines) ==> LastEmpty(lines[1..])
  {
  }

  /** An empty last line does not decide what comes next. */
  lemma {:induction false} ShorterNext(lines: seq<string>, kind: Kinds)
    requires LastEmpty(lines) && kind("") == Empty
    ensures NextIsOther(lines[..|lines| - 1], kind) <==> NextIsOther(lines, kind)
  {
    if |lines| > 1 {
      ShorterTail(lines);
      ShorterNext(lines[1..], kind);
    }
  }

  lemma {:induction false} ShorterSkip(lines: seq<string>, kind: Kinds)
    requires LastEmpty(lines) && kind("") == Empty
    ensures var r := Skip(lines, kind);
      r != [] ==> Skip(lines[..|lines| - 1], kind) == r[..|r| - 1]
  {
    if |lines| > 1 {
      ShorterTail(lines);
      ShorterNext(lines[1..], kind);
      ShorterSkip(lines[1..], kind);
    }
  }

  /** Without such a last line the rewriting is the same but for that line. */
  lemma {:induction false} DropBlankEnd(lines: seq<string>, block: seq<string>, kind: Kinds)
    requires EndsBlank(lines, kind) && kind("") == Empty
    ensures var r := Rewrite(lines, block, kind);
      r == Rewrite(lines[..|lines| - 1], block, kind) + [""]
    decreases |lines|
  {
    EndsBlankIsLast(lines, kind);
    if |lines| == 1 {
      OneBlank(lines, block, kind);
    } else if kind(lines[0]) == Head {
      var rest := Skip(lines[1..], kind);
      ShorterTail(lines);
      ShorterSkip(lines[1..], kind);
      DropBlankEnd(rest, block, kind);
      Assoc(block, Rewrite(rest[..|rest| - 1], block, kind), [""]);
    } else {
      ShorterTail(lines);
      DropBlankEnd(lines[1..], block, kind);
      Assoc([lines[0]], Rewrite(lines[1..][..|lines| - 2], block, kind), [""]);
    }
  }

  lemma OneBlank(lines: seq<string>, block: seq<string>, kind: Kinds)
    requires lines == [""] && kind("") == Empty
    ensures Rewrite(lines, block, kind) == Rewrite(lines[..0], block, kind) + [""]
  {
    assert lines[1..] == [] && lines[..0] == [];
  }

  // ---- printing a block ----

  function ReplaceAll(s: string, c: char, subst: string): string {
    if s == "" then "" else (if s[0] == c then subst else [s[0]]) + ReplaceAll(s[1..], c, subst)
  }

  /** Backslashes are doubled first, then quotes escaped. */
  function Escape(k: string): string {
    ReplaceAll(ReplaceAll(k, '\\', "\\\\"), '"', "\\\"")
  }

  function ItemLine(k: string): string {
    "  - \"" + Escape(k) + "\""
  }

  function Items(keys: seq<string>): (items: seq<string>)
    ensures |items| == |keys|
  {
    if keys == [] then [] else Items(keys[..|keys| - 1]) + [ItemLine(keys[|keys| - 1])]
  }

  function PrintedBlock(keys: seq<string>): seq<string> {
    ["api-keys:"] + Items(keys)
  }

  lemma {:induction false} ItemsAt(keys: seq<string>, i: nat)
    requires i < |keys|
    ensures Items(keys)[i] == ItemLine(keys[i])
  {
    if i < |keys| - 1 {
      ItemsAt(keys[..|keys| - 1], i);
    }
  }

  /** One escaped character. */
  function EscapeChar(c: char): string {
    if c == '\\' then "\\\\" else if c == '"' then "\\\"" else [c]
  }

  lemma {:induction false} ReplaceAllConcat(a: string, b: string, c: char, subst: string)
    ensures ReplaceAll(a + b, c, subst) == ReplaceAll(a, c, subst) + ReplaceAll(b, c, subst)
  {
    if a == "" {
      assert a + b == b;
    } else {
      var head := if a[0] == c then subst else [a[0]];
      ReplaceAllConcat(a[1..], b, c, subst);
      assert (a + b)[1..] == a[1..] + b && (a + b)[0] == a[0];
      Assoc(head, ReplaceAll(a[1..], c, subst), ReplaceAll(b, c, subst));
    }
  }

  /** The two passes escape character by character: the second does not touch what the first put in. */
  lemma EscapeFirst(k: string)
    requires k != ""
    ensures Escape(k) == EscapeChar(k[0]) + Escape(k[1..])
  {
    var first := if k[0] == '\\' then "\\\\" else [k[0]];
    var rest := ReplaceAll(k[1..], '\\', "\\\\");
    ReplaceAllConcat(first, rest, '"', "\\\"");
    if k[0] == '\\' {
      assert first[1..] == "\\" && first[1..][1..] == "";
      assert ReplaceAll("\\", '"', "\\\"") == "\\";
    } else {
      assert first[1..] == "";
    }
  }

  method Print(keys: seq<string>) returns (text: string)
    ensures text == Joined(PrintedBlock(keys))
  {
    var lines := ["api-keys:"];
    for i := 0 to |keys|
      invariant lines == PrintedBlock(keys[..i])
    {
      assert keys[..i + 1][..i] == keys[..i];
      lines := lines + [ItemLine(keys[i])];
    }
    assert keys[..|keys|] == keys;
    text := Joined(lines);
  }

  /** File keys first, then the secret, each once where it is met first and none empty. */
  method MergeKeys(fileKeys: seq<string>, secret: string) returns (keys: seq<string>)
    ensures keys == Dedup(NonEmpty(fileKeys + [secret]))
  {
    var all := fileKeys + if secret != "" then [secret] else [];
    keys := [];
    for i := 0 to |all|
      invariant keys == Dedup(NonEmpty(all[..i]))
    {
      assert all[..i + 1][..i] == all[..i];
      DedupAppend(NonEmpty(all[..i]), if all[i] != "" then [all[i]] else []);
      if all[i] != "" && all[i] !in keys {
        keys := keys + [all[i]];
      }
    }
    assert all[..|all|] == all;
    SecretCounts(fileKeys, secret);
  }

  lemma SecretCounts(fileKeys: seq<string>, secret: string)
    ensures NonEmpty(fileKeys + [secret]) == NonEmpty(fileKeys + if secret != "" then [secret] else [])
  {
    assert (fileKeys + [secret])[..|fileKeys|] == fileKeys;
    if secret == "" {
      assert fileKeys + [] == fileKeys && NonEmpty(fileKeys) + [] == NonEmpty(fileKeys);
    }
  }

  // ---- the whole text ----

  /** The rewritten template; None when it has no key list. */
  function Replaced(text: string, keys: seq<string>, kind: Kinds): Option<string> {
    var lines := SplitLines(text);
    if !HasBlock(lines, kind) then None
    else Some(Joined(Rewrite(lines, PrintedBlock(keys), kind)) + if EndsWith(text, "\n") then "\n" else "")
  }

  lemma {:induction false} TerminatedConcat(a: seq<string>, b: seq<string>)
    ensures Terminated(a + b) == Terminated(a) + Terminated(b)
  {
    if a == [] {
      assert a + b == b;
    } else {
      TerminatedConcat(a[1..], b);
      assert (a + b)[1..] == a[1..] + b && (a + b)[0] == a[0];
      Assoc(a[0] + "\n", Terminated(a[1..]), Terminated(b));
    }
  }

  lemma JoinedUnique(a: seq<string>, b: seq<string>)
    requires a != [] && b != [] && Terminated(a) == Terminated(b)
    ensures Joined(a) == Joined(b)
  {
    JoinedNewline(a);
    JoinedNewline(b);
    var s, t := Joined(a) + "\n", Joined(b) + "\n";
    assert s == t && Joined(a) == s[..|s| - 1] && Joined(b) == t[..|t| - 1];
  }

  /** The lines a skipping loop leaves. */
  method SkipLines(lines: seq<string>, start: nat, kind: Kinds) returns (i: nat)
    requires start <= |lines|
    ensures start <= i <= |lines| && lines[i..] == Skip(lines[start..], kind)
  {
    i := start;
    while i < |lines| && (kind(lines[i]) == Item || kind(lines[i]) == Empty)
      invariant start <= i <= |lines|
      invariant Skip(lines[i..], kind) == Skip(lines[start..], kind)
    {
      assert lines[i..][1..] == lines[i + 1..];
      if kind(lines[i]) == Empty && NextIsOther(lines[i + 1..], kind) {
        break;
      }
      i := i + 1;
    }
  }

  lemma RewriteNext(lines: seq<string>, i: nat, block: seq<string>, kind: Kinds)
    requires i < |lines|
    ensures Rewrite(lines[i..], block, kind) ==
      if kind(lines[i]) == Head then block + Rewrite(Skip(lines[i + 1..], kind), block, kind)
      else [lines[i]] + Rewrite(lines[i + 1..], block, kind)
  {
    assert lines[i..][1..] == lines[i + 1..];
  }

  lemma CopyLine(out: seq<string>, line: string, rest: seq<string>)
    ensures Terminated(out + [line]) + Terminated(rest) == Terminated(out) + Terminated([line] + rest)
  {
    TerminatedConcat(out, [line]);
    TerminatedConcat([line], rest);
    Assoc(Terminated(out), Terminated([line]), Terminated(rest));
  }

  lemma BlockFrom(lines: seq<string>, i: nat, kind: Kinds)
    requires i < |lines|
    ensures HasBlock(lines[i..], kind) <==> kind(lines[i]) == Head || HasBlock(lines[i + 1..], kind)
  {
    var rest, tail := lines[i..], lines[i + 1..];
    assert rest[0] == lines[i];
    if j :| 0 <= j < |rest| && kind(rest[j]) == Head && j > 0 {
      assert tail[j - 1] == rest[j];
    }
    if j :| 0 <= j < |tail| && kind(tail[j]) == Head {
      assert rest[j + 1] == tail[j];
    }
  }

  /** The loop as written: the printed block is appended as one text, other lines one by one. */
  method ReplaceKeys(text: string, keys: seq<string>, kind: Kinds) returns (r: Option<string>)
    ensures r == Replaced(text, keys, kind)
  {
    var lines := SplitLines(text);
    ghost var block := PrintedBlock(keys);
    ghost var want := Terminated(Rewrite(lines, block, kind));
    var out: seq<string> := [];
    var i := 0;
    var replaced := false;
    assert lines[0..] == lines;
    while i < |lines|
      invariant 0 <= i <= |lines|
      invariant Terminated(out) + Terminated(Rewrite(lines[i..], block, kind)) == want
      invariant i > 0 ==> out != []
      invariant replaced || HasBlock(lines[i..], kind) <==> HasBlock(lines, kind)
      invariant replaced ==> HasBlock(lines, kind)
    {
      RewriteNext(lines, i, block, kind);
      BlockFrom(lines, i, kind);
      if kind(lines[i]) == Head {
        assert lines[i] in lines;
        var printed := Print(keys);
        i := AppendBlock(lines, i, kind, out, block, printed, want);
        out := out + [printed];
        replaced := true;
      } else {
        CopyLine(out, lines[i], Rewrite(lines[i + 1..], block, kind));
        out := out + [lines[i]];
        i := i + 1;
      }
    }
    assert lines[i..] == [];
    if !replaced {
      return None;
    }
    JoinedUnique(out, Rewrite(lines, block, kind));
    r := Some(Joined(out) + if EndsWith(text, "\n") then "\n" else "");
  }

  method AppendBlock(lines: seq<string>, at: nat, kind: Kinds, ghost out: seq<string>, ghost block: seq<string>,
                     ghost printed: string, ghost want: string)
    returns (i: nat)
    requires at < |lines| && kind(lines[at]) == Head && block != [] && printed == Joined(block)
    requires Terminated(out) + Terminated(Rewrite(lines[at..], block, kind)) == want
    ensures at < i <= |lines|
    ensures Terminated(out + [printed]) + Terminated(Rewrite(lines[i..], block, kind)) == want
  {
    RewriteNext(lines, at, block, kind);
    i := SkipLines(lines, at + 1, kind);
    BlockAsOneText(out, block, Rewrite(lines[i..], block, kind));
  }

  lemma BlockAsOneText(out: seq<string>, block: seq<string>, rest: seq<string>)
    requires block != []
    ensures Terminated(out + [Joined(block)]) + Terminated(rest) == Terminated(out) + Terminated(block + rest)
  {
    TerminatedConcat(out, [Joined(block)]);
    TerminatedConcat(block, rest);
    OneLine(Joined(block));
    JoinedNewline(block);
    Assoc(Terminated(out), Terminated(block), Terminated(rest));
  }

  lemma OneLine(line: string)
    ensures Terminated([line]) == line + "\n"
  {
    assert [line][1..] == [];
  }
}
