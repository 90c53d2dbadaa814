/** Text as the configuration tools see it: lines, blanks and simple searches. */
module Text {
  import opened Basics

  /** The characters str.splitlines ends a line at. */
  predicate IsBreak(c: char) {
    || '\n' <= c <= '\r' || '\U{1C}' <= c <= '\U{1E}' || c == '\U{85}'
    || c == '\U{2028}' || c == '\U{2029}'
  }

  /** The characters str.strip removes. */
  predicate IsSpace(c: char) {
    || '\t' <= c <= '\r' || '\U{1C}' <= c <= ' ' || c == '\U{85}' || c == '\U{A0}' || c == '\U{1680}'
    || '\U{2000}' <= c <= '\U{200A}' || c == '\U{2028}' || c == '\U{2029}' || c == '\U{202F}'
    || c == '\U{205F}' || c == '\U{3000}'
  }

  predicate NoBreaks(s: string) {
    forall c :: c in s ==> !IsBreak(c)
  }

  predicate AllNoBreaks(lines: seq<string>) {
    forall i :: 0 <= i < |lines| ==> NoBreaks(lines[i])
  }

  /** The first line break from i on, or the end. */
  function BreakFrom(s: string, i: nat): (k: nat)
    requires i <= |s|
    ensures i <= k <= |s| && (k < |s| ==> IsBreak(s[k]))
    decreases |s| - i
  {
    if i == |s| || IsBreak(s[i]) then i else BreakFrom(s, i + 1)
  }

  /** The first line break, or the end. */
  function LineEnd(s: string): (k: nat)
    ensures k <= |s|
  {
    BreakFrom(s, 0)
  }

  lemma {:induction false} FirstBreak(s: string, i: nat, k: nat)
    requires i <= k <= |s| && (forall j :: i <= j < k ==> !IsBreak(s[j])) && (k < |s| ==> IsBreak(s[k]))
    ensures BreakFrom(s, i) == k
    decreases k - i
  {
    if i < k {
      FirstBreak(s, i + 1, k);
    }
  }

  lemma {:induction false} NoneBefore(s: string, i: nat)
    requires i <= |s|
    ensures forall j :: i <= j < BreakFrom(s, i) ==> !IsBreak(s[j])
    decreases |s| - i
  {
    if i < |s| && !IsBreak(s[i]) {
      NoneBefore(s, i + 1);
    }
  }

  /** The break at k: a carriage return and a newline after it are one. */
  function BreakLength(s: string, k: nat): (n: nat)
    requires k < |s|
    ensures 1 <= n && k + n <= |s|
  {
    if k + 1 < |s| && s[k] == '\r' && s[k + 1] == '\n' then 2 else 1
  }

  function SplitLines(s: string): seq<string>
    decreases |s|
  {
    if s == "" then []
    else
      var k := LineEnd(s);
      if k == |s| then [s] else [s[..k]] + SplitLines(s[k + BreakLength(s, k)..])
  }

  lemma {:induction false} LinesHaveNoBreaks(s: string)
    ensures AllNoBreaks(SplitLines(s))
    decreases |s|
  {
    if s != "" {
      var k := LineEnd(s);
      NoneBefore(s, 0);
      assert NoBreaks(s[..k]);
      if k < |s| {
        LinesHaveNoBreaks(s[k + BreakLength(s, k)..]);
      } else {
        assert s[..k] == s;
      }
    }
  }

  /** Every line with a newline after it. */
  function Terminated(lines: seq<string>): string {
    if lines == [] then "" else lines[0] + "\n" + Terminated(lines[1..])
  }

  /** Newlines between lines only. */
  function Joined(lines: seq<string>): string {
    if lines == [] then "" else if |lines| == 1 then lines[0] else lines[0] + "\n" + Joined(lines[1..])
  }

  lemma {:induction false} JoinedNewline(lines: seq<string>)
    requires lines != []
    ensures Joined(lines) + "\n" == Terminated(lines)
  {
    if |lines| > 1 {
      JoinedNewline(lines[1..]);
      assert Joined(lines) + "\n" == lines[0] + "\n" + (Joined(lines[1..]) + "\n");
    } else {
      assert Terminated(lines[1..]) == "";
      assert lines[0] + "\n" == lines[0] + "\n" + "";
    }
  }

  lemma {:induction false} JoinedLast(lines: seq<string>)
    requires lines != []
    ensures Joined(lines) == Terminated(lines[..|lines| - 1]) + lines[|lines| - 1]
  {
    if |lines| > 1 {
      JoinedLast(lines[1..]);
      var front := lines[..|lines| - 1];
      assert front[1..] == lines[1..][..|lines| - 2];
      assert Terminated(front) == lines[0] + "\n" + Terminated(front[1..]);
    } else {
      assert lines[..0] == [];
    }
  }

  /** One line in front of more text is split off unchanged. */
  lemma SplitFirst(line: string, rest: string, s: string)
    requires NoBreaks(line) && s == line + "\n" + rest
    ensures SplitLines(s) == [line] + SplitLines(rest)
  {
    var k := |line|;
    assert s[k] == '\n' && s[..k] == line && s[k + 1..] == rest;
    forall i | 0 <= i < k ensures !IsBreak(s[i]) {
      assert s[i] == line[i] && line[i] in line;
    }
    FirstBreak(s, 0, k);
    SplitStep(s, k, 1);
  }

  /** Every kind of break ends a line, and a carriage return with a newline behind it is one break. */
  lemma SplitAtBreak(line: string, c: char, rest: string)
    requires NoBreaks(line) && IsBreak(c)
    ensures SplitLines(line + [c] + rest) ==
      [line] + SplitLines(if c == '\r' && rest != "" && rest[0] == '\n' then rest[1..] else rest)
  {
    var s, k := line + [c] + rest, |line|;
    assert s[k] == c && s[..k] == line && s[k + 1..] == rest;
    assert rest != "" ==> s[k + 1] == rest[0] && s[k + 2..] == rest[1..];
    forall i | 0 <= i < k ensures !IsBreak(s[i]) {
      assert s[i] == line[i] && line[i] in line;
    }
    FirstBreak(s, 0, k);
    SplitStep(s, k, BreakLength(s, k));
  }

  lemma AppendCons(line: string, front: string, tail: string)
    ensures (line + "\n" + front) + tail == line + "\n" + (front + tail)
  {
  }

  lemma {:induction false} SplitTerminated(lines: seq<string>, tail: string)
    requires AllNoBreaks(lines)
    ensures SplitLines(Terminated(lines) + tail) == lines + SplitLines(tail)
  {
    if lines == [] {
      assert Terminated(lines) + tail == tail;
    } else {
      var rest := Terminated(lines[1..]) + tail;
      AppendCons(lines[0], Terminated(lines[1..]), tail);
      SplitFirst(lines[0], rest, Terminated(lines) + tail);
      SplitTerminated(lines[1..], tail);
      ConsAppend(lines, SplitLines(tail));
    }
  }

  lemma SplitSingle(line: string)
    requires NoBreaks(line) && line != ""
    ensures SplitLines(line) == [line]
  {
    assert forall i :: 0 <= i < |line| ==> line[i] in line;
    FirstBreak(line, 0, |line|);
  }

  lemma SplitWithNewline(lines: seq<string>)
    requires AllNoBreaks(lines) && lines != []
    ensures SplitLines(Joined(lines) + "\n") == lines
  {
    JoinedNewline(lines);
    SplitTerminated(lines, "");
    assert Terminated(lines) + "" == Terminated(lines);
  }

  lemma SplitLast(front: seq<string>, last: string)
    requires AllNoBreaks(front) && NoBreaks(last)
    ensures SplitLines(Terminated(front) + last) == if last == "" then front else front + [last]
  {
    SplitTerminated(front, last);
    if last != "" {
      SplitSingle(last);
    }
  }

  lemma Rejoin(lines: seq<string>, front: seq<string>, last: string)
    requires lines != [] && front == lines[..|lines| - 1] && last == lines[|lines| - 1]
    ensures front + [last] == lines
  {
  }

  /** Without a final newline an empty last line is not seen again. */
  lemma SplitJoined(lines: seq<string>, s: string)
    requires AllNoBreaks(lines) && lines != [] && s == Joined(lines)
    ensures SplitLines(s) == if lines[|lines| - 1] == "" then lines[..|lines| - 1] else lines
  {
    var front, last := lines[..|lines| - 1], lines[|lines| - 1];
    JoinedLast(lines);
    SplitLast(front, last);
    Rejoin(lines, front, last);
  }

  function DropFront(s: string): string {
    if s != "" && IsSpace(s[0]) then DropFront(s[1..]) else s
  }

  function DropBack(s: string): string {
    if s != "" && IsSpace(s[|s| - 1]) then DropBack(s[..|s| - 1]) else s
  }

  function Strip(s: string): string {
    DropBack(DropFront(s))
  }

  lemma {:induction false} DropFrontIs(s: string)
    ensures var r := DropFront(s); |r| <= |s| && r == s[|s| - |r|..] && (r != "" ==> !IsSpace(r[0]))
  {
    if s != "" && IsSpace(s[0]) {
      DropFrontIs(s[1..]);
    }
  }

  lemma {:induction false} DropBackIs(s: string)
    ensures var r := DropBack(s); |r| <= |s| && r == s[..|r|] && (r != "" ==> !IsSpace(r[|r| - 1]))
  {
    if s != "" && IsSpace(s[|s| - 1]) {
      DropBackIs(s[..|s| - 1]);
    }
  }

  lemma {:induction false} DropBackKeeps(s: string)
    requires s != "" && !IsSpace(s[0])
    ensures DropBack(s) != "" && DropBack(s)[0] == s[0]
  {
    if IsSpace(s[|s| - 1]) {
      DropBackKeeps(s[..|s| - 1]);
    }
  }

  /** A text that neither starts nor ends with a blank is left alone. */
  lemma StripFixed(s: string)
    requires s == "" || (!IsSpace(s[0]) && !IsSpace(s[|s| - 1]))
    ensures Strip(s) == s
  {
  }

  lemma StripIs(s: string)
    ensures var r := Strip(s);
      && (forall c :: c in r ==> c in s)
      && (r == "" || (!IsSpace(r[0]) && !IsSpace(r[|r| - 1])))
  {
    var f := DropFront(s);
    DropFrontIs(s);
    DropBackIs(f);
  }

  /** Leading blanks, spaces only. */
  function Indent(s: string): nat {
    if s != "" && s[0] == ' ' then 1 + Indent(s[1..]) else 0
  }

  predicate StartsWith(s: string, prefix: string) {
    prefix <= s
  }

  predicate EndsWith(s: string, suffix: string) {
    |suffix| <= |s| && s[|s| - |suffix|..] == suffix
  }

  /** The first place the pattern occurs, or |s|. */
  function Find(s: string, pattern: string): (k: nat)
    ensures k <= |s|
  {
    if s == "" || StartsWith(s, pattern) then 0 else 1 + Find(s[1..], pattern)
  }

  predicate Contains(s: string, pattern: string) {
    Find(s, pattern) < |s|
  }

  function Dedup(s: seq<string>): (d: seq<string>)
    ensures forall x :: x in d <==> x in s
    ensures forall i, j :: 0 <= i < j < |d| ==> d[i] != d[j]
  {
    if s == [] then []
    else
      var d := Dedup(s[..|s| - 1]);
      var x := s[|s| - 1];
      if x in d then d else d + [x]
  }

  lemma {:induction false} DedupDistinct(s: seq<string>)
    requires Distinct(s)
    ensures Dedup(s) == s
  {
    if s != [] {
      var n := |s| - 1;
      DedupDistinct(s[..n]);
      assert s[n] !in s[..n];
    }
  }

  lemma {:induction false} DedupPrefix(s: seq<string>, t: seq<string>)
    ensures |Dedup(s)| <= |Dedup(s + t)| && Dedup(s + t)[..|Dedup(s)|] == Dedup(s)
  {
    if t == [] {
      assert s + t == s;
    } else {
      var m := |t| - 1;
      DedupPrefix(s, t[..m]);
      assert (s + t)[..|s| + m] == s + t[..m];
    }
  }

  lemma DedupAppend(s: seq<string>, t: seq<string>)
    requires |t| <= 1
    ensures Dedup(s + t) == Dedup(s) + if t == [] || t[0] in Dedup(s) then [] else t
  {
    if t == [] {
      assert s + t == s;
    } else {
      assert (s + t)[..|s|] == s;
    }
  }

  /** Dropping repetitions early makes no difference. */
  lemma {:induction false} DedupEarly(s: seq<string>, t: seq<string>)
    ensures Dedup(Dedup(s) + t) == Dedup(s + t)
  {
    if t == [] {
      assert s + t == s && Dedup(s) + t == Dedup(s);
      DedupDistinct(Dedup(s));
    } else {
      var front, last := t[..|t| - 1], t[|t| - 1..];
      DedupEarly(s, front);
      SameDedup(Dedup(s) + front, s + front, last);
      assert s + t == (s + front) + last && Dedup(s) + t == (Dedup(s) + front) + last;
    }
  }

  lemma SameDedup(a: seq<string>, b: seq<string>, last: seq<string>)
    requires Dedup(a) == Dedup(b) && |last| == 1
    ensures Dedup(a + last) == Dedup(b + last)
  {
    DedupAppend(a, last);
    DedupAppend(b, last);
  }

  function NonEmpty(s: seq<string>): (r: seq<string>)
    ensures forall x :: x in r <==> x != "" && x in s
  {
    if s == [] then [] else NonEmpty(s[..|s| - 1]) + if s[|s| - 1] != "" then [s[|s| - 1]] else []
  }

  /** Cutting off the first line of a text with a newline and of any longer text. */
  lemma CutFirst(head: string, tail: string, k: nat, n: nat)
    requires head != "" && head[|head| - 1] == '\n'
    requires k == LineEnd(head) && k < |head| && n == BreakLength(head, k)
    ensures SplitLines(head) == [head[..k]] + SplitLines(head[k + n..])
    ensures SplitLines(head + tail) == [head[..k]] + SplitLines(head[k + n..] + tail)
  {
    SplitStep(head, k, n);
    CutLonger(head, tail, head + tail, k, n);
  }

  lemma CutLonger(head: string, tail: string, all: string, k: nat, n: nat)
    requires head != "" && head[|head| - 1] == '\n' && all == head + tail
    requires k == LineEnd(head) && k < |head| && n == BreakLength(head, k)
    ensures SplitLines(all) == [head[..k]] + SplitLines(head[k + n..] + tail)
  {
    SameLineEnd(all, head, k);
    DropOfConcat(head, tail, k + n);
    assert all[..k] == head[..k];
    SplitStep(all, k, n);
  }

  lemma SplitStep(s: string, k: nat, n: nat)
    requires k == LineEnd(s) && k < |s| && n == BreakLength(s, k)
    ensures SplitLines(s) == [s[..k]] + SplitLines(s[k + n..])
  {
    assert s != "" && LineEnd(s) != |s|;
  }

  lemma HasLineEnd(s: string)
    requires s != "" && s[|s| - 1] == '\n'
    ensures LineEnd(s) < |s|
  {
    NoneBefore(s, 0);
    assert IsBreak(s[|s| - 1]);
  }

  /** A text behind a newline is split on its own. */
  lemma {:induction false} SplitBehindNewline(head: string, tail: string)
    requires head == "" || head[|head| - 1] == '\n'
    ensures SplitLines(head + tail) == SplitLines(head) + SplitLines(tail)
    decreases |head|
  {
    if head == "" {
      assert head + tail == tail;
    } else {
      HasLineEnd(head);
      var k := LineEnd(head);
      var n := BreakLength(head, k);
      CutFirst(head, tail, k, n);
      SplitBehindNewline(head[k + n..], tail);
      Assoc([head[..k]], SplitLines(head[k + n..]), SplitLines(tail));
    }
  }

  lemma SameLineEnd(all: string, head: string, k: nat)
    requires head <= all && head != "" && head[|head| - 1] == '\n' && k == LineEnd(head) < |head|
    ensures LineEnd(all) == k && BreakLength(all, k) == BreakLength(head, k)
  {
    assert forall i :: 0 <= i < |head| ==> all[i] == head[i];
    NoneBefore(head, 0);
    FirstBreak(all, 0, k);
  }
}
