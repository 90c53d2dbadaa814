/** Replacing one site's block in a Caddyfile (caddy_block.py): the block is found by its host name at the start of
    a line and ends at its matching brace. */
module CaddyBlock {
  import opened Basics
  import opened Text

  datatype Outcome = Ok(text: string) | Unclosed

  // ---- braces ----

  function Weight(c: char): int {
    if c == '{' then 1 else if c == '}' then -1 else 0
  }

  /** Opening braces less closing ones. */
  function Depth(s: string): int {
    if s == "" then 0 else Depth(s[..|s| - 1]) + Weight(s[|s| - 1])
  }

  predicate NonNegative(s: string) {
    forall k :: 0 <= k <= |s| ==> Depth(s[..k]) >= 0
  }

  predicate Balanced(s: string) {
    Depth(s) == 0 && NonNegative(s)
  }

  predicate NoBraces(s: string) {
    forall i :: 0 <= i < |s| ==> s[i] != '{' && s[i] != '}'
  }

  lemma {:induction false} DepthConcat(a: string, b: string)
    ensures Depth(a + b) == Depth(a) + Depth(b)
  {
    if b == "" {
      assert a + b == a;
    } else {
      DepthConcat(a, b[..|b| - 1]);
      assert (a + b)[..|a + b| - 1] == a + b[..|b| - 1];
    }
  }

  lemma {:induction false} NoBracesDepth(s: string)
    requires NoBraces(s)
    ensures Balanced(s) && Depth(s) == 0
  {
    if s != "" {
      var front := s[..|s| - 1];
      NoBracesDepth(front);
      forall k | 0 <= k <= |s| ensures Depth(s[..k]) >= 0 {
        if k < |s| {
          assert s[..k] == front[..k];
        } else {
          assert s[..k] == s;
        }
      }
    }
  }

  /** Where a prefix of a concatenation ends. */
  lemma PrefixDepth(a: string, b: string, k: nat)
    requires k <= |a| + |b|
    ensures Depth((a + b)[..k]) == if k <= |a| then Depth(a[..k]) else Depth(a) + Depth(b[..k - |a|])
  {
    if k <= |a| {
      assert (a + b)[..k] == a[..k];
    } else {
      assert (a + b)[..k] == a + b[..k - |a|];
      DepthConcat(a, b[..k - |a|]);
    }
  }

  lemma NonNegativeConcat(a: string, b: string)
    ensures NonNegative(a + b) <==> NonNegative(a) && forall k :: 0 <= k <= |b| ==> Depth(a) + Depth(b[..k]) >= 0
  {
    if NonNegative(a + b) {
      forall k | 0 <= k <= |a| ensures Depth(a[..k]) >= 0 {
        PrefixDepth(a, b, k);
      }
      forall k | 0 <= k <= |b| ensures Depth(a) + Depth(b[..k]) >= 0 {
        PrefixDepth(a, b, |a| + k);
        assert k == 0 ==> a[..|a|] == a && Depth(b[..0]) == 0;
      }
    }
    if NonNegative(a) && forall k :: 0 <= k <= |b| ==> Depth(a) + Depth(b[..k]) >= 0 {
      forall k | 0 <= k <= |a + b| ensures Depth((a + b)[..k]) >= 0 {
        PrefixDepth(a, b, k);
      }
    }
  }

  /** A balanced piece can be taken out or put in anywhere without changing whether the whole is balanced. */
  lemma BalancedPiece(a: string, piece: string, b: string)
    requires Balanced(piece)
    ensures Balanced(a + piece + b) <==> Balanced(a + b)
  {
    DepthConcat(a, piece);
    DepthConcat(a + piece, b);
    DepthConcat(a, b);
    NonNegativeConcat(a, b);
    NonNegativeConcat(a + piece, b);
    NonNegativeConcat(a, piece);
    if NonNegative(a) {
      assert a[..|a|] == a;
      forall k | 0 <= k <= |piece| ensures Depth(a) + Depth(piece[..k]) >= 0 {
        assert Depth(piece[..k]) >= 0;
      }
    }
  }

  lemma BalancedConcat(a: string, b: string)
    requires Balanced(a) && Balanced(b)
    ensures Balanced(a + b)
  {
    DepthConcat(a, b);
    NonNegativeConcat(a, b);
  }

  lemma BalancedBraces(s: string)
    requires Balanced(s)
    ensures Balanced("{" + s + "}")
  {
    assert Depth("{") == 1 && Depth("}") == -1 by {
      assert "{"[..0] == "" && "}"[..0] == "";
    }
    var front := "{" + s;
    DepthConcat("{", s);
    DepthConcat(front, "}");
    NonNegativeConcat("{", s);
    assert NonNegative("{");
    assert NonNegative(front);
    NonNegativeConcat(front, "}");
    forall k | 0 <= k <= 1 ensures Depth(front) + Depth("}"[..k]) >= 0 {
      assert "}"[..1] == "}" && "}"[..0] == "";
    }
  }

  // ---- finding the block ----

  function SkipSpaces(t: string, i: nat): (j: nat)
    requires i <= |t|
    ensures i <= j <= |t| && (j < |t| ==> !IsSpace(t[j]))
    ensures forall k :: i <= k < j ==> IsSpace(t[k])
    decreases |t| - i
  {
    if i < |t| && IsSpace(t[i]) then SkipSpaces(t, i + 1) else i
  }

  predicate LineStart(t: string, s: nat)
    requires s <= |t|
  {
    s == 0 || t[s - 1] == '\n'
  }

  /** The brace that opens a block of the host, when one starts here. */
  function OpenAt(t: string, host: string, s: nat): (j: Option<nat>)
    requires s <= |t|
    ensures j.Some? ==> s + |host| <= j.value < |t| && t[j.value] == '{'
  {
    if !LineStart(t, s) || !(host <= t[s..]) then None
    else
      var j := SkipSpaces(t, s + |host|);
      if j < |t| && t[j] == '{' then Some(j) else None
  }

  /** The first start of a block of the host from here on. */
  function Search(t: string, host: string, s: nat): (r: Option<nat>)
    requires s <= |t|
    ensures r.Some? ==> s <= r.value <= |t| && OpenAt(t, host, r.value).Some?
    ensures forall i :: s <= i < (if r.Some? then r.value else |t| + 1) ==> OpenAt(t, host, i) == None
    decreases |t| - s
  {
    if OpenAt(t, host, s).Some? then Some(s) else if s == |t| then None else Search(t, host, s + 1)
  }

  /** The brace at which the depth comes back to zero. */
  function Close(t: string, i: nat, depth: int): (r: Option<nat>)
    requires i <= |t|
    ensures r.Some? ==> i <= r.value < |t| && t[r.value] == '}'
    decreases |t| - i
  {
    if i == |t| then None
    else if t[i] == '{' then Close(t, i + 1, depth + 1)
    else if t[i] == '}' then if depth == 1 then Some(i) else Close(t, i + 1, depth - 1)
    else Close(t, i + 1, depth)
  }

  /** The region to replace: from the host to the matching brace and one newline after it. */
  function RegionEnd(t: string, close: nat): (end: nat)
    requires close < |t|
    ensures close < end <= |t|
  {
    if close + 1 < |t| && t[close + 1] == '\n' then close + 2 else close + 1
  }

  function DropNewlines(t: string): (r: string)
    ensures r <= t && (forall i :: |r| <= i < |t| ==> t[i] == '\n')
  {
    if t != "" && t[|t| - 1] == '\n' then DropNewlines(t[..|t| - 1]) else t
  }

  const NOTE := "\n\n# Beszel (deployHeadscale/beszel)\n"

  function ReplaceBlock(t: string, host: string, block: string): Outcome {
    match Search(t, host, 0)
    case None => Ok(DropNewlines(t) + NOTE + block)
    case Some(s) =>
      match Close(t, OpenAt(t, host, s).value, 0)
      case None => Unclosed
      case Some(close) => Ok(t[..s] + block + t[RegionEnd(t, close)..])
  }

  // ---- the replacement as written ----

  method FindStart(t: string, host: string) returns (s: Option<nat>)
    ensures s == Search(t, host, 0)
  {
    var i := 0;
    while i <= |t|
      invariant i <= |t| + 1
      invariant i <= |t| ==> Search(t, host, 0) == Search(t, host, i)
      invariant i > |t| ==> Search(t, host, 0) == None
    {
      if OpenAt(t, host, i).Some? {
        return Some(i);
      }
      i := i + 1;
    }
    s := None;
  }

  method Replace(t: string, host: string, block: string) returns (r: Outcome)
    ensures r == ReplaceBlock(t, host, block)
  {
    var start := FindStart(t, host);
    if start == None {
      return Ok(DropNewlines(t) + NOTE + block);
    }
    var open := OpenAt(t, host, start.value).value;
    var depth, i := 0, open;
    while i < |t|
      invariant open <= i <= |t|
      invariant Close(t, open, 0) == Close(t, i, depth)
    {
      if t[i] == '{' {
        depth := depth + 1;
      } else if t[i] == '}' {
        depth := depth - 1;
        if depth == 0 {
          break;
        }
      }
      i := i + 1;
    }
    if i == |t| {
      return Unclosed;
    }
    var end := i + 1;
    if end < |t| && t[end] == '\n' {
      end := end + 1;
    }
    r := Ok(t[..start.value] + block + t[end..]);
  }

  // ---- what the matching brace is ----

  function Between(t: string, i: nat, k: nat): int
    requires i <= k <= |t|
  {
    Depth(t[i..k])
  }

  lemma BetweenStep(t: string, i: nat, k: nat)
    requires i < k <= |t|
    ensures Between(t, i, k) == Weight(t[i]) + Between(t, i + 1, k)
  {
    DepthConcat([t[i]], t[i + 1..k]);
    assert [t[i]] + t[i + 1..k] == t[i..k];
    assert Depth([t[i]]) == Weight(t[i]) by {
      assert [t[i]][..0] == "";
    }
  }

  /** Up to the end of this stretch the block stays open. */
  predicate StaysOpen(t: string, i: nat, end: nat, depth: int)
    requires i <= end <= |t|
  {
    forall k :: i <= k <= end ==> depth + Between(t, i, k) > 0
  }

  lemma {:induction false} CloseIs(t: string, i: nat, depth: int)
    requires i <= |t| && depth >= 1
    ensures match Close(t, i, depth)
      case Some(e) => StaysOpen(t, i, e, depth) && depth + Between(t, i, e + 1) == 0
      case None => StaysOpen(t, i, |t|, depth)
    decreases |t| - i
  {
    var r := Close(t, i, depth);
    assert t[i..i] == "";
    if i < |t| {
      assert t[i + 1..i + 1] == "";
      var deeper := depth + Weight(t[i]);
      if deeper >= 1 {
        CloseIs(t, i + 1, deeper);
        var end := if r.Some? then r.value else |t|;
        forall k | i <= k <= end ensures depth + Between(t, i, k) > 0 {
          if k > i {
            BetweenStep(t, i, k);
          }
        }
        if r.Some? {
          BetweenStep(t, i, r.value + 1);
        }
      } else {
        BetweenStep(t, i, i + 1);
      }
    }
  }

  /** The brace that closes the block opened at a brace: the shortest balanced stretch, if there is one. */
  predicate Closes(t: string, open: nat, close: nat)
    requires open < |t|
  {
    && open < close < |t| && Between(t, open, close + 1) == 0
    && forall k :: open < k <= close ==> Between(t, open, k) > 0
  }

  predicate NeverCloses(t: string, open: nat)
    requires open < |t|
  {
    forall k :: open < k <= |t| ==> Between(t, open, k) > 0
  }

  lemma CloseFromBrace(t: string, open: nat)
    requires open < |t| && t[open] == '{'
    ensures match Close(t, open, 0)
      case Some(e) => Closes(t, open, e)
      case None => NeverCloses(t, open)
  {
    CloseIs(t, open + 1, 1);
    forall k | open < k <= |t| ensures Between(t, open, k) == 1 + Between(t, open + 1, k) {
      BetweenStep(t, open, k);
    }
  }

  lemma CloseUnique(t: string, open: nat, close: nat)
    requires open < |t| && t[open] == '{' && Closes(t, open, close)
    ensures Close(t, open, 0) == Some(close)
  {
    CloseFromBrace(t, open);
  }

  // ---- what a replacement does ----

  /** A text around the first block of the host: the block starts a line, its brace and the matching one delimit it,
      and one newline after it belongs to it. */
  predicate Found(t: string, host: string, start: nat, open: nat, close: nat) {
    && start + |host| <= open < close < |t|
    && OpenAt(t, host, start) == Some(open)
    && (forall i :: 0 <= i < start ==> OpenAt(t, host, i) == None)
    && Closes(t, open, close)
  }

  ghost predicate Swapped(t: string, host: string, block: string, r: string) {
    exists start: nat, open: nat, close: nat ::
      Found(t, host, start, open, close) && r == t[..start] + block + t[RegionEnd(t, close)..]
  }

  /** The replacement finds the block exactly when there is one, and reports it exactly when it is never closed. */
  lemma ReplaceCases(t: string, host: string, block: string)
    ensures match ReplaceBlock(t, host, block)
      case Unclosed => exists s: nat, open: nat :: s <= |t| && OpenAt(t, host, s) == Some(open) && NeverCloses(t, open)
      case Ok(r) =>
        || (r == DropNewlines(t) + NOTE + block && forall i :: 0 <= i <= |t| ==> OpenAt(t, host, i) == None)
        || Swapped(t, host, block, r)
  {
    var s := Search(t, host, 0);
    if s.Some? {
      var open := OpenAt(t, host, s.value).value;
      CloseFromBrace(t, open);
      var close := Close(t, open, 0);
      if close.Some? {
        assert Found(t, host, s.value, open, close.value);
      }
    }
  }

  lemma FoundIsReplaced(t: string, host: string, block: string, start: nat, open: nat, close: nat)
    requires Found(t, host, start, open, close)
    ensures ReplaceBlock(t, host, block) == Ok(t[..start] + block + t[RegionEnd(t, close)..])
  {
    CloseUnique(t, open, close);
  }

  // ---- once is enough ----

  predicate HostName(host: string) {
    && host != "" && !IsSpace(host[0]) && host[0] != '{' && host[0] != '#'
    && forall i :: 0 <= i < |host| ==> host[i] != '\n'
  }

  /** Behind a newline at b there are only blanks up to m, and what comes then opens nothing. */
  predicate Barrier(t: string, b: nat, m: nat) {
    && b < m <= |t| && t[b] == '\n' && (forall i :: b <= i < m ==> IsSpace(t[i]))
    && (m < |t| ==> !IsSpace(t[m]) && t[m] != '{')
  }

  /** A block that starts before a barrier has its brace before it too. */
  lemma BraceBeforeBarrier(t: string, host: string, s: nat, b: nat, m: nat)
    requires HostName(host) && Barrier(t, b, m) && s <= b && OpenAt(t, host, s).Some?
    ensures OpenAt(t, host, s).value < b
  {
    var j := OpenAt(t, host, s).value;
    assert forall k :: s <= k < s + |host| ==> t[k] == t[s..][k - s] == host[k - s];
  }

  lemma NotHere(t: string, host: string, s: nat)
    requires s < |t| && host != "" && t[s] != host[0]
    ensures OpenAt(t, host, s) == None
  {
    if host <= t[s..] {
      assert false;
    }
  }

  /** Only the text up to the brace matters. */
  lemma OpeningIsLocal(t: string, u: string, host: string, s: nat, m: nat)
    requires s <= m <= |t| && m <= |u| && t[..m] == u[..m]
    requires OpenAt(u, host, s).Some? && OpenAt(u, host, s).value < m
    ensures OpenAt(t, host, s) == OpenAt(u, host, s)
  {
    var j := OpenAt(u, host, s).value;
    assert forall i :: 0 <= i < m ==> t[i] == t[..m][i] == u[i];
    assert host <= t[s..] by {
      assert host == u[s..][..|host|];
      assert t[s..][..|host|] == host;
    }
    SkipSpacesIs(t, s + |host|, j);
  }

  lemma {:induction false} SkipSpacesIs(t: string, i: nat, j: nat)
    requires i <= j < |t| && !IsSpace(t[j]) && forall k :: i <= k < j ==> IsSpace(t[k])
    ensures SkipSpaces(t, i) == j
    decreases j - i
  {
    if i < j {
      SkipSpacesIs(t, i + 1, j);
    }
  }

  lemma SameBeforeBarrier(t: string, u: string, host: string, s: nat, b: nat, m: nat)
    requires HostName(host) && Barrier(u, b, m) && s <= b <= |t| && t[..b] == u[..b] && OpenAt(t, host, s) == None
    ensures OpenAt(u, host, s) == None
  {
    if OpenAt(u, host, s).Some? {
      BraceBeforeBarrier(u, host, s, b, m);
      OpeningIsLocal(t, u, host, s, b);
    }
  }

  /** A block that can be found again: the host and a balanced body in braces, and a newline. */
  function Written(host: string, body: string): string {
    host + " {" + body + "}\n"
  }

  lemma WrittenOpens(t: string, host: string, body: string, pre: string, post: string)
    requires HostName(host) && t == pre + Written(host, body) + post
    requires pre == "" || pre[|pre| - 1] == '\n'
    ensures OpenAt(t, host, |pre|) == Some(|pre| + |host| + 1)
  {
    var s := |pre|;
    assert t[s..] == host + (" {" + body + "}\n" + post);
    var rest := t[s + |host|..];
    assert rest == " {" + body + "}\n" + post;
    assert t[s + |host|] == rest[0] && t[s + |host| + 1] == rest[1];
    SkipSpacesIs(t, s + |host|, s + |host| + 1);
  }

  lemma WrittenCloses(t: string, host: string, body: string, pre: string, post: string)
    requires t == pre + Written(host, body) + post && Balanced(body)
    ensures var open, close := |pre| + |host| + 1, |pre| + |host| + 2 + |body|;
      close + 1 < |t| && t[open] == '{' && t[close] == '}' && t[close + 1] == '\n' && Closes(t, open, close)
  {
    var open, close := |pre| + |host| + 1, |pre| + |host| + 2 + |body|;
    assert t == (pre + host + " ") + ("{" + body + "}") + ("\n" + post);
    var inner := "{" + body + "}";
    assert t[open..close + 1] == inner;
    BalancedBraces(body);
    forall k | open < k <= close ensures Between(t, open, k) > 0 {
      assert t[open..k] == "{" + body[..k - open - 1];
      DepthConcat("{", body[..k - open - 1]);
      assert Depth(body[..k - open - 1]) >= 0;
      assert Depth("{") == 1 by {
        assert "{"[..0] == "";
      }
    }
  }

  /** Text in which the first block is the written one is not changed by writing it. */
  lemma WrittenStays(host: string, body: string, pre: string, post: string)
    requires HostName(host) && Balanced(body) && (pre == "" || pre[|pre| - 1] == '\n')
    requires forall i :: 0 <= i < |pre| ==> OpenAt(pre + Written(host, body) + post, host, i) == None
    ensures var t := pre + Written(host, body) + post;
      ReplaceBlock(t, host, Written(host, body)) == Ok(t)
  {
    var block := Written(host, body);
    var t := pre + block + post;
    var open, close := |pre| + |host| + 1, |pre| + |host| + 2 + |body|;
    WrittenOpens(t, host, body, pre, post);
    WrittenCloses(t, host, body, pre, post);
    assert Found(t, host, |pre|, open, close);
    FoundIsReplaced(t, host, block, |pre|, open, close);
    assert RegionEnd(t, close) == |pre| + |block|;
    assert t[..|pre|] == pre && t[|pre| + |block|..] == post;
  }

  lemma ReplacedStays(t: string, host: string, body: string, start: nat, open: nat, close: nat)
    requires HostName(host) && Balanced(body) && Found(t, host, start, open, close)
    ensures var r := t[..start] + Written(host, body) + t[RegionEnd(t, close)..];
      ReplaceBlock(r, host, Written(host, body)) == Ok(r)
  {
    var pre, post := t[..start], t[RegionEnd(t, close)..];
    var r := pre + Written(host, body) + post;
    forall i | 0 <= i < |pre| ensures OpenAt(r, host, i) == None {
      assert r[..start - 1] == t[..start - 1];
      assert r[start] == Written(host, body)[0] == host[0];
      assert Barrier(r, start - 1, start);
      SameBeforeBarrier(t, r, host, i, start - 1, start);
    }
    WrittenStays(host, body, pre, post);
  }

  /** A blank line and a comment line. */
  predicate CommentLine(note: string) {
    && |note| > 3 && note[0] == '\n' && note[1] == '\n' && note[2] == '#' && note[|note| - 1] == '\n'
    && forall i :: 2 <= i < |note| - 1 ==> note[i] != '\n'
  }

  lemma NothingOpensBefore(t: string, kept: string, note: string, host: string, rest: string, i: nat)
    requires HostName(host) && CommentLine(note) && kept <= t && i < |kept + note|
    requires i <= |kept| ==> OpenAt(t, host, i) == None
    ensures OpenAt(kept + note + rest, host, i) == None
  {
    if i <= |kept| {
      KeptOpensNothing(t, kept, note, host, rest, i);
    } else {
      CommentOpensNothing(kept, note, host, rest, i);
    }
  }

  lemma KeptOpensNothing(t: string, kept: string, note: string, host: string, rest: string, i: nat)
    requires HostName(host) && CommentLine(note) && kept <= t && i <= |kept| && OpenAt(t, host, i) == None
    ensures OpenAt(kept + note + rest, host, i) == None
  {
    var r, b := kept + note + rest, |kept|;
    assert r[b] == note[0] && r[b + 1] == note[1] && r[b + 2] == note[2];
    assert r[..b] == t[..b];
    SameBeforeBarrier(t, r, host, i, b, b + 2);
  }

  lemma CommentOpensNothing(kept: string, note: string, host: string, rest: string, i: nat)
    requires HostName(host) && CommentLine(note) && |kept| < i < |kept + note|
    ensures OpenAt(kept + note + rest, host, i) == None
  {
    var r, b := kept + note + rest, |kept|;
    if i <= b + 2 {
      assert r[i] == note[i - b];
      NotHere(r, host, i);
    } else {
      assert r[i - 1] == note[i - 1 - b];
    }
  }

  lemma AppendedStays(t: string, note: string, host: string, body: string)
    requires HostName(host) && Balanced(body) && CommentLine(note)
    requires forall i :: 0 <= i <= |t| ==> OpenAt(t, host, i) == None
    ensures var r := DropNewlines(t) + note + Written(host, body);
      ReplaceBlock(r, host, Written(host, body)) == Ok(r)
  {
    var pre, block := DropNewlines(t) + note, Written(host, body);
    assert pre + block + "" == pre + block;
    forall i | 0 <= i < |pre| ensures OpenAt(pre + block + "", host, i) == None {
      NothingOpensBefore(t, DropNewlines(t), note, host, block, i);
    }
    WrittenStays(host, body, pre, "");
  }

  /** Replacing twice is replacing once. */
  lemma ReplaceTwice(t: string, host: string, body: string)
    requires HostName(host) && Balanced(body)
    ensures var block := Written(host, body);
      match ReplaceBlock(t, host, block) case Ok(r) => ReplaceBlock(r, host, block) == Ok(r) case Unclosed => true
  {
    var block := Written(host, body);
    ReplaceCases(t, host, block);
    match ReplaceBlock(t, host, block)
    case Unclosed =>
    case Ok(r) =>
      if Swapped(t, host, block, r) {
        var start: nat, open: nat, close: nat :|
          Found(t, host, start, open, close) && r == t[..start] + block + t[RegionEnd(t, close)..];
        ReplacedStays(t, host, body, start, open, close);
      } else {
        AppendedStays(t, NOTE, host, body);
      }
  }

  // ---- balance ----

  /** The region a replacement takes out: it starts with the host and is balanced. */
  lemma RegionBalanced(t: string, host: string, start: nat, open: nat, close: nat)
    requires Found(t, host, start, open, close) && NoBraces(host)
    ensures Balanced(t[start..RegionEnd(t, close)])
  {
    var end := RegionEnd(t, close);
    var head, body, tail := t[start..open], t[open..close + 1], t[close + 1..end];
    HeadHasNoBraces(t, host, start, open);
    NoBracesDepth(head);
    NoBracesDepth(tail);
    ClosedIsBalanced(t, open, close);
    BalancedConcat(head, body);
    BalancedConcat(head + body, tail);
    SlicesBetween(t, start, open, close + 1, end);
  }

  lemma ClosedIsBalanced(t: string, open: nat, close: nat)
    requires open < |t| && Closes(t, open, close)
    ensures Balanced(t[open..close + 1])
  {
    var body := t[open..close + 1];
    forall k | 0 <= k <= |body| ensures Depth(body[..k]) >= 0 {
      assert body[..k] == t[open..open + k];
      if 0 < k < |body| {
        assert Between(t, open, open + k) > 0;
      }
    }
  }

  lemma HeadHasNoBraces(t: string, host: string, start: nat, open: nat)
    requires start <= |t| && OpenAt(t, host, start) == Some(open) && NoBraces(host)
    ensures NoBraces(t[start..open])
  {
    forall i | start <= i < open ensures t[i] != '{' && t[i] != '}' {
      if i < start + |host| {
        assert t[i] == t[start..][i - start] == host[i - start];
      } else {
        assert SkipSpaces(t, start + |host|) == open;
        assert IsSpace(t[i]);
      }
    }
  }

  lemma NewlinesDropped(t: string)
    ensures Balanced(DropNewlines(t)) <==> Balanced(t)
  {
    var kept := DropNewlines(t);
    var rest := t[|kept|..];
    NoBracesDepth(rest);
    BalancedPiece(kept, rest, "");
    assert kept + rest + "" == t && kept + "" == kept;
  }

  lemma SwapPiece(t: string, u: string, a: string, x: string, y: string, b: string)
    requires t == a + x + b && u == a + y + b && Balanced(x) && Balanced(y)
    ensures Balanced(u) <==> Balanced(t)
  {
    BalancedPiece(a, x, b);
    BalancedPiece(a, y, b);
  }

  lemma SwapKeepsBalance(t: string, host: string, block: string, r: string)
    requires NoBraces(host) && Balanced(block) && Swapped(t, host, block, r)
    ensures Balanced(r) <==> Balanced(t)
  {
    var start: nat, open: nat, close: nat :|
      Found(t, host, start, open, close) && r == t[..start] + block + t[RegionEnd(t, close)..];
    var end := RegionEnd(t, close);
    RegionBalanced(t, host, start, open, close);
    Slices(t, start, end);
    SwapPiece(t, r, t[..start], t[start..end], block, t[end..]);
  }

  lemma AppendKeepsBalance(t: string, note: string, block: string)
    requires Balanced(block) && NoBraces(note)
    ensures Balanced(DropNewlines(t) + note + block) <==> Balanced(t)
  {
    var kept := DropNewlines(t);
    NewlinesDropped(t);
    NoBracesDepth(note);
    BalancedPiece(kept, note, "");
    BalancedPiece(kept + note, block, "");
    assert kept + note + "" == kept + note && kept + "" == kept;
    assert kept + note + block + "" == kept + note + block;
  }

  lemma NeverClosesUnbalanced(t: string, open: nat)
    requires open < |t| && NeverCloses(t, open)
    ensures !Balanced(t)
  {
    assert t[open..|t|] == t[open..] && Between(t, open, |t|) > 0;
    assert t[..open] + t[open..] == t;
    DepthConcat(t[..open], t[open..]);
    assert NonNegative(t) ==> Depth(t[..open]) >= 0;
  }

  /** A replacement by a balanced block keeps a balanced file balanced and does not make another one balanced; a
      balanced file is never refused. */
  lemma BalanceKept(t: string, host: string, block: string)
    requires NoBraces(host) && Balanced(block)
    ensures match ReplaceBlock(t, host, block)
      case Ok(r) => Balanced(r) <==> Balanced(t)
      case Unclosed => !Balanced(t)
  {
    ReplaceCases(t, host, block);
    match ReplaceBlock(t, host, block)
    case Unclosed =>
      var s: nat, open: nat :| s <= |t| && OpenAt(t, host, s) == Some(open) && NeverCloses(t, open);
      NeverClosesUnbalanced(t, open);
    case Ok(r) =>
      if Swapped(t, host, block, r) {
        SwapKeepsBalance(t, host, block, r);
      } else {
        AppendKeepsBalance(t, NOTE, block);
      }
  }

  // ---- the site ----

  const HOST := "status.hangocthanh.io.vn"

  function Braced(s: string): string {
    "{" + s + "}"
  }

  lemma BracedPart(a: string, b: string, c: string)
    requires Balanced(a) && Balanced(b) && Balanced(c)
    ensures Balanced(a + Braced(b) + c)
  {
    BalancedBraces(b);
    BalancedConcat(a, Braced(b));
    BalancedConcat(a + Braced(b), c);
  }

  lemma WrittenIsBalanced(host: string, body: string)
    requires NoBraces(host) && Balanced(body)
    ensures Balanced(Written(host, body))
  {
    NoBracesDepth(host + " ");
    NoBracesDepth("\n");
    BracedPart(host + " ", body, "\n");
    assert Written(host, body) == host + " " + Braced(body) + "\n";
  }

  /** A block on any file: writing it twice is writing it once, and the braces stay as they were. */
  lemma BlockOnFile(t: string, host: string, body: string)
    requires HostName(host) && NoBraces(host) && Balanced(body)
    ensures match ReplaceBlock(t, host, Written(host, body))
      case Ok(r) => ReplaceBlock(r, host, Written(host, body)) == Ok(r) && (Balanced(r) <==> Balanced(t))
      case Unclosed => !Balanced(t)
  {
    WrittenIsBalanced(host, body);
    ReplaceTwice(t, host, body);
    BalanceKept(t, host, Written(host, body));
  }

  lemma HostIsPlain()
    ensures HostName(HOST) && NoBraces(HOST)
  {
  }

  /** The lines of the site's block between its braces: two empty pairs in the comments, then a route that holds an
      authentication block that holds a redirection. */
  datatype Lines = Lines(notes: string, order: string, hint: string, route: string, auth: string, redirect: string,
                         afterRedirect: string, afterAuth: string, headers: string)

  predicate Plain(l: Lines) {
    && NoBraces(l.notes) && NoBraces(l.order) && NoBraces(l.hint) && NoBraces(l.route) && NoBraces(l.auth)
    && NoBraces(l.redirect) && NoBraces(l.afterRedirect) && NoBraces(l.afterAuth) && NoBraces(l.headers)
  }

  function AuthBlock(l: Lines): string {
    l.auth + Braced(l.redirect) + l.afterRedirect
  }

  function RouteBlock(l: Lines): string {
    l.route + Braced(AuthBlock(l)) + l.afterAuth
  }

  function Body(l: Lines): string {
    (l.notes + Braced("") + l.order) + Braced("") + l.hint + Braced(RouteBlock(l)) + l.headers
  }

  lemma BodyIsBalanced(l: Lines)
    requires Plain(l)
    ensures Balanced(Body(l))
  {
    NoBracesDepth("");
    NoBracesDepth(l.auth);
    NoBracesDepth(l.redirect);
    NoBracesDepth(l.afterRedirect);
    BracedPart(l.auth, l.redirect, l.afterRedirect);
    NoBracesDepth(l.route);
    NoBracesDepth(l.afterAuth);
    BracedPart(l.route, AuthBlock(l), l.afterAuth);
    NoBracesDepth(l.notes);
    NoBracesDepth(l.order);
    NoBracesDepth(l.hint);
    NoBracesDepth(l.headers);
    BracedPart(l.notes, "", l.order);
    BracedPart(l.notes + Braced("") + l.order, "", l.hint);
    BracedPart((l.notes + Braced("") + l.order) + Braced("") + l.hint, RouteBlock(l), l.headers);
  }

  /** The site's host with any block nested like the site's, on every file. */
  lemma Site(t: string, l: Lines)
    requires Plain(l)
    ensures match ReplaceBlock(t, HOST, Written(HOST, Body(l)))
      case Ok(r) => ReplaceBlock(r, HOST, Written(HOST, Body(l))) == Ok(r) && (Balanced(r) <==> Balanced(t))
      case Unclosed => !Balanced(t)
  {
    HostIsPlain();
    BodyIsBalanced(l);
    BlockOnFile(t, HOST, Body(l));
  }
}
