/** The block replacement told by how the text looks. */
module CaddyText {
  import opened Basics
  import opened Text
  import opened CaddyBlock

  predicate Blanks(s: string) {
    forall i :: 0 <= i < |s| ==> IsSpace(s[i])
  }

  /** At i a line starts with the host, blanks and a brace at j. */
  predicate OpensHere(t: string, host: string, i: nat, j: nat) {
    && i + |host| <= j < |t| && (i == 0 || t[i - 1] == '\n')
    && t[i..i + |host|] == host && Blanks(t[i + |host|..j]) && t[j] == '{'
  }

  lemma OpeningFound(t: string, host: string, i: nat, j: nat)
    requires OpensHere(t, host, i, j)
    ensures OpenAt(t, host, i) == Some(j)
  {
    assert host <= t[i..] by {
      assert t[i..][..|host|] == t[i..i + |host|];
    }
    forall k | i + |host| <= k < j ensures IsSpace(t[k]) {
      assert t[k] == t[i + |host|..j][k - i - |host|];
    }
    SkipSpacesIs(t, i + |host|, j);
  }

  lemma OpeningMeans(t: string, host: string, i: nat)
    requires i <= |t| && OpenAt(t, host, i).Some?
    ensures OpensHere(t, host, i, OpenAt(t, host, i).value)
  {
    assert t[i..][..|host|] == t[i..i + |host|];
  }

  /** No block of the host starts in front of i. */
  predicate FirstFrom(t: string, host: string, i: nat) {
    forall k, j :: 0 <= k < i && 0 <= j < |t| ==> !OpensHere(t, host, k, j)
  }

  lemma NoneEarlier(t: string, host: string, i: nat)
    requires i <= |t| + 1 && FirstFrom(t, host, i)
    ensures forall k :: 0 <= k < i ==> OpenAt(t, host, k) == None
  {
    forall k | 0 <= k < i ensures OpenAt(t, host, k) == None {
      if OpenAt(t, host, k).Some? {
        OpeningMeans(t, host, k);
      }
    }
  }

  lemma SearchIs(t: string, host: string, i: nat, j: nat)
    requires OpensHere(t, host, i, j) && FirstFrom(t, host, i)
    ensures Search(t, host, 0) == Some(i) && OpenAt(t, host, i) == Some(j)
  {
    OpeningFound(t, host, i, j);
    NoneEarlier(t, host, i);
  }

  /** The text behind the closing brace, less one newline. */
  function Behind(s: string): string {
    if s != "" && s[0] == '\n' then s[1..] else s
  }

  /** The first block of the host goes, from the start of its line to its brace and one newline; what stands in front
      of it and behind it stays. */
  lemma BlockIsSwapped(pre: string, host: string, gap: string, body: string, post: string, block: string)
    requires pre == "" || pre[|pre| - 1] == '\n'
    requires Blanks(gap) && Balanced(body)
    requires FirstFrom(pre + (host + gap + "{" + body + "}") + post, host, |pre|)
    ensures ReplaceBlock(pre + (host + gap + "{" + body + "}") + post, host, block) == Ok(pre + block + Behind(post))
  {
    var t := pre + (host + gap + "{" + body + "}") + post;
    var open := |pre| + |host| + |gap|;
    var close := open + 1 + |body|;
    Places(t, pre, host, gap, body, post);
    SearchIs(t, host, |pre|, open);
    BracesClose(t, open, body);
    CloseUnique(t, open, close);
    assert t[..|pre|] == pre;
    RestIs(t, close, post);
  }

  lemma Places(t: string, pre: string, host: string, gap: string, body: string, post: string)
    requires t == pre + (host + gap + "{" + body + "}") + post && Blanks(gap)
    requires pre == "" || pre[|pre| - 1] == '\n'
    ensures var open := |pre| + |host| + |gap|;
      && OpensHere(t, host, |pre|, open) && open + 1 + |body| < |t|
      && t[open..open + 2 + |body|] == "{" + body + "}" && t[open + 2 + |body|..] == post
  {
    var open := |pre| + |host| + |gap|;
    assert t == pre + host + gap + ("{" + body + "}") + post;
    assert t[|pre|..|pre| + |host|] == host && t[|pre| + |host|..open] == gap;
    assert t[open..open + 2 + |body|] == "{" + body + "}";
    assert t[open] == t[open..open + 2 + |body|][0];
  }

  lemma BracesClose(t: string, open: nat, body: string)
    requires open + 1 + |body| < |t| && t[open..open + 2 + |body|] == "{" + body + "}" && Balanced(body)
    ensures t[open] == '{' && Closes(t, open, open + 1 + |body|)
  {
    var close := open + 1 + |body|;
    assert t[open] == t[open..close + 1][0];
    BalancedBraces(body);
    forall k | open < k <= close ensures Between(t, open, k) > 0 {
      assert t[open..k] == t[open..close + 1][..k - open];
      assert t[open..k] == "{" + body[..k - open - 1];
      DepthConcat("{", body[..k - open - 1]);
      OneBrace();
      assert Depth(body[..k - open - 1]) >= 0;
    }
  }

  lemma OneBrace()
    ensures Depth("{") == 1
  {
    assert "{"[..0] == "";
  }

  lemma RestIs(t: string, close: nat, post: string)
    requires close < |t| && t[close + 1..] == post
    ensures t[RegionEnd(t, close)..] == Behind(post)
  {
    if post != "" {
      assert t[close + 1] == post[0];
      assert t[close + 2..] == t[close + 1..][1..];
    }
  }

  /** Without a block of the host, a note and the block are put behind the text, less the newlines at its end. */
  lemma BlockIsAppended(front: string, n: nat, host: string, block: string)
    requires front == "" || front[|front| - 1] != '\n'
    requires FirstFrom(front + Newlines(n), host, |front| + n + 1)
    ensures ReplaceBlock(front + Newlines(n), host, block)
         == Ok(front + "\n\n# Beszel (deployHeadscale/beszel)\n" + block)
  {
    NoneEarlier(front + Newlines(n), host, |front| + n + 1);
    NewlinesGo(front, n);
  }

  function Newlines(n: nat): (s: string)
    ensures |s| == n
  {
    if n == 0 then "" else Newlines(n - 1) + "\n"
  }

  lemma {:induction false} NewlinesGo(front: string, n: nat)
    requires front == "" || front[|front| - 1] != '\n'
    ensures DropNewlines(front + Newlines(n)) == front
  {
    if n == 0 {
      assert front + Newlines(0) == front;
    } else {
      assert (front + Newlines(n))[..|front| + n - 1] == front + Newlines(n - 1);
      NewlinesGo(front, n - 1);
    }
  }

  /** A first block whose depth never comes back to zero is refused. */
  lemma OpenBlockIsRefused(t: string, host: string, i: nat, j: nat, block: string)
    requires OpensHere(t, host, i, j) && FirstFrom(t, host, i)
    requires forall k :: j < k <= |t| ==> Depth(t[j..k]) > 0
    ensures ReplaceBlock(t, host, block) == Unclosed
  {
    SearchIs(t, host, i, j);
    CloseFromBrace(t, j);
    assert forall k :: j < k <= |t| ==> Between(t, j, k) > 0;
  }
}
