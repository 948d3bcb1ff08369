/**
 * The regular expressions the chatbots use to cut a call out of a completion,
 * as the left-to-right search Python's `re.match` performs for them.
 *
 *  - `(.*?)($|TAG(.*))` with DOTALL (app/horace_chatbot.py with TAG `<call>`,
 *    horace_chatbot.py with TAG `CALL `): the shortest prefix after which
 *    either `$` matches or TAG starts; the payload is everything after TAG.
 *  - `((.*?)($|\[json\](.*?)\[/json\]))` with IGNORECASE, MULTILINE and DOTALL
 *    (grace_chatbot.py): the shortest prefix after which either a line ends or
 *    a complete `[json]...[/json]` block starts.
 */
module Extract {
  import opened Base
  import opened PyStr

  /** Groups 0, 1 and 3 of `re.match(r"(.*?)($|TAG(.*))", u, re.DOTALL)`; group 3 is None without TAG. */
  datatype TagSplit = TagSplit(whole: string, before: string, payload: Option<string>)

  /** Where `$` matches without MULTILINE: at the end, or just before a final newline. */
  predicate EndAt(u: string, i: nat) {
    i == |u| || (i == |u| - 1 && u[i] == '\n')
  }

  /** The search from position `i` on: `$` is tried before TAG at every position. */
  function SplitFrom(u: string, tag: string, i: nat): (m: TagSplit)
    requires i <= |u|
    ensures i <= |m.before| <= |u|
    ensures m.payload.Some? ==> |m.before| + |tag| + |m.payload.value| == |u|
    decreases |u| - i
  {
    if EndAt(u, i) then TagSplit(u[..i], u[..i], None)
    else if OccursAt(u, tag, i) then TagSplit(u, u[..i], Some(u[i + |tag|..]))
    else SplitFrom(u, tag, i + 1)
  }

  /** The search from `i` stops at the first position where `$` or TAG matches. */
  lemma {:induction false} SplitFromMatches(u: string, tag: string, i: nat)
    requires i <= |u|
    ensures var m := SplitFrom(u, tag, i);
      && m.before == u[..|m.before|]
      && (forall k :: i <= k < |m.before| ==> !EndAt(u, k) && !OccursAt(u, tag, k))
      && (m.payload.None? ==> EndAt(u, |m.before|) && m.whole == m.before)
      && (m.payload.Some? ==>
            && !EndAt(u, |m.before|) && OccursAt(u, tag, |m.before|)
            && u == m.before + tag + m.payload.value && m.whole == u)
    decreases |u| - i
  {
    if EndAt(u, i) {
    } else if OccursAt(u, tag, i) {
      var m := SplitFrom(u, tag, i);
      assert m.payload.value == u[i + |tag|..];
      assert u[i..i + |tag|] == tag;
      assert u == u[..i] + u[i..i + |tag|] + u[i + |tag|..];
    } else {
      SplitFromMatches(u, tag, i + 1);
      var m := SplitFrom(u, tag, i);
      assert m == SplitFrom(u, tag, i + 1);
    }
  }

  /** `re.match(r"(.*?)($|" + re.escape(tag) + r"(.*))", u, re.DOTALL)` */
  function SplitAtTag(u: string, tag: string): (m: TagSplit)
    ensures |m.before| <= |u|
    ensures m.payload.Some? ==> |m.before| + |tag| + |m.payload.value| == |u|
  {
    SplitFrom(u, tag, 0)
  }

  /**
   * Group 1 is a prefix in which the tag does not occur; with a payload, the
   * text is group 1, the tag and the payload, and group 0 is all of it.
   */
  lemma SplitAtTagParts(u: string, tag: string)
    ensures var m := SplitAtTag(u, tag);
      && m.before == u[..|m.before|]
      && (forall k :: 0 <= k < |m.before| ==> !OccursAt(u, tag, k))
      && (m.payload.None? ==> m.whole == m.before)
      && (m.payload.Some? ==> u == m.before + tag + m.payload.value && m.whole == u)
  {
    SplitFromMatches(u, tag, 0);
  }

  /** `u` without one final newline: what `$` leaves to group 1 when no tag occurs. */
  function DropFinalNewline(u: string): string {
    if |u| > 0 && u[|u| - 1] == '\n' then u[..|u| - 1] else u
  }

  /**
   * For a tag of two or more characters the match is decided by the first
   * occurrence of the tag: before it lies group 1, after it the payload; with
   * no occurrence there is no payload and group 1 is the whole text (less a
   * final newline).
   */
  lemma SplitAtTagIsFind(u: string, tag: string)
    requires |tag| >= 2
    ensures var k := Find(u, tag);
      && (k >= 0 ==> SplitAtTag(u, tag) == TagSplit(u, u[..k], Some(u[k + |tag|..])))
      && (k == -1 ==> SplitAtTag(u, tag) == TagSplit(DropFinalNewline(u), DropFinalNewline(u), None))
  {
    var m := SplitAtTag(u, tag);
    var k := Find(u, tag);
    var b := |m.before|;
    SplitFromMatches(u, tag, 0);
    if k >= 0 {
      assert OccursAt(u, tag, k);
      assert b <= k <= |u| - 2;
      assert !EndAt(u, b);
      assert m.payload.Some?;
      assert OccursAt(u, tag, b);
      assert b == k;
      assert m.before + tag == u[..k + |tag|];
      assert m.payload.value == u[k + |tag|..];
    } else {
      assert m.payload.None?;
      assert EndAt(u, b);
      if |u| > 0 && u[|u| - 1] == '\n' {
        assert EndAt(u, |u| - 1);
        assert b == |u| - 1;
      }
    }
  }

  /** Groups 1, 2 and 4 of grace_chatbot.py's match; group 4 is None without a complete block. */
  datatype BlockSplit = BlockSplit(whole: string, before: string, payload: Option<string>)

  const OpenBlock := "[json]"
  const CloseBlock := "[/json]"

  /** Where `$` matches with MULTILINE: at the end, or before any newline. */
  predicate LineEndAt(u: string, i: nat) {
    i == |u| || (i < |u| && u[i] == '\n')
  }

  /**
   * Whether the pattern character `p` matches `c` under IGNORECASE: an ASCII
   * lower-case letter also matches its capital, and `s` also matches the long
   * s (U+017F), as Python's `re` folds them.
   */
  predicate FoldMatch(p: char, c: char) {
    || c == p
    || ('a' <= p <= 'z' && c as int == p as int - 32)
    || (p == 's' && c == '\U{17F}')
  }

  /** The pattern `pat` matches `u` at index `i`, ignoring case. */
  predicate MatchesAt(u: string, pat: string, i: int) {
    0 <= i && i + |pat| <= |u| && forall k :: 0 <= k < |pat| ==> FoldMatch(pat[k], u[i + k])
  }

  /** The first index at or after `j` where a closing tag matches, or -1. */
  function FindClose(u: string, j: nat): (r: int)
    requires j <= |u|
    ensures r == -1 || (j <= r && MatchesAt(u, CloseBlock, r))
    ensures forall k :: j <= k && (r == -1 || k < r) ==> !MatchesAt(u, CloseBlock, k)
    decreases |u| - j
  {
    if MatchesAt(u, CloseBlock, j) then j
    else if j == |u| then -1
    else FindClose(u, j + 1)
  }

  /** A complete block starts at `i`: an opening tag there and a closing tag somewhere after it. */
  predicate BlockAt(u: string, i: nat) {
    MatchesAt(u, OpenBlock, i) && FindClose(u, i + |OpenBlock|) != -1
  }

  function BlockFrom(u: string, i: nat): (m: BlockSplit)
    requires i <= |u|
    ensures i <= |m.before| <= |u|
    decreases |u| - i
  {
    if LineEndAt(u, i) then BlockSplit(u[..i], u[..i], None)
    else if BlockAt(u, i) then
      var j := FindClose(u, i + |OpenBlock|);
      BlockSplit(u[..j + |CloseBlock|], u[..i], Some(u[i + |OpenBlock|..j]))
    else BlockFrom(u, i + 1)
  }

  /**
   * What a match looks like: group 2 is a prefix of `u` that ends at a line
   * end (and then group 1 is group 2), or at an opening tag whose payload runs
   * to the first closing tag after it (and then group 1 ends with that tag).
   */
  predicate MatchShape(u: string, m: BlockSplit) {
    && |m.before| <= |u| && m.before == u[..|m.before|]
    && (m.payload.None? ==> LineEndAt(u, |m.before|) && m.whole == m.before)
    && (m.payload.Some? ==>
          var j := |m.before| + |OpenBlock| + |m.payload.value|;
          && !LineEndAt(u, |m.before|) && MatchesAt(u, OpenBlock, |m.before|)
          && j + |CloseBlock| <= |u| && MatchesAt(u, CloseBlock, j)
          && m.payload.value == u[|m.before| + |OpenBlock|..j]
          && (forall k :: |m.before| + |OpenBlock| <= k < j ==> !MatchesAt(u, CloseBlock, k))
          && m.whole == u[..j + |CloseBlock|])
  }

  /**
   * The search from `i` stops at the first line end or complete block; a
   * block's payload runs to the first closing tag after the opening one.
   */
  lemma {:induction false} BlockFromMatches(u: string, i: nat)
    requires i <= |u|
    ensures var m := BlockFrom(u, i);
      && MatchShape(u, m)
      && (forall k :: i <= k < |m.before| ==> !LineEndAt(u, k) && !BlockAt(u, k))
    decreases |u| - i
  {
    if LineEndAt(u, i) {
    } else if BlockAt(u, i) {
      var j := FindClose(u, i + |OpenBlock|);
      var m := BlockFrom(u, i);
      assert m.before == u[..i] && m.payload == Some(u[i + |OpenBlock|..j]);
      assert |m.before| + |OpenBlock| + |m.payload.value| == j;
    } else {
      assert BlockFrom(u, i) == BlockFrom(u, i + 1);
      BlockFromMatches(u, i + 1);
    }
  }

  /** `re.match(r"((.*?)($|\[json\](.*?)\[/json\]))", u, re.IGNORECASE | re.MULTILINE | re.DOTALL)` */
  function SplitAtBlock(u: string): BlockSplit {
    BlockFrom(u, 0)
  }

  /** The index of the first newline, or the length when there is none. */
  function FirstLineEnd(u: string): (r: nat)
    ensures r <= |u| && LineEndAt(u, r)
    ensures forall k :: 0 <= k < r ==> u[k] != '\n'
  {
    var n := Find(u, "\n");
    if n == -1 then
      assert forall k :: 0 <= k < |u| ==> u[k] != '\n' by {
        forall k | 0 <= k < |u| ensures u[k] != '\n' {
          assert !OccursAt(u, "\n", k);
        }
      }
      |u|
    else
      assert forall k :: 0 <= k < n ==> u[k] != '\n' by {
        forall k | 0 <= k < n ensures u[k] != '\n' {
          assert !OccursAt(u, "\n", k);
        }
      }
      n
  }

  /**
   * MULTILINE makes the search stop at the first line end: a block counts only
   * if its opening tag comes before the first newline, and without one group 1
   * is the first line alone, whatever follows.
   */
  lemma SplitAtBlockFirstLine(u: string)
    ensures var m := SplitAtBlock(u);
      && (m.payload.None? ==> m.whole == m.before == u[..FirstLineEnd(u)])
      && (m.payload.Some? ==> |m.before| < FirstLineEnd(u))
  {
    var m := SplitAtBlock(u);
    var nl := FirstLineEnd(u);
    var b := |m.before|;
    BlockFromMatches(u, 0);
    assert LineEndAt(u, nl);
    assert b <= nl;
    if m.payload.None? {
      assert LineEndAt(u, b);
      assert b == nl;
    } else {
      assert !LineEndAt(u, b);
      assert b < nl;
    }
  }

  /** An opening tag with no closing tag anywhere after it is not a call. */
  lemma UnclosedBlockIsNoCall(u: string)
    requires forall k :: 0 <= k ==> !MatchesAt(u, CloseBlock, k)
    ensures SplitAtBlock(u).payload.None?
  {
    BlockFromMatches(u, 0);
  }

  /** Positions that hold neither a line end nor a complete block are skipped. */
  lemma {:induction false} BlockFromSkips(u: string, i: nat, b: nat)
    requires i <= b <= |u|
    requires forall k :: i <= k < b ==> !LineEndAt(u, k) && !BlockAt(u, k)
    ensures BlockFrom(u, i) == BlockFrom(u, b)
    decreases b - i
  {
    if i < b {
      BlockFromSkips(u, i + 1, b);
    }
  }

  /**
   * The converse of `BlockFromMatches`: the first complete block on the first
   * line is the match; group 1 runs to the end of its closing tag, group 2 is
   * the text before the block, and the payload lies between the two tags.
   */
  lemma FirstBlock(u: string, b: nat)
    requires b < FirstLineEnd(u) && BlockAt(u, b)
    requires forall k :: 0 <= k < b ==> !BlockAt(u, k)
    ensures var j := FindClose(u, b + |OpenBlock|);
      SplitAtBlock(u) == BlockSplit(u[..j + |CloseBlock|], u[..b], Some(u[b + |OpenBlock|..j]))
  {
    BlockFromSkips(u, 0, b);
  }
}
