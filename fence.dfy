/**
 * The scan the chat route uses to find a fenced code block in the model's
 * reply: the leftmost match of the regular expression
 * three backticks, an optional `json` tag, a newline, then a lazy capture
 * of any characters up to the next three backticks.
 */
module Fence {
  import opened Wrappers

  /** Three backticks start at position `i` of `s`. */
  predicate FenceAt(s: string, i: int)
  {
    0 <= i && i + 3 <= |s| && s[i] == '`' && s[i + 1] == '`' && s[i + 2] == '`'
  }

  /** The characters `json` followed by a newline start at position `j` of `s`. */
  predicate JsonTagAt(s: string, j: nat)
  {
    j + 5 <= |s| && s[j] == 'j' && s[j + 1] == 's' && s[j + 2] == 'o' && s[j + 3] == 'n' && s[j + 4] == '\n'
  }

  /**
   * Where the captured text starts when an opening fence sits at `i`: after
   * "```json\n" or after "```\n". The regular expression tries the tag first
   * and backtracks to the empty tag; the two alternatives need different
   * characters at `i + 3`, so at most one of them can apply.
   */
  function OpenerEnd(s: string, i: nat): (r: Option<nat>)
    ensures r.Some? ==> FenceAt(s, i) && r.value <= |s|
    ensures r.Some? ==> r.value == i + 4 || r.value == i + 8
    ensures r.Some? ==> s[i + 3..r.value] == (if r.value == i + 8 then "json\n" else "\n")
    ensures FenceAt(s, i) && (JsonTagAt(s, i + 3) || (i + 4 <= |s| && s[i + 3] == '\n')) ==> r.Some?
  {
    if !FenceAt(s, i) then None
    else if JsonTagAt(s, i + 3) then Some(i + 8)
    else if i + 4 <= |s| && s[i + 3] == '\n' then Some(i + 4)
    else None
  }

  /** The lazy capture: the first closing fence at or after `j`. */
  function CloseFrom(s: string, j: nat): (r: Option<nat>)
    decreases |s| - j
    ensures r.Some? ==> j <= r.value && FenceAt(s, r.value)
    ensures r.Some? ==> forall k :: j <= k < r.value ==> !FenceAt(s, k)
    ensures r.None? ==> forall k :: j <= k ==> !FenceAt(s, k)
  {
    if j + 3 > |s| then None
    else if FenceAt(s, j) then Some(j)
    else CloseFrom(s, j + 1)
  }

  /** The captured text of a match that starts exactly at position `i`, if there is one. */
  function MatchAt(s: string, i: nat): (r: Option<string>)
    ensures r.Some? ==> FenceAt(s, i)
    ensures r.Some? ==> i + 7 + |r.value| <= |s|
    ensures r.Some? ==> forall k :: 0 <= k < |r.value| ==> !FenceAt(r.value + "```", k)
  {
    match OpenerEnd(s, i)
    case None => None
    case Some(b) =>
      match CloseFrom(s, b)
      case None => None
      case Some(k) => CaptureIsLazy(s, b, k); Some(s[b..k])
  }

  /** The leftmost match that starts at or after position `i`. */
  function SearchFrom(s: string, i: nat): (r: Option<string>)
    decreases |s| - i
    ensures r.Some? ==> exists k :: i <= k && MatchAt(s, k) == r && forall k' :: i <= k' < k ==> MatchAt(s, k').None?
    ensures r.None? ==> forall k :: i <= k ==> MatchAt(s, k).None?
  {
    if i >= |s| then None
    else if MatchAt(s, i).Some? then MatchAt(s, i)
    else SearchFrom(s, i + 1)
  }

  /** `content.match(...)`: the first capture group of the leftmost match, or None for no match. */
  function FencedBlock(content: string): (r: Option<string>)
    ensures r.None? <==> forall k :: 0 <= k ==> MatchAt(content, k).None?
    ensures r.Some? ==> 7 + |r.value| <= |content|
    ensures r.Some? ==> forall k :: 0 <= k < |r.value| ==> !FenceAt(r.value + "```", k)
  {
    SearchFrom(content, 0)
  }

  /** The leftmost match is the unique match position with no match before it. */
  lemma LeftmostMatch(s: string, i: nat)
    requires MatchAt(s, i).Some?
    requires forall k :: 0 <= k < i ==> MatchAt(s, k).None?
    ensures FencedBlock(s) == MatchAt(s, i)
  {
    var r := FencedBlock(s);
    assert r.Some?;
    var k :| 0 <= k && MatchAt(s, k) == r && forall k' :: 0 <= k' < k ==> MatchAt(s, k').None?;
    assert k == i;
  }

  /** Without three backticks anywhere there is no fenced block, so the whole reply is parsed. */
  lemma NoFenceNoBlock(s: string)
    requires forall k :: !FenceAt(s, k)
    ensures FencedBlock(s) == None
  {
  }

  /** The text from an opening fence at `i` up to where the capture starts. */
  lemma OpenerText(s: string, i: nat) returns (tag: string)
    requires OpenerEnd(s, i).Some?
    ensures tag == "" || tag == "json"
    ensures OpenerEnd(s, i).value == i + 4 + |tag|
    ensures s[i..OpenerEnd(s, i).value] == "```" + tag + "\n"
  {
    var b := OpenerEnd(s, i).value;
    tag := if b == i + 8 then "json" else "";
    assert s[i..b] == "```" + tag + "\n";
  }

  /** The capture runs only to the first closing fence: none starts inside it. */
  lemma CaptureIsLazy(s: string, b: nat, e: nat)
    requires b <= e && FenceAt(s, e)
    requires forall k :: b <= k < e ==> !FenceAt(s, k)
    ensures forall k :: 0 <= k < e - b ==> !FenceAt(s[b..e] + "```", k)
  {
    var c := s[b..e];
    var t := c + "```";
    assert t == s[b..e + 3];
    forall k | 0 <= k < |c|
      ensures !FenceAt(t, k)
    {
      assert !FenceAt(s, b + k);
      assert k + 3 <= |t|;
      assert t[k] == s[b + k] && t[k + 1] == s[b + k + 1] && t[k + 2] == s[b + k + 2];
    }
  }

  /**
   * What a found block looks like: the reply is some text, an opening fence
   * with an empty or `json` tag and a newline, the captured text, a closing
   * fence and the rest; and the capture runs only to the FIRST closing fence.
   */
  lemma FencedBlockShape(s: string) returns (pre: string, tag: string, post: string)
    requires FencedBlock(s).Some?
    ensures tag == "" || tag == "json"
    ensures s == pre + "```" + tag + "\n" + FencedBlock(s).value + "```" + post
    ensures forall k :: 0 <= k < |FencedBlock(s).value| ==> !FenceAt(FencedBlock(s).value + "```", k)
  {
    var c := FencedBlock(s).value;
    var i :| 0 <= i && MatchAt(s, i) == Some(c);
    tag, post := MatchAtShape(s, i);
    pre := s[..i];
  }

  /**
   * What a match at `i` is: the text before `i`, three backticks, an empty or
   * `json` tag, a newline, the captured text, three backticks and the rest.
   * With `MatchAt`'s own contract (no fence starts inside the capture), the
   * capture runs to the first closing fence.
   */
  lemma MatchAtShape(s: string, i: nat) returns (tag: string, post: string)
    requires MatchAt(s, i).Some?
    ensures tag == "" || tag == "json"
    ensures s == s[..i] + "```" + tag + "\n" + MatchAt(s, i).value + "```" + post
  {
    var b := OpenerEnd(s, i).value;
    var e := CloseFrom(s, b).value;
    tag := OpenerText(s, i);
    post := s[e + 3..];
    Layout(s, i, b, e, tag);
  }

  /** The slices of a reply around an opening fence at `i`, a capture from `b` to `e` and a closing fence at `e`. */
  lemma Layout(s: string, i: nat, b: nat, e: nat, tag: string)
    requires i <= b <= e && FenceAt(s, e)
    requires s[i..b] == "```" + tag + "\n"
    ensures s == s[..i] + "```" + tag + "\n" + s[b..e] + "```" + s[e + 3..]
  {
    var pre, c, post := s[..i], s[b..e], s[e + 3..];
    assert s[e..e + 3] == "```";
    assert s[..b] == pre + ("```" + tag + "\n");
    assert s[b..] == c + ("```" + post);
    assert s == s[..b] + s[b..];
    Regroup(pre, tag, c, post);
  }

  /** Regrouping of the concatenation that lays out a fenced block. */
  lemma Regroup(pre: string, tag: string, body: string, post: string)
    ensures (pre + ("```" + tag + "\n")) + (body + ("```" + post)) == pre + "```" + tag + "\n" + body + "```" + post
  {
  }

  /**
   * A reply made of prose in which no three backticks start, one fenced block whose body has
   * no fence starting inside it, and anything after it: the body is exactly
   * what is captured.
   */
  lemma {:induction false} SingleBlockCaptured(prose: string, tag: string, body: string, rest: string)
    requires tag == "" || tag == "json"
    requires forall k :: 0 <= k < |prose| ==> !FenceAt(prose, k)
    requires forall k :: 0 <= k < |body| ==> !FenceAt(body + "```", k)
    ensures FencedBlock(prose + "```" + tag + "\n" + body + "```" + rest) == Some(body)
  {
    var s := prose + "```" + tag + "\n" + body + "```" + rest;
    var i := |prose|;
    var b := i + 3 + |tag| + 1;
    var e := b + |body|;
    assert s[..i] == prose;
    assert s[i..i + 3] == "```";
    assert s[i + 3..b] == tag + "\n";
    assert s[b..e] == body;
    assert s[e..e + 3] == "```";
    forall k | 0 <= k < i
      ensures MatchAt(s, k).None?
    {
      if k + 3 <= i {
        assert !FenceAt(prose, k);
        assert s[k] == prose[k] && s[k + 1] == prose[k + 1] && s[k + 2] == prose[k + 2];
      } else {
        // a fence straddling the end of the prose is followed by a backtick
        assert s[k + 3] == '`';
      }
    }
    MatchOfSlices(s, i, tag, body);
    LeftmostMatch(s, i);
  }

  /**
   * A fence, an empty or `json` tag, a newline, a body inside which no fence
   * starts, and a fence, from `i` on: the match at `i` captures the body.
   */
  lemma MatchOfSlices(s: string, i: nat, tag: string, body: string)
    requires tag == "" || tag == "json"
    requires i + 7 + |tag| + |body| <= |s|
    requires s[i..i + 3] == "```" && s[i + 3..i + 4 + |tag|] == tag + "\n"
    requires s[i + 4 + |tag|..i + 4 + |tag| + |body|] == body
    requires s[i + 4 + |tag| + |body|..i + 7 + |tag| + |body|] == "```"
    requires forall k :: 0 <= k < |body| ==> !FenceAt(body + "```", k)
    ensures MatchAt(s, i) == Some(body)
  {
    var b := i + 4 + |tag|;
    var e := b + |body|;
    var t := body + "```";
    SliceAt(s, i, i + 3, "```");
    SliceAt(s, b, e, body);
    SliceAt(s, e, e + 3, "```");
    assert FenceAt(s, i);
    if tag == "json" {
      SliceAt(s, i + 3, b, "json\n");
      assert JsonTagAt(s, i + 3);
    } else {
      SliceAt(s, i + 3, b, "\n");
      assert s[i + 3] == '\n';
    }
    assert OpenerEnd(s, i) == Some(b);
    forall k | b <= k < e
      ensures !FenceAt(s, k)
    {
      assert !FenceAt(t, k - b);
      assert s[k] == t[k - b] && s[k + 1] == t[k - b + 1] && s[k + 2] == t[k - b + 2];
    }
    assert FenceAt(s, e);
    assert CloseFrom(s, b) == Some(e);
  }

  /** The characters of a slice, one by one. */
  lemma SliceAt(s: string, lo: nat, hi: nat, x: string)
    requires lo <= hi <= |s| && s[lo..hi] == x
    ensures forall j :: 0 <= j < |x| ==> s[lo + j] == x[j]
  {
  }
}
