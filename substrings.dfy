/** Substring search on strings, as `String.prototype.includes` performs it, and how it behaves on
    slash-separated paths such as the provider endpoints. */
module Substrings {

  /** `sub` occurs in `s` starting at index `i`. */
  ghost predicate OccursAt(s: string, sub: string, i: int) {
    0 <= i && i + |sub| <= |s| && s[i..i + |sub|] == sub
  }

  lemma OccursInTail(s: string, sub: string, i: int)
    requires |s| > 0 && i >= 0
    ensures OccursAt(s[1..], sub, i) <==> OccursAt(s, sub, i + 1)
  {
    if 0 <= i && i + |sub| <= |s| - 1 {
      assert s[1..][i..i + |sub|] == s[i + 1..i + 1 + |sub|];
    }
  }

  /** `s.includes(sub)`: scans `s` from the left for an occurrence of `sub`; the empty string occurs
      everywhere. */
  function Includes(s: string, sub: string): (b: bool)
    ensures b <==> exists i :: OccursAt(s, sub, i)
    decreases |s|
  {
    if |sub| > |s| then
      assert forall i :: !OccursAt(s, sub, i);
      false
    else if s[..|sub|] == sub then
      assert OccursAt(s, sub, 0);
      true
    else
      var rest := Includes(s[1..], sub);
      assert rest ==> exists i :: OccursAt(s, sub, i) by {
        if rest {
          var i :| OccursAt(s[1..], sub, i);
          OccursInTail(s, sub, i);
        }
      }
      assert (exists i :: OccursAt(s, sub, i)) ==> rest by {
        if exists i :: OccursAt(s, sub, i) {
          var i :| OccursAt(s, sub, i);
          assert i != 0;
          OccursInTail(s, sub, i - 1);
        }
      }
      rest
  }

  /** The path `/seg0/seg1/.../segN`, as the endpoints are written. */
  function JoinPath(segs: seq<string>): (p: string)
    ensures |p| >= |segs|
    ensures segs != [] ==> p[0] == '/'
  {
    if segs == [] then "" else "/" + segs[0] + JoinPath(segs[1..])
  }

  /** Joining two lists of segments is joining each and concatenating. */
  lemma {:induction false} JoinPathAppend(a: seq<string>, b: seq<string>)
    ensures JoinPath(a + b) == JoinPath(a) + JoinPath(b)
  {
    if a != [] {
      assert (a + b)[0] == a[0] && (a + b)[1..] == a[1..] + b;
      JoinPathAppend(a[1..], b);
      var h, t := "/" + a[0], JoinPath(a[1..]);
      assert JoinPath(a + b) == h + (t + JoinPath(b));
      assert JoinPath(a) == h + t;
      assert h + (t + JoinPath(b)) == (h + t) + JoinPath(b);
    } else {
      assert a + b == b;
    }
  }

  /** An occurrence in `t` is an occurrence in `p + t`, shifted by `|p|`. */
  lemma OccursAfterPrefix(p: string, t: string, sub: string, j: int)
    requires j >= 0
    ensures OccursAt(t, sub, j) <==> OccursAt(p + t, sub, |p| + j)
  {
    if j + |sub| <= |t| {
      assert (p + t)[|p| + j..|p| + j + |sub|] == t[j..j + |sub|];
    }
  }

  lemma LongerPrefixMeetsSlash(head: string, rest: string, w: string)
    ensures |w| > |head| && w <= head + rest && (rest != [] ==> rest[0] == '/') ==> '/' in w
  {
    if |w| > |head| && w <= head + rest && (rest != [] ==> rest[0] == '/') {
      assert w[|head|] == rest[0];
    }
  }

  lemma CharInHead(head: string, rest: string, i: int)
    ensures 0 < i <= |head| ==> ("/" + head + rest)[i] in head
  {
    if 0 < i <= |head| {
      assert ("/" + head + rest)[i] == head[i - 1];
    }
  }

  /** An occurrence of a slash-led, slash-free word at the head of `"/" + head + rest`, where `rest` is
      empty or starts with a slash, lies inside `head`. */
  lemma HeadOccurrence(head: string, rest: string, w: string)
    requires '/' !in w
    requires rest != [] ==> rest[0] == '/'
    requires OccursAt("/" + head + rest, "/" + w, 0)
    ensures w <= head
  {
    var s := "/" + head + rest;
    assert w == s[1..1 + |w|] && w <= head + rest;
    LongerPrefixMeetsSlash(head, rest, w);
    assert w == head[..|w|];
  }

  /** A slash followed by a slash-free word occurs in a path of slash-free segments exactly when the
      word begins one of the segments. */
  lemma {:induction false} SlashWordInPath(segs: seq<string>, w: string)
    requires '/' !in w
    requires forall k :: 0 <= k < |segs| ==> '/' !in segs[k]
    ensures Includes(JoinPath(segs), "/" + w) <==> exists k :: 0 <= k < |segs| && w <= segs[k]
  {
    if segs != [] {
      var head, rest := segs[0], JoinPath(segs[1..]);
      var p, sub := "/" + head, "/" + w;
      assert JoinPath(segs) == p + rest;
      SlashWordInPath(segs[1..], w);
      if exists i :: OccursAt(p + rest, sub, i) {
        var i :| OccursAt(p + rest, sub, i);
        assert (p + rest)[i] == sub[0];
        CharInHead(head, rest, i);
        if i == 0 {
          HeadOccurrence(head, rest, w);
        } else {
          OccursAfterPrefix(p, rest, sub, i - |p|);
          var k :| 0 <= k < |segs[1..]| && w <= segs[1..][k];
          assert w <= segs[k + 1];
        }
      }
      if exists k :: 0 <= k < |segs| && w <= segs[k] {
        var k :| 0 <= k < |segs| && w <= segs[k];
        if k == 0 {
          assert (p + rest)[0..|sub|] == sub;
          assert OccursAt(p + rest, sub, 0);
        } else {
          assert w <= segs[1..][k - 1];
          var j :| OccursAt(rest, sub, j);
          OccursAfterPrefix(p, rest, sub, j);
        }
      }
    }
  }
}
