/** Strings cut at their slashes. */
module Segments {

  function SlashIndex(s: string): (i: nat)
    ensures i <= |s|
    ensures forall j :: 0 <= j < i ==> s[j] != '/'
    ensures i < |s| ==> s[i] == '/'
    ensures i < |s| <==> '/' in s
  {
    if s == "" then 0 else if s[0] == '/' then 0 else 1 + SlashIndex(s[1..])
  }

  /** The segments between the slashes: always one more than there are slashes. */
  function Split(s: string): (segs: seq<string>)
    ensures |segs| >= 1
    ensures forall k :: 0 <= k < |segs| ==> '/' !in segs[k]
    decreases |s|
  {
    var i := SlashIndex(s);
    if i == |s| then [s] else [s[..i]] + Split(s[i + 1..])
  }

  function Join(segs: seq<string>): string {
    if |segs| == 0 then "" else if |segs| == 1 then segs[0] else segs[0] + "/" + Join(segs[1..])
  }

  lemma SlashIndexIs(s: string, i: nat)
    requires i <= |s| && (forall j :: 0 <= j < i ==> s[j] != '/') && (i < |s| ==> s[i] == '/')
    ensures SlashIndex(s) == i
  {
  }

  lemma SplitPlain(s: string)
    requires '/' !in s
    ensures Split(s) == [s]
  {
  }

  lemma SplitFirst(u: string, v: string)
    requires '/' !in u
    ensures Split(u + "/" + v) == [u] + Split(v)
  {
    var s := u + "/" + v;
    SlashIndexIs(s, |u|);
    assert s[..|u|] == u && s[|u| + 1..] == v;
  }

  /** A text with a slash is its first segment, a slash and the rest. */
  lemma FirstSegment(s: string, i: nat)
    requires '/' in s && i == SlashIndex(s)
    ensures i < |s| && '/' !in s[..i] && s == s[..i] + "/" + s[i + 1..]
  {
    hide SlashIndex;
    var head := s[..i];
    assert forall j :: 0 <= j < i ==> head[j] == s[j];
  }

  /** Cutting at any one slash cuts both sides independently. */
  lemma {:induction false} SplitAtSlash(u: string, v: string)
    ensures Split(u + "/" + v) == Split(u) + Split(v)
    decreases |u|
  {
    hide Split, SlashIndex;
    if '/' in u {
      var i := SlashIndex(u);
      FirstSegment(u, i);
      var head, rest := u[..i], u[i + 1..];
      SplitAtSlash(rest, v);
      SplitFirst(head, rest);
      SplitFirst(head, rest + "/" + v);
      assert u + "/" + v == head + "/" + (rest + "/" + v);
      assert [head] + (Split(rest) + Split(v)) == ([head] + Split(rest)) + Split(v);
    } else {
      SplitPlain(u);
      SplitFirst(u, v);
    }
  }

  lemma {:induction false} JoinOfSplit(s: string)
    ensures Join(Split(s)) == s
    decreases |s|
  {
    hide Split, SlashIndex;
    if '/' in s {
      var i := SlashIndex(s);
      FirstSegment(s, i);
      var head, rest := s[..i], s[i + 1..];
      SplitFirst(head, rest);
      JoinOfSplit(rest);
      assert ([head] + Split(rest))[1..] == Split(rest);
    } else {
      SplitPlain(s);
    }
  }

  lemma {:induction false} SplitOfJoin(segs: seq<string>)
    requires |segs| >= 1 && forall k :: 0 <= k < |segs| ==> '/' !in segs[k]
    ensures Split(Join(segs)) == segs
  {
    if |segs| <= 1 {
    } else {
      SplitOfJoin(segs[1..]);
      SplitAtSlash(segs[0], Join(segs[1..]));
      SplitPlain(segs[0]);
    }
  }

  lemma {:induction false} JoinConcat(a: seq<string>, b: seq<string>)
    requires |a| >= 1 && |b| >= 1
    ensures Join(a + b) == Join(a) + "/" + Join(b)
  {
    if |a| > 1 {
      JoinConcat(a[1..], b);
      assert (a + b)[1..] == a[1..] + b;
    } else {
      assert (a + b)[1..] == b;
    }
  }
}
