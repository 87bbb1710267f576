/** Normalisation of module ids by repeated text replacement (ModuleIdResolver). */
module ModuleIds {
  import opened Basics
  import opened Segments

  // ---------- the reference: one pass over the segments with a stack ----------

  /** A segment that a following '..' takes back. */
  predicate Cancels(seg: string) {
    seg != "" && seg != ".."
  }

  function Push(stack: seq<string>, seg: string): seq<string> {
    if seg == "." then stack
    else if seg == ".." && |stack| > 0 && Cancels(stack[|stack| - 1]) then stack[..|stack| - 1]
    else stack + [seg]
  }

  function PushAll(stack: seq<string>, segs: seq<string>): seq<string>
    decreases |segs|
  {
    if |segs| == 0 then stack else PushAll(Push(stack, segs[0]), segs[1..])
  }

  /** The last segment, a file name perhaps empty, is left as it is. */
  function NormalSegments(segs: seq<string>): seq<string>
    requires |segs| >= 1
  {
    PushAll([], segs[..|segs| - 1]) + [segs[|segs| - 1]]
  }

  function Normal(id: string): string {
    Join(NormalSegments(Split(id)))
  }

  // ---------- facts about the reference ----------

  lemma {:induction false} PushAllConcat(stack: seq<string>, a: seq<string>, b: seq<string>)
    ensures PushAll(stack, a + b) == PushAll(PushAll(stack, a), b)
    decreases |a|
  {
    if |a| == 0 {
      assert a + b == b;
    } else {
      assert (a + b)[1..] == a[1..] + b;
      PushAllConcat(Push(stack, a[0]), a[1..], b);
    }
  }

  /** Segments in the middle that together change nothing can be left out. */
  lemma CutOut(a: seq<string>, middle: seq<string>, b: seq<string>)
    requires |b| >= 1
    requires forall stack :: PushAll(stack, middle) == stack
    ensures NormalSegments(a + middle + b) == NormalSegments(a + b)
  {
    hide PushAll;
    var init := b[..|b| - 1];
    WithoutLast(a + middle, b);
    WithoutLast(a, b);
    MoveBracket(a, middle, init);
    PushAllConcat([], a, middle + init);
    PushAllConcat(PushAll([], a), middle, init);
    PushAllConcat([], a, init);
  }

  lemma WithoutLast(a: seq<string>, b: seq<string>)
    requires |b| >= 1
    ensures var s := a + b; s[..|s| - 1] == a + b[..|b| - 1] && s[|s| - 1] == b[|b| - 1]
  {
  }

  lemma DotChangesNothing()
    ensures forall stack :: PushAll(stack, ["."]) == stack
  {
  }

  lemma PairChangesNothing(seg: string)
    requires Cancels(seg) && seg != "."
    ensures forall stack :: PushAll(stack, [seg, ".."]) == stack
  {
    forall stack: seq<string> ensures PushAll(stack, [seg, ".."]) == stack {
      var pushed := stack + [seg];
      assert [seg, ".."][1..] == [".."] && [".."][1..] == [];
      assert PushAll(stack, [seg, ".."]) == PushAll(pushed, [".."]) == PushAll(Push(pushed, ".."), []);
      assert pushed[..|pushed| - 1] == stack;
    }
  }

  /** No '.' and no segment with a '..' after it, the last segment not counted. */
  ghost predicate Irreducible(segs: seq<string>) {
    && (forall k :: 0 <= k < |segs| - 1 ==> segs[k] != ".")
    && (forall k :: 0 <= k < |segs| - 2 ==> !(Cancels(segs[k]) && segs[k + 1] == ".."))
  }

  lemma {:induction false} PushAllPlain(stack: seq<string>, segs: seq<string>)
    requires forall k :: 0 <= k < |segs| ==> segs[k] != "."
    requires forall k :: 0 <= k < |segs| - 1 ==> !(Cancels(segs[k]) && segs[k + 1] == "..")
    requires |stack| > 0 && |segs| > 0 ==> !(Cancels(stack[|stack| - 1]) && segs[0] == "..")
    ensures PushAll(stack, segs) == stack + segs
    decreases |segs|
  {
    if |segs| == 0 {
    } else {
      PushAllPlain(stack + [segs[0]], segs[1..]);
      assert (stack + [segs[0]]) + segs[1..] == stack + segs;
    }
  }

  lemma IrreducibleIsNormal(segs: seq<string>)
    requires |segs| >= 1 && Irreducible(segs)
    ensures NormalSegments(segs) == segs
  {
    PushAllPlain([], segs[..|segs| - 1]);
  }

  ghost predicate PlainStack(stack: seq<string>) {
    && (forall k :: 0 <= k < |stack| ==> stack[k] != "." && '/' !in stack[k])
    && (forall k :: 0 <= k < |stack| - 1 ==> !(Cancels(stack[k]) && stack[k + 1] == ".."))
  }

  lemma {:induction false} PushAllStaysPlain(stack: seq<string>, segs: seq<string>)
    requires PlainStack(stack) && forall k :: 0 <= k < |segs| ==> '/' !in segs[k]
    ensures PlainStack(PushAll(stack, segs))
    decreases |segs|
  {
    if |segs| == 0 {
    } else {
      PushAllStaysPlain(Push(stack, segs[0]), segs[1..]);
    }
  }

  /** Normalising twice is normalising once. */
  lemma NormalIsIdempotent(id: string)
    ensures Normal(Normal(id)) == Normal(id)
  {
    SplitOfNormal(id);
    IrreducibleIsNormal(NormalSegments(Split(id)));
  }

  lemma SplitOfNormal(id: string)
    ensures Split(Normal(id)) == NormalSegments(Split(id)) && Irreducible(NormalSegments(Split(id)))
  {
    var segs := Split(id);
    PushAllStaysPlain([], segs[..|segs| - 1]);
    SplitOfJoin(NormalSegments(segs));
  }

  // ---------- what the normal form does to a text ----------

  /** A named segment goes together with the '..' behind it, in the middle of a text and at its beginning. */
  lemma NamedPairGoes(u: string, seg: string, v: string)
    requires '/' !in seg && seg != "" && seg != "." && seg != ".."
    ensures Normal(u + "/" + seg + "/../" + v) == Normal(u + "/" + v)
    ensures Normal(seg + "/../" + v) == Normal(v)
  {
    hide Normal;
    PairKeepsNormal(u, seg, v);
    LeadingPair(seg, v);
  }

  /** A '.' that is not the last segment goes. */
  lemma DotGoes(u: string, v: string)
    ensures Normal(u + "/./" + v) == Normal(u + "/" + v) && Normal("./" + v) == Normal(v)
  {
    hide Normal, Split;
    DotKeepsNormal(u, v);
    LeadingDot(v);
  }

  /** A text is normal if it has no '.' and no '..' behind a named segment, its last segment not counted. */
  ghost predicate IsNormal(id: string) {
    var segs := Split(id);
    && (forall k :: 0 <= k < |segs| - 1 ==> segs[k] != ".")
    && (forall k :: 0 < k < |segs| - 1 && segs[k] == ".." ==> segs[k - 1] == "" || segs[k - 1] == "..")
  }

  /** The normal form is normal and keeps the last segment; normal texts, and only these, stay as they are. */
  lemma NormalIsNormal(id: string)
    ensures IsNormal(Normal(id)) && (IsNormal(id) <==> Normal(id) == id)
    ensures var segs, normal := Split(id), Split(Normal(id)); normal[|normal| - 1] == segs[|segs| - 1]
  {
    SplitOfNormal(id);
    var segs, normal := Split(id), Split(Normal(id));
    forall k | 0 < k < |normal| - 1 && normal[k] == ".." ensures normal[k - 1] == "" || normal[k - 1] == ".." {
      assert !Cancels(normal[k - 1]);
    }
    if IsNormal(id) {
      IrreducibleIsNormal(segs);
      JoinOfSplit(id);
    }
  }

  // ---------- the text replacements ----------

  /** r reads before + '/./' + after, or before + '/' + seg + '/../' + after: one of the two patterns, anywhere. */
  ghost predicate CancelsOnce(r: string, t: string) {
    || (exists u, v :: r == u + "/./" + v && t == u + "/" + v)
    || (exists u, seg, v ::
          && seg != "" && seg != "." && seg != ".." && '/' !in seg
          && r == u + "/" + seg + "/../" + v && t == u + "/" + v)
  }

  lemma DotKeepsNormal(u: string, v: string)
    ensures Normal(u + "/./" + v) == Normal(u + "/" + v)
    ensures Split(u + "/./" + v) == Split(u) + ["."] + Split(v)
  {
    hide Split, NormalSegments;
    assert u + "/./" + v == u + "/" + ("." + "/" + v);
    SplitPlain(".");
    SplitAtSlash(u, "." + "/" + v);
    SplitAtSlash(".", v);
    SplitAtSlash(u, v);
    assert Split(u) + (["."] + Split(v)) == Split(u) + ["."] + Split(v);
    DotChangesNothing();
    CutOut(Split(u), ["."], Split(v));
  }

  lemma PairSplit(u: string, seg: string, v: string)
    requires '/' !in seg
    ensures Split(u + "/" + seg + "/../" + v) == Split(u) + [seg, ".."] + Split(v)
    ensures Split(seg + "/../" + v) == [seg, ".."] + Split(v)
  {
    hide Split;
    var w := seg + "/../" + v;
    SplitPlain(seg);
    SplitPlain("..");
    assert w == seg + "/" + (".." + "/" + v);
    SplitAtSlash(seg, ".." + "/" + v);
    SplitAtSlash("..", v);
    assert [seg] + ([".."] + Split(v)) == [seg, ".."] + Split(v);
    assert u + "/" + seg + "/../" + v == u + "/" + w;
    SplitAtSlash(u, w);
    assert Split(u) + ([seg, ".."] + Split(v)) == Split(u) + [seg, ".."] + Split(v);
  }

  lemma PairKeepsNormal(u: string, seg: string, v: string)
    requires Cancels(seg) && seg != "." && '/' !in seg
    ensures Normal(u + "/" + seg + "/../" + v) == Normal(u + "/" + v)
  {
    PairSplit(u, seg, v);
    SplitAtSlash(u, v);
    PairChangesNothing(seg);
    CutOut(Split(u), [seg, ".."], Split(v));
  }

  /** In whatever order the patterns are replaced, the normal form stays the same. */
  lemma AnyOrderKeepsNormal(r: string, t: string)
    requires CancelsOnce(r, t)
    ensures Normal(t) == Normal(r) && |t| < |r|
  {
    if exists u, v :: r == u + "/./" + v && t == u + "/" + v {
      var u, v :| r == u + "/./" + v && t == u + "/" + v;
      DotKeepsNormal(u, v);
    } else {
      var u, seg, v :| seg != "" && seg != "." && seg != ".." && '/' !in seg
        && r == u + "/" + seg + "/../" + v && t == u + "/" + v;
      PairKeepsNormal(u, seg, v);
    }
  }

  // ---------- finding the patterns ----------

  ghost predicate DotAt(r: string, i: int) {
    0 <= i <= |r| - 3 && r[i..i + 3] == "/./"
  }

  /** At i begins '/' + seg + '/../', where seg ends at j. */
  ghost predicate PairAt(r: string, i: int, j: int) {
    && 0 <= i < j <= |r| - 4 && r[i] == '/'
    && '/' !in r[i + 1..j] && r[i + 1..j] != "" && r[i + 1..j] != ".." && r[j..j + 4] == "/../"
  }

  method FindDot(r: string) returns (found: bool, i: nat)
    ensures found ==> DotAt(r, i) && forall k :: 0 <= k < i ==> !DotAt(r, k)
    ensures !found ==> forall k :: !DotAt(r, k)
  {
    i := 0;
    while i + 3 <= |r|
      invariant forall k :: 0 <= k < i ==> !DotAt(r, k)
    {
      if r[i..i + 3] == "/./" {
        return true, i;
      }
      i := i + 1;
    }
    return false, 0;
  }

  /** The segment after a slash can only end at the next slash. */
  lemma PairEndsAtNextSlash(r: string, i: nat, j: int)
    requires PairAt(r, i, j)
    ensures j == i + 1 + SlashIndex(r[i + 1..])
  {
    hide SlashIndex;
    var rest := r[i + 1..];
    forall k | 0 <= k < j - i - 1 ensures rest[k] != '/' {
      assert r[i + 1..j][k] == rest[k];
    }
    assert r[j..j + 4][0] == '/';
    SlashIndexIs(rest, j - i - 1);
  }

  lemma SegmentBeforeSlash(r: string, i: nat)
    requires i < |r|
    ensures var j := i + 1 + SlashIndex(r[i + 1..]); j <= |r| && '/' !in r[i + 1..j]
  {
    hide SlashIndex;
    var rest := r[i + 1..];
    assert r[i + 1..i + 1 + SlashIndex(rest)] == rest[..SlashIndex(rest)];
  }

  method FindPair(r: string) returns (found: bool, i: nat, j: nat)
    ensures found ==> PairAt(r, i, j) && forall k, l :: 0 <= k < i ==> !PairAt(r, k, l)
    ensures !found ==> forall k, l :: !PairAt(r, k, l)
  {
    hide SlashIndex;
    i, j := 0, 0;
    while i < |r|
      invariant 0 <= i <= |r|
      invariant forall k, l :: 0 <= k < i ==> !PairAt(r, k, l)
    {
      if r[i] == '/' {
        SegmentBeforeSlash(r, i);
        j := i + 1 + SlashIndex(r[i + 1..]);
        if i + 1 < j && j + 4 <= |r| && r[j..j + 4] == "/../" && r[i + 1..j] != ".." {
          return true, i, j;
        }
        forall l ensures !PairAt(r, i, l) {
          if PairAt(r, i, l) {
            PairEndsAtNextSlash(r, i, l);
          }
        }
      }
      i := i + 1;
    }
    return false, 0, 0;
  }

  // ---------- the patterns and the segments ----------

  ghost predicate NoDots(segs: seq<string>) {
    forall k :: 0 <= k < |segs| - 1 ==> segs[k] != "."
  }

  /** The text around the segments from k to l. */
  lemma Around(r: string, k: nat, l: nat) returns (before: string, after: string)
    requires 1 <= k < l < |Split(r)|
    ensures r == before + "/" + Join(Split(r)[k..l]) + "/" + after
  {
    var segs := Split(r);
    JoinOfSplit(r);
    hide Split, Join;
    before, after := Join(segs[..k]), Join(segs[l..]);
    assert segs == segs[..k] + (segs[k..l] + segs[l..]);
    JoinConcat(segs[..k], segs[k..l] + segs[l..]);
    JoinConcat(segs[k..l], segs[l..]);
  }

  lemma DotSegmentShows(r: string, k: nat)
    requires 1 <= k < |Split(r)| - 1 && Split(r)[k] == "."
    ensures exists i :: DotAt(r, i)
  {
    var u, v := Around(r, k, k + 1);
    assert Split(r)[k..k + 1] == ["."];
    assert r[|u|..|u| + 3] == "/./";
    assert DotAt(r, |u|);
  }

  lemma PairSegmentShows(r: string, k: nat)
    requires 1 <= k < |Split(r)| - 2 && Cancels(Split(r)[k]) && Split(r)[k + 1] == ".."
    ensures exists i, j :: PairAt(r, i, j)
  {
    hide Split, Join;
    var seg := Split(r)[k];
    var u, v := Around(r, k, k + 2);
    assert Split(r)[k..k + 2] == [seg, ".."];
    JoinTwo(seg, "..");
    assert r == u + "/" + seg + "/../" + v;
    TextHasPair(r, u, seg, v);
  }

  lemma TextHasPair(r: string, u: string, seg: string, v: string)
    requires r == u + "/" + seg + "/../" + v && '/' !in seg && Cancels(seg)
    ensures PairAt(r, |u|, |u| + 1 + |seg|)
  {
    var i, j := |u|, |u| + 1 + |seg|;
    assert r[i + 1..j] == seg && r[j..j + 4] == "/../";
  }

  lemma JoinTwo(a: string, b: string)
    ensures Join([a, b]) == a + "/" + b
  {
    assert [a, b][1..] == [b];
  }

  lemma NoDotsLeft(r: string)
    requires (forall k :: !DotAt(r, k)) && !(|r| >= 2 && r[..2] == "./")
    ensures NoDots(Split(r))
  {
    var segs := Split(r);
    forall k | 0 <= k < |segs| - 1 ensures segs[k] != "." {
      if segs[k] == "." {
        if k == 0 {
          StartsWithSegment(r);
        } else {
          DotSegmentShows(r, k);
        }
      }
    }
  }

  lemma StartsWithSegment(r: string)
    requires |Split(r)| > 1
    ensures Split(r)[0] + "/" <= r && r == Split(r)[0] + "/" + Join(Split(r)[1..])
  {
    JoinOfSplit(r);
  }

  lemma LeadingDot(v: string)
    ensures Split("./" + v) == ["."] + Split(v)
    ensures Normal("./" + v) == Normal(v)
  {
    hide Split, NormalSegments;
    assert "./" + v == "." + "/" + v;
    SplitPlain(".");
    SplitAtSlash(".", v);
    DotChangesNothing();
    CutOut([], ["."], Split(v));
    assert [] + ["."] + Split(v) == ["."] + Split(v) && [] + Split(v) == Split(v);
  }

  lemma LeadingPair(seg: string, v: string)
    requires Cancels(seg) && seg != "." && '/' !in seg
    ensures Normal(seg + "/../" + v) == Normal(v)
  {
    hide Split, NormalSegments;
    PairSplit("", seg, v);
    PairChangesNothing(seg);
    CutOut([], [seg, ".."], Split(v));
    assert [] + [seg, ".."] + Split(v) == [seg, ".."] + Split(v) && [] + Split(v) == Split(v);
  }

  lemma PairTextIs(r: string, i: nat, j: nat)
    requires PairAt(r, i, j)
    ensures r == r[..i] + "/" + r[i + 1..j] + "/../" + r[j + 4..]
  {
    assert r == r[..i] + [r[i]] + r[i + 1..j] + r[j..j + 4] + r[j + 4..];
  }

  /** Replacing one pair keeps the normal form and brings no new '.'. */
  lemma ReplacePair(r: string, i: nat, j: nat)
    requires PairAt(r, i, j) && NoDots(Split(r))
    ensures var t := r[..i] + "/" + r[j + 4..];
      Normal(t) == Normal(r) && NoDots(Split(t)) && |t| < |r|
  {
    hide Split, Normal;
    var u, seg, v := r[..i], r[i + 1..j], r[j + 4..];
    PairTextIs(r, i, j);
    PairSplit(u, seg, v);
    SplitAtSlash(u, v);
    assert Split(r)[|Split(u)|] == seg;
    PairKeepsNormal(u, seg, v);
    NoDotsWithout(Split(u), [seg, ".."], Split(v));
  }

  lemma NoDotsWithout(a: seq<string>, middle: seq<string>, b: seq<string>)
    requires NoDots(a + middle + b) && |b| >= 1
    ensures NoDots(a + b)
  {
    var s, t := a + middle + b, a + b;
    forall k | 0 <= k < |t| - 1 ensures t[k] != "." {
      if k < |a| { assert t[k] == s[k]; } else { assert t[k] == s[k + |middle|]; }
    }
  }

  /** What is left after the last replacement cannot be reduced any further. */
  lemma NothingLeft(r: string)
    requires NoDots(Split(r)) && (forall k, l :: !PairAt(r, k, l))
    requires |Split(r)| > 2 ==> !(Cancels(Split(r)[0]) && Split(r)[1] == "..")
    ensures Normal(r) == r
  {
    var segs := Split(r);
    forall k | 0 <= k < |segs| - 2 ensures !(Cancels(segs[k]) && segs[k + 1] == "..") {
      if k > 0 && Cancels(segs[k]) && segs[k + 1] == ".." {
        PairSegmentShows(r, k);
      }
    }
    IrreducibleIsNormal(segs);
    JoinOfSplit(r);
  }

  /** Dropping the first pair of a text without inner pairs leaves nothing to drop. */
  lemma OnePairAtTheStart(r: string, seg: string, v: string)
    requires NoDots(Split(r)) && (forall k, l :: !PairAt(r, k, l))
    requires r == seg + "/../" + v && '/' !in seg && Cancels(seg)
    ensures Normal(v) == v
  {
    hide Split;
    PairSplit("", seg, v);
    RestIsIrreducible(r, [seg, ".."], Split(v));
    hide NoDots, Irreducible, PairAt, NormalSegments, Join;
    IrreducibleIsNormal(Split(v));
    JoinOfSplit(v);
  }

  lemma RestIsIrreducible(r: string, front: seq<string>, rest: seq<string>)
    requires Split(r) == front + rest && |front| > 0 && |rest| > 0
    requires NoDots(Split(r)) && (forall k, l :: !PairAt(r, k, l))
    ensures Irreducible(rest)
  {
    hide Split, PairAt, Cancels;
    var segs, n := Split(r), |front|;
    assert forall k :: 0 <= k < |rest| ==> segs[k + n] == rest[k];
    forall k | 0 <= k < |rest| - 2 ensures !(Cancels(rest[k]) && rest[k + 1] == "..") {
      if Cancels(rest[k]) && rest[k + 1] == ".." {
        assert segs[k + n] == rest[k] && segs[k + n + 1] == rest[k + 1];
        PairSegmentShows(r, k + n);
      }
    }
  }

  // ---------- the method ----------

  method NormalizeModuleId(moduleId: string) returns (r: string)
    ensures r == Normal(moduleId)
  {
    hide Normal, Split, NoDots, SlashIndex;
    r := moduleId;
    // Afterwards the text nowhere reads '/./', so that only its first segment and its last can be '.'.
    var found, i := FindDot(r);
    while found
      invariant Normal(r) == Normal(moduleId)
      invariant found ==> DotAt(r, i)
      invariant !found ==> forall k :: !DotAt(r, k)
      decreases |r|, if found then 1 else 0
    {
      assert r == r[..i] + "/./" + r[i + 3..];
      DotKeepsNormal(r[..i], r[i + 3..]);
      r := r[..i] + "/" + r[i + 3..];
      found, i := FindDot(r);
    }
    // Afterwards no segment but the last can be '.'.
    if |r| >= 2 && r[..2] == "./" {
      assert r == "./" + r[2..];
      LeadingDot(r[2..]);
      LeadingDotGone(r);
      r := r[2..];
    } else {
      NoDotsLeft(r);
    }
    // Each round cancels the leftmost pair behind a slash; the first segment, which has no slash in front, stays.
    var j;
    found, i, j := FindPair(r);
    while found
      invariant Normal(r) == Normal(moduleId) && NoDots(Split(r))
      invariant found ==> PairAt(r, i, j)
      invariant !found ==> forall k, l :: !PairAt(r, k, l)
      decreases |r|, if found then 1 else 0
    {
      ReplacePair(r, i, j);
      r := r[..i] + "/" + r[j + 4..];
      found, i, j := FindPair(r);
    }
    // One pair may be left at the start; without it the text is the normal form.
    j := SlashIndex(r);
    if j > 0 && j + 4 <= |r| && r[j..j + 4] == "/../" && r[..j] != ".." {
      var seg, v := r[..j], r[j + 4..];
      assert r == seg + "/../" + v;
      OnePairAtTheStart(r, seg, v);
      FirstSegmentNoDot(r, seg, v);
      LeadingPair(seg, v);
      r := v;
    } else {
      NoPairAtTheStart(r);
      NothingLeft(r);
    }
  }

  lemma LeadingDotGone(r: string)
    requires |r| >= 2 && r[..2] == "./" && forall k :: !DotAt(r, k)
    ensures NoDots(Split(r[2..]))
  {
    hide Split;
    var v := r[2..];
    assert r == "./" + v;
    LeadingDot(v);
    var segs, rest := Split(r), Split(v);
    forall k | 0 <= k < |rest| - 1 ensures rest[k] != "." {
      assert segs[k + 1] == rest[k];
      if rest[k] == "." {
        DotSegmentShows(r, k + 1);
      }
    }
  }

  lemma FirstSegmentNoDot(r: string, seg: string, v: string)
    requires NoDots(Split(r)) && r == seg + "/../" + v && '/' !in seg
    ensures seg != "."
  {
    hide Split;
    PairSplit("", seg, v);
    assert Split(r)[0] == seg;
  }

  lemma StartPairText(r: string)
    requires |Split(r)| > 2 && Split(r)[1] == ".."
    ensures r == Split(r)[0] + "/../" + Join(Split(r)[2..])
  {
    hide Split, Join;
    StartsWithSegment(r);
    var segs := Split(r);
    assert segs[1..] == [".."] + segs[2..];
    JoinConcat([".."], segs[2..]);
    JoinOne("..");
    SlashesAround(segs[0], Join(segs[2..]));
  }

  lemma SlashesAround(before: string, after: string)
    ensures before + "/" + (".." + "/" + after) == before + "/../" + after
  {
  }

  lemma StartPairShows(r: string)
    requires |Split(r)| > 2 && Cancels(Split(r)[0]) && Split(r)[1] == ".."
    ensures var j := SlashIndex(r); j > 0 && j + 4 <= |r| && r[j..j + 4] == "/../" && r[..j] != ".."
  {
    hide Split, SlashIndex, Join;
    StartPairText(r);
    var seg := Split(r)[0];
    var j := |seg|;
    assert r[..j] == seg && r[j..j + 4] == "/../" && r[j] == '/';
    assert forall k :: 0 <= k < j ==> r[k] == seg[k];
    SlashIndexIs(r, j);
  }

  lemma NoPairAtTheStart(r: string)
    requires var j := SlashIndex(r); !(j > 0 && j + 4 <= |r| && r[j..j + 4] == "/../" && r[..j] != "..")
    ensures |Split(r)| > 2 ==> !(Cancels(Split(r)[0]) && Split(r)[1] == "..")
  {
    hide Split, SlashIndex;
    if |Split(r)| > 2 && Cancels(Split(r)[0]) && Split(r)[1] == ".." {
      StartPairShows(r);
    }
  }

  lemma JoinOne(a: string)
    ensures Join([a]) == a
  {
  }
}
