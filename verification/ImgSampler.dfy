/** The frame sampler that halves its rate after every three frames kept (src/img-summary.py). */
module ImgSampler {
  import opened Basics

  function Pow2(k: nat): (e: nat)
    ensures e >= 1
  {
    if k == 0 then 1 else 2 * Pow2(k - 1)
  }

  function Log2(n: nat): nat {
    if n < 2 then 0 else 1 + Log2(n / 2)
  }

  const STAGE_SIZE: nat := 3

  /** The first multiple of the interval that is kept in stage k. */
  function First(k: nat): nat {
    if k == 0 then 0 else if k == 1 then 2 else 3
  }

  /** The j-th frame kept in stage k. */
  function Kept(k: nat, j: nat): nat {
    (First(k) + j) * Pow2(k)
  }

  /** All frames kept up to the j-th of stage k, in order. */
  function Frames(k: nat, j: nat): (frames: seq<nat>)
    ensures |frames| == STAGE_SIZE * k + j
    decreases k, j
  {
    if j > 0 then Frames(k, j - 1) + [Kept(k, j - 1)]
    else if k > 0 then Frames(k - 1, STAGE_SIZE)
    else []
  }

  /** The last frame before the j-th of stage k that is kept; -1 if there is none. */
  function Previous(k: nat, j: nat): int {
    if j > 0 then Kept(k, j - 1) else if k > 0 then Kept(k - 1, STAGE_SIZE - 1) else -1
  }

  /** Where the recorder stands: j frames of stage k kept, n frames seen. */
  ghost predicate Between(k: nat, j: nat, n: nat) {
    if j < STAGE_SIZE then Previous(k, j) < n <= Kept(k, j) else j == STAGE_SIZE && n == Kept(k, STAGE_SIZE - 1) + 1
  }

  // ---------- which frames are kept ----------

  ghost predicate IsKept(n: nat) {
    exists k: nat, j: nat :: j < STAGE_SIZE && n == Kept(k, j)
  }

  /** Kept frames follow one another, and stand above the multiple before their own. */
  lemma PreviousIsBefore(k: nat, j: nat)
    requires j < STAGE_SIZE
    ensures Previous(k, j) < Kept(k, j) && (First(k) + j - 1) * Pow2(k) <= Previous(k, j)
  {
    if j > 0 {
      hide Pow2, First;
      OneStepUp(First(k) + j - 1, Pow2(k));
    } else if k > 0 {
      StageStart(k);
    } else {
      assert Pow2(0) == 1;
    }
  }

  lemma OneStepUp(a: int, e: nat)
    ensures (a + 1) * e == a * e + e
  {
  }

  lemma StageStart(k: nat)
    requires k > 0
    ensures Kept(k - 1, STAGE_SIZE - 1) < Kept(k, 0) && (First(k) - 1) * Pow2(k) <= Kept(k - 1, STAGE_SIZE - 1)
  {
    if k == 1 {
      assert Pow2(0) == 1 && Pow2(1) == 2;
    } else if k == 2 {
      assert Pow2(0) == 1 && Pow2(1) == 2 && Pow2(2) == 4;
    } else {
      var f := Pow2(k - 1);
      assert Pow2(k) == 2 * f && First(k) == 3 && First(k - 1) == 3;
      hide Pow2, First;
      ThreeToFive(First(k), First(k - 1), Pow2(k), f);
    }
  }

  lemma ThreeToFive(c: nat, d: nat, e: nat, f: nat)
    requires c == 3 && d == 3 && e == 2 * f && f > 0
    ensures (d + 2) * f < c * e && (c - 1) * e <= (d + 2) * f
  {
    assert (d + 2) * f == 5 * f && c * e == 3 * e && (c - 1) * e == 2 * e;
  }

  /** A later place in the order of the stages belongs to a later frame. */
  lemma {:induction false} KeptGrows(k: nat, j: nat, l: nat, i: nat)
    requires j < STAGE_SIZE && i < STAGE_SIZE && (k < l || (k == l && j < i))
    ensures Kept(k, j) <= Previous(l, i)
    decreases l, i
  {
    if i > 0 {
      if k == l && j == i - 1 {
      } else {
        KeptGrows(k, j, l, i - 1);
        PreviousIsBefore(l, i - 1);
      }
    } else if k == l - 1 && j == STAGE_SIZE - 1 {
    } else {
      KeptGrows(k, j, l - 1, STAGE_SIZE - 1);
      PreviousIsBefore(l - 1, STAGE_SIZE - 1);
    }
  }

  /** Where the recorder stands in a stage, the only frame that can be due is the next one of the stage. */
  lemma DueIsNext(k: nat, j: nat, n: nat)
    requires j < STAGE_SIZE && Between(k, j, n)
    ensures IsKept(n) <==> n == Kept(k, j)
  {
    if IsKept(n) {
      var l: nat, i: nat :| i < STAGE_SIZE && n == Kept(l, i);
      if l < k || (l == k && i < j) {
        KeptGrows(l, i, k, j);
      } else if k < l || (k == l && j < i) {
        KeptGrows(k, j, l, i);
        PreviousIsBefore(l, i);
      }
    }
  }

  /** Of the numbers between two multiples only the upper one is a multiple. */
  lemma OnlyMultiple(a: int, e: nat, n: nat)
    requires e > 0 && (a - 1) * e < n <= a * e
    ensures n % e == 0 <==> n == a * e
  {
    if n == a * e {
      if a < 0 { Scale(a, -1, e); }
      MultipleHasNoRest(a, e);
    }
    assert (a + 1) * e == a * e + e;
    if n % e == 0 {
      var q := n / e;
      assert n == q * e;
      if q < a {
        Scale(q, a - 1, e);
      } else if q > a {
        Scale(a + 1, q, e);
      }
    }
  }

  lemma {:induction false} MultipleHasNoRest(a: nat, e: nat)
    requires e > 0
    ensures (a * e) % e == 0
  {
    if a == 0 {
    } else {
      MultipleHasNoRest(a - 1, e);
      assert a * e == (a - 1) * e + e;
      OneMore((a - 1) * e, e);
    }
  }

  lemma OneMore(x: nat, e: nat)
    requires e > 0
    ensures (x + e) % e == x % e
  {
    var q, p := x / e, (x + e) / e;
    assert x == q * e + x % e && x + e == p * e + (x + e) % e;
    assert (q + 1) * e == q * e + e && (p + 1) * e == p * e + e;
    if p < q + 1 {
      Scale(p + 1, q + 1, e);
    } else if p > q + 1 {
      Scale(q + 2, p, e);
    }
  }

  /** A full stage is followed by one with twice the interval. */
  lemma NextStage(k: nat, n: nat)
    requires Between(k, STAGE_SIZE, n)
    ensures Between(k + 1, 0, n) && Pow2(k + 1) == Pow2(k) * 2 && Frames(k + 1, 0) == Frames(k, STAGE_SIZE)
  {
    PreviousIsBefore(k + 1, 0);
  }

  /** Within a stage: whether frame n is kept, and where the recorder stands after it. */
  lemma NextFrame(k: nat, j: nat, n: nat)
    requires j < STAGE_SIZE && Between(k, j, n)
    ensures n % Pow2(k) == 0 <==> IsKept(n)
    ensures IsKept(n) ==> Between(k, j + 1, n + 1) && Frames(k, j + 1) == Frames(k, j) + [n]
    ensures !IsKept(n) ==> Between(k, j, n + 1)
  {
    PreviousIsBefore(k, j);
    DueIsNext(k, j, n);
    OnlyMultiple(First(k) + j, Pow2(k), n);
    if j + 1 < STAGE_SIZE {
      PreviousIsBefore(k, j + 1);
    }
  }

  class ImgRecorder {
    var allCount: nat
    var every: nat
    var inStageCount: nat
    var visualizedCount: nat
    /** The frames kept, each shown by its place among all frames. */
    var images: seq<nat>
    ghost var stage: nat

    ghost predicate Valid()
      reads this
    {
      && every == Pow2(stage)
      && inStageCount <= STAGE_SIZE
      && Between(stage, inStageCount, allCount)
      && images == Frames(stage, inStageCount)
      && visualizedCount == |images|
    }

    constructor ()
      ensures Valid() && allCount == 0 && images == []
    {
      allCount, every, inStageCount, visualizedCount, images, stage := 0, 1, 0, 0, [], 0;
    }

    /** Sees one frame; a frame that would be kept but is no image raises an error. */
    method RecordImg(isImage: bool) returns (ok: bool)
      requires Valid()
      modifies this
      ensures ok <==> isImage || !IsKept(old(allCount))
      ensures ok ==> Valid() && allCount == old(allCount) + 1
      ensures images == old(images) + if isImage && IsKept(old(allCount)) then [old(allCount)] else []
      ensures !ok ==> allCount == old(allCount)
    {
      hide Pow2, Between, Frames, IsKept;
      if inStageCount == STAGE_SIZE {
        NextStage(stage, allCount);
        inStageCount := 0;
        every := every * 2;
        stage := stage + 1;
      }
      NextFrame(stage, inStageCount, allCount);
      if allCount % every == 0 {
        inStageCount := inStageCount + 1;
        visualizedCount := visualizedCount + 1;
        if !isImage {
          return false;
        }
        images := images + [allCount];
      }
      allCount := allCount + 1;
      return true;
    }
  }

  /** The first frames that are kept: each, then every other one, then every fourth. */
  lemma FirstFrames(n: nat)
    requires n <= 20
    ensures IsKept(n) <==> n in [0, 1, 2, 4, 6, 8, 12, 16, 20]
  {
    hide IsKept, Kept, Pow2, Frames, First;
    FirstStages();
    StageKept(0, 1, 0);
    StageKept(1, 2, 2);
    StageKept(2, 4, 3);
    var k := if n <= 2 then 0 else if n <= 8 then 1 else 2;
    var j := if n <= 2 then n else if n <= 4 || 8 < n <= 12 then 0 else if n <= 6 || 8 < n <= 16 then 1 else 2;
    DueIsNext(k, j, n);
  }

  lemma FirstStages()
    ensures Pow2(0) == 1 && Pow2(1) == 2 && Pow2(2) == 4 && First(0) == 0 && First(1) == 2 && First(2) == 3
  {
  }

  lemma StageKept(k: nat, e: nat, c: nat)
    requires Pow2(k) == e && First(k) == c
    ensures forall j: nat :: Kept(k, j) == (c + j) * e
  {
  }

  // ---------- how many frames are kept ----------

  lemma {:induction false} Log2IsAtLeast(n: nat, k: nat)
    requires Pow2(k) <= n
    ensures k <= Log2(n)
    decreases k
  {
    if k == 0 {
    } else {
      Log2IsAtLeast(n / 2, k - 1);
    }
  }

  lemma {:induction false} Log2IsBelow(n: nat, k: nat)
    requires n < Pow2(k)
    ensures Log2(n) < k || n == 0
    decreases k
  {
    if k == 0 || n < 2 {
    } else {
      Log2IsBelow(n / 2, k - 1);
    }
  }

  /** After n frames, three for each power of two up to n are kept, give or take two stages. */
  lemma KeptIsLogarithmic(k: nat, j: nat, n: nat)
    requires j <= STAGE_SIZE && Between(k, j, n) && n >= 2
    ensures |Frames(k, j)| == STAGE_SIZE * k + j
    ensures STAGE_SIZE * (Log2(n) - 2) <= |Frames(k, j)| <= STAGE_SIZE * Log2(n)
  {
    var e := Pow2(k);
    assert Pow2(k + 1) == 2 * e && Pow2(k + 2) == 4 * e && Pow2(k + 3) == 8 * e;
    if k == 0 {
      Log2IsAtLeast(n, 1);
    } else if k == 1 {
      if j == 0 {
        assert 2 < n;
        Log2IsAtLeast(n, 1);
      } else {
        Log2IsAtLeast(n, 2);
      }
    } else {
      assert 2 * e < n by { Scale(2, First(k) + j - 1, e); }
      Log2IsAtLeast(n, k + 1);
    }
    assert n < 8 * e by { if j < STAGE_SIZE { Scale(First(k) + j, 5, e); } }
    Log2IsBelow(n, k + 3);
  }

  /** Any sequence of frames: it is recorded to its end exactly if all frames that are due are images. */
  method RecordAll(flags: seq<bool>) returns (recorder: ImgRecorder, ok: bool)
    ensures fresh(recorder)
    ensures ok <==> forall i :: 0 <= i < |flags| && IsKept(i) ==> flags[i]
    ensures forall i: nat :: i in recorder.images <==> i < recorder.allCount && IsKept(i)
    ensures !ok ==> recorder.allCount < |flags| && IsKept(recorder.allCount) && !flags[recorder.allCount]
    ensures ok ==> recorder.Valid() && recorder.allCount == |flags|
    ensures ok && |flags| >= 2 ==>
      STAGE_SIZE * (Log2(|flags|) - 2) <= |recorder.images| <= STAGE_SIZE * Log2(|flags|)
  {
    hide IsKept, Between, Frames, Pow2, Log2;
    recorder := new ImgRecorder();
    ok := true;
    var n := 0;
    while n < |flags|
      invariant n <= |flags| && fresh(recorder) && recorder.Valid() && recorder.allCount == n
      invariant forall i :: 0 <= i < n && IsKept(i) ==> flags[i]
      invariant forall i: nat :: i in recorder.images <==> i < n && IsKept(i)
    {
      ok := recorder.RecordImg(flags[n]);
      if !ok {
        return;
      }
      n := n + 1;
    }
    if n >= 2 {
      KeptIsLogarithmic(recorder.stage, recorder.inStageCount, n);
    }
  }

  /** From the third stage on, the frames kept are the third, fourth and fifth multiple of the interval. */
  lemma {:induction false} StageFrames(k: nat, j: nat, i: nat, m: nat)
    requires 2 <= i && m < STAGE_SIZE && j <= STAGE_SIZE && (i < k || (i == k && m < j))
    ensures |Frames(k, j)| > STAGE_SIZE * i + m && Frames(k, j)[STAGE_SIZE * i + m] == (3 + m) * Pow2(i)
    decreases k, j
  {
    if j > 0 {
      if i < k || m < j - 1 { StageFrames(k, j - 1, i, m); }
    } else {
      StageFrames(k - 1, STAGE_SIZE, i, m);
    }
  }
}
