/** Storage of the sealed credential in the system keyring, cut into entries of limited length (cli/src/auth.rs). */
module Keyring {
  import opened Basics

  datatype Result<+T> = Ok(value: T) | Err

  const CONTINUE_MARKER := "<MORE>"

  /** The text that the entries hold, by index. */
  type Entries = map<nat, string>

  predicate EndsWithMarker(s: string) {
    |s| >= |CONTINUE_MARKER| && s[|s| - |CONTINUE_MARKER|..] == CONTINUE_MARKER
  }

  function WithoutMarker(s: string): string
    requires EndsWithMarker(s)
  {
    s[..|s| - |CONTINUE_MARKER|]
  }

  // ---------- what reading yields ----------

  /** The indices from i on that hold something. */
  ghost function From(entries: Entries, i: nat): set<nat> {
    set k | k in entries && k >= i
  }

  /** The text assembled from entry i on; None if an entry is missing. */
  ghost function Assembled(entries: Entries, i: nat): Option<string>
    decreases From(entries, i)
  {
    if i !in entries then None
    else
      assert i in From(entries, i) && i !in From(entries, i + 1);
      var chunk := entries[i];
      if EndsWithMarker(chunk) then
        var rest := Assembled(entries, i + 1);
        if rest.None? then None else Some(WithoutMarker(chunk) + rest.value)
      else Some(chunk)
  }

  /** How many entries reading from i on looks at. */
  ghost function LookedAt(entries: Entries, refused: set<nat>, i: nat): (n: nat)
    ensures n > i
    decreases From(entries, i)
  {
    if i in refused || i !in entries then i + 1
    else
      assert i in From(entries, i) && i !in From(entries, i + 1);
      if EndsWithMarker(entries[i]) then LookedAt(entries, refused, i + 1) else i + 1
  }

  // ---------- what storing leaves behind ----------

  /** The entries of a sealed text; a chunk of full length gets the marker, whether or not anything follows it. */
  function Chunks(sealed: string, step: nat): seq<string>
    requires step > 0
    decreases |sealed|
  {
    if sealed == "" then []
    else if step <= |sealed| then [sealed[..step] + CONTINUE_MARKER] + Chunks(sealed[step..], step)
    else [sealed]
  }

  /** The first entries are the given chunks, and beyond them everything is as before. */
  ghost predicate IsStored(before: Entries, chunks: seq<string>, after: Entries) {
    forall i: nat ::
      if i < |chunks| then i in after && after[i] == chunks[i]
      else (i in after <==> i in before) && (i in before ==> after[i] == before[i])
  }

  class KeyringStorage {
    /** Entries that the system refuses to give access to. */
    const refused: set<nat>
    const limit: nat
    var handles: nat
    var keyring: Entries

    ghost predicate Valid()
      reads this
    {
      limit > |CONTINUE_MARKER|
    }

    constructor (limit: nat, keyring: Entries, refused: set<nat>)
      requires limit > |CONTINUE_MARKER|
      ensures Valid() && this.limit == limit && this.keyring == keyring && this.refused == refused && handles == 0
    {
      this.limit, this.keyring, this.refused, handles := limit, keyring, refused, 0;
    }

    method Read() returns (r: Result<Option<string>>)
      requires Valid()
      modifies `handles
      ensures Valid() && handles == Most(old(handles), LookedAt(keyring, refused, 0))
      ensures r.Ok? ==> r.value == Assembled(keyring, 0)
      ensures r.Err? <==> LookedAt(keyring, refused, 0) - 1 in refused
    {
      var str := "";
      assert Assembled(keyring, 0).Some? ==> "" + Assembled(keyring, 0).value == Assembled(keyring, 0).value;
      var i := 0;
      while true
        invariant handles == Most(old(handles), i)
        invariant LookedAt(keyring, refused, 0) == LookedAt(keyring, refused, i)
        invariant Assembled(keyring, 0) ==
          (if Assembled(keyring, i).None? then None else Some(str + Assembled(keyring, i).value))
        decreases From(keyring, i)
      {
        if i >= handles {
          handles := i + 1;
        }
        if i in refused {
          return Err;
        }
        if i !in keyring {
          return Ok(None);
        }
        assert i in From(keyring, i) && i !in From(keyring, i + 1);
        var nextChunk := keyring[i];
        if EndsWithMarker(nextChunk) {
          ghost var rest := Assembled(keyring, i + 1);
          if rest.Some? {
            MoveBracket(str, WithoutMarker(nextChunk), rest.value);
          }
          str := str + WithoutMarker(nextChunk);
        } else {
          return Ok(Some(str + nextChunk));
        }
        i := i + 1;
      }
    }

    method Store(sealed: string) returns (r: Result<()>)
      requires Valid()
      modifies `handles, `keyring
      ensures Valid()
      ensures var chunks := Chunks(sealed, limit - |CONTINUE_MARKER|);
        && (r.Err? <==> exists i :: 0 <= i < |chunks| && i in refused)
        && (r.Ok? ==> IsStored(old(keyring), chunks, keyring) && handles == Most(old(handles), |chunks|))
        && (r.Err? ==> exists n ::
             && 0 <= n < |chunks| && n in refused
             && IsStored(old(keyring), chunks[..n], keyring)
             && handles == Most(old(handles), n + 1))
    {
      var stepSize := limit - |CONTINUE_MARKER|;
      ghost var chunks := Chunks(sealed, stepSize);
      var i := 0;
      ghost var n := 0;
      assert sealed[0..] == sealed;
      while i < |sealed|
        invariant handles == Most(old(handles), n)
        invariant 0 <= n <= |chunks| && (i < |sealed| ==> i == n * stepSize)
        invariant if i < |sealed| then chunks[n..] == Chunks(sealed[i..], stepSize) else n == |chunks|
        invariant forall k :: 0 <= k < n ==> k !in refused
        invariant IsStored(old(keyring), chunks[..n], keyring)
        decreases |sealed| - i
      {
        IndexOf(n, stepSize);
        NextIndex(n, stepSize);
        assert chunks[n..] != [];
        if i / stepSize >= handles {
          handles := handles + 1;
        }
        if i / stepSize in refused {
          return Err;
        }
        var cutoff := i + stepSize;
        if cutoff <= |sealed| {
          var part := sealed[i..cutoff] + CONTINUE_MARKER;
          assert sealed[i..][..stepSize] == sealed[i..cutoff] && sealed[i..][stepSize..] == sealed[cutoff..];
          assert chunks[n] == chunks[n..][0] && chunks[n + 1..] == chunks[n..][1..];
          keyring := keyring[i / stepSize := part];
        } else {
          assert chunks[n] == chunks[n..][0] && |chunks[n..]| == 1;
          keyring := keyring[i / stepSize := sealed[i..]];
        }
        i := cutoff;
        n := n + 1;
      }
      assert chunks[..n] == chunks;
      return Ok(());
    }

    /** Deletes what reading comes across, or has come across earlier, up to the first entry that cannot be deleted. */
    method Clear() returns (r: Result<()>)
      requires Valid()
      modifies `handles, `keyring
      ensures Valid()
      ensures var n := Most(old(handles), LookedAt(old(keyring), refused, 0));
        && (r.Ok? <==> forall i: nat :: i < n ==> i in old(keyring) && i !in refused)
        && (r.Ok? ==> handles == 0 && IsCleared(old(keyring), n, keyring))
        && (r.Err? ==> handles == n)
      ensures r.Err? ==>
        exists stop: nat :: stop < handles && IsClearedUpTo(old(keyring), refused, stop, keyring)
    {
      var ignored := Read();
      var n := handles;
      var i := 0;
      while i < n
        invariant 0 <= i <= n
        invariant handles == n && IsCleared(old(keyring), i, keyring)
        invariant forall k: nat :: k < i ==> k in old(keyring) && k !in refused
      {
        if i !in keyring || i in refused {
          assert IsClearedUpTo(old(keyring), refused, i, keyring);
          return Err;
        }
        keyring := keyring - {i};
        i := i + 1;
      }
      handles := 0;
      return Ok(());
    }
  }

  /** The entries below n are gone, and the others are as before. */
  ghost predicate IsCleared(before: Entries, n: nat, after: Entries) {
    forall i: nat :: (i in after <==> i in before && i >= n) && (i in after ==> after[i] == before[i])
  }

  /** The first entry that cannot be deleted is the one at stop; those below it are gone. */
  ghost predicate IsClearedUpTo(before: Entries, refused: set<nat>, stop: nat, after: Entries) {
    && (stop !in before || stop in refused)
    && (forall i: nat :: i < stop ==> i in before && i !in refused)
    && IsCleared(before, stop, after)
  }

  lemma IndexOf(n: nat, step: nat)
    requires step > 0
    ensures (n * step) / step == n
  {
    var x := n * step;
    var q := x / step;
    assert x == q * step + x % step;
    NextIndex(q, step);
    NextIndex(n, step);
    if q < n {
      Scale(q + 1, n, step);
    } else if n < q {
      Scale(n + 1, q, step);
    }
  }

  lemma NextIndex(n: nat, step: nat)
    ensures (n + 1) * step == n * step + step
  {
  }

  // ---------- the round trip ----------

  /** The part of the text behind the chunks of full length. */
  function Remainder(sealed: string, step: nat): (rest: string)
    requires step > 0
    ensures |rest| < step
    ensures rest != "" <==> |sealed| % step != 0
    decreases |sealed|
  {
    if step <= |sealed| then
      StepOff(|sealed|, step);
      Remainder(sealed[step..], step)
    else sealed
  }

  lemma StepOff(n: nat, step: nat)
    requires 0 < step <= n
    ensures (n - step) % step == n % step
  {
    var q := n / step;
    assert n == q * step + n % step;
    NextIndex(q - 1, step);
    ModIs(n - step, q - 1, n % step, step);
  }

  lemma ModIs(x: nat, q: nat, r: nat, step: nat)
    requires r < step && x == q * step + r
    ensures x % step == r
  {
    var p := x / step;
    assert x == p * step + x % step;
    NextIndex(p, step);
    NextIndex(q, step);
    if p < q {
      Scale(p + 1, q, step);
    } else if q < p {
      Scale(q + 1, p, step);
    }
  }

  /** Reading goes on behind the last chunk: there is no remainder, or it ends in the marker by itself. */
  predicate ReadsOn(sealed: string, step: nat)
    requires step > 0
  {
    Remainder(sealed, step) == "" || EndsWithMarker(Remainder(sealed, step))
  }

  /** What reading takes for a marker although it belongs to the text. */
  function Mistaken(sealed: string, step: nat): string
    requires step > 0
  {
    if EndsWithMarker(Remainder(sealed, step)) then CONTINUE_MARKER else ""
  }

  /** The text without that piece. */
  function Kept(sealed: string, step: nat): string
    requires step > 0
    decreases |sealed|
  {
    if step <= |sealed| then sealed[..step] + Kept(sealed[step..], step)
    else if EndsWithMarker(sealed) then WithoutMarker(sealed)
    else sealed
  }

  lemma {:induction false} KeptAndMistaken(sealed: string, step: nat)
    requires step > 0
    ensures sealed == Kept(sealed, step) + Mistaken(sealed, step)
    decreases |sealed|
  {
    if |sealed| < step {
      LastPiece(sealed, step);
    } else {
      KeptStep(sealed, step);
      hide Kept, Mistaken;
      KeptAndMistaken(sealed[step..], step);
      MoveBracket(sealed[..step], Kept(sealed[step..], step), Mistaken(sealed[step..], step));
      assert sealed == sealed[..step] + sealed[step..];
    }
  }

  lemma KeptStep(sealed: string, step: nat)
    requires 0 < step <= |sealed|
    ensures Kept(sealed, step) == sealed[..step] + Kept(sealed[step..], step)
    ensures Mistaken(sealed, step) == Mistaken(sealed[step..], step)
  {
  }

  lemma LastPiece(sealed: string, step: nat)
    requires |sealed| < step
    ensures sealed == Kept(sealed, step) + Mistaken(sealed, step)
  {
  }

  lemma FullChunk(text: string)
    ensures EndsWithMarker(text + CONTINUE_MARKER) && WithoutMarker(text + CONTINUE_MARKER) == text
  {
  }

  /** What is read when the text is followed by something else. */
  function ReadText(sealed: string, step: nat, behind: Option<string>): Option<string>
    requires step > 0
  {
    if !ReadsOn(sealed, step) then Some(sealed)
    else if behind.None? then None
    else Some(Kept(sealed, step) + behind.value)
  }

  lemma ReadTextStep(sealed: string, step: nat, behind: Option<string>)
    requires 0 < step <= |sealed|
    ensures ReadText(sealed, step, behind) ==
      var rest := ReadText(sealed[step..], step, behind);
      if rest.None? then None else Some(sealed[..step] + rest.value)
  {
    assert sealed == sealed[..step] + sealed[step..];
    if behind.Some? {
      MoveBracket(sealed[..step], Kept(sealed[step..], step), behind.value);
    }
  }

  lemma ReadLastChunk(entries: Entries, sealed: string, step: nat, i: nat)
    requires 0 < |sealed| < step && i in entries && entries[i] == sealed
    ensures Assembled(entries, i) == ReadText(sealed, step, Assembled(entries, i + 1))
  {
  }

  /** Reading chunk by chunk from entry i, where the chunks of the text begin. */
  lemma {:induction false} ReadChunks(entries: Entries, sealed: string, step: nat, i: nat)
    requires step > 0
    requires forall m: nat :: i <= m < i + |Chunks(sealed, step)| ==>
      m in entries && entries[m] == Chunks(sealed, step)[m - i]
    ensures Assembled(entries, i) == ReadText(sealed, step, Assembled(entries, i + |Chunks(sealed, step)|))
    decreases |sealed|
  {
    hide ReadText;
    var chunks := Chunks(sealed, step);
    if sealed == "" {
      ReadNothing(step, Assembled(entries, i));
    } else if step <= |sealed| {
      var head, tail := sealed[..step], sealed[step..];
      assert chunks[0] == head + CONTINUE_MARKER;
      FullChunk(head);
      forall m: nat | i + 1 <= m < i + 1 + |Chunks(tail, step)|
        ensures m in entries && entries[m] == Chunks(tail, step)[m - (i + 1)]
      {
        assert chunks[m - i] == Chunks(tail, step)[m - i - 1];
      }
      ReadChunks(entries, tail, step, i + 1);
      ReadTextStep(sealed, step, Assembled(entries, i + |chunks|));
    } else {
      assert chunks == [sealed];
      ReadLastChunk(entries, sealed, step, i);
    }
  }

  lemma ReadNothing(step: nat, behind: Option<string>)
    requires step > 0
    ensures ReadText("", step, behind) == behind
  {
    assert behind.Some? ==> "" + behind.value == behind.value;
  }

  /**
   Storing and reading back, exactly: the text comes back if and only if the last chunk does not read on,
   or what was stored earlier behind it happens to read as just the piece that is lost.
   */
  lemma StoreThenRead(before: Entries, sealed: string, step: nat, after: Entries)
    requires step > 0 && IsStored(before, Chunks(sealed, step), after)
    ensures Assembled(after, 0) == Some(sealed)
      <==> !ReadsOn(sealed, step) || Assembled(before, |Chunks(sealed, step)|) == Some(Mistaken(sealed, step))
  {
    hide Chunks, Assembled, Kept, ReadsOn, Mistaken, ReadText;
    var n := |Chunks(sealed, step)|;
    ReadChunks(after, sealed, step, 0);
    SameBehind(before, after, n);
    ReadTextIs(sealed, step, Assembled(before, n));
  }

  lemma ReadTextIs(sealed: string, step: nat, behind: Option<string>)
    requires step > 0
    ensures ReadText(sealed, step, behind) == Some(sealed)
      <==> !ReadsOn(sealed, step) || behind == Some(Mistaken(sealed, step))
  {
    hide Kept, ReadsOn, Mistaken;
    KeptAndMistaken(sealed, step);
    if behind.Some? {
      SameEnd(Kept(sealed, step), behind.value, Mistaken(sealed, step));
    }
  }

  lemma SameEnd(front: string, a: string, b: string)
    ensures front + a == front + b <==> a == b
  {
    assert (front + a)[|front|..] == a && (front + b)[|front|..] == b;
  }

  lemma {:induction false} SameBehind(before: Entries, after: Entries, i: nat)
    requires forall k: nat :: k >= i ==> (k in after <==> k in before) && (k in before ==> after[k] == before[k])
    ensures Assembled(after, i) == Assembled(before, i)
    decreases From(before, i)
  {
    if i !in before {
    } else {
      assert i in From(before, i) && i !in From(before, i + 1);
      SameBehind(before, after, i + 1);
    }
  }

  /** With nothing stored behind, the text comes back exactly if a remainder is left that does not end in the marker. */
  lemma StoreThenReadFresh(before: Entries, sealed: string, step: nat, after: Entries)
    requires step > 0 && IsStored(before, Chunks(sealed, step), after)
    requires |Chunks(sealed, step)| !in before
    ensures Assembled(after, 0) == Some(sealed) <==> |sealed| % step != 0 && !EndsWithMarker(Remainder(sealed, step))
    ensures Assembled(after, 0) != Some(sealed) ==> Assembled(after, 0) == None
  {
    StoreThenRead(before, sealed, step, after);
    ReadChunks(after, sealed, step, 0);
    SameBehind(before, after, |Chunks(sealed, step)|);
    hide Chunks, Kept;
  }

  /** With the limit of Windows: a text of 1018 characters is stored with a marker that nothing follows, and lost. */
  lemma ExactMultipleIsLost(sealed: string, before: Entries, after: Entries)
    requires |sealed| == 1024 - |CONTINUE_MARKER|
    requires IsStored(before, Chunks(sealed, 1024 - |CONTINUE_MARKER|), after) && 1 !in before
    ensures after[0] == sealed + CONTINUE_MARKER && |after[0]| == 1024
    ensures Assembled(after, 0) == None
  {
    var step := 1024 - |CONTINUE_MARKER|;
    assert sealed[..step] == sealed && sealed[step..] == "" && Chunks("", step) == [];
    assert Chunks(sealed, step) == [sealed + CONTINUE_MARKER];
    FullChunk(sealed);
    assert 1 !in after;
    assert Assembled(after, 1) == None;
  }

  /** No entry exceeds the limit of the system's keyring. */
  lemma {:induction false} ChunksFit(sealed: string, step: nat)
    requires step > 0
    ensures forall k :: 0 <= k < |Chunks(sealed, step)| ==> 0 < |Chunks(sealed, step)[k]| <= step + |CONTINUE_MARKER|
    decreases |sealed|
  {
    if sealed == "" || |sealed| < step {
    } else {
      ChunksFit(sealed[step..], step);
    }
  }

  /** When reading runs past the last entry, clearing fails on the missing one although the others have been deleted. */
  lemma {:induction false} LookingPastTheEnd(entries: Entries, i: nat)
    ensures Assembled(entries, i) == None <==> LookedAt(entries, {}, i) - 1 !in entries
    ensures Assembled(entries, i).Some? <==> forall k: nat :: i <= k < LookedAt(entries, {}, i) ==> k in entries
    decreases From(entries, i)
  {
    if i !in entries {
    } else {
      assert i in From(entries, i) && i !in From(entries, i + 1);
      if EndsWithMarker(entries[i]) {
        LookingPastTheEnd(entries, i + 1);
      }
    }
  }
}
