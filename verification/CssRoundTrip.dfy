/** Joining gives normal paths, and a rewritten URL leads from the new file to where the old one led. */
module CssRoundTrip {
  import opened Segments
  import opened CssPaths

  // ---------- texts and their pieces ----------

  predicate Folder(piece: string) {
    piece != "" && piece[|piece| - 1] == '/' && '/' !in piece[..|piece| - 1]
  }

  predicate Folders(pieces: seq<string>) {
    forall k :: 0 <= k < |pieces| ==> Folder(pieces[k])
  }

  /** Folders, with perhaps a file at the end. */
  predicate WellFormed(pieces: seq<string>) {
    |pieces| > 0 ==>
      && Folders(pieces[..|pieces| - 1])
      && var last := pieces[|pieces| - 1]; Folder(last) || (last != "" && '/' !in last)
  }

  predicate FolderPath(path: string) {
    path == "" || path[|path| - 1] == '/'
  }

  lemma PiecesOfFile(s: string)
    requires '/' !in s && s != ""
    ensures Pieces(s) == [s]
  {
  }

  lemma PiecesOfFolder(p: string, v: string)
    requires Folder(p)
    ensures Pieces(p + v) == [p] + Pieces(v)
  {
    var s, n := p + v, |p| - 1;
    assert forall j :: 0 <= j < n ==> s[j] == p[..n][j];
    SlashIndexIs(s, n);
    assert s[..n + 1] == p && s[n + 1..] == v;
  }

  /** A text with a slash is a folder and the rest. */
  lemma FirstFolder(s: string) returns (p: string, v: string)
    requires '/' in s
    ensures Folder(p) && s == p + v && |v| < |s|
  {
    hide SlashIndex;
    var i := SlashIndex(s);
    p, v := s[..i + 1], s[i + 1..];
    assert p[..|p| - 1] == s[..i];
    assert forall j :: 0 <= j < i ==> s[..i][j] == s[j];
  }

  lemma {:induction false} PiecesConcat(u: string, v: string)
    requires FolderPath(u)
    ensures Pieces(u + v) == Pieces(u) + Pieces(v) && Folders(Pieces(u))
    decreases |u|
  {
    hide Pieces, SlashIndex, Folder;
    if u == "" {
      assert u + v == v;
      PiecesOfNothing();
    } else {
      assert u[|u| - 1] in u;
      var p, rest := FirstFolder(u);
      FolderPathRest(u, p, rest);
      PiecesConcat(rest, v);
      PiecesOfFolder(p, rest);
      PiecesOfFolder(p, rest + v);
      assert u + v == p + (rest + v);
      assert [p] + (Pieces(rest) + Pieces(v)) == ([p] + Pieces(rest)) + Pieces(v);
    }
  }

  lemma PiecesOfNothing()
    ensures Pieces("") == []
  {
  }

  lemma FolderPathRest(u: string, p: string, rest: string)
    requires FolderPath(u) && u == p + rest
    ensures FolderPath(rest)
  {
    if rest != "" { assert rest[|rest| - 1] == u[|u| - 1]; }
  }

  lemma {:induction false} PiecesAreWellFormed(s: string)
    ensures WellFormed(Pieces(s)) && Concat(Pieces(s)) == s
    decreases |s|
  {
    if '/' in s {
      hide Pieces, SlashIndex;
      var p, v := FirstFolder(s);
      PiecesAreWellFormed(v);
      PiecesOfFolder(p, v);
      var all, rest := [p] + Pieces(v), Pieces(v);
      assert all[1..] == rest;
      if |rest| > 0 {
        assert all[..|all| - 1] == [p] + rest[..|rest| - 1];
      }
    } else if s != "" {
      PiecesOfFile(s);
      assert [s][..0] == [];
    }
  }

  lemma {:induction false} PiecesOfConcat(pieces: seq<string>)
    requires WellFormed(pieces)
    ensures Pieces(Concat(pieces)) == pieces
  {
    if |pieces| == 1 {
      assert Concat(pieces) == pieces[0] + "" == pieces[0];
      if Folder(pieces[0]) {
        PiecesOfFolder(pieces[0], "");
        assert pieces[0] + "" == pieces[0];
      } else {
        PiecesOfFile(pieces[0]);
      }
    } else if |pieces| > 1 {
      assert pieces[0] == pieces[..|pieces| - 1][0];
      assert pieces[1..][..|pieces| - 2] == pieces[..|pieces| - 1][1..];
      PiecesOfConcat(pieces[1..]);
      PiecesOfFolder(pieces[0], Concat(pieces[1..]));
    }
  }

  // ---------- the normal form ----------

  /** No './', and '../' only at the front. */
  predicate NormalPieces(pieces: seq<string>) {
    && (forall k :: 0 <= k < |pieces| ==> pieces[k] != "./")
    && (forall k :: 0 < k < |pieces| && pieces[k] == "../" ==> pieces[k - 1] == "../")
  }

  predicate NormalPath(path: string) {
    NormalPieces(Pieces(path))
  }

  lemma {:induction false} PushConcat(below: seq<string>, a: seq<string>, b: seq<string>)
    ensures PushPieces(below, a + b) == PushPieces(PushPieces(below, a), b)
    decreases |a|
  {
    if |a| == 0 {
      assert a + b == b;
    } else {
      assert (a + b)[1..] == a[1..] + b;
      PushConcat(PushPiece(below, a[0]), a[1..], b);
    }
  }

  lemma {:induction false} PushStaysNormal(below: seq<string>, more: seq<string>)
    requires NormalPieces(below)
    ensures NormalPieces(PushPieces(below, more))
    decreases |more|
  {
    if |more| == 0 {
    } else {
      PushStaysNormal(PushPiece(below, more[0]), more[1..]);
    }
  }

  lemma {:induction false} PushStaysWellFormed(below: seq<string>, more: seq<string>)
    requires Folders(below) && WellFormed(more)
    ensures WellFormed(PushPieces(below, more))
    ensures Folders(more) ==> Folders(PushPieces(below, more))
    decreases |more|
  {
    if |more| == 1 {
      assert PushPieces(below, more) == PushPieces(PushPiece(below, more[0]), []);
      var r := PushPiece(below, more[0]);
    } else if |more| > 1 {
      assert more[0] == more[..|more| - 1][0];
      assert more[1..][..|more| - 2] == more[..|more| - 1][1..];
      PushStaysWellFormed(PushPiece(below, more[0]), more[1..]);
    }
  }

  /** Pieces that fit on top of each other in normal form are just put there. */
  lemma {:induction false} PushNormal(below: seq<string>, more: seq<string>)
    requires NormalPieces(below + more)
    ensures PushPieces(below, more) == below + more
    decreases |more|
  {
    if |more| == 0 {
    } else {
      var all := below + more;
      assert all[|below|] == more[0];
      if |below| > 0 { assert all[|below| - 1] == below[|below| - 1]; }
      assert (below + [more[0]]) + more[1..] == all;
      PushNormal(below + [more[0]], more[1..]);
    }
  }

  /** Behind protocol and host, a URL joined to a folder gives a path in normal form. */
  lemma JoinedIsNormal(a: string, b: string)
    requires FolderPath(a)
    ensures PathStart(a) <= |Joined(a, b)|
    ensures NormalPath(Joined(a, b)[PathStart(a)..])
  {
    hide PathStart, Pieces, NormalPieces;
    var start := PathStart(a);
    var pieces := JoinedPieces(a, b);
    assert Joined(a, b) == a[..start] + Concat(pieces);
    assert Joined(a, b)[start..] == Concat(pieces);
  }

  /** The stack of pieces behind protocol and host. */
  lemma JoinedPieces(a: string, b: string) returns (pieces: seq<string>)
    requires FolderPath(a)
    ensures var below := if StartsWith(b, "/") then [] else PushPieces([], Pieces(a[PathStart(a)..]));
      pieces == PushPieces(below, Pieces(b)) && Folders(below) && NormalPieces(below)
    ensures Joined(a, b) == a[..PathStart(a)] + Concat(pieces)
    ensures WellFormed(pieces) && NormalPieces(pieces) && Pieces(Concat(pieces)) == pieces
  {
    hide PathStart, Pieces;
    var c := a[PathStart(a)..];
    assert c != "" ==> c[|c| - 1] == a[|a| - 1];
    assert c + "" == c;
    PiecesConcat(c, "");
    PiecesAreWellFormed(c);
    PiecesAreWellFormed(b);
    var below := if StartsWith(b, "/") then [] else PushPieces([], Pieces(c));
    PushStaysNormal([], Pieces(c));
    PushStaysWellFormed([], Pieces(c));
    pieces := PushPieces(below, Pieces(b));
    PushStaysNormal(below, Pieces(b));
    PushStaysWellFormed(below, Pieces(b));
    PiecesOfConcat(pieces);
  }

  /** Normal paths, and only they, are left as they are; so normalising twice is normalising once. */
  lemma NormalPathsAreFixed(path: string)
    ensures Joined("", path) == path <==> NormalPath(path)
    ensures Joined("", Joined("", path)) == Joined("", path)
  {
    if NormalPath(path) {
      NormalPathIsFixed(path);
    }
    JoinedIsNormal("", path);
    NoProtocolInNothing();
    NormalPathIsFixed(Joined("", path));
  }

  lemma NoProtocolInNothing()
    ensures PathStart("") == 0
  {
  }

  lemma NormalPathIsFixed(path: string)
    requires NormalPath(path)
    ensures Joined("", path) == path
  {
    NoProtocolInNothing();
    PiecesOfNothing();
    hide Pieces, SlashIndex, PathStart;
    PiecesAreWellFormed(path);
    PushNormal([], Pieces(path));
    assert [] + Pieces(path) == Pieces(path);
    assert PushPieces([], Pieces("")) == [];
    assert Joined("", path) == "" + Concat(Pieces(path));
  }

  // ---------- leaving folders and coming back, on pieces ----------

  function UpPieces(n: nat): (ups: seq<string>)
    ensures |ups| == n
    ensures forall k :: 0 <= k < n ==> ups[k] == "../"
  {
    if n == 0 then [] else ["../"] + UpPieces(n - 1)
  }

  function Climb(below: seq<string>, n: nat): seq<string> {
    PushPieces(below, UpPieces(n))
  }

  predicate Plain(piece: string) {
    piece != "./" && piece != "../" && piece != "/"
  }

  /** Only a nameless folder at the top, a double slash in the text, stops '../'. */
  predicate Stopped(pieces: seq<string>) {
    |pieces| > 0 && pieces[|pieces| - 1] == "/"
  }

  function Slashes(pieces: seq<string>): nat {
    if |pieces| == 0 then 0 else Slashes(pieces[..|pieces| - 1]) + if pieces[|pieces| - 1] == "/" then 1 else 0
  }

  function Depth(pieces: seq<string>): int {
    if |pieces| == 0 then 0 else Depth(pieces[..|pieces| - 1]) + if pieces[|pieces| - 1] == "../" then -1 else 1
  }

  lemma ClimbOne(below: seq<string>, n: nat)
    requires n > 0
    ensures Climb(below, n) == Climb(PushPiece(below, "../"), n - 1)
  {
    assert UpPieces(n)[1..] == UpPieces(n - 1);
  }

  /** Climbing out of plain folders. */
  lemma {:induction false} ClimbPlain(below: seq<string>, folders: seq<string>)
    requires forall k :: 0 <= k < |folders| ==> Plain(folders[k])
    ensures Climb(below + folders, |folders|) == below
  {
    if |folders| == 0 {
      assert below + folders == below;
    } else {
      var n := |folders| - 1;
      var all := below + folders;
      assert all[|all| - 1] == folders[n];
      assert all[..|all| - 1] == below + folders[..n];
      ClimbOne(all, n + 1);
      ClimbPlain(below, folders[..n]);
    }
  }

  lemma {:induction false} PushPlain(below: seq<string>, folders: seq<string>)
    requires forall k :: 0 <= k < |folders| ==> Plain(folders[k])
    ensures PushPieces(below, folders) == below + folders
    decreases |folders|
  {
    if |folders| == 0 {
      assert below + folders == below;
    } else {
      PushPlain(below + [folders[0]], folders[1..]);
      assert (below + [folders[0]]) + folders[1..] == below + folders;
    }
  }

  /** Above a stop, any folders with names leave at most as many plain pieces as there are folders. */
  lemma {:induction false} PushAboveStop(below: seq<string>, above: seq<string>, folders: seq<string>)
    returns (left: seq<string>)
    requires Stopped(below) && "/" !in folders
    requires forall k :: 0 <= k < |above| ==> Plain(above[k])
    ensures PushPieces(below + above, folders) == below + left
    ensures |left| <= |above| + |folders|
    ensures forall k :: 0 <= k < |left| ==> Plain(left[k])
    decreases |folders|
  {
    if |folders| == 0 {
      left := above;
    } else {
      var all := below + above;
      var next := if folders[0] == "./" then above
                  else if folders[0] == "../" then (if |above| == 0 then above else above[..|above| - 1])
                  else above + [folders[0]];
      assert folders[0] in folders;
      assert PushPiece(all, folders[0]) == below + next by {
        if |above| > 0 { assert all[|all| - 1] == above[|above| - 1]; } else { assert all == below; }
        assert below + (above + [folders[0]]) == (below + above) + [folders[0]];
      }
      left := PushAboveStop(below, next, folders[1..]);
    }
  }

  lemma {:induction false} ClimbToStop(below: seq<string>, above: seq<string>, n: nat)
    requires Stopped(below) && |above| <= n
    requires forall k :: 0 <= k < |above| ==> Plain(above[k])
    ensures Climb(below + above, n) == below
  {
    var all := below + above;
    if n == 0 {
      assert all == below;
    } else {
      ClimbOne(all, n);
      UpAboveStop(below, above);
      hide Climb, PushPiece, Stopped, Plain;
      ClimbToStop(below, if |above| == 0 then above else above[..|above| - 1], n - 1);
    }
  }

  lemma UpAboveStop(below: seq<string>, above: seq<string>)
    requires Stopped(below) && forall k :: 0 <= k < |above| ==> Plain(above[k])
    ensures PushPiece(below + above, "../") == below + if |above| == 0 then above else above[..|above| - 1]
  {
    var all := below + above;
    if |above| == 0 {
      assert all == below;
    } else {
      assert all[|all| - 1] == above[|above| - 1];
      assert all[..|all| - 1] == below + above[..|above| - 1];
    }
  }

  // Nameless folders pile up: they are never removed.

  lemma SlashesAppend(pieces: seq<string>, piece: string)
    ensures Slashes(pieces + [piece]) == Slashes(pieces) + if piece == "/" then 1 else 0
  {
    assert (pieces + [piece])[..|pieces|] == pieces;
  }

  lemma {:induction false} SlashesConcat(a: seq<string>, b: seq<string>)
    ensures Slashes(a + b) == Slashes(a) + Slashes(b)
    decreases |b|
  {
    if |b| == 0 {
      assert a + b == a;
    } else {
      var n := |b| - 1;
      assert (a + b)[..|a + b| - 1] == a + b[..n];
      SlashesConcat(a, b[..n]);
    }
  }

  lemma {:induction false} SlashesPile(below: seq<string>, more: seq<string>)
    ensures Slashes(PushPieces(below, more)) == Slashes(below) + Slashes(more)
    decreases |more|
  {
    if |more| == 0 {
    } else {
      SlashesPile(PushPiece(below, more[0]), more[1..]);
      SlashesAppend(below, more[0]);
      assert more == [more[0]] + more[1..];
      SlashesConcat([more[0]], more[1..]);
      SlashesAppend([], more[0]);
      assert [] + [more[0]] == [more[0]];
    }
  }

  lemma {:induction false} SlashesOfUps(n: nat)
    ensures Slashes(UpPieces(n)) == 0
  {
    if n == 0 {
    } else {
      SlashesConcat(["../"], UpPieces(n - 1));
      SlashesOfUps(n - 1);
      SlashesAppend([], "../");
      assert [] + ["../"] == ["../"];
    }
  }

  lemma {:induction false} SomeSlash(pieces: seq<string>)
    ensures "/" in pieces <==> Slashes(pieces) > 0
  {
    if |pieces| == 0 {
    } else {
      SomeSlash(pieces[..|pieces| - 1]);
      assert pieces == pieces[..|pieces| - 1] + [pieces[|pieces| - 1]];
    }
  }

  // Dots cost depth: each one is a step that the climb takes once more.

  function PlainCount(folders: seq<string>): nat {
    if |folders| == 0 then 0
    else (if folders[0] == "./" || folders[0] == "../" then 0 else 1) + PlainCount(folders[1..])
  }

  lemma DepthAppend(pieces: seq<string>, piece: string)
    ensures Depth(pieces + [piece]) == Depth(pieces) + if piece == "../" then -1 else 1
  {
    assert (pieces + [piece])[..|pieces|] == pieces;
  }

  lemma {:induction false} DepthConcat(a: seq<string>, b: seq<string>)
    ensures Depth(a + b) == Depth(a) + Depth(b)
    decreases |b|
  {
    if |b| == 0 {
      assert a + b == a;
    } else {
      var n := |b| - 1;
      assert (a + b)[..|a + b| - 1] == a + b[..n];
      DepthConcat(a, b[..n]);
    }
  }

  lemma DepthOfPush(below: seq<string>, piece: string)
    ensures Depth(PushPiece(below, piece)) <= Depth(below) + if piece == "./" || piece == "../" then 0 else 1
    ensures piece == "../" && !Stopped(below) ==> Depth(PushPiece(below, piece)) == Depth(below) - 1
    ensures piece != "../" && piece != "./" ==> Depth(PushPiece(below, piece)) == Depth(below) + 1
  {
    DepthAppend(below, piece);
  }

  lemma {:induction false} DepthOfPushes(below: seq<string>, more: seq<string>)
    ensures Depth(PushPieces(below, more)) <= Depth(below) + PlainCount(more)
    decreases |more|
  {
    if |more| == 0 {
    } else {
      DepthOfPush(below, more[0]);
      DepthOfPushes(PushPiece(below, more[0]), more[1..]);
    }
  }

  lemma {:induction false} FewerPlain(folders: seq<string>)
    ensures PlainCount(folders) <= |folders|
    ensures "./" in folders || "../" in folders ==> PlainCount(folders) < |folders|
  {
    if |folders| == 0 {
    } else {
      FewerPlain(folders[1..]);
    }
  }

  /** The part of a stack that '../' cannot reach: up to and including the last nameless folder. */
  function Floor(pieces: seq<string>): (floor: seq<string>)
    ensures floor <= pieces
    ensures floor == [] || Stopped(floor)
    ensures "/" !in pieces[|floor|..]
  {
    if |pieces| == 0 then []
    else if pieces[|pieces| - 1] == "/" then pieces
    else
      var floor := Floor(pieces[..|pieces| - 1]);
      assert pieces[|floor|..] == pieces[..|pieces| - 1][|floor|..] + [pieces[|pieces| - 1]];
      floor
  }

  lemma {:induction false} FloorIs(pieces: seq<string>, floor: seq<string>)
    requires floor <= pieces && (floor == [] || Stopped(floor)) && "/" !in pieces[|floor|..]
    ensures Floor(pieces) == floor
  {
    if |floor| == |pieces| {
      assert floor == pieces;
    } else {
      var n := |pieces| - 1;
      assert pieces[|floor|..][n - |floor|] == pieces[n];
      assert pieces[..n][|floor|..] == pieces[|floor|..][..n - |floor|];
      FloorIs(pieces[..n], floor);
    }
  }

  lemma FloorOfPush(below: seq<string>, piece: string)
    requires piece != "/"
    ensures Floor(PushPiece(below, piece)) == Floor(below)
  {
    var floor, t := Floor(below), PushPiece(below, piece);
    if |t| > |below| {
      assert t[|floor|..] == below[|floor|..] + [piece];
    } else if |t| < |below| {
      assert !Stopped(below) && floor != below;
      assert t[|floor|..] == below[|floor|..][..|t| - |floor|];
    }
    FloorIs(t, floor);
  }

  lemma {:induction false} FloorOfPushes(below: seq<string>, more: seq<string>)
    requires "/" !in more
    ensures Floor(PushPieces(below, more)) == Floor(below)
    decreases |more|
  {
    if |more| == 0 {
    } else {
      assert more[0] in more;
      FloorOfPush(below, more[0]);
      FloorOfPushes(PushPiece(below, more[0]), more[1..]);
    }
  }

  /** A climb either takes a step each time or ends on the floor. */
  lemma {:induction false} DepthOfClimb(below: seq<string>, n: nat)
    ensures Depth(Climb(below, n)) == Depth(below) - n || (Stopped(Climb(below, n)) && Climb(below, n) == Floor(below))
    decreases n
  {
    if n == 0 {
    } else {
      ClimbOne(below, n);
      if Stopped(below) {
        DepthOfClimb(below, n - 1);
        ClimbStopped(below, n);
      } else {
        DepthOfPush(below, "../");
        FloorOfPush(below, "../");
        DepthOfClimb(PushPiece(below, "../"), n - 1);
      }
    }
  }

  lemma ClimbStopped(below: seq<string>, n: nat)
    requires Stopped(below)
    ensures Climb(below, n) == below && Floor(below) == below
  {
    ClimbToStop(below, [], n);
    assert below + [] == below;
  }

  lemma {:induction false} DepthOfNames(pieces: seq<string>)
    requires "../" !in pieces
    ensures Depth(pieces) == |pieces|
  {
    if |pieces| == 0 {
    } else {
      DepthOfNames(pieces[..|pieces| - 1]);
    }
  }

  /** Above the floor of a normal stack that has one there are only names. */
  lemma FloorIsShallower(pieces: seq<string>)
    requires NormalPieces(pieces) && !Stopped(pieces) && Floor(pieces) != []
    ensures Depth(Floor(pieces)) < Depth(pieces)
  {
    var floor := Floor(pieces);
    var above := pieces[|floor|..];
    assert pieces == floor + above;
    NoUpsAbove(pieces, |floor| - 1);
    assert |above| > 0;
    DepthOfNames(above);
    DepthConcat(floor, above);
  }

  lemma {:induction false} NoUpsAbove(pieces: seq<string>, k: nat)
    requires NormalPieces(pieces) && k < |pieces| && pieces[k] != "../"
    ensures "../" !in pieces[k + 1..]
    decreases |pieces| - k
  {
    if k + 1 >= |pieces| {
    } else {
      NoUpsAbove(pieces, k + 1);
      assert pieces[k + 1..] == [pieces[k + 1]] + pieces[k + 2..];
    }
  }

  lemma {:induction false} DepthOfTail(below: seq<string>, tail: seq<string>)
    requires NormalPieces(tail) && ("../" in tail ==> "/" !in below)
    ensures Depth(PushPieces(below, tail)) == Depth(below) + Depth(tail)
    decreases |tail|
  {
    if |tail| == 0 {
    } else {
      var next := PushPiece(below, tail[0]);
      DepthOfPush(below, tail[0]);
      DepthAppend([], tail[0]);
      assert tail == ([] + [tail[0]]) + tail[1..];
      DepthConcat([] + [tail[0]], tail[1..]);
      if tail[0] != "../" {
        NoUpsAbove(tail, 0);
      }
      DepthOfTail(next, tail[1..]);
    }
  }

  lemma SplitNormal(front: seq<string>, tail: seq<string>)
    requires NormalPieces(front + tail)
    ensures NormalPieces(front) && NormalPieces(tail)
    ensures "../" in tail ==> "/" !in front
  {
    var all := front + tail;
    assert forall k :: 0 <= k < |front| ==> all[k] == front[k];
    assert forall k :: 0 <= k < |tail| ==> all[|front| + k] == tail[k];
    if "/" in front {
      var k :| 0 <= k < |front| && front[k] == "/";
      NoUpsAbove(all, k);
      assert tail == all[k + 1..][|front| - k - 1..];
    }
  }

  /** What the folders of the new file may look like for the way out of them to lead back. */
  predicate CanBeLeft(front: seq<string>, folders: seq<string>) {
    "/" !in folders && (("./" !in folders && "../" !in folders) || Stopped(front))
  }

  lemma LeaveAndReturn(front: seq<string>, folders: seq<string>, tail: seq<string>)
    requires NormalPieces(front + tail) && CanBeLeft(front, folders)
    ensures PushPieces(Climb(PushPieces(front, folders), |folders|), tail) == front + tail
  {
    if Stopped(front) {
      var left := PushAboveStop(front, [], folders);
      assert front + [] == front;
      ClimbToStop(front, left, |folders|);
    } else {
      assert forall k :: 0 <= k < |folders| ==> folders[k] in folders;
      PushPlain(front, folders);
      ClimbPlain(front, folders);
    }
    PushNormal(front, tail);
  }

  lemma DotsGoTooFar(front: seq<string>, folders: seq<string>)
    requires NormalPieces(front) && !Stopped(front) && "/" !in folders && ("./" in folders || "../" in folders)
    ensures Depth(Climb(PushPieces(front, folders), |folders|)) < Depth(front)
    ensures "/" !in front ==> "/" !in Climb(PushPieces(front, folders), |folders|)
  {
    var inside := PushPieces(front, folders);
    var outside := Climb(inside, |folders|);
    DepthOfPushes(front, folders);
    FewerPlain(folders);
    FloorOfPushes(front, folders);
    DepthOfClimb(inside, |folders|);
    if Stopped(outside) && outside == Floor(inside) {
      FloorIsShallower(front);
    }
    SlashesPile(front, folders);
    SlashesPile(inside, UpPieces(|folders|));
    SlashesOfUps(|folders|);
    SomeSlash(front);
    SomeSlash(folders);
    SomeSlash(outside);
  }

  /** On pieces: the way out of the folders leads back exactly when they can be left. */
  lemma ReturnsExactly(front: seq<string>, folders: seq<string>, tail: seq<string>)
    requires NormalPieces(front + tail)
    ensures PushPieces(Climb(PushPieces(front, folders), |folders|), tail) == front + tail
      <==> CanBeLeft(front, folders)
  {
    SplitNormal(front, tail);
    var outside := Climb(PushPieces(front, folders), |folders|);
    if CanBeLeft(front, folders) {
      LeaveAndReturn(front, folders, tail);
    } else if "/" in folders {
      SlashesPile(front, folders);
      SlashesPile(PushPieces(front, folders), UpPieces(|folders|));
      SlashesOfUps(|folders|);
      SlashesPile(outside, tail);
      SlashesConcat(front, tail);
      SomeSlash(folders);
    } else {
      DotsGoTooFar(front, folders);
      DepthOfTail(outside, tail);
      DepthConcat(front, tail);
    }
  }

  // ---------- leaving folders and coming back, on texts ----------

  /** The folders of a file that lie below the given folder path. */
  function FoldersBelow(file: string, prefix: string): seq<string>
    requires |prefix| <= |file|
  {
    Pieces(PathOf(file[|prefix|..]))
  }

  /** The way from file `from` to the path `to` can be found back; all of this can be seen from the two texts. */
  predicate Returnable(from: string, to: string) {
    CommonPrefixFits(from, to);
    var prefix := CommonFolderPrefix(from, to);
    var folders := FoldersBelow(from, prefix);
    && CanBeLeft(Pieces(prefix), folders)
    && (folders == [] ==> !StartsWith(to[|prefix|..], "/"))
  }

  lemma PathOfBelow(p: string, f: string)
    requires FolderPath(p)
    ensures PathOf(p + f) == p + PathOf(f) && FolderPath(PathOf(f))
  {
    var e := FolderEnd(f);
    var s := p + f;
    assert forall j :: |p| + e <= j < |s| ==> s[j] == f[j - |p|];
    FolderEndIs(s, |p| + e);
    assert s[..|p| + e] == p + f[..e];
  }

  lemma FolderEndIs(s: string, e: nat)
    requires e <= |s| && (e > 0 ==> s[e - 1] == '/') && forall j :: e <= j < |s| ==> s[j] != '/'
    ensures FolderEnd(s) == e
  {
    hide FolderEnd;
    var other := FolderEnd(s);
  }

  lemma {:induction false} FolderCount(f: string)
    ensures |Split(f)| - 1 == |Pieces(PathOf(f))|
    decreases |f|
  {
    if '/' in f {
      hide Pieces, Split, FolderEnd, SlashIndex;
      var p, v := FirstFolder(f);
      var head := p[..|p| - 1];
      assert p == head + "/" && f == head + "/" + v;
      SplitFirst(head, v);
      FolderCount(v);
      PathOfBelow(p, v);
      PiecesOfFolder(p, PathOf(v));
    } else {
      SplitPlain(f);
      FolderEndIs(f, 0);
      PiecesOfNothing();
    }
  }

  lemma {:induction false} PiecesOfUps(n: nat, t: string)
    ensures Pieces(Ups(n) + t) == UpPieces(n) + Pieces(t)
  {
    hide Pieces;
    if n == 0 {
      assert Ups(0) + t == t;
    } else {
      PiecesOfUps(n - 1, t);
      PiecesOfFolder("../", Ups(n - 1) + t);
      assert Ups(n) + t == "../" + (Ups(n - 1) + t);
    }
  }

  lemma ShorterPrefix(x: string, y: string, all: string)
    requires x <= all && y <= all && |x| <= |y|
    ensures x <= y
  {
    assert all[..|y|][..|x|] == all[..|x|];
  }

  lemma PrefixTransitive(x: string, y: string, all: string)
    requires x <= y && y <= all
    ensures x <= all
  {
    assert all[..|y|][..|x|] == all[..|x|];
  }

  /** A doubled slash that reaches beyond the common folders shows as a nameless folder. */
  lemma DoubleSlashBelow(prefix: string, folders: string, start: string)
    requires FolderPath(prefix) && FolderPath(start) && start != ""
    requires start + "/" <= prefix + folders && !(start + "/" <= prefix)
    ensures "/" in Pieces(folders)
  {
    hide Pieces;
    var rest, after := BehindPrefix(prefix, folders, start + "/");
    assert rest[|rest| - 1] == (prefix + rest)[|prefix + rest| - 1] == '/';
    PiecesConcat(start, "/");
    PiecesConcat(prefix, rest);
    PiecesConcat(rest, after);
    PiecesOfRoot();
    NonEmptyPieces(rest);
    SameLast(Pieces(start), "/", Pieces(prefix), Pieces(rest));
  }

  lemma SameLast(a: seq<string>, last: string, b: seq<string>, c: seq<string>)
    requires a + [last] == b + c && |c| > 0
    ensures last in c
  {
    assert (a + [last])[|a|] == last;
    assert (b + c)[|b| + |c| - 1] == c[|c| - 1];
  }

  lemma BehindPrefix(prefix: string, folders: string, x: string) returns (rest: string, after: string)
    requires x <= prefix + folders && !(x <= prefix)
    ensures x == prefix + rest && rest != "" && folders == rest + after
  {
    var all := prefix + folders;
    if |x| <= |prefix| { ShorterPrefix(x, prefix, all); }
    assert x[..|prefix|] == all[..|prefix|] == prefix;
    rest, after := x[|prefix|..], folders[|x| - |prefix|..];
    assert all[|prefix|..|x|] == rest;
  }

  lemma PiecesOfRoot()
    ensures Pieces("/") == ["/"]
  {
    PiecesOfFolder("/", "");
    PiecesOfNothing();
    assert "/" + "" == "/";
  }

  lemma NonEmptyPieces(s: string)
    requires s != ""
    ensures |Pieces(s)| > 0
  {
  }

  lemma ProtocolShows(a: string) returns (start: string)
    requires PathStart(a) != 0
    ensures FolderPath(start) && start != "" && start + "/" <= a[..PathStart(a)]
    ensures start + "/" == "//" || start + "/" == "http://" || start + "/" == "https://"
  {
    start := if AfterPrefix(a, "//") != 0 then "/" else if AfterPrefix(a, "http://") != 0 then "http:/" else "https:/";
  }

  lemma {:induction false} RootStays(below: seq<string>, more: seq<string>)
    requires |below| > 0 && below[0] == "/"
    ensures var r := PushPieces(below, more); |r| > 0 && r[0] == "/"
    decreases |more|
  {
    if |more| == 0 {
    } else {
      RootStays(PushPiece(below, more[0]), more[1..]);
    }
  }

  lemma RootedPieces(t: string)
    requires StartsWith(t, "/")
    ensures var r := PushPieces([], Pieces(t)); |r| > 0 && r[0] == "/"
  {
    hide Pieces;
    assert t == "/" + t[1..];
    PiecesOfFolder("/", t[1..]);
    var more := Pieces(t);
    assert PushPiece([], "/") == ["/"];
    RootStays(["/"], more[1..]);
  }

  /** Behind a protocol or a host everything is absolute. */
  lemma ProtocolIsAbsolute(a: string, url: string)
    requires PathStart(a) != 0
    ensures IsAbsolute(Joined(a, url))
  {
    hide PathStart, PushPieces;
    var start := ProtocolShows(a);
    PrefixTransitive(start + "/", a[..PathStart(a)], Joined(a, url));
    assert "//"[0] == '/';
  }

  /** A file with a protocol or a doubled slash in front cannot be left for a relative path. */
  lemma ProtocolIsNotLeft(from: string, to: string)
    requires !IsAbsolute(to) && PathStart(PathOf(from)) != 0
    ensures !Returnable(from, to)
  {
    hide Pieces, PathStart, FolderEnd, CommonLength;
    CommonPrefixFits(from, to);
    var p := CommonFolderPrefix(from, to);
    hide CommonFolderPrefix;
    var f := from[|p|..];
    assert from == p + f;
    PathOfBelow(p, f);
    var start := ProtocolShows(PathOf(from));
    var x := start + "/";
    PrefixTransitive(x, PathOf(from)[..PathStart(PathOf(from))], PathOf(from));
    assert "//"[0] == '/';
    if x <= p { PrefixTransitive(x, p, to); }
    DoubleSlashBelow(p, PathOf(f), start);
  }

  /** The round trip on relative paths, exactly: which files find the way back, and which do not. */
  lemma RelativeRoundTrip(from: string, to: string)
    requires NormalPath(to) && !IsAbsolute(to)
    ensures Joined(PathOf(from), Relative(from, to)) == to <==> Returnable(from, to)
  {
    if PathStart(PathOf(from)) != 0 {
      ProtocolIsAbsolute(PathOf(from), Relative(from, to));
      ProtocolIsNotLeft(from, to);
    } else {
      PlainRoundTrip(from, to);
    }
  }

  /** A file in a folder that is left again: two steps up are taken although none is needed. */
  lemma DotsLoseTheWay()
    ensures Relative("a/../b.css", "c") == "../../c" && Joined(PathOf("a/../b.css"), "../../c") == "../../c"
    ensures !Returnable("a/../b.css", "c")
  {
    hide Pieces, FolderEnd, CommonLength, SlashIndex, Split, Ups, Joined;
    var from, to := "a/../b.css", "c";
    FolderEndIs(from, 5);
    assert from[..5] == "a/../" && from[0..] == from;
    assert PathOf(from) == "a/../";
    NothingCommon(from, to);
    DottedPieces();
    PiecesOfNothing();
    FolderCount(from);
    TwoUps();
    JoinedDots();
    assert to[0..] == to && "../../" + "c" == "../../c";
    assert FoldersBelow(from, "") == ["a/", "../"] && ["a/", "../"][1] == "../";
  }

  lemma TwoUps()
    ensures Ups(2) == "../../"
  {
    assert Ups(0) == "" && Ups(1) == "../" + Ups(0) && Ups(2) == "../" + Ups(1);
  }

  lemma NothingCommon(from: string, to: string)
    requires from != "" && to != "" && from[0] != to[0]
    ensures CommonFolderPrefix(from, to) == ""
  {
  }

  lemma DottedPieces()
    ensures Pieces("a/../") == ["a/", "../"] && Pieces("../../c") == ["../", "../", "c"]
  {
    hide Pieces, SlashIndex;
    PiecesOfNothing();
    PiecesOfFile("c");
    UpFirst("");
    UpFirst("c");
    UpFirst("../c");
    assert "../" + "" == "../" && "../" + "c" == "../c" && "../" + "../c" == "../../c";
    FolderAFirst("../");
    assert "a/" + "../" == "a/../";
  }

  lemma UpFirst(v: string)
    ensures Pieces("../" + v) == ["../"] + Pieces(v)
  {
    PiecesOfFolder("../", v);
  }

  lemma FolderAFirst(v: string)
    ensures Pieces("a/" + v) == ["a/"] + Pieces(v)
  {
    PiecesOfFolder("a/", v);
  }

  lemma JoinedDots()
    ensures Joined("a/../", "../../c") == "../../c"
  {
    hide Pieces, SlashIndex, PushPieces, Concat, Joined, NormalPieces;
    DottedPieces();
    var a, b := "a/../", "../../c";
    NoProtocol(a);
    assert b[0] == '.';
    LeftAgain();
    assert NormalPieces(["../", "../", "c"]) by { DotsAreNormal(); }
    JoinedToNothing(a, b);
  }

  lemma DotsAreNormal()
    ensures NormalPieces(["../", "../", "c"])
  {
  }

  /** What is joined to a folder that leads nowhere stays as it is. */
  lemma JoinedToNothing(a: string, b: string)
    requires PathStart(a) == 0 && !StartsWith(b, "/")
    requires PushPieces([], Pieces(a)) == [] && NormalPieces(Pieces(b))
    ensures Joined(a, b) == b
  {
    hide Pieces, PathStart, PushPieces, Concat, NormalPieces;
    assert a[..0] == "" && a[0..] == a;
    PiecesAreWellFormed(b);
    assert [] + Pieces(b) == Pieces(b);
    PushNormal([], Pieces(b));
  }

  lemma LeftAgain()
    ensures PushPieces([], ["a/", "../"]) == []
  {
    assert ["a/", "../"][1..] == ["../"] && ["../"][1..] == [];
    assert PushPiece([], "a/") == ["a/"] && PushPiece(["a/"], "../") == [];
    assert PushPieces([], []) == [] && PushPieces(["a/"], ["../"]) == [];
  }

  lemma NoProtocol(a: string)
    requires a != "" && a[0] != '/' && a[0] != 'h'
    ensures PathStart(a) == 0
  {
    assert "//"[0] == '/' && "http://"[0] == 'h' && "https://"[0] == 'h';
  }

  lemma PlainRoundTrip(from: string, to: string)
    requires NormalPath(to) && !IsAbsolute(to) && PathStart(PathOf(from)) == 0
    ensures Joined(PathOf(from), Relative(from, to)) == to <==> Returnable(from, to)
  {
    hide Pieces, PathStart, FolderEnd, Split, CanBeLeft, NormalPieces, CommonLength, Joined, Relative;
    CommonPrefixFits(from, to);
    var p := CommonFolderPrefix(from, to);
    hide CommonFolderPrefix;
    var f, t := from[|p|..], to[|p|..];
    assert from == p + f && to == p + t;
    PathOfBelow(p, f);
    RelativeBelow(from, to);
    RoundTripBelow(p, PathOf(f), t);
  }

  lemma RoundTripBelow(p: string, inner: string, t: string)
    requires FolderPath(p) && FolderPath(inner) && PathStart(p + inner) == 0
    requires NormalPath(p + t) && !StartsWith(p + t, "/")
    ensures Joined(p + inner, Ups(|Pieces(inner)|) + t) == p + t
      <==> CanBeLeft(Pieces(p), Pieces(inner)) && (Pieces(inner) == [] ==> !StartsWith(t, "/"))
  {
    hide Pieces, PathStart, CanBeLeft, NormalPath, Joined, FolderPath;
    if Pieces(inner) == [] && StartsWith(t, "/") {
      NoWayBackFromRoot(p + inner, t, p + t);
    } else {
      WayBack(p, inner, t);
    }
  }

  /** The relative path climbs out of the folders that the two do not have in common. */
  lemma RelativeBelow(from: string, to: string)
    requires !IsAbsolute(to)
    ensures var p := CommonFolderPrefix(from, to);
      Relative(from, to) == Ups(|Pieces(PathOf(from[|p|..]))|) + to[|p|..]
  {
    hide Pieces, FolderEnd, CommonLength;
    CommonPrefixFits(from, to);
    FolderCount(from[|CommonFolderPrefix(from, to)|..]);
  }

  lemma NoWayBackFromRoot(a: string, t: string, to: string)
    requires PathStart(a) == 0 && StartsWith(t, "/") && !StartsWith(to, "/")
    ensures Joined(a, Ups(0) + t) != to
  {
    hide Pieces, PathStart;
    assert Ups(0) + t == t && a[..0] == "";
    RootedPieces(t);
    assert Joined(a, t) == "" + Concat(PushPieces([], Pieces(t)));
  }

  lemma WayBack(p: string, inner: string, t: string)
    requires FolderPath(p) && FolderPath(inner) && PathStart(p + inner) == 0 && NormalPath(p + t)
    requires Pieces(inner) == [] ==> !StartsWith(t, "/")
    ensures Joined(p + inner, Ups(|Pieces(inner)|) + t) == p + t <==> CanBeLeft(Pieces(p), Pieces(inner))
  {
    hide Pieces, PathStart, CanBeLeft, UpPieces, NormalPieces, PushPieces, Concat;
    var a, n := p + inner, |Pieces(inner)|;
    var front, folders, tail := Pieces(p), Pieces(inner), Pieces(t);
    var b := Ups(n) + t;
    PiecesConcat(p, inner);
    PiecesConcat(p, t);
    PiecesOfUps(n, t);
    SplitNormal(front, tail);
    UpsDoNotStartAtRoot(n, t);
    assert a[0..] == a && a[..0] == "";
    var r := PushPieces(PushPieces([], front + folders), UpPieces(n) + tail);
    assert Joined(a, b) == "" + Concat(r) == Concat(r);
    SamePieces(front, folders, tail, r);
    ReturnsExactly(front, folders, tail);
    FolderPathConcat(p, inner);
    PushesAreWellFormed(a, b, r);
    PiecesOfConcat(r);
    PiecesAreWellFormed(p + t);
  }

  lemma FolderPathConcat(p: string, inner: string)
    requires FolderPath(p) && FolderPath(inner)
    ensures FolderPath(p + inner)
  {
    if inner == "" { assert p + inner == p; } else { assert (p + inner)[|p + inner| - 1] == inner[|inner| - 1]; }
  }

  lemma UpsDoNotStartAtRoot(n: nat, t: string)
    requires n > 0 || !StartsWith(t, "/")
    ensures !StartsWith(Ups(n) + t, "/")
  {
    if n == 0 {
      assert Ups(0) + t == t;
    } else {
      assert (Ups(n) + t)[0] == '.';
    }
  }

  lemma SamePieces(front: seq<string>, folders: seq<string>, tail: seq<string>, r: seq<string>)
    requires NormalPieces(front)
    requires r == PushPieces(PushPieces([], front + folders), UpPieces(|folders|) + tail)
    ensures r == PushPieces(Climb(PushPieces(front, folders), |folders|), tail)
  {
    PushConcat([], front, folders);
    assert [] + front == front;
    PushNormal([], front);
    PushConcat(PushPieces(front, folders), UpPieces(|folders|), tail);
  }

  lemma PushesAreWellFormed(a: string, b: string, r: seq<string>)
    requires FolderPath(a) && r == PushPieces(PushPieces([], Pieces(a)), Pieces(b))
    ensures WellFormed(r)
  {
    hide Pieces;
    assert a + "" == a;
    PiecesConcat(a, "");
    PiecesAreWellFormed(a);
    PiecesAreWellFormed(b);
    PushStaysWellFormed([], Pieces(a));
    PushStaysWellFormed(PushPieces([], Pieces(a)), Pieces(b));
  }
}
