/** Where a joined path leads, said of the texts alone: protocol and host stay, and the rest is read step by step. */
module CssLaws {
  import opened Segments
  import opened CssPaths
  import opened CssRoundTrip

  // ---------- protocol and host ----------

  predicate IsPrefix(prefix: string) {
    prefix == "//" || prefix == "http://" || prefix == "https://"
  }

  predicate Hostless(a: string) {
    !StartsWith(a, "//") && !StartsWith(a, "http://") && !StartsWith(a, "https://")
  }

  lemma HostlessStart(a: string)
    ensures Hostless(a) <==> PathStart(a) == 0
  {
  }

  /** The path of a text with protocol and host begins at the slash behind the host. */
  lemma HostIsSkipped(prefix: string, host: string, rest: string)
    requires IsPrefix(prefix) && '/' !in host
    ensures PathStart(prefix + host + "/" + rest) == |prefix + host|
    ensures PathStart(prefix) == |prefix|
  {
    hide SlashIndex;
    BehindPrefixIs(prefix, host, rest);
    var a := prefix + host + "/" + rest;
    assert a[..|prefix|] == prefix;
    OtherPrefixes(prefix, a);
    OtherPrefixes(prefix, prefix);
    assert prefix[|prefix|..] == "";
  }

  lemma BehindPrefixIs(prefix: string, host: string, rest: string)
    requires '/' !in host && prefix != ""
    ensures AfterPrefix(prefix + host + "/" + rest, prefix) == |prefix + host|
    ensures AfterPrefix(prefix, prefix) == |prefix|
  {
    var a := prefix + host + "/" + rest;
    var tail := a[|prefix|..];
    assert tail == host + "/" + rest;
    assert forall j :: 0 <= j < |host| ==> tail[j] == host[j];
    SlashIndexIs(tail, |host|);
    assert a[..|prefix|] == prefix;
  }

  lemma OtherPrefixes(prefix: string, a: string)
    requires IsPrefix(prefix) && StartsWith(a, prefix)
    ensures prefix != "//" ==> AfterPrefix(a, "//") == 0
    ensures prefix == "https://" ==> AfterPrefix(a, "http://") == 0
  {
    hide SlashIndex;
    assert "//"[0] == '/' && "http://"[0] == 'h' && "https://"[0] == 'h' && "https://"[4] == 's' && "http://"[4] == ':';
    assert forall j :: 0 <= j < |prefix| ==> a[j] == prefix[j];
  }

  /** Without protocol and host, b is read from the end of folder a, or from the root. */
  lemma JoinedIsRead(a: string, b: string)
    requires FolderPath(a) && Hostless(a)
    ensures Joined(a, b) == Joined("", if StartsWith(b, "/") then b else a + b)
  {
    hide Pieces, PathStart, PushPieces, Concat, StartsWith;
    HostlessStart(a);
    HostlessStart("");
    NothingBelow();
    assert a[..0] == "" && a[0..] == a;
    PiecesConcat(a, b);
    PushConcat([], Pieces(a), Pieces(b));
  }

  lemma NothingBelow()
    ensures PushPieces([], Pieces("")) == [] && Hostless("")
  {
    PiecesOfNothing();
  }

  /** Protocol and host stay; behind them, b is read from the end of the path, or from the host's root. */
  lemma HostStays(prefix: string, host: string, rest: string, b: string)
    requires IsPrefix(prefix) && '/' !in host && FolderPath("/" + rest)
    ensures Joined(prefix + host + "/" + rest, b)
      == prefix + host + Joined("", if StartsWith(b, "/") then b else "/" + rest + b)
    ensures Joined(prefix, b) == prefix + Joined("", b)
  {
    hide Pieces, PathStart, PushPieces, Concat, StartsWith;
    var a := prefix + host + "/" + rest;
    HostIsSkipped(prefix, host, rest);
    HostlessStart("");
    NothingBelow();
    var start := |prefix + host|;
    assert a[..start] == prefix + host && a[start..] == "/" + rest;
    PiecesConcat("/" + rest, b);
    PushConcat([], Pieces("/" + rest), Pieces(b));
    assert prefix[..|prefix|] == prefix && prefix[|prefix|..] == "";
    assert Joined("", b) == Concat(PushPieces([], Pieces(b)));
  }

  // ---------- the way back ----------

  /** No folder that two paths have in common reaches further than the one that they are compared below. */
  lemma CommonFolderIsLongest(from: string, to: string, folder: string)
    requires FolderPath(folder) && folder <= from && folder <= to
    ensures folder <= CommonFolderPrefix(from, to)
  {
    var n := CommonLength(from, to);
    assert forall k :: 0 <= k < |folder| ==> from[k] == folder[k] == to[k];
    var e := FolderEnd(from[..n]);
    assert folder != "" ==> from[..n][|folder| - 1] == '/';
    assert CommonFolderPrefix(from, to) == from[..e] && folder == from[..e][..|folder|];
  }

  /** Files side by side, or below one another, are reached without a detour. */
  lemma NoDetour(folder: string, file: string, to: string)
    requires FolderPath(folder) && '/' !in file && !IsAbsolute(folder + to)
    ensures Relative(folder + file, folder + to) == to
  {
    hide FolderEnd, CommonLength, SlashIndex;
    var a, b := folder + file, folder + to;
    CommonFolderIsLongest(a, b, folder);
    CommonPrefixFits(a, b);
    var p := CommonFolderPrefix(a, b);
    assert forall k :: |folder| <= k < |a| ==> a[k] == file[k - |folder|];
    assert |p| > 0 ==> a[|p| - 1] == '/';
    assert p == folder && a[|p|..] == file && b[|p|..] == to;
    SplitPlain(file);
  }

  // ---------- what each step does ----------

  lemma ReadIsPushed(path: string)
    ensures Joined("", path) == Concat(PushPieces([], Pieces(path)))
  {
    hide Pieces, PathStart, PushPieces, Concat, StartsWith;
    HostlessStart("");
    NothingBelow();
  }

  /** Steps in the middle that together change nothing can be left out. */
  lemma StepsGo(path: string, steps: string, rest: string)
    requires FolderPath(path) && FolderPath(steps)
    requires PushPieces(PushPieces([], Pieces(path)), Pieces(steps)) == PushPieces([], Pieces(path))
    ensures Joined("", path + steps + rest) == Joined("", path + rest)
  {
    hide Pieces, PushPieces, Concat, Joined, FolderPath;
    ReadIsPushed(path + steps + rest);
    ReadIsPushed(path + rest);
    assert path + steps + rest == path + (steps + rest);
    PiecesConcat(path, steps + rest);
    PiecesConcat(steps, rest);
    PiecesConcat(path, rest);
    PushConcat([], Pieces(path), Pieces(steps) + Pieces(rest));
    PushConcat(PushPieces([], Pieces(path)), Pieces(steps), Pieces(rest));
    PushConcat([], Pieces(path), Pieces(rest));
  }

  /** './' leads nowhere. */
  lemma DotGoes(path: string, rest: string)
    requires FolderPath(path)
    ensures Joined("", path + "./" + rest) == Joined("", path + rest)
  {
    hide Pieces, Joined;
    OnePiece("./");
    StepsGo(path, "./", rest);
  }

  lemma OnePiece(piece: string)
    requires Folder(piece)
    ensures Pieces(piece) == [piece]
  {
    hide Pieces;
    PiecesOfFolder(piece, "");
    PiecesOfNothing();
    assert piece + "" == piece;
  }

  /** '../' leaves the folder before it, if that has a name. */
  lemma UpLeavesNamed(path: string, name: string, rest: string)
    requires FolderPath(path) && '/' !in name && name != "" && name != "." && name != ".."
    ensures Joined("", path + name + "/../" + rest) == Joined("", path + rest)
  {
    hide Pieces, Joined;
    var folder := name + "/";
    assert folder[..|folder| - 1] == name;
    assert folder != "./" && folder != "../" && folder != "/" by {
      assert "./"[..1] == "." && "../"[..2] == ".." && "/"[..0] == "";
    }
    OnePiece("../");
    PiecesOfFolder(folder, "../");
    UpTakesBack(PushPieces([], Pieces(path)), folder);
    StepsGo(path, folder + "../", rest);
    assert path + (folder + "../") + rest == path + name + "/../" + rest;
  }

  lemma UpTakesBack(pieces: seq<string>, folder: string)
    requires folder != "./" && folder != "../" && folder != "/"
    ensures PushPieces(pieces, [folder] + ["../"]) == pieces
  {
    var more := [folder] + ["../"];
    assert more[1..] == ["../"] && ["../"][1..] == [];
    assert (pieces + [folder])[..|pieces|] == pieces;
    assert PushPieces(pieces, more) == PushPieces(pieces + [folder], ["../"]) == PushPieces(pieces, []);
  }

  /** At the root, and at a doubled slash, '../' leads nowhere. */
  lemma RootStops(path: string, rest: string)
    requires FolderPath(path)
    ensures Joined("", path + "/../" + rest) == Joined("", path + "/" + rest)
  {
    hide Pieces, Joined;
    var root := path + "/";
    OnePiece("../");
    OnePiece("/");
    PiecesConcat(path, "/");
    PushConcat([], Pieces(path), ["/"]);
    UpStays(PushPieces([], Pieces(path)));
    StepsGo(root, "../", rest);
    assert root + "../" + rest == path + "/../" + rest;
  }

  lemma UpStays(pieces: seq<string>)
    ensures PushPieces(PushPieces(pieces, ["/"]), ["../"]) == PushPieces(pieces, ["/"])
  {
    assert ["/"][1..] == [] && ["../"][1..] == [];
    assert PushPieces(pieces, ["/"]) == PushPieces(pieces + ["/"], []) == pieces + ["/"];
    assert PushPieces(pieces + ["/"], ["../"]) == PushPieces(pieces + ["/"], []);
  }

  /** What goes down into named folders only is put behind the folder as it is. */
  lemma NamedStays(a: string, b: string)
    requires FolderPath(a) && Hostless(a) && NormalPath(a)
    requires forall k :: 0 <= k < |Pieces(b)| ==> Pieces(b)[k] != "./" && Pieces(b)[k] != "../" && Pieces(b)[k] != "/"
    ensures Joined(a, b) == a + b
  {
    hide Pieces, PathStart, PushPieces, Joined, SlashIndex;
    if StartsWith(b, "/") {
      RootShows(b);
    }
    JoinedIsRead(a, b);
    PiecesConcat(a, b);
    NormalPathsAreFixed(a + b);
  }

  lemma RootShows(b: string)
    requires StartsWith(b, "/")
    ensures |Pieces(b)| > 0 && Pieces(b)[0] == "/"
  {
    hide Pieces;
    assert b == "/" + b[1..];
    PiecesOfFolder("/", b[1..]);
  }
}
