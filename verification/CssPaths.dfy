/** The path algebra of the CSS plugin: joining, relativising and rewriting URLs (CSSPluginUtilities). */
module CssPaths {
  import opened Segments

  // ---------- small helpers of the source ----------

  predicate StartsWith(haystack: string, needle: string) {
    needle <= haystack
  }

  /** One past the last slash; 0 if there is none. */
  function FolderEnd(s: string): (e: nat)
    ensures e <= |s| && (e > 0 ==> s[e - 1] == '/')
    ensures forall j :: e <= j < |s| ==> s[j] != '/'
  {
    if s == "" then 0 else if s[|s| - 1] == '/' then |s| else FolderEnd(s[..|s| - 1])
  }

  /** The path of a file: all up to and including the last slash. */
  function PathOf(filename: string): string {
    filename[..FolderEnd(filename)]
  }

  function CommonLength(u: string, v: string): (n: nat)
    ensures n <= |u| && n <= |v| && u[..n] == v[..n]
    ensures n < |u| && n < |v| ==> u[n] != v[n]
  {
    if |u| == 0 || |v| == 0 || u[0] != v[0] then 0
    else
      var n := CommonLength(u[1..], v[1..]);
      assert u[..n + 1] == [u[0]] + u[1..][..n] && v[..n + 1] == [v[0]] + v[1..][..n];
      n + 1
  }

  function CommonFolderPrefix(u: string, v: string): string {
    PathOf(u[..CommonLength(u, v)])
  }

  /** Where the path proper of a URL begins: behind protocol and host. */
  function AfterPrefix(haystack: string, prefix: string): (i: nat)
    ensures i <= |haystack|
    ensures i > 0 ==> StartsWith(haystack, prefix) && i >= |prefix|
  {
    if StartsWith(haystack, prefix) then
      var i := SlashIndex(haystack[|prefix|..]);
      if |prefix| + i < |haystack| then |prefix| + i else |prefix|
    else 0
  }

  function PathStart(a: string): (i: nat)
    ensures i <= |a|
  {
    if AfterPrefix(a, "//") != 0 then AfterPrefix(a, "//")
    else if AfterPrefix(a, "http://") != 0 then AfterPrefix(a, "http://")
    else AfterPrefix(a, "https://")
  }

  // ---------- pieces: each ends at its slash, the last one perhaps without ----------

  function Pieces(path: string): (pieces: seq<string>)
    decreases |path|
  {
    var i := SlashIndex(path);
    if path == "" then []
    else if i == |path| then [path]
    else [path[..i + 1]] + Pieces(path[i + 1..])
  }

  function Concat(pieces: seq<string>): string {
    if |pieces| == 0 then "" else pieces[0] + Concat(pieces[1..])
  }

  function PushPiece(pieces: seq<string>, piece: string): seq<string> {
    if piece == "./" then pieces
    else if piece == "../" && |pieces| > 0 && pieces[|pieces| - 1] == "/" then pieces
    else if piece == "../" && |pieces| > 0 && pieces[|pieces| - 1] != "../" then pieces[..|pieces| - 1]
    else pieces + [piece]
  }

  function PushPieces(pieces: seq<string>, more: seq<string>): seq<string>
    decreases |more|
  {
    if |more| == 0 then pieces else PushPieces(PushPiece(pieces, more[0]), more[1..])
  }

  /** Where b leads when it is read in folder a, without detours: 'c/d/' and '../e' make 'c/e'. */
  function Joined(a: string, b: string): string {
    var start := PathStart(a);
    var below := if StartsWith(b, "/") then [] else PushPieces([], Pieces(a[start..]));
    a[..start] + Concat(PushPieces(below, Pieces(b)))
  }

  function Ups(n: nat): string {
    if n == 0 then "" else "../" + Ups(n - 1)
  }

  predicate IsAbsolute(path: string) {
    StartsWith(path, "/") || StartsWith(path, "http://") || StartsWith(path, "https://")
  }

  /** The number of folders that have to be left: one for each slash of the file's remaining path. */
  function Relative(from: string, to: string): string {
    if IsAbsolute(to) then to
    else
      var n := |CommonFolderPrefix(from, to)|;
      CommonPrefixFits(from, to);
      Ups(|Split(from[n..])| - 1) + to[n..]
  }

  lemma CommonPrefixFits(from: string, to: string)
    ensures var p := CommonFolderPrefix(from, to);
      && |p| <= |from| && |p| <= |to| && p == from[..|p|] == to[..|p|]
      && (|p| > 0 ==> p[|p| - 1] == '/')
  {
    var n := CommonLength(from, to);
    var e := FolderEnd(from[..n]);
    assert from[..n][..e] == from[..e] && to[..n][..e] == to[..e];
  }

  /** What rewriteUrls puts in the place of one URL. */
  function Rewritten(originalFile: string, newFile: string, url: string): string {
    Relative(newFile, Joined(PathOf(originalFile), url))
  }

  // ---------- the loops of the source ----------

  method Push(pieces: seq<string>, path: string) returns (r: seq<string>)
    ensures r == PushPieces(pieces, Pieces(path))
  {
    r := pieces;
    var rest := path;
    while |rest| > 0
      invariant PushPieces(r, Pieces(rest)) == PushPieces(pieces, Pieces(path))
      decreases |rest|
    {
      var slashIndex := SlashIndex(rest);
      var piece := if slashIndex < |rest| then rest[..slashIndex + 1] else rest;
      ghost var all := Pieces(rest);
      rest := if slashIndex < |rest| then rest[slashIndex + 1..] else "";
      assert all[0] == piece && all[1..] == Pieces(rest);
      r := PushPiece(r, piece);
    }
  }

  method JoinPaths(a: string, b: string) returns (r: string)
    ensures r == Joined(a, b)
  {
    var aPathStartIndex := PathStart(a);
    var pieces := Push([], a[aPathStartIndex..]);
    if |b| > 0 && b[0] == '/' {
      pieces := [];
    }
    pieces := Push(pieces, b);
    r := a[..aPathStartIndex] + Concat(pieces);
  }

  method CommonPrefix(str1: string, str2: string) returns (prefix: string)
    ensures prefix == str1[..CommonLength(str1, str2)]
  {
    var len := if |str1| < |str2| then |str1| else |str2|;
    var i := 0;
    while i < len
      invariant 0 <= i <= len && str1[..i] == str2[..i]
    {
      if str1[i] != str2[i] {
        CommonLengthIs(str1, str2, i);
        return str1[..i];
      }
      i := i + 1;
    }
    CommonLengthIs(str1, str2, len);
    return str1[..len];
  }

  lemma CommonLengthIs(u: string, v: string, n: nat)
    requires n <= |u| && n <= |v| && u[..n] == v[..n]
    requires n < |u| && n < |v| ==> u[n] != v[n]
    ensures CommonLength(u, v) == n
  {
    var m := CommonLength(u, v);
    assert forall j :: 0 <= j < n ==> u[..n][j] == u[j] && v[..n][j] == v[j];
    assert forall j :: 0 <= j < m ==> u[..m][j] == u[j] && v[..m][j] == v[j];
  }

  method RelativePath(from: string, to: string) returns (r: string)
    ensures r == Relative(from, to)
  {
    hide FolderEnd, CommonLength, Split, StartsWith;
    if IsAbsolute(to) {
      return to;
    }
    var prefix := CommonPrefix(from, to);
    prefix := PathOf(prefix);
    CommonPrefixFits(from, to);
    var upCount := |Split(from[|prefix|..])|;
    r := "";
    var i := 1;
    while i < upCount
      invariant 1 <= i <= upCount
      invariant r == Ups(i - 1)
    {
      UpsAppend(i - 1);
      r := r + "../";
      i := i + 1;
    }
    r := r + to[|prefix|..];
  }

  lemma UpsAppend(n: nat)
    ensures Ups(n) + "../" == Ups(n + 1)
  {
    if n > 0 {
      UpsAppend(n - 1);
      assert "../" + (Ups(n - 1) + "../") == ("../" + Ups(n - 1)) + "../";
    } else {
      assert Ups(1) == "../" + Ups(0);
    }
  }
}
