/** What rewriteUrls promises: a rewritten URL leads from the new file to where it led from the original file. */
module CssRewriting {
  import opened Segments
  import opened CssPaths
  import opened CssRoundTrip

  /** Where a URL in a file leads. */
  function Resolved(file: string, url: string): string {
    Joined(PathOf(file), url)
  }

  /** The file's folder stands for no folder at all. */
  predicate NoFolder(file: string) {
    PushPieces([], Pieces(PathOf(file))) == []
  }

  /** The path can be written down in the file; all of this can be seen from the two texts. */
  predicate Expressible(file: string, to: string) {
    if !IsAbsolute(to) then Returnable(file, to)
    else PathStart(PathOf(file)) == 0 && NormalPath(to) && (StartsWith(to, "/") || NoFolder(file))
  }

  // ---------- absolute paths ----------

  /** What is pushed on a nameless folder stays above it. */
  lemma {:induction false} StaysAbove(floor: seq<string>, above: seq<string>, more: seq<string>)
    requires Stopped(floor)
    ensures floor <= PushPieces(floor + above, more)
    decreases |more|
  {
    if |more| == 0 {
    } else {
      var all := floor + above;
      var next := PushPiece(all, more[0]);
      assert above == [] ==> all == floor;
      if |next| < |all| {
        assert next == floor + above[..|above| - 1];
        StaysAbove(floor, above[..|above| - 1], more[1..]);
      } else if next == all {
        StaysAbove(floor, above, more[1..]);
      } else {
        assert next == floor + (above + [more[0]]);
        StaysAbove(floor, above + [more[0]], more[1..]);
      }
    }
  }

  lemma ProtocolPieces(to: string) returns (scheme: string)
    requires StartsWith(to, "http://") || StartsWith(to, "https://")
    ensures Folder(scheme) && Plain(scheme) && |Pieces(to)| >= 2 && Pieces(to)[0] == scheme && Pieces(to)[1] == "/"
  {
    hide Pieces, SlashIndex;
    scheme := if StartsWith(to, "http://") then "http:/" else "https:/";
    var rest := to[|scheme| + 1..];
    assert to == scheme + ("/" + rest) by { assert to[..|scheme| + 1] == scheme + "/"; }
    PiecesOfFolder(scheme, "/" + rest);
    PiecesOfFolder("/", rest);
  }

  /** A URL with a protocol is left alone only in a file without a folder. */
  lemma ProtocolNeedsNoFolder(below: seq<string>, pieces: seq<string>)
    requires |pieces| >= 2 && pieces[1] == "/" && Plain(pieces[0])
    ensures PushPieces(below, pieces) == pieces ==> below == []
  {
    var two := [pieces[0], "/"];
    assert pieces == two + pieces[2..];
    PushConcat(below, two, pieces[2..]);
    assert PushPieces(below, two) == below + two by {
      assert PushPiece(below, pieces[0]) == below + [pieces[0]];
      assert two[1..] == ["/"];
      assert PushPieces(below + [pieces[0]], ["/"]) == below + [pieces[0]] + ["/"];
    }
    assert (below + two) + [] == below + two;
    StaysAbove(below + two, [], pieces[2..]);
    SlashesPile(below, pieces);
    SomeSlash(below);
    assert |below| == 1 ==> (below + two)[1] == pieces[0];
    assert |below| > 1 ==> (below + two)[1] == below[1] && below[1] in below;
  }

  /** From a file without protocol or host, an absolute path leads to itself exactly under these conditions. */
  lemma PlainAbsolute(file: string, to: string)
    requires IsAbsolute(to) && PathStart(PathOf(file)) == 0
    ensures Resolved(file, to) == to <==> Expressible(file, to)
  {
    hide Pieces, PathStart, FolderEnd, PushPieces, Concat;
    var a := PathOf(file);
    FileFolder(file);
    var r := JoinedPieces(a, to);
    var below := if StartsWith(to, "/") then [] else PushPieces([], Pieces(a));
    assert a[0..] == a && a[..0] == "" && Resolved(file, to) == "" + Concat(r) == Concat(r);
    PiecesAreWellFormed(to);
    assert Resolved(file, to) == to <==> r == Pieces(to);
    if NormalPath(to) {
      assert [] + Pieces(to) == Pieces(to);
      PushNormal([], Pieces(to));
    }
    if !StartsWith(to, "/") {
      var scheme := ProtocolPieces(to);
      ProtocolNeedsNoFolder(below, Pieces(to));
    }
  }

  lemma FileFolder(file: string)
    ensures FolderPath(PathOf(file))
  {
    PathOfBelow("", file);
    assert "" + file == file;
  }

  /** A folder path behind protocol and host: these two parts, and the rest. */
  lemma HostParts(a: string) returns (prefix: string, host: string, rest: string)
    requires FolderPath(a) && PathStart(a) != 0
    ensures a[..PathStart(a)] == prefix + host && a[PathStart(a)..] == rest && '/' !in host
    ensures prefix == "//" || prefix == "http://" || prefix == "https://"
    ensures host != "" ==> StartsWith(rest, "/")
  {
    hide SlashIndex, FolderPath;
    prefix := if AfterPrefix(a, "//") != 0 then "//"
      else if AfterPrefix(a, "http://") != 0 then "http://"
      else "https://";
    HostAfter(a, prefix);
    host, rest := a[|prefix|..PathStart(a)], a[PathStart(a)..];
  }

  lemma HostAfter(a: string, prefix: string)
    requires FolderPath(a) && StartsWith(a, prefix) && prefix != ""
    ensures var i := AfterPrefix(a, prefix);
      && |prefix| <= i && a[..i] == prefix + a[|prefix|..i] && '/' !in a[|prefix|..i]
      && (i > |prefix| ==> StartsWith(a[i..], "/"))
  {
    var tail := a[|prefix|..];
    var i := SlashIndex(tail);
    if i < |tail| {
      assert a[|prefix|..|prefix| + i] == tail[..i] && a[|prefix| + i..][0] == tail[i];
    }
  }

  lemma PrefixPieces(prefix: string)
    requires prefix == "//" || prefix == "http://" || prefix == "https://"
    ensures FolderPath(prefix) && Slashes(Pieces(prefix)) == if prefix == "//" then 2 else 1
  {
    hide Pieces, Slashes;
    if prefix == "//" {
      SchemePieces("/");
      assert "/" + "/" == prefix;
    } else if prefix == "http://" {
      SchemePieces("http:/");
      assert "http:/" + "/" == prefix && "http:/"[0] != "/"[0];
    } else {
      SchemePieces("https:/");
      assert "https:/" + "/" == prefix && "https:/"[0] != "/"[0];
    }
  }

  lemma SchemePieces(scheme: string)
    requires Folder(scheme)
    ensures Slashes(Pieces(scheme + "/")) == 1 + if scheme == "/" then 1 else 0
  {
    hide Pieces, Slashes;
    PiecesOfFolder(scheme, "/");
    PiecesOfRoot();
    SlashesAppend([scheme], "/");
    SingleSlashes(scheme);
  }

  /** The nameless folders of a text with protocol and host in front. */
  lemma SlashesBehindHost(prefix: string, host: string, pieces: seq<string>)
    requires prefix == "//" || prefix == "http://" || prefix == "https://"
    requires '/' !in host && WellFormed(pieces) && (host != "" ==> |pieces| > 0 && pieces[0] == "/")
    ensures Slashes(Pieces(prefix + host + Concat(pieces)))
      == Slashes(pieces) + (if prefix == "//" then 2 else 1) - if host == "" then 0 else 1
  {
    hide Pieces, Slashes;
    PrefixPieces(prefix);
    PiecesOfConcat(pieces);
    var text := prefix + host + Concat(pieces);
    if host == "" {
      assert text == prefix + Concat(pieces);
      PiecesConcat(prefix, Concat(pieces));
      SlashesConcat(Pieces(prefix), pieces);
    } else {
      var folder, rest := host + "/", pieces[1..];
      assert pieces == ["/"] + rest;
      assert WellFormed(rest) by { RestIsWellFormed(pieces); }
      PiecesOfConcat(rest);
      assert text == prefix + (folder + Concat(rest));
      PiecesConcat(prefix, folder + Concat(rest));
      PiecesOfFolder(folder, Concat(rest));
      SlashesConcat(Pieces(prefix), [folder] + rest);
      SlashesConcat([folder], rest);
      SlashesConcat(["/"], rest);
      SingleSlashes(folder);
      SingleSlashes("/");
    }
  }

  lemma SingleSlashes(piece: string)
    ensures Slashes([piece]) == if piece == "/" then 1 else 0
  {
    SlashesAppend([], piece);
    assert [] + [piece] == [piece];
  }

  lemma RestIsWellFormed(pieces: seq<string>)
    requires WellFormed(pieces) && |pieces| > 0
    ensures WellFormed(pieces[1..])
  {
    var rest := pieces[1..];
    if |rest| > 0 {
      assert forall k :: 0 <= k < |rest| - 1 ==> rest[k] == pieces[..|pieces| - 1][k + 1];
    }
  }

  /** From behind a protocol or a host no absolute path leads to itself: there is one nameless folder too many. */
  lemma HostedAbsolute(file: string, to: string)
    requires IsAbsolute(to) && PathStart(PathOf(file)) != 0
    ensures Resolved(file, to) != to
  {
    hide Pieces, PathStart, FolderEnd, PushPieces, Slashes, SlashIndex, Concat;
    var a := PathOf(file);
    FileFolder(file);
    var prefix, host, rest := HostParts(a);
    var r := JoinedPieces(a, to);
    var below := if StartsWith(to, "/") then [] else PushPieces([], Pieces(rest));
    assert Resolved(file, to) == prefix + host + Concat(r);
    if Resolved(file, to) == to {
      assert to[0] == prefix[0];
      assert "//"[0] == '/' && "http://"[0] == 'h' && "https://"[0] == 'h' && "/"[0] == '/';
      SlashesPile(below, Pieces(to));
      if host != "" {
        BelowIsRooted(to, rest, below, r);
      }
      SlashesBehindHost(prefix, host, r);
    }
  }

  /** The stack begins with a nameless folder, from the path itself or from the folder behind the host. */
  lemma BelowIsRooted(to: string, rest: string, below: seq<string>, r: seq<string>)
    requires StartsWith(rest, "/")
    requires below == (if StartsWith(to, "/") then [] else PushPieces([], Pieces(rest)))
    requires r == PushPieces(below, Pieces(to))
    ensures |r| > 0 && r[0] == "/"
    ensures !StartsWith(to, "/") ==> Slashes(below) > 0
  {
    if StartsWith(to, "/") {
      RootedPieces(to);
    } else {
      RootedPieces(rest);
      RootStays(below, Pieces(to));
      SomeSlash(below);
      assert below[0] in below;
    }
  }

  /** An absolute path leads to itself from a file exactly if it is expressible there. */
  lemma AbsoluteRoundTrip(file: string, to: string)
    requires IsAbsolute(to)
    ensures Resolved(file, to) == to <==> Expressible(file, to)
  {
    if PathStart(PathOf(file)) == 0 {
      PlainAbsolute(file, to);
    } else {
      HostedAbsolute(file, to);
    }
  }

  // ---------- all paths ----------

  /** Relative paths that URLs lead to are in normal form. */
  lemma RelativeIsNormal(file: string, url: string)
    requires !IsAbsolute(Resolved(file, url))
    ensures NormalPath(Resolved(file, url))
  {
    hide FolderEnd, PathStart, Pieces;
    FileFolder(file);
    var a := PathOf(file);
    if PathStart(a) != 0 {
      ProtocolIsAbsolute(a, url);
    }
    JoinedIsNormal(a, url);
    assert Joined(a, url)[0..] == Joined(a, url);
  }

  /**
   Rewriting, exactly, for all files and URLs: the rewritten URL leads from the new file to where the original led from
   the original file if and only if that path is expressible in the new file.
   */
  lemma RewritingKeepsMeaning(originalFile: string, newFile: string, url: string)
    ensures Resolved(newFile, Rewritten(originalFile, newFile, url)) == Resolved(originalFile, url)
      <==> Expressible(newFile, Resolved(originalFile, url))
  {
    hide FolderEnd, PathStart, Pieces, Joined, Returnable;
    var to := Resolved(originalFile, url);
    if IsAbsolute(to) {
      AbsoluteRoundTrip(newFile, to);
    } else {
      RelativeIsNormal(originalFile, url);
      RelativeRoundTrip(newFile, to);
    }
  }

  /** The replacement for one URL; it leads to the same place if that can be expressed in the new file at all. */
  method RewriteUrl(originalFile: string, newFile: string, url: string) returns (r: string)
    ensures Resolved(newFile, r) == Resolved(originalFile, url) <==> Expressible(newFile, Resolved(originalFile, url))
    ensures r == Rewritten(originalFile, newFile, url)
  {
    var absoluteUrl := JoinPaths(PathOf(originalFile), url);
    r := RelativePath(newFile, absoluteUrl);
    RewritingKeepsMeaning(originalFile, newFile, url);
  }

  // ---------- the ordinary case ----------

  /** No folder of the file is nameless, '.' or '..'. */
  predicate NamedFolders(file: string) {
    forall k :: 0 <= k < |Pieces(PathOf(file))| ==> Plain(Pieces(PathOf(file))[k])
  }

  /** A file in named folders expresses every relative path without doubled slashes. */
  lemma NamedIsReturnable(newFile: string, to: string)
    requires NamedFolders(newFile) && "/" !in Pieces(to)
    ensures Returnable(newFile, to)
  {
    hide Pieces, FolderEnd, CommonLength, NamedFolders;
    CommonPrefixFits(newFile, to);
    var p := CommonFolderPrefix(newFile, to);
    var f, t := newFile[|p|..], to[|p|..];
    assert newFile == p + f && to == p + t;
    NamedCanBeLeft(p, f);
    if StartsWith(t, "/") {
      RootInside(p, t);
    }
  }

  lemma NamedCanBeLeft(p: string, f: string)
    requires FolderPath(p) && NamedFolders(p + f)
    ensures CanBeLeft(Pieces(p), Pieces(PathOf(f)))
  {
    hide Pieces, FolderEnd;
    PathOfBelow(p, f);
    PiecesConcat(p, PathOf(f));
    var all, folders := Pieces(PathOf(p + f)), Pieces(PathOf(f));
    forall k | 0 <= k < |folders| ensures Plain(folders[k]) {
      assert all[|Pieces(p)| + k] == folders[k];
    }
  }

  lemma RootInside(p: string, t: string)
    requires FolderPath(p) && StartsWith(t, "/")
    ensures "/" in Pieces(p + t)
  {
    hide Pieces;
    PiecesConcat(p, t);
    assert t == "/" + t[1..];
    PiecesOfFolder("/", t[1..]);
    assert (Pieces(p) + Pieces(t))[|Pieces(p)|] == "/";
  }
}
