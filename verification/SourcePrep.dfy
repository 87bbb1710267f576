/** Blank lines become no-ops that the debugger stops at; no-ops that do not parse are taken back (core.py, run.py). */
module SourcePrep {
  import opened Basics

  const MAGIC := "__run_py__"
  const NOOP := MAGIC + " = 0\n"

  predicate White(c: char) {
    c == ' ' || c == '\t' || c == '\n' || c == '\r'
  }

  predicate IsBlank(line: string) {
    forall i :: 0 <= i < |line| ==> White(line[i])
  }

  /** The length of the white space in front. */
  function Indent(line: string): (n: nat)
    ensures n <= |line| && IsBlank(line[..n])
    ensures n < |line| ==> !White(line[n])
    ensures n == |line| <==> IsBlank(line)
  {
    if line == "" || !White(line[0]) then 0
    else
      var n := Indent(line[1..]);
      assert line[..n + 1] == [line[0]] + line[1..][..n];
      assert forall i :: 1 <= i < |line| ==> line[i] == line[1..][i - 1];
      n + 1
  }

  /** The last character that is not white space. */
  function LastChar(line: string): (c: char)
    requires !IsBlank(line)
    ensures !White(c)
    ensures exists i :: 0 <= i < |line| && line[i] == c && forall j :: i < j < |line| ==> White(line[j])
  {
    if White(line[|line| - 1]) then
      assert !IsBlank(line[..|line| - 1]) by {
        var i :| 0 <= i < |line| && !White(line[i]);
        assert line[..|line| - 1][i] == line[i];
      }
      LastChar(line[..|line| - 1])
    else line[|line| - 1]
  }

  predicate OpensBlock(line: string) {
    !IsBlank(line) && LastChar(line) == ':'
  }

  function WithoutNewlines(line: string): string {
    if |line| > 0 && line[|line| - 1] == '\n' then WithoutNewlines(line[..|line| - 1]) else line
  }

  // ---------- what the two passes make of each line ----------

  /**
   What a blank line after the first i lines is filled with: four more spaces than the block that begins at
   line i - 1, or at the blank lines before it.
   */
  function Filling(lines: seq<string>, i: nat): (filling: string)
    requires i <= |lines|
    ensures IsBlank(filling)
  {
    if i == 0 then ""
    else if IsBlank(lines[i - 1]) then Filling(lines, i - 1)
    else if OpensBlock(lines[i - 1]) then lines[i - 1][..Indent(lines[i - 1])] + "    "
    else ""
  }

  function AfterFirstPass(lines: seq<string>, i: nat): string
    requires i < |lines|
  {
    if IsBlank(lines[i]) && Filling(lines, i) != "" then Filling(lines, i) else lines[i]
  }

  /** The white space in front of the first line from i on that is not blank. */
  function NextIndent(lines: seq<string>, i: nat): (ws: string)
    requires i <= |lines|
    ensures IsBlank(ws)
    decreases |lines| - i
  {
    if i == |lines| then ""
    else if IsBlank(lines[i]) then NextIndent(lines, i + 1)
    else lines[i][..Indent(lines[i])]
  }

  function Longer(a: string, b: string): string {
    if |a| > |b| then a else b
  }

  function Prepared(lines: seq<string>, i: nat): string
    requires i < |lines|
  {
    if i > 0 && IsBlank(lines[i]) then
      Longer(WithoutNewlines(AfterFirstPass(lines, i)), NextIndent(lines, i)) + NOOP
    else lines[i]
  }

  method ReplaceEmptyLinesWithNoop(lines: array<string>)
    modifies lines
    ensures forall i :: 0 <= i < lines.Length ==> lines[i] == Prepared(old(lines[..]), i)
  {
    ghost var source := lines[..];
    var currIndent := -1;
    var currIndentStr := "";
    var i := 0;
    while i < lines.Length
      invariant 0 <= i <= lines.Length
      invariant forall j :: 0 <= j < i ==> lines[j] == AfterFirstPass(source, j)
      invariant forall j :: i <= j < lines.Length ==> lines[j] == source[j]
      invariant currIndent == -1 <==> Filling(source, i) == ""
      invariant currIndent != -1 ==> Filling(source, i) == currIndentStr + "    "
    {
      var line := lines[i];
      if IsBlank(line) {
        if currIndent != -1 {
          lines[i] := currIndentStr + "    ";
        }
      } else if LastChar(line) == ':' {
        currIndent := Indent(line);
        currIndentStr := line[..currIndent];
      } else {
        currIndent := -1;
      }
      i := i + 1;
    }
    ghost var filled := lines[..];
    var wsComputed := "";
    i := lines.Length - 1;
    while i > 0
      invariant -1 <= i < lines.Length && (lines.Length > 0 ==> i >= 0)
      invariant wsComputed == NextIndent(source, i + 1)
      invariant forall j :: 0 <= j <= i ==> lines[j] == AfterFirstPass(source, j)
      invariant forall j :: i < j < lines.Length && j > 0 ==> lines[j] == Prepared(source, j)
    {
      var line := lines[i];
      assert IsBlank(line) <==> IsBlank(source[i]);
      if IsBlank(line) {
        var wsUser := WithoutNewlines(line);
        lines[i] := (if |wsUser| > |wsComputed| then wsUser else wsComputed) + NOOP;
      } else {
        wsComputed := line[..Indent(line)];
      }
      i := i - 1;
    }
    assert lines.Length > 0 ==> lines[0] == AfterFirstPass(source, 0);
  }

  /** The last line of code before line i, if there is one. */
  ghost predicate IsCodeBefore(lines: seq<string>, i: nat, k: Option<nat>)
    requires i <= |lines|
  {
    && (k.Some? ==> k.value < i && !IsBlank(lines[k.value]))
    && forall j :: (if k.Some? then k.value + 1 else 0) <= j < i ==> IsBlank(lines[j])
  }

  /** The first line of code from line i on, if there is one. */
  ghost predicate IsCodeFrom(lines: seq<string>, i: nat, k: Option<nat>) {
    && (k.Some? ==> i <= k.value < |lines| && !IsBlank(lines[k.value]))
    && forall j :: i <= j < (if k.Some? then k.value else |lines|) ==> IsBlank(lines[j])
  }

  /** Blank lines are filled in behind a line that opens a block, and only there. */
  lemma {:induction false} FillingFollowsBlock(lines: seq<string>, i: nat, k: Option<nat>)
    requires i <= |lines| && IsCodeBefore(lines, i, k)
    ensures Filling(lines, i) ==
      if k.Some? && OpensBlock(lines[k.value]) then lines[k.value][..Indent(lines[k.value])] + "    " else ""
  {
    hide Indent, OpensBlock;
    if i == 0 || k == Some(i - 1) {
    } else {
      FillingFollowsBlock(lines, i - 1, k);
    }
  }

  lemma {:induction false} NextIndentIs(lines: seq<string>, i: nat, k: Option<nat>)
    requires i <= |lines| && IsCodeFrom(lines, i, k)
    ensures NextIndent(lines, i) == if k.Some? then lines[k.value][..Indent(lines[k.value])] else ""
    decreases |lines| - i
  {
    if i == |lines| || k == Some(i) {
    } else {
      NextIndentIs(lines, i + 1, k);
    }
  }

  /**
   The indent of a no-op: that of the next line of code, or, if this is wider, four more than the last line of code if
   that opens a block, and otherwise the blank line's own.
   */
  lemma NoopIndent(lines: seq<string>, i: nat, before: Option<nat>, after: Option<nat>)
    requires 0 < i < |lines| && IsBlank(lines[i]) && IsCodeBefore(lines, i, before) && IsCodeFrom(lines, i, after)
    ensures Indent(Prepared(lines, i)) == Most(
      if before.Some? && OpensBlock(lines[before.value]) then Indent(lines[before.value]) + 4
      else |WithoutNewlines(lines[i])|,
      if after.Some? then Indent(lines[after.value]) else 0)
    ensures Prepared(lines, i)[Indent(Prepared(lines, i))..] == MAGIC + " = 0\n"
  {
    hide Indent;
    FillingFollowsBlock(lines, i, before);
    NextIndentIs(lines, i, after);
    BlankIsNoop(lines, i);
  }

  /** The first line and all code stay as they are. */
  lemma CodeStays(lines: seq<string>, i: nat)
    requires i < |lines| && (i == 0 || !IsBlank(lines[i]))
    ensures Prepared(lines, i) == lines[i]
  {
  }

  lemma BlankIsNoop(lines: seq<string>, i: nat)
    requires 0 < i < |lines| && IsBlank(lines[i])
    ensures var ws := Longer(WithoutNewlines(AfterFirstPass(lines, i)), NextIndent(lines, i));
      Prepared(lines, i) == ws + NOOP && Indent(Prepared(lines, i)) == |ws|
    ensures Contains(Prepared(lines, i))
  {
    var own := AfterFirstPass(lines, i);
    BlankWithoutNewlines(own);
    var ws := Longer(WithoutNewlines(own), NextIndent(lines, i));
    IndentOf(ws, NOOP);
    var line := Prepared(lines, i);
    assert line[|ws|..] == NOOP;
    assert MagicAt(line, |ws|);
  }

  /** Newlines at the end are taken off, and nothing else. */
  lemma {:induction false} OnlyNewlinesGo(line: string)
    ensures var r := WithoutNewlines(line);
      && r <= line && (r != "" ==> r[|r| - 1] != '\n')
      && forall j :: |r| <= j < |line| ==> line[j] == '\n'
  {
    if |line| == 0 || line[|line| - 1] != '\n' {
    } else {
      OnlyNewlinesGo(line[..|line| - 1]);
    }
  }

  lemma {:induction false} BlankWithoutNewlines(line: string)
    requires IsBlank(line)
    ensures IsBlank(WithoutNewlines(line))
  {
    if |line| == 0 {
    } else {
      BlankWithoutNewlines(line[..|line| - 1]);
    }
  }

  lemma {:induction false} IndentOf(ws: string, code: string)
    requires IsBlank(ws) && code != "" && !White(code[0])
    ensures Indent(ws + code) == |ws|
  {
    if ws != "" {
      assert (ws + code)[1..] == ws[1..] + code;
      IndentOf(ws[1..], code);
    } else {
      assert ws + code == code;
    }
  }

  // ---------- taking no-ops back until the source parses ----------

  /** What the parser says: a rejection mostly names a line, counted from one. */
  datatype Parse = Accepted | RejectedAt(lineno: int) | Rejected

  predicate Contains(line: string) {
    exists i :: 0 <= i <= |line| && MagicAt(line, i)
  }

  predicate MagicAt(line: string, i: nat)
    requires i <= |line|
  {
    MAGIC <= line[i..]
  }

  function HoldsMagic(lines: seq<string>): (n: nat)
    ensures n <= |lines|
  {
    if |lines| == 0 then 0
    else (if Contains(lines[0]) then 1 else 0) + HoldsMagic(lines[1..])
  }

  /** Each line as it was, or a no-op taken back. */
  ghost predicate OnlyNoopsTaken(before: seq<string>, after: seq<string>) {
    |after| == |before| &&
    forall j :: 0 <= j < |before| ==> after[j] == before[j] || (Contains(before[j]) && after[j] == "\n")
  }

  /** The lines up to the given one without their no-ops. */
  function TakenBack(lines: seq<string>, upTo: nat): (r: seq<string>)
    requires upTo <= |lines|
    ensures |r| == |lines|
    ensures forall j :: 0 <= j < |lines| ==>
      r[j] == if j < upTo && Contains(lines[j]) then "\n" else lines[j]
  {
    seq(|lines|, j requires 0 <= j < |lines| => if j < upTo && Contains(lines[j]) then "\n" else lines[j])
  }

  lemma NewlineIsNoNoop()
    ensures !Contains("\n")
  {
  }

  lemma {:induction false} FewerNoops(before: seq<string>, after: seq<string>)
    requires OnlyNoopsTaken(before, after)
    ensures HoldsMagic(after) <= HoldsMagic(before)
    ensures after != before ==> HoldsMagic(after) < HoldsMagic(before)
  {
    NewlineIsNoNoop();
    if |before| == 0 {
    } else {
      assert OnlyNoopsTaken(before[1..], after[1..]);
      FewerNoops(before[1..], after[1..]);
      if before[0] == after[0] && before[1..] == after[1..] {
        assert before == [before[0]] + before[1..] && after == [after[0]] + after[1..];
      }
    }
  }

  /** One round: blanks every no-op from the named line back to the first. */
  method TakeBack(lines: array<string>, lineno: nat) returns (changed: bool)
    requires lineno <= lines.Length
    modifies lines
    ensures lines[..] == TakenBack(old(lines[..]), lineno)
    ensures changed <==> exists j :: 0 <= j < lineno && Contains(old(lines[..])[j])
  {
    ghost var before := lines[..];
    var i := lineno - 1;
    changed := false;
    while i >= 0
      invariant -1 <= i < lineno
      invariant forall j :: 0 <= j <= i ==> lines[j] == before[j]
      invariant forall j :: i < j < lines.Length ==> lines[j] == TakenBack(before, lineno)[j]
      invariant changed <==> exists j :: i < j < lineno && Contains(before[j])
    {
      if Contains(lines[i]) {
        lines[i] := "\n";
        changed := true;
      }
      i := i - 1;
    }
  }

  /** Taking back further than before is the same as going that far at once. */
  lemma TakenFurther(lines: seq<string>, m: nat, l: nat)
    requires m <= |lines| && l <= |lines|
    ensures TakenBack(TakenBack(lines, m), l) == TakenBack(lines, Most(m, l))
  {
    NewlineIsNoNoop();
  }

  /** What one round, whose parse named the given line, leaves alone has no no-op up to that line. */
  lemma NothingTaken(lines: seq<string>, l: nat)
    requires l <= |lines| && forall j :: 0 <= j < l ==> !Contains(lines[j])
    ensures TakenBack(lines, l) == lines
  {
  }

  /** Something has been taken back up to line m only because an earlier text was rejected there. */
  ghost predicate IsForced(lines: seq<string>, parse: seq<string> -> Parse, m: nat)
    requires m <= |lines|
  {
    m == 0 || exists k :: 0 <= k < m && parse(TakenBack(lines, k)) == RejectedAt(m)
  }

  ghost predicate IsRepaired(before: seq<string>, after: seq<string>, parse: seq<string> -> Parse, m: nat) {
    m <= |before| && after == TakenBack(before, m) && IsForced(before, parse, m)
  }

  /**
   For any parser: no-ops are taken back up to a line at which an earlier text was rejected, and no further; what is
   left is accepted, or rejected at a place with no no-op to take back.
   */
  method ComputeWrites(lines: array<string>, parse: seq<string> -> Parse) returns (ok: bool)
    modifies lines
    ensures OnlyNoopsTaken(old(lines[..]), lines[..])
    ensures exists m :: IsRepaired(old(lines[..]), lines[..], parse, m)
    ensures ok <==> parse(lines[..]).Accepted?
    ensures !ok && parse(lines[..]).RejectedAt? && parse(lines[..]).lineno <= lines.Length ==>
      forall j :: 0 <= j < parse(lines[..]).lineno ==> !Contains(lines[j])
  {
    ghost var before := lines[..];
    ghost var m := 0;
    assert TakenBack(before, 0) == before;
    while true
      invariant 0 <= m <= |before| && IsRepaired(before, lines[..], parse, m)
      decreases HoldsMagic(lines[..])
    {
      ghost var now := lines[..];
      OnlyNoopsAreTaken(before, m);
      match parse(lines[..])
      case Accepted =>
        return true;
      case Rejected =>
        return false;
      case RejectedAt(lineno) =>
        if lineno > lines.Length {
          return false;
        }
        var upTo := if lineno < 0 then 0 else lineno;
        var changed := TakeBack(lines, upTo);
        if !changed {
          NothingTaken(now, upTo);
          return false;
        }
        OneRound(before, now, parse, m, upTo);
        m := upTo;
        FewerNoops(now, lines[..]);
    }
  }

  lemma OnlyNoopsAreTaken(lines: seq<string>, m: nat)
    requires m <= |lines|
    ensures OnlyNoopsTaken(lines, TakenBack(lines, m))
  {
  }

  /** A round that changes something goes further than those before. */
  lemma OneRound(before: seq<string>, now: seq<string>, parse: seq<string> -> Parse, m: nat, l: nat)
    requires IsRepaired(before, now, parse, m) && l <= |before| && (l > 0 ==> parse(now) == RejectedAt(l))
    requires exists j :: 0 <= j < l && Contains(now[j])
    ensures m < l && IsRepaired(before, TakenBack(now, l), parse, l) && OnlyNoopsTaken(now, TakenBack(now, l))
    ensures TakenBack(now, l) != now
  {
    var j :| 0 <= j < l && Contains(now[j]);
    NewlineIsNoNoop();
    assert j >= m;
    TakenFurther(before, m, l);
    OnlyNoopsAreTaken(now, l);
    assert TakenBack(now, l)[j] == "\n" != now[j];
    assert parse(TakenBack(before, m)) == RejectedAt(l);
  }

  /** Lines of code without the magic name stay through preparation and repair, at their places. */
  lemma CodeSurvives(lines: seq<string>, prepared: seq<string>, repaired: seq<string>, i: nat)
    requires |prepared| == |lines| && forall j :: 0 <= j < |lines| ==> prepared[j] == Prepared(lines, j)
    requires OnlyNoopsTaken(prepared, repaired)
    requires i < |lines|
    ensures !IsBlank(lines[i]) && !Contains(lines[i]) ==> repaired[i] == lines[i]
    ensures IsBlank(lines[i]) ==> IsBlank(repaired[i]) || Contains(repaired[i])
  {
    if IsBlank(lines[i]) && i > 0 {
      BlankIsNoop(lines, i);
    }
  }
}
