/** The list of the servers used last (cli/src/tunnels/paths.rs, cli/src/tunnels/code_server.rs). */
module RecentServers {
  import opened Basics

  datatype Server = Server(quality: string, commit: string, headless: bool)

  const MAX_RETAINED_SERVERS: nat := 5

  /** The list without its first s. */
  function Without(list: seq<Server>, s: Server): seq<Server> {
    if |list| == 0 then [] else if list[0] == s then list[1..] else [list[0]] + Without(list[1..], s)
  }

  /** All servers ever used, each once, the one used last in front. */
  function Recent(history: seq<Server>): seq<Server> {
    if |history| == 0 then []
    else
      var n := |history| - 1;
      [history[n]] + Without(Recent(history[..n]), history[n])
  }

  // ---------- facts about the full list ----------

  ghost predicate Distinct(list: seq<Server>) {
    forall i, j :: 0 <= i < j < |list| ==> list[i] != list[j]
  }

  lemma {:induction false} WithoutHolds(list: seq<Server>, s: Server, t: Server)
    requires Distinct(list)
    ensures t in Without(list, s) <==> t in list && t != s
  {
    if |list| == 0 {
    } else {
      assert list == [list[0]] + list[1..];
      FirstIsAlone(list);
      WithoutHolds(list[1..], s, t);
    }
  }

  lemma FirstIsAlone(list: seq<Server>)
    requires |list| > 0 && Distinct(list)
    ensures list[0] !in list[1..] && Distinct(list[1..])
  {
    assert forall j :: 0 <= j < |list[1..]| ==> list[1..][j] == list[j + 1] && list[j + 1] != list[0];
  }

  lemma {:induction false} WithoutIsRest(list: seq<Server>, s: Server)
    requires Distinct(list)
    ensures Distinct(Without(list, s))
    ensures forall t :: t in Without(list, s) <==> t in list && t != s
    ensures |Without(list, s)| == if s in list then |list| - 1 else |list|
  {
    forall t ensures t in Without(list, s) <==> t in list && t != s {
      WithoutHolds(list, s, t);
    }
    if |list| == 0 {
    } else {
      assert list == [list[0]] + list[1..];
      FirstIsAlone(list);
      hide Distinct;
      WithoutIsRest(list[1..], s);
      if list[0] != s {
        DistinctCons(list[0], Without(list[1..], s));
      }
    }
  }

  lemma DistinctCons(x: Server, rest: seq<Server>)
    requires Distinct(rest) && x !in rest
    ensures Distinct([x] + rest)
  {
  }

  /** The full list holds exactly the servers of the history, each once. */
  lemma {:induction false} RecentIsDistinct(history: seq<Server>)
    ensures Distinct(Recent(history))
    ensures forall s :: s in Recent(history) <==> s in history
  {
    if |history| == 0 {
    } else {
      var n := |history| - 1;
      assert history == history[..n] + [history[n]];
      RecentIsDistinct(history[..n]);
      WithoutIsRest(Recent(history[..n]), history[n]);
    }
  }

  /** The position of the last use; -1 if there is none. */
  function LastUse(history: seq<Server>, s: Server): (k: int)
    ensures -1 <= k < |history|
  {
    if |history| == 0 then -1
    else if history[|history| - 1] == s then |history| - 1
    else LastUse(history[..|history| - 1], s)
  }

  lemma {:induction false} LastUseIsLast(history: seq<Server>, s: Server)
    ensures LastUse(history, s) >= 0 ==> history[LastUse(history, s)] == s
    ensures forall k :: LastUse(history, s) < k < |history| ==> history[k] != s
  {
    if |history| == 0 || history[|history| - 1] == s {
    } else {
      var n := |history| - 1;
      LastUseIsLast(history[..n], s);
      assert LastUse(history, s) == LastUse(history[..n], s);
      hide LastUse;
      assert forall k :: 0 <= k < n ==> history[..n][k] == history[k];
    }
  }

  /** The full list is ordered by last use, the latest in front. */
  lemma {:induction false} RecentIsOrdered(history: seq<Server>, i: nat, j: nat)
    requires i < j < |Recent(history)|
    ensures LastUse(history, Recent(history)[i]) > LastUse(history, Recent(history)[j])
  {
    var n := |history| - 1;
    var s, older, rest := history[n], Recent(history[..n]), Without(Recent(history[..n]), history[n]);
    var all := Recent(history);
    assert all == [s] + rest;
    RestDiffers(history[..n], s, j - 1);
    hide Recent, Without, LastUse;
    LastUseBefore(history, all[j]);
    if i > 0 {
      RestDiffers(history[..n], s, i - 1);
      LastUseBefore(history, all[i]);
      var a, b := OrderKept(older, s, i - 1, j - 1);
      assert all[i] == older[a] && all[j] == older[b];
      RecentIsOrdered(history[..n], a, b);
    } else {
      LastUseNow(history);
    }
  }

  lemma RestDiffers(history: seq<Server>, s: Server, k: nat)
    requires k < |Without(Recent(history), s)|
    ensures Without(Recent(history), s)[k] != s
  {
    RecentIsDistinct(history);
    WithoutIsRest(Recent(history), s);
    assert Without(Recent(history), s)[k] in Without(Recent(history), s);
  }

  lemma LastUseBefore(history: seq<Server>, s: Server)
    requires |history| > 0 && s != history[|history| - 1]
    ensures LastUse(history, s) == LastUse(history[..|history| - 1], s) < |history| - 1
  {
  }

  lemma LastUseNow(history: seq<Server>)
    requires |history| > 0
    ensures LastUse(history, history[|history| - 1]) == |history| - 1
  {
  }

  lemma {:induction false} OrderKept(list: seq<Server>, s: Server, i: nat, j: nat) returns (a: nat, b: nat)
    requires i < j < |Without(list, s)|
    ensures a < b < |list| && list[a] == Without(list, s)[i] && list[b] == Without(list, s)[j]
  {
    if list[0] == s {
      a, b := i + 1, j + 1;
    } else if i > 0 {
      a, b := OrderKept(list[1..], s, i - 1, j - 1);
      a, b := a + 1, b + 1;
    } else {
      a := 0;
      b := Kept(list[1..], s, j - 1);
      b := b + 1;
    }
  }

  lemma {:induction false} Kept(list: seq<Server>, s: Server, j: nat) returns (b: nat)
    requires j < |Without(list, s)|
    ensures b < |list| && list[b] == Without(list, s)[j]
  {
    if list[0] == s {
      b := j + 1;
    } else if j == 0 {
      b := 0;
    } else {
      b := Kept(list[1..], s, j - 1);
      b := b + 1;
    }
  }

  /** A server moved to the front of a prefix of the full list makes a prefix of the new full list. */
  lemma {:induction false} PrefixWithout(list: seq<Server>, m: nat, s: Server)
    requires m <= |list| && Distinct(list)
    ensures Without(list[..m], s) <= Without(list, s)
  {
    if m == 0 {
    } else {
      assert list[..m][1..] == list[1..][..m - 1];
      PrefixWithout(list[1..], m - 1, s);
    }
  }

  // ---------- the stored list ----------

  class LastUsedServers {
    var state: seq<Server>
    /** The servers whose directories have been removed, in order. */
    var removed: seq<Server>
    ghost var history: seq<Server>

    /** The stored list is the beginning of the full list, and long enough. */
    ghost predicate Valid()
      reads this
    {
      state <= Recent(history) && |state| >= Least(MAX_RETAINED_SERVERS, |Recent(history)|)
    }

    constructor ()
      ensures Valid() && history == [] && state == [] && removed == []
    {
      state, removed, history := [], [], [];
    }

    method Position(server: Server) returns (index: int)
      ensures -1 <= index < |state|
      ensures index == -1 <==> server !in state
      ensures index >= 0 ==> state[index] == server && server !in state[..index]
    {
      index := 0;
      while index < |state|
        invariant 0 <= index <= |state| && server !in state[..index]
      {
        if state[index] == server {
          return;
        }
        index := index + 1;
      }
      index := -1;
    }

    /** The server has been used; a failing write leaves the list in memory changed all the same. */
    method Add(server: Server, saved: bool) returns (count: nat, ok: bool)
      requires Valid()
      modifies `state, `history
      ensures Valid() && history == old(history) + [server]
      ensures state == [server] + Without(old(state), server)
      ensures count == |state| && ok == saved
    {
      var index := Position(server);
      ghost var list := state;
      if index >= 0 {
        WithoutAt(state, server, index);
        state := state[..index] + state[index + 1..];
      } else {
        WithoutNone(state, server);
      }
      state := [server] + state;
      count := |state|;
      ok := saved;
      var full := Recent(history);
      RecentIsDistinct(history);
      WithoutIsRest(full, server);
      PrefixWithout(full, |list|, server);
      assert full[..|list|] == list;
      DistinctPrefix(full, list);
      WithoutIsRest(list, server);
      assert (history + [server])[..|history|] == history;
      history := history + [server];
    }

    /** Forgets the oldest servers beyond a number; stops without saving at a directory that cannot be removed. */
    method Trim(maxServers: nat, stuck: set<Server>, saved: bool) returns (ok: bool)
      modifies `state, `removed
      ensures old(Valid()) && maxServers >= MAX_RETAINED_SERVERS ==> Valid()
      ensures ok ==> |state| <= maxServers && state == old(state)[..Least(maxServers, |old(state)|)]
      ensures !ok && saved ==> state == old(state)
      ensures ok <==> saved && forall i :: maxServers <= i < |old(state)| ==> old(state)[i] !in stuck
      ensures (forall i :: maxServers <= i < |old(state)| ==> old(state)[i] !in stuck) ==>
        removed == old(removed) + Reversed(old(state)[Least(maxServers, |old(state)|)..])
    {
      var servers := state;
      assert servers[|servers|..] == [];
      assert removed == removed + [];
      while |servers| > maxServers
        invariant state == old(state) && |servers| <= |state| && servers == state[..|servers|]
        invariant |servers| >= Least(maxServers, |state|)
        invariant removed == old(removed) + Reversed(state[|servers|..])
        invariant forall i :: |servers| <= i < |state| ==> state[i] !in stuck
      {
        var n := |servers| - 1;
        var server := servers[n];
        servers := servers[..n];
        if server in stuck {
          assert state[n] in stuck;
          return false;
        }
        assert state[n..] == [server] + state[n + 1..];
        removed := removed + [server];
      }
      state := servers;
      ok := saved;
    }

    /** What a successful installation does with the list; failures are only logged. */
    method Setup(server: Server, addSaved: bool, stuck: set<Server>, trimSaved: bool)
      requires Valid()
      modifies this
      ensures Valid() && history == old(history) + [server]
      ensures addSaved && trimSaved && stuck == {} ==>
        state == Recent(history)[..Least(MAX_RETAINED_SERVERS, |Recent(history)|)]
    {
      var count, ok := Add(server, addSaved);
      if ok && count > MAX_RETAINED_SERVERS {
        var trimmed := Trim(MAX_RETAINED_SERVERS, stuck, trimSaved);
      }
    }
  }

  function Reversed(list: seq<Server>): seq<Server> {
    if |list| == 0 then [] else Reversed(list[1..]) + [list[0]]
  }

  lemma {:induction false} WithoutAt(list: seq<Server>, s: Server, index: nat)
    requires index < |list| && list[index] == s && s !in list[..index]
    ensures Without(list, s) == list[..index] + list[index + 1..]
  {
    hide Without;
    WithoutHead(list, s);
    if index == 0 {
    } else {
      CutBehindHead(list, index);
      WithoutAt(list[1..], s, index - 1);
      MoveBracket([list[0]], list[1..][..index - 1], list[1..][index..]);
    }
  }

  lemma WithoutHead(list: seq<Server>, s: Server)
    requires |list| > 0
    ensures Without(list, s) == if list[0] == s then list[1..] else [list[0]] + Without(list[1..], s)
  {
  }

  lemma CutBehindHead(list: seq<Server>, index: nat)
    requires 0 < index < |list|
    ensures list[..index] == [list[0]] + list[1..][..index - 1]
    ensures list[index + 1..] == list[1..][index..] && list[1..][index - 1] == list[index]
  {
  }

  lemma {:induction false} WithoutNone(list: seq<Server>, s: Server)
    requires s !in list
    ensures Without(list, s) == list
  {
    if |list| == 0 {
    } else {
      WithoutNone(list[1..], s);
    }
  }

  lemma DistinctPrefix(list: seq<Server>, front: seq<Server>)
    requires Distinct(list) && front <= list
    ensures Distinct(front)
  {
  }

  /** Any sequence of successful uses: the list is the first five distinct servers, counted back from the last use. */
  method UseAll(servers: seq<Server>) returns (last: LastUsedServers)
    ensures last.state == Recent(servers)[..Least(MAX_RETAINED_SERVERS, |Recent(servers)|)]
  {
    last := new LastUsedServers();
    var i := 0;
    while i < |servers|
      invariant 0 <= i <= |servers| && fresh(last) && last.Valid() && last.history == servers[..i]
      invariant last.state == Recent(servers[..i])[..Least(MAX_RETAINED_SERVERS, |Recent(servers[..i])|)]
    {
      last.Setup(servers[i], true, {}, true);
      assert servers[..i] + [servers[i]] == servers[..i + 1];
      i := i + 1;
    }
    assert servers[..i] == servers;
  }
}
