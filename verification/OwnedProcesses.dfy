/** Which processes belong to the desktop (`chrome-runtime.py`): from one snapshot of the process table,
    every live process with a known root among its ancestors. */
module OwnedProcesses {
  import opened Wrappers

  type Pid = int
  type StartTime = int

  /** One readable status file. */
  datatype Status = Status(zombie: bool, parent: Pid)

  function ParentOf(table: map<Pid, Status>, p: Pid): Pid {
    if p in table && !table[p].zombie then table[p].parent else 0
  }

  /** The walk does not go past this process. */
  predicate Stops(table: map<Pid, Status>, p: Pid) { ParentOf(table, p) <= 1 || ParentOf(table, p) == p }

  /** The ancestor `k` steps up. */
  function Ancestor(table: map<Pid, Status>, p: Pid, k: nat): Pid
    decreases k
  {
    if k == 0 then p else Ancestor(table, ParentOf(table, p), k - 1)
  }

  /** The walk from `p` gets `k` steps up. */
  predicate Reaches(table: map<Pid, Status>, p: Pid, k: nat)
    decreases k
  {
    k == 0 || (!Stops(table, p) && Reaches(table, ParentOf(table, p), k - 1))
  }

  /** A root is on the chain of `p`, `p` itself included. */
  ghost predicate HasRoot(table: map<Pid, Status>, roots: set<Pid>, p: Pid) {
    exists k: nat :: Reaches(table, p, k) && Ancestor(table, p, k) in roots
  }

  /** The walk from `p` ends within `k` steps. */
  predicate EndsWithin(table: map<Pid, Status>, roots: set<Pid>, p: Pid, k: nat)
    decreases k
  {
    p in roots || Stops(table, p) || (k > 0 && EndsWithin(table, roots, ParentOf(table, p), k - 1))
  }

  ghost predicate Ends(table: map<Pid, Status>, roots: set<Pid>, p: Pid) {
    exists k: nat :: EndsWithin(table, roots, p, k)
  }

  /** No process is its own ancestor, but for one that names itself as its parent. */
  ghost predicate Acyclic(table: map<Pid, Status>, rank: map<Pid, nat>) {
    forall p | p in table && !Stops(table, p) ::
      p in rank && (ParentOf(table, p) in table ==> ParentOf(table, p) in rank && rank[ParentOf(table, p)] < rank[p])
  }

  lemma {:induction false} AcyclicWalkEnds(table: map<Pid, Status>, rank: map<Pid, nat>, roots: set<Pid>, p: Pid)
    requires Acyclic(table, rank)
    ensures Ends(table, roots, p)
    decreases if p in table && p in rank then rank[p] + 1 else 0
  {
    if Stops(table, p) {
      assert EndsWithin(table, roots, p, 0);
    } else {
      var q := ParentOf(table, p);
      if q !in table || Stops(table, q) {
        assert EndsWithin(table, roots, q, 0);
        assert EndsWithin(table, roots, p, 1);
      } else {
        AcyclicWalkEnds(table, rank, roots, q);
        var k: nat :| EndsWithin(table, roots, q, k);
        assert EndsWithin(table, roots, p, k + 1);
      }
    }
  }

  lemma HasRootUnfold(table: map<Pid, Status>, roots: set<Pid>, p: Pid)
    ensures HasRoot(table, roots, p) <==>
              p in roots || (!Stops(table, p) && HasRoot(table, roots, ParentOf(table, p)))
  {
    if p in roots {
      assert Reaches(table, p, 0) && Ancestor(table, p, 0) in roots;
    } else if HasRoot(table, roots, p) {
      var k: nat :| Reaches(table, p, k) && Ancestor(table, p, k) in roots;
      assert Reaches(table, ParentOf(table, p), k - 1) && Ancestor(table, ParentOf(table, p), k - 1) in roots;
    } else if !Stops(table, p) && HasRoot(table, roots, ParentOf(table, p)) {
      var k: nat :| Reaches(table, ParentOf(table, p), k) && Ancestor(table, ParentOf(table, p), k) in roots;
      assert Reaches(table, p, k + 1) && Ancestor(table, p, k + 1) in roots;
    }
  }

  /** A chain of processes from `p` up to a root: each is alive, and the next one is its parent, above
      process 1 and another than itself. */
  predicate IsChain(table: map<Pid, Status>, roots: set<Pid>, chain: seq<Pid>) {
    && chain != [] && chain[|chain| - 1] in roots
    && forall i | 0 <= i < |chain| - 1 :: IsParent(table, chain[i], chain[i + 1])
  }

  predicate IsParent(table: map<Pid, Status>, child: Pid, parent: Pid) {
    child in table && !table[child].zombie && table[child].parent == parent && parent > 1 && parent != child
  }

  ghost predicate HasChain(table: map<Pid, Status>, roots: set<Pid>, p: Pid) {
    exists chain :: IsChain(table, roots, chain) && chain[0] == p
  }

  lemma {:induction false} ChainOfSteps(table: map<Pid, Status>, roots: set<Pid>, p: Pid, k: nat)
    returns (chain: seq<Pid>)
    requires Reaches(table, p, k) && Ancestor(table, p, k) in roots
    ensures IsChain(table, roots, chain) && chain[0] == p
    decreases k
  {
    if k == 0 {
      chain := [p];
    } else {
      var rest := ChainOfSteps(table, roots, ParentOf(table, p), k - 1);
      chain := [p] + rest;
    }
  }

  lemma {:induction false} StepsOfChain(table: map<Pid, Status>, roots: set<Pid>, chain: seq<Pid>)
    requires IsChain(table, roots, chain)
    ensures Reaches(table, chain[0], |chain| - 1) && Ancestor(table, chain[0], |chain| - 1) in roots
    decreases |chain|
  {
    if |chain| > 1 {
      assert IsParent(table, chain[0], chain[0 + 1]);
      StepsOfChain(table, roots, chain[1..]);
    }
  }

  /** What it is to belong to the desktop, in plain words: there is such a chain. */
  lemma HasRootIsChain(table: map<Pid, Status>, roots: set<Pid>, p: Pid)
    ensures HasRoot(table, roots, p) <==> HasChain(table, roots, p)
  {
    if HasRoot(table, roots, p) {
      var k: nat :| Reaches(table, p, k) && Ancestor(table, p, k) in roots;
      var chain := ChainOfSteps(table, roots, p, k);
    }
    if chain :| IsChain(table, roots, chain) && chain[0] == p { StepsOfChain(table, roots, chain); }
  }

  ghost predicate NoRootWithin(table: map<Pid, Status>, roots: set<Pid>, p: Pid, k: nat) {
    forall j: nat | j <= k :: Ancestor(table, p, j) !in roots
  }

  lemma NoRootUnfold(table: map<Pid, Status>, roots: set<Pid>, p: Pid, k: nat)
    requires k > 0
    ensures NoRootWithin(table, roots, p, k) <==>
              p !in roots && NoRootWithin(table, roots, ParentOf(table, p), k - 1)
  {
    var q := ParentOf(table, p);
    if NoRootWithin(table, roots, p, k) {
      assert Ancestor(table, p, 0) !in roots;
      forall j: nat | j <= k - 1 ensures Ancestor(table, q, j) !in roots {
        assert Ancestor(table, p, j + 1) == Ancestor(table, q, j);
      }
    } else {
      var j: nat :| j <= k && Ancestor(table, p, j) in roots;
      if j > 0 { assert Ancestor(table, q, j - 1) in roots; }
    }
  }

  /** The walk has not ended within `k` steps exactly when it gets further and met no root. */
  lemma {:induction false} GoesOnExactlyWhen(table: map<Pid, Status>, roots: set<Pid>, p: Pid, k: nat)
    ensures !EndsWithin(table, roots, p, k) <==>
              Reaches(table, p, k + 1) && NoRootWithin(table, roots, p, k)
    decreases k
  {
    if k > 0 {
      GoesOnExactlyWhen(table, roots, ParentOf(table, p), k - 1);
      NoRootUnfold(table, roots, p, k);
    } else {
      assert Ancestor(table, p, 0) == p;
    }
  }

  lemma {:induction false} AncestorAdds(table: map<Pid, Status>, p: Pid, i: nat, k: nat)
    ensures Ancestor(table, p, i + k) == Ancestor(table, Ancestor(table, p, i), k)
    ensures Reaches(table, p, i + k) ==> Reaches(table, Ancestor(table, p, i), k)
    decreases i
  {
    if i > 0 { AncestorAdds(table, ParentOf(table, p), i - 1, k); }
  }

  /** A walk that ends has to end beyond every step it takes without meeting a root. */
  lemma {:induction false} WalksOn(table: map<Pid, Status>, roots: set<Pid>, p: Pid, m: nat, k: nat)
    requires EndsWithin(table, roots, p, k) && Reaches(table, p, m) && NoRootWithin(table, roots, p, m)
    ensures m <= k && EndsWithin(table, roots, Ancestor(table, p, m), k - m)
    decreases m
  {
    if m > 0 {
      NoRootUnfold(table, roots, p, m);
      WalksOn(table, roots, ParentOf(table, p), m - 1, k - 1);
    }
  }

  lemma {:induction false} CycleNeverEnds(table: map<Pid, Status>, roots: set<Pid>, p: Pid, d: nat, k: nat)
    requires d > 0 && Reaches(table, p, d) && NoRootWithin(table, roots, p, d) && Ancestor(table, p, d) == p
    ensures !EndsWithin(table, roots, p, k)
    decreases k
  {
    if EndsWithin(table, roots, p, k) {
      WalksOn(table, roots, p, d, k);
      CycleNeverEnds(table, roots, p, d, k - d);
    }
  }

  /** The walk from `p` comes back to a process it has passed, and there is no root on the way. */
  ghost predicate ComesBack(table: map<Pid, Status>, roots: set<Pid>, p: Pid, i: nat, j: nat) {
    && i < j <= |table.Keys| && Reaches(table, p, j) && Ancestor(table, p, i) == Ancestor(table, p, j)
    && NoRootWithin(table, roots, p, j)
  }

  lemma ComesBackNeverEnds(table: map<Pid, Status>, roots: set<Pid>, p: Pid, i: nat, j: nat, k: nat)
    requires ComesBack(table, roots, p, i, j)
    ensures !EndsWithin(table, roots, p, k)
  {
    if EndsWithin(table, roots, p, k) {
      AncestorAdds(table, p, i, j - i);
      ReachesLess(table, p, i, j);
      WalksOn(table, roots, p, i, k);
      var q := Ancestor(table, p, i);
      forall m: nat | m <= j - i ensures Ancestor(table, q, m) !in roots { AncestorAdds(table, p, i, m); }
      CycleNeverEnds(table, roots, q, j - i, k - i);
    }
  }

  lemma {:induction false} ReachesLess(table: map<Pid, Status>, p: Pid, i: nat, j: nat)
    requires i <= j && Reaches(table, p, j)
    ensures Reaches(table, p, i) && (i < j ==> !Stops(table, Ancestor(table, p, i)))
    decreases i
  {
    if i > 0 { ReachesLess(table, ParentOf(table, p), i - 1, j - 1); }
  }

  lemma {:induction false} Pigeonhole(s: seq<Pid>, pids: set<Pid>)
    requires |s| > |pids| && forall k | 0 <= k < |s| :: s[k] in pids
    ensures exists i, j :: 0 <= i < j < |s| && s[i] == s[j]
    decreases |s|
  {
    var last := |s| - 1;
    if s[last] !in s[..last] {
      Pigeonhole(s[..last], pids - {s[last]});
      var i, j :| 0 <= i < j < last && s[..last][i] == s[..last][j];
      assert s[i] == s[j];
    } else {
      var i :| 0 <= i < last && s[..last][i] == s[last];
    }
  }

  /** The source's loop does not end for every snapshot.  It runs for ever from exactly those processes
      whose chain comes back to a process already passed, with no root before that; the snapshot need
      not be searched further than it has processes. */
  lemma NeverEndsExactlyWhen(table: map<Pid, Status>, roots: set<Pid>, p: Pid)
    ensures !Ends(table, roots, p) <==> exists i, j :: ComesBack(table, roots, p, i, j)
  {
    if !Ends(table, roots, p) {
      var n := |table.Keys|;
      GoesOnExactlyWhen(table, roots, p, n);
      var chain := seq(n + 1, k requires 0 <= k => Ancestor(table, p, k));
      forall k | 0 <= k < |chain| ensures chain[k] in table.Keys { ReachesLess(table, p, k, n + 1); }
      Pigeonhole(chain, table.Keys);
      var i, j :| 0 <= i < j < |chain| && chain[i] == chain[j];
      ReachesLess(table, p, j, n + 1);
      assert ComesBack(table, roots, p, i, j);
    }
    if i: nat, j: nat :| ComesBack(table, roots, p, i, j) {
      forall k: nat ensures !EndsWithin(table, roots, p, k) { ComesBackNeverEnds(table, roots, p, i, j, k); }
    }
  }

  /** Two processes that are each other's parent, neither a root: the walk never ends. */
  lemma {:induction false} TwoCycleNeverEnds(table: map<Pid, Status>, roots: set<Pid>, p: Pid, q: Pid, k: nat)
    requires p > 1 && q > 1 && p != q && ParentOf(table, p) == q && ParentOf(table, q) == p
    requires p !in roots && q !in roots
    ensures !EndsWithin(table, roots, p, k) && Reaches(table, p, k)
    decreases k
  {
    if k > 0 { TwoCycleNeverEnds(table, roots, q, p, k - 1); }
  }

  // ---------------------------------------------------------------- the loops

  /** A recorded process counts while the process of that number started when the recorded one did. */
  predicate StillThere(entry: (Pid, StartTime), started: map<Pid, StartTime>) {
    entry.0 in started && started[entry.0] == entry.1
  }

  function RootSet(known: seq<(Pid, StartTime)>, process: Option<Pid>, started: map<Pid, StartTime>): set<Pid> {
    (set e | e in known && StillThere(e, started) :: e.0) + if process.Some? then {process.value} else {}
  }

  /** The recorded processes that still are the ones recorded, and the child that still runs. */
  method Roots(known: seq<(Pid, StartTime)>, process: Option<Pid>, started: map<Pid, StartTime>)
    returns (roots: set<Pid>)
    ensures roots == RootSet(known, process, started)
    ensures forall p :: p in roots <==>
      process == Some(p) || (p in started && (p, started[p]) in known)
  {
    roots := {};
    for i := 0 to |known|
      invariant roots == set e | e in known[..i] && StillThere(e, started) :: e.0
    {
      assert known[..i + 1] == known[..i] + [known[i]];
      if StillThere(known[i], started) { roots := roots + {known[i].0}; }
    }
    assert known[..|known|] == known;
    if process.Some? { roots := roots + {process.value}; }
  }

  /** The walk from one process. */
  method Walk(table: map<Pid, Status>, roots: set<Pid>, pid: Pid, ghost steps: nat) returns (owned: bool)
    requires EndsWithin(table, roots, pid, steps)
    ensures owned <==> HasChain(table, roots, pid)
  {
    HasRootIsChain(table, roots, pid);
    var current := pid;
    ghost var left := steps;
    while true
      invariant EndsWithin(table, roots, current, left)
      invariant HasRoot(table, roots, pid) <==> HasRoot(table, roots, current)
      decreases left
    {
      HasRootUnfold(table, roots, current);
      if current in roots { return true; }
      var parent := ParentOf(table, current);
      if parent <= 1 || parent == current { return false; }
      current := parent;
      left := left - 1;
    }
  }

  lemma SomeLeft(pids: set<Pid>)
    requires pids != {}
    ensures exists p :: p in pids
  {
    assert !(forall p :: p in pids ==> p in {}) || pids <= {};
  }

  /** The live processes of the snapshot with a root on their chain, each once.  The loop needs every
    chain to end; an acyclic table is enough for that. */
  method OwnedPids(known: seq<(Pid, StartTime)>, process: Option<Pid>, started: map<Pid, StartTime>,
                   table: map<Pid, Status>)
    returns (owned: seq<Pid>)
    requires forall p | p in table && !table[p].zombie :: Ends(table, RootSet(known, process, started), p)
    ensures forall p :: p in owned <==>
              p in table && !table[p].zombie && HasChain(table, RootSet(known, process, started), p)
    ensures forall i, j | 0 <= i < j < |owned| :: owned[i] != owned[j]
  {
    var roots := Roots(known, process, started);
    owned := [];
    forall p ensures HasRoot(table, roots, p) <==> HasChain(table, roots, p) { HasRootIsChain(table, roots, p); }
    if roots == {} { return; }
    var rest := table.Keys;
    while rest != {}
      invariant rest <= table.Keys
      invariant forall p :: p in owned <==> p in table.Keys - rest && !table[p].zombie && HasRoot(table, roots, p)
      invariant forall i, j | 0 <= i < j < |owned| :: owned[i] != owned[j]
      decreases |rest|
    {
      SomeLeft(rest);
      var pid :| pid in rest;
      rest := rest - {pid};
      if !table[pid].zombie {
        assert Ends(table, roots, pid);
        ghost var steps: nat :| EndsWithin(table, roots, pid, steps);
        var isOwned := Walk(table, roots, pid, steps);
        if isOwned { owned := owned + [pid]; }
      }
    }
  }

  /** On an acyclic table nothing more is needed. */
  lemma AcyclicTableSuffices(table: map<Pid, Status>, rank: map<Pid, nat>, roots: set<Pid>)
    requires Acyclic(table, rank)
    ensures forall p | p in table && !table[p].zombie :: Ends(table, roots, p)
  {
    forall p | p in table && !table[p].zombie ensures Ends(table, roots, p) { AcyclicWalkEnds(table, rank, roots, p); }
  }
}
