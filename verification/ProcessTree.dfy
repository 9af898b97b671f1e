/**
 The two walks of the process table below an agent: over any snapshot, cycles and
 duplicate entries included.
 */
module ProcessTree {
  import opened Wrappers

  datatype Process = Process(pid: int, ppid: int, cpu: real)

  /** A chain of parent-to-child links through rows of the table. */
  ghost predicate Chain(rows: seq<Process>, p: seq<int>) {
    && p != []
    && forall i :: 0 <= i < |p| - 1 ==> Linked(rows, p[i], p[i + 1])
  }

  predicate Linked(rows: seq<Process>, parent: int, child: int) {
    exists r :: r in rows && r.ppid == parent && r.pid == child
  }

  ghost predicate Reachable(rows: seq<Process>, root: int, pid: int) {
    exists p :: Chain(rows, p) && p[0] == root && p[|p| - 1] == pid
  }

  /** The rows the walks are about: those whose parent is the root or below it. */
  ghost predicate Below(rows: seq<Process>, root: int, i: nat)
    requires i < |rows|
  {
    Reachable(rows, root, rows[i].ppid)
  }

  lemma RootReachable(rows: seq<Process>, root: int)
    ensures Reachable(rows, root, root)
  {
    assert Chain(rows, [root]);
  }

  lemma ReachableStep(rows: seq<Process>, root: int, i: nat)
    requires i < |rows| && Below(rows, root, i)
    ensures Reachable(rows, root, rows[i].pid)
  {
    var p :| Chain(rows, p) && p[0] == root && p[|p| - 1] == rows[i].ppid;
    var q := p + [rows[i].pid];
    forall j | 0 <= j < |q| - 1 ensures Linked(rows, q[j], q[j + 1]) {
      if j < |p| - 1 { assert Linked(rows, p[j], p[j + 1]); }
      else { assert rows[i] in rows && rows[i].ppid == q[j] && rows[i].pid == q[j + 1]; }
    }
    assert Chain(rows, q);
  }

  /** A set with the root that contains every child of its members contains
      everything reachable. */
  ghost predicate Closed(rows: seq<Process>, s: set<int>) {
    forall r :: r in rows && r.ppid in s ==> r.pid in s
  }

  lemma ClosedContainsReachable(rows: seq<Process>, root: int, s: set<int>, pid: int)
    requires root in s && Closed(rows, s) && Reachable(rows, root, pid)
    ensures pid in s
  {
    var p :| Chain(rows, p) && p[0] == root && p[|p| - 1] == pid;
    var i := 0;
    while i < |p| - 1
      invariant 0 <= i <= |p| - 1 && p[i] in s
    {
      assert Linked(rows, p[i], p[i + 1]);
      i := i + 1;
    }
  }

  function Pids(rows: seq<Process>, root: int): set<int> {
    {root} + (set r | r in rows :: r.pid)
  }

  ghost predicate InTable(rows: seq<Process>, s: seq<nat>) {
    forall k :: 0 <= k < |s| ==> s[k] < |rows|
  }

  /** The rows of one parent, by position, in table order. */
  function ChildrenFrom(rows: seq<Process>, parent: int, from: nat): (c: seq<nat>)
    requires from <= |rows|
    ensures forall i: nat :: i in c <==> from <= i < |rows| && rows[i].ppid == parent
    ensures forall j, k :: 0 <= j < k < |c| ==> c[j] < c[k]
    decreases |rows| - from
  {
    if from == |rows| then []
    else
      var rest := ChildrenFrom(rows, parent, from + 1);
      assert forall k :: 0 <= k < |rest| ==> rest[k] in rest;
      if rows[from].ppid == parent then [from] + rest else rest
  }

  function Children(rows: seq<Process>, parent: int): (c: seq<nat>)
    ensures InTable(rows, c) && NoRepeats(c)
    ensures forall i: nat :: i in c <==> i < |rows| && rows[i].ppid == parent
  {
    var c := ChildrenFrom(rows, parent, 0);
    assert forall k :: 0 <= k < |c| ==> c[k] in c;
    c
  }

  function PidsOf(rows: seq<Process>, picks: seq<nat>): seq<int>
    requires InTable(rows, picks)
  {
    seq(|picks|, k requires 0 <= k < |picks| => rows[picks[k]].pid)
  }

  // ---- the walk --------------------------------------------------------------------

  ghost predicate NoRepeats(s: seq<nat>) {
    forall j, k :: 0 <= j < k < |s| ==> s[j] != s[k]
  }

  /** Where a walk stands: `found` holds the rows whose parent has been seen, each
      once, and all their pids are on the stack or seen already. */
  ghost predicate Collected(rows: seq<Process>, seen: set<int>, found: seq<nat>) {
    NoRepeats(found) && forall i: nat :: i in found <==> i < |rows| && rows[i].ppid in seen
  }

  ghost predicate Sound(rows: seq<Process>, root: int, xs: set<int>) {
    forall x :: x in xs ==> x in Pids(rows, root) && Reachable(rows, root, x)
  }

  ghost predicate Covered(rows: seq<Process>, root: int, seen: set<int>, known: set<int>) {
    root in known && forall r :: r in rows && r.ppid in seen ==> r.pid in known
  }

  function Members(stack: seq<int>): set<int> {
    set x | x in stack
  }

  ghost predicate WalkInv(rows: seq<Process>, root: int, seen: set<int>, stack: seq<int>, found: seq<nat>) {
    && Collected(rows, seen, found)
    && Sound(rows, root, seen + Members(stack))
    && Covered(rows, root, seen, seen + Members(stack))
  }

  lemma WalkDone(rows: seq<Process>, root: int, seen: set<int>, found: seq<nat>)
    requires WalkInv(rows, root, seen, [], found)
    ensures forall i: nat :: i in found <==> i < |rows| && Below(rows, root, i)
  {
    assert seen + Members([]) == seen;
    assert Closed(rows, seen);
    forall i: nat | i < |rows| ensures i in found <==> Below(rows, root, i) {
      if Below(rows, root, i) { ClosedContainsReachable(rows, root, seen, rows[i].ppid); }
    }
  }

  lemma CollectChildren(rows: seq<Process>, seen: set<int>, found: seq<nat>, x: int)
    requires Collected(rows, seen, found) && x !in seen
    ensures Collected(rows, seen + {x}, found + Children(rows, x))
  {
    var all := found + Children(rows, x);
    forall j, k | 0 <= j < k < |all| ensures all[j] != all[k] {
      if j < |found| <= k {
        assert found[j] in found && Children(rows, x)[k - |found|] in Children(rows, x);
      }
    }
  }

  lemma ChildrenAreSound(rows: seq<Process>, root: int, x: int)
    requires Reachable(rows, root, x)
    ensures Sound(rows, root, Members(PidsOf(rows, Children(rows, x))))
  {
    var kids := Children(rows, x);
    forall k | 0 <= k < |kids| ensures Reachable(rows, root, rows[kids[k]].pid) {
      assert kids[k] in kids;
      ReachableStep(rows, root, kids[k]);
    }
  }

  lemma ChildrenAreCovered(rows: seq<Process>, x: int, r: Process)
    requires r in rows && r.ppid == x
    ensures r.pid in PidsOf(rows, Children(rows, x))
  {
    var i: nat :| i < |rows| && rows[i] == r;
    assert i in Children(rows, x);
    var k :| 0 <= k < |Children(rows, x)| && Children(rows, x)[k] == i;
    assert PidsOf(rows, Children(rows, x))[k] == r.pid;
  }

  /** Expanding a pid that has not been seen keeps the picture. */
  lemma Expand(rows: seq<Process>, root: int, seen: set<int>, stack: seq<int>, found: seq<nat>, x: int)
    requires WalkInv(rows, root, seen, stack + [x], found) && x !in seen
    ensures x in Pids(rows, root)
    ensures WalkInv(rows, root, seen + {x}, stack + PidsOf(rows, Children(rows, x)), found + Children(rows, x))
  {
    var pushed := PidsOf(rows, Children(rows, x));
    assert Members(stack + [x]) == Members(stack) + {x};
    assert Members(stack + pushed) == Members(stack) + Members(pushed);
    assert x in seen + Members(stack + [x]);
    CollectChildren(rows, seen, found, x);
    ChildrenAreSound(rows, root, x);
    forall r | r in rows && r.ppid in seen + {x} ensures r.pid in seen + {x} + Members(stack + pushed) {
      if r.ppid == x { ChildrenAreCovered(rows, x, r); }
    }
  }

  lemma Skip(rows: seq<Process>, root: int, seen: set<int>, stack: seq<int>, found: seq<nat>, x: int)
    requires WalkInv(rows, root, seen, stack + [x], found) && x in seen
    ensures WalkInv(rows, root, seen, stack, found)
  {
    assert seen + Members(stack + [x]) == seen + Members(stack);
  }

  /**
   The limited walk of the stall record. It terminates on every table, returns rows
   below the root, each once, at most `limit` of them - and all of them whenever it
   returns fewer. A missing pid, or a failed `ps`, is an empty result.
   */
  method LiveDescendants(rows: seq<Process>, root: int, limit: nat) returns (found: seq<nat>)
    ensures |found| <= limit && NoRepeats(found)
    ensures forall i: nat :: i in found ==> i < |rows| && Below(rows, root, i)
    ensures root != 0 && |found| < limit ==> forall i: nat :: i < |rows| && Below(rows, root, i) ==> i in found
    ensures root == 0 ==> found == []
  {
    if root == 0 { return []; }
    found := [];
    var seen, stack := {}, [root];
    RootReachable(rows, root);
    while stack != []
      invariant WalkInv(rows, root, seen, stack, found)
      invariant if seen == {} then found == [] && stack == [root] else |found| < limit
      decreases Pids(rows, root) - seen, |stack|
    {
      var x, rest := stack[|stack| - 1], stack[..|stack| - 1];
      assert stack == rest + [x];
      if x in seen {
        Skip(rows, root, seen, rest, found, x);
        stack := rest;
        continue;
      }
      Expand(rows, root, seen, rest, found, x);
      assert Pids(rows, root) - (seen + {x}) < Pids(rows, root) - seen by { assert x in Pids(rows, root) - seen; }
      seen := seen + {x};
      found := found + Children(rows, x);
      stack := rest + PidsOf(rows, Children(rows, x));
      if |found| >= limit {
        CutFindings(rows, root, seen, stack, found, limit);
        return found[..limit];
      }
    }
    WalkDone(rows, root, seen, found);
  }

  lemma CutFindings(rows: seq<Process>, root: int, seen: set<int>, stack: seq<int>, found: seq<nat>, limit: nat)
    requires WalkInv(rows, root, seen, stack, found) && limit <= |found|
    ensures NoRepeats(found[..limit])
    ensures forall i: nat :: i in found[..limit] ==> i < |rows| && Below(rows, root, i)
  {
    forall i: nat | i in found[..limit] ensures i < |rows| && Below(rows, root, i) {
      assert i in found;
    }
  }

  // ---- the CPU total -------------------------------------------------------------------

  function CpuOf(rows: seq<Process>, picks: seq<nat>): real
    requires InTable(rows, picks)
  {
    if picks == [] then 0.0 else CpuOf(rows, picks[..|picks| - 1]) + rows[picks[|picks| - 1]].cpu
  }

  lemma {:induction false} CpuConcat(rows: seq<Process>, a: seq<nat>, b: seq<nat>)
    requires InTable(rows, a) && InTable(rows, b)
    ensures CpuOf(rows, a + b) == CpuOf(rows, a) + CpuOf(rows, b)
    decreases |b|
  {
    if b == [] {
      assert a + b == a;
    } else {
      assert (a + b)[..|a + b| - 1] == a + b[..|b| - 1];
      CpuConcat(rows, a, b[..|b| - 1]);
    }
  }

  ghost function BelowRows(rows: seq<Process>, root: int): set<nat> {
    set i: nat | i < |rows| && Below(rows, root, i)
  }

  /** The time of the chosen ones of the first `n` rows, in table order. */
  function CpuAmong(rows: seq<Process>, chosen: set<nat>, n: nat): real
    requires n <= |rows|
  {
    if n == 0 then 0.0 else CpuAmong(rows, chosen, n - 1) + if n - 1 in chosen then rows[n - 1].cpu else 0.0
  }

  /** It is the sum: nothing for no rows, and a further row adds its own time. */
  lemma {:induction false} CpuAmongIsSum(rows: seq<Process>, chosen: set<nat>, n: nat, i: nat)
    requires i < n <= |rows| && i !in chosen
    ensures CpuAmong(rows, {}, n) == 0.0
    ensures CpuAmong(rows, chosen + {i}, n) == CpuAmong(rows, chosen, n) + rows[i].cpu
    decreases n
  {
    NothingChosen(rows, n);
    if i == n - 1 {
      AmongEarlier(rows, chosen, n - 1, i);
    } else {
      CpuAmongIsSum(rows, chosen, n - 1, i);
    }
  }

  lemma {:induction false} NothingChosen(rows: seq<Process>, n: nat)
    requires n <= |rows|
    ensures CpuAmong(rows, {}, n) == 0.0
    decreases n
  {
    if n == 0 {
    } else {
      NothingChosen(rows, n - 1);
    }
  }

  lemma {:induction false} AmongEarlier(rows: seq<Process>, chosen: set<nat>, n: nat, i: nat)
    requires n <= |rows| && n <= i
    ensures CpuAmong(rows, chosen + {i}, n) == CpuAmong(rows, chosen, n)
    decreases n
  {
    if n == 0 {
    } else {
      AmongEarlier(rows, chosen, n - 1, i);
    }
  }

  lemma DropPick(rows: seq<Process>, before: seq<nat>, i: nat, after: seq<nat>)
    requires InTable(rows, before) && InTable(rows, after) && i < |rows|
    ensures CpuOf(rows, before + [i] + after) == CpuOf(rows, before + after) + rows[i].cpu
  {
    CpuConcat(rows, before + [i], after);
    CpuConcat(rows, before, [i]);
    CpuConcat(rows, before, after);
    assert [i][..0] == [];
    assert CpuOf(rows, [i]) == rows[i].cpu;
  }

  lemma RestOfPicks(before: seq<nat>, i: nat, after: seq<nat>)
    requires NoRepeats(before + [i] + after)
    ensures NoRepeats(before + after)
    ensures forall j: nat :: j in before + after <==> j in before + [i] + after && j != i
  {
    var picks, rest := before + [i] + after, before + after;
    assert picks[|before|] == i;
    forall j, k | 0 <= j < k < |rest| ensures rest[j] != rest[k] {
      var j', k' := if j < |before| then j else j + 1, if k < |before| then k else k + 1;
      assert picks[j'] == rest[j] && picks[k'] == rest[k];
    }
    forall j | 0 <= j < |rest| ensures rest[j] != i {
      var j' := if j < |before| then j else j + 1;
      assert picks[j'] == rest[j];
    }
  }

  lemma RestInTable(rows: seq<Process>, before: seq<nat>, i: nat, after: seq<nat>)
    requires InTable(rows, before + [i] + after)
    ensures InTable(rows, before) && InTable(rows, after) && InTable(rows, before + after)
  {
    var picks := before + [i] + after;
    forall k | 0 <= k < |after| ensures after[k] < |rows| { assert picks[|before| + 1 + k] == after[k]; }
    forall k | 0 <= k < |before| ensures before[k] < |rows| { assert picks[k] == before[k]; }
  }

  lemma NothingOrSome(picks: seq<nat>)
    ensures picks == [] || exists i: nat :: i in picks
  {
    if picks != [] { assert picks[0] in picks; }
  }

  /** `picks` are the chosen ones of the first `n` rows, each once, in any order. */
  ghost predicate Picks(rows: seq<Process>, chosen: set<nat>, n: nat, picks: seq<nat>) {
    && n <= |rows| && InTable(rows, picks) && NoRepeats(picks)
    && forall i: nat :: i in picks <==> i < n && i in chosen
  }

  /** Taking the last of the rows out leaves the picks of the rows before it. */
  lemma TakeLast(rows: seq<Process>, chosen: set<nat>, n: nat, picks: seq<nat>, k: nat) returns (rest: seq<nat>)
    requires 0 < n && Picks(rows, chosen, n, picks) && k < |picks| && picks[k] == n - 1
    ensures n - 1 in chosen && Picks(rows, chosen, n - 1, rest)
    ensures CpuOf(rows, picks) == CpuOf(rows, rest) + rows[n - 1].cpu
  {
    var before, after := picks[..k], picks[k + 1..];
    assert picks == before + [n - 1] + after;
    assert n - 1 in picks;
    RestOfPicks(before, n - 1, after);
    RestInTable(rows, before, n - 1, after);
    DropPick(rows, before, n - 1, after);
    rest := before + after;
  }

  /** Whatever the order in which a walk found them, rows found once add up alike. */
  lemma {:induction false} CpuInAnyOrder(rows: seq<Process>, chosen: set<nat>, n: nat, picks: seq<nat>)
    requires Picks(rows, chosen, n, picks)
    ensures CpuOf(rows, picks) == CpuAmong(rows, chosen, n)
    decreases n
  {
    if n == 0 {
      NothingOrSome(picks);
    } else if k :| 0 <= k < |picks| && picks[k] == n - 1 {
      var rest := TakeLast(rows, chosen, n, picks, k);
      CpuInAnyOrder(rows, chosen, n - 1, rest);
    } else {
      assert n - 1 !in picks;
      assert Picks(rows, chosen, n - 1, picks);
      CpuInAnyOrder(rows, chosen, n - 1, picks);
    }
  }

  lemma WalkCpu(rows: seq<Process>, root: int, seen: set<int>, found: seq<nat>)
    requires WalkInv(rows, root, seen, [], found) && InTable(rows, found)
    ensures CpuOf(rows, found) == CpuAmong(rows, BelowRows(rows, root), |rows|)
  {
    WalkDone(rows, root, seen, found);
    CpuInAnyOrder(rows, BelowRows(rows, root), |rows|, found);
  }

  /** The last row of the root's pid, as a dictionary keeps it; 0 if there is none. */
  function OwnCpu(rows: seq<Process>, root: int): real {
    if rows == [] then 0.0
    else if rows[|rows| - 1].pid == root then rows[|rows| - 1].cpu
    else OwnCpu(rows[..|rows| - 1], root)
  }

  /** The CPU total: the root's own time and that of every row below it, each once. */
  method CpuTotal(rows: seq<Process>, root: int) returns (total: real)
    ensures total == OwnCpu(rows, root) + CpuAmong(rows, BelowRows(rows, root), |rows|)
  {
    total := OwnCpu(rows, root);
    ghost var counted := [];
    var seen, stack := {}, [root];
    RootReachable(rows, root);
    while stack != []
      invariant WalkInv(rows, root, seen, stack, counted) && InTable(rows, counted)
      invariant total == OwnCpu(rows, root) + CpuOf(rows, counted)
      decreases Pids(rows, root) - seen, |stack|
    {
      var x, rest := stack[|stack| - 1], stack[..|stack| - 1];
      assert stack == rest + [x];
      if x in seen {
        Skip(rows, root, seen, rest, counted, x);
        stack := rest;
      } else {
        Expand(rows, root, seen, rest, counted, x);
        assert Pids(rows, root) - (seen + {x}) < Pids(rows, root) - seen by { assert x in Pids(rows, root) - seen; }
        var kids := Children(rows, x);
        CpuConcat(rows, counted, kids);
        seen := seen + {x};
        total := total + CpuOf(rows, kids);
        counted := counted + kids;
        stack := rest + PidsOf(rows, kids);
      }
    }
    WalkCpu(rows, root, seen, counted);
  }

  /** On a table of distinct pids the root's own row is added exactly once - its time
      is not counted again - unless the root is its own descendant. */
  lemma RootCountedOnce(rows: seq<Process>, root: int, r: nat)
    requires forall i, j :: 0 <= i < j < |rows| ==> rows[i].pid != rows[j].pid
    requires r < |rows| && rows[r].pid == root
    ensures OwnCpu(rows, root) == rows[r].cpu
    ensures Below(rows, root, r) <==> exists p :: |p| > 1 && Chain(rows, p) && p[0] == root && p[|p| - 1] == root
  {
    OwnIsLast(rows, root, r);
    if Below(rows, root, r) {
      var p :| Chain(rows, p) && p[0] == root && p[|p| - 1] == rows[r].ppid;
      var q := p + [root];
      forall j | 0 <= j < |q| - 1 ensures Linked(rows, q[j], q[j + 1]) {
        if j < |p| - 1 { assert Linked(rows, p[j], p[j + 1]); }
        else { assert rows[r] in rows; }
      }
      assert |q| > 1 && Chain(rows, q);
    }
    if p :| |p| > 1 && Chain(rows, p) && p[0] == root && p[|p| - 1] == root {
      var n := |p| - 2;
      assert Linked(rows, p[n], p[n + 1]);
      var row :| row in rows && row.ppid == p[n] && row.pid == root;
      var i :| 0 <= i < |rows| && rows[i] == row;
      assert i == r;
      var q := p[..n + 1];
      assert forall j :: 0 <= j < |q| - 1 ==> Linked(rows, p[j], p[j + 1]);
      assert Chain(rows, q) && q[|q| - 1] == rows[r].ppid;
    }
  }

  /** Of several rows with the root's pid the last one counts as its own. */
  lemma LastRowIsOwn(rows: seq<Process>, r: Process, root: int)
    ensures OwnCpu([], root) == 0.0
    ensures OwnCpu(rows + [r], root) == if r.pid == root then r.cpu else OwnCpu(rows, root)
  {
    assert (rows + [r])[..|rows|] == rows;
  }

  lemma {:induction false} OwnIsLast(rows: seq<Process>, root: int, r: nat)
    requires forall i, j :: 0 <= i < j < |rows| ==> rows[i].pid != rows[j].pid
    requires r < |rows| && rows[r].pid == root
    ensures OwnCpu(rows, root) == rows[r].cpu
    decreases |rows|
  {
    if r < |rows| - 1 { OwnIsLast(rows[..|rows| - 1], root, r); }
  }
}
