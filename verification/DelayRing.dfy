/**
 The circular buffer against the unbounded map from lines to items it stands for, over every
 sequence of operations; and what happens when a slot is used for a second line.
 */
module DelayRing {
  import opened Pipes
  import opened Shell
  import opened Pieces
  import opened Runs
  import opened Accounts
  import opened RunWiring

  /** next(), or set(n, item). */
  datatype RingOp<T> = Advance | Put(n: nat, item: T)

  datatype Ring<T> = Ring(head: nat, buffer: seq<T>)

  function Play<T>(empty: T, ops: seq<RingOp<T>>): (r: Ring<T>)
    ensures |r.buffer| == SIZE
  {
    if ops == [] then Ring(0, seq(SIZE, _ => empty))
    else
      var r := Play(empty, ops[..|ops| - 1]);
      match ops[|ops| - 1]
      case Advance => r.(head := NextHead(r.head))
      case Put(n, item) => r.(buffer := r.buffer[Slot(r.head, n) := item])
  }

  /** The current line: the number of times the ring has been advanced. */
  function Line<T>(ops: seq<RingOp<T>>): nat {
    if ops == [] then 0
    else Line(ops[..|ops| - 1]) + if ops[|ops| - 1].Advance? then 1 else 0
  }

  /** The delay map: what was last put for each line. */
  function Delayed<T>(ops: seq<RingOp<T>>): map<nat, T> {
    if ops == [] then map[]
    else
      var m := Delayed(ops[..|ops| - 1]);
      match ops[|ops| - 1]
      case Advance => m
      case Put(n, item) => m[Line(ops[..|ops| - 1]) + n := item]
  }

  ghost predicate Short<T>(ops: seq<RingOp<T>>, empty: T) {
    forall i :: 0 <= i < |ops| && ops[i].Put? ==> ops[i].n < SIZE && ops[i].item != empty
  }

  /** Line x is the latest line with an item in its slot. */
  ghost predicate Latest<T>(m: map<nat, T>, x: nat) {
    x in m && forall y :: y in m && Cell(y) == Cell(x) ==> y <= x
  }

  /** Each slot holds the item of the latest line that uses it. */
  ghost predicate Mirrors<T>(r: Ring<T>, line: nat, m: map<nat, T>, empty: T) {
    && |r.buffer| == SIZE && r.head == Cell(line)
    && (forall x :: x in m ==> x < line + SIZE && m[x] != empty)
    && (forall x :: Latest(m, x) ==> r.buffer[Cell(x)] == m[x])
    && (forall c :: 0 <= c < SIZE && r.buffer[c] != empty ==> exists x :: Latest(m, x) && Cell(x) == c)
  }

  lemma SameCell(x: nat, y: nat)
    requires Cell(x) == Cell(y) && y < x + SIZE
    ensures y <= x
  {
  }

  lemma PutLatest<T>(m: map<nat, T>, x: nat, item: T, y: nat)
    requires forall z :: z in m ==> z < x + SIZE
    ensures var m' := m[x := item];
            && (Cell(y) == Cell(x) ==> (Latest(m', y) <==> y == x))
            && (Cell(y) != Cell(x) ==> (Latest(m', y) <==> Latest(m, y)))
  {
    hide Cell;
    var m' := m[x := item];
    forall z | z in m' && Cell(z) == Cell(x)
      ensures z <= x
    {
      SameCell(x, z);
    }
  }

  lemma PutMirrors<T>(r: Ring<T>, line: nat, m: map<nat, T>, empty: T, n: nat, item: T)
    requires Mirrors(r, line, m, empty) && n < SIZE && item != empty
    ensures Mirrors(r.(buffer := r.buffer[Slot(r.head, n) := item]), line, m[line + n := item], empty)
  {
    hide Cell, Slot, Latest;
    TargetSlot(line, n);
    var x := line + n;
    var m' := m[x := item];
    var r' := r.(buffer := r.buffer[Slot(r.head, n) := item]);
    forall y | Latest(m', y)
      ensures y in m' && r'.buffer[Cell(y)] == m'[y]
    {
      LatestIn(m', y);
      PutLatest(m, x, item, y);
    }
    forall c | 0 <= c < SIZE && r'.buffer[c] != empty
      ensures exists y :: Latest(m', y) && Cell(y) == c
    {
      if c == Cell(x) {
        PutLatest(m, x, item, x);
      } else {
        var y :| Latest(m, y) && Cell(y) == c;
        PutLatest(m, x, item, y);
      }
    }
  }

  lemma LatestIn<T>(m: map<nat, T>, x: nat)
    requires Latest(m, x)
    ensures x in m
  {
  }

  lemma AdvanceMirrors<T>(r: Ring<T>, line: nat, m: map<nat, T>, empty: T)
    requires Mirrors(r, line, m, empty)
    ensures Mirrors(r.(head := NextHead(r.head)), line + 1, m, empty)
  {
    NextSlot(line);
  }

  lemma {:induction false} PlayMirrors<T>(empty: T, ops: seq<RingOp<T>>)
    requires Short(ops, empty)
    ensures Mirrors(Play(empty, ops), Line(ops), Delayed(ops), empty)
    decreases |ops|
  {
    hide Mirrors;
    if ops == [] {
      EmptyMirrors(empty);
    } else {
      var n := |ops| - 1;
      PlayMirrors(empty, ops[..n]);
      match ops[n]
      case Advance => AdvanceMirrors(Play(empty, ops[..n]), Line(ops[..n]), Delayed(ops[..n]), empty);
      case Put(d, item) => PutMirrors(Play(empty, ops[..n]), Line(ops[..n]), Delayed(ops[..n]), empty, d, item);
    }
  }

  lemma EmptyMirrors<T>(empty: T)
    ensures Mirrors(Play(empty, []), 0, map[], empty)
  {
  }

  /** The latest of the lines up to bound that share the slot of line x. */
  lemma {:induction false} LatestOf<T>(m: map<nat, T>, x: nat, bound: nat) returns (y: nat)
    requires x in m && x <= bound && forall z :: z in m && Cell(z) == Cell(x) ==> z <= bound
    ensures Latest(m, y) && Cell(y) == Cell(x)
    decreases bound - x
  {
    if z: nat :| z in m && Cell(z) == Cell(x) && x < z {
      y := LatestOf(m, z, bound);
    } else {
      y := x;
    }
  }

  /** Some line with an entry shares the slot of line x. */
  ghost predicate Shared<T>(m: map<nat, T>, x: nat) {
    exists y :: y in m && Cell(y) == Cell(x)
  }

  /** The slot of a line that has an entry not too far ahead holds the latest entry of the slot;
      for lines ahead of all others that is the line's own. */
  lemma SlotOfLine<T>(r: Ring<T>, line: nat, m: map<nat, T>, empty: T, x: nat)
    requires Mirrors(r, line, m, empty) && line <= x < line + SIZE && (x in m || Shared(m, x))
    ensures x in m ==> r.buffer[Cell(x)] == m[x]
    ensures x !in m ==> r.buffer[Cell(x)] != empty
  {
    hide Cell;
    if x in m {
      var y := LatestOf(m, x, line + SIZE);
      SameCell(x, y);
    } else {
      var y :| y in m && Cell(y) == Cell(x);
      var z := LatestOf(m, y, line + SIZE);
      assert m[z] != empty;
    }
  }

  lemma SlotUnused<T>(r: Ring<T>, line: nat, m: map<nat, T>, empty: T, x: nat)
    requires Mirrors(r, line, m, empty) && !Shared(m, x)
    ensures r.buffer[Cell(x)] == empty
  {
    hide Cell, Latest;
    if r.buffer[Cell(x)] != empty {
      var y :| Latest(m, y) && Cell(y) == Cell(x);
      LatestIn(m, y);
    }
  }

  lemma GetLine<T>(r: Ring<T>, line: nat, m: map<nat, T>, empty: T, d: nat)
    requires Mirrors(r, line, m, empty) && d < SIZE
    ensures |r.buffer| == SIZE
    ensures var x := line + d;
            (r.buffer[Slot(r.head, d)] == (if x in m then m[x] else empty)) <==> (x in m || !Shared(m, x))
  {
    hide Cell, Slot;
    var x := line + d;
    TargetSlot(line, d);
    if x in m || Shared(m, x) {
      SlotOfLine(r, line, m, empty, x);
    } else {
      SlotUnused(r, line, m, empty, x);
    }
  }

  /** Delay-line behaviour, exactly: get(d) yields the delay map's entry for d lines ahead if and
      only if that line has an entry or no other line with an entry shares its slot. */
  lemma GetExact<T>(empty: T, ops: seq<RingOp<T>>, d: nat)
    requires Short(ops, empty) && d < SIZE
    ensures var r := Play(empty, ops); var m := Delayed(ops); var x := Line(ops) + d;
            (r.buffer[Slot(r.head, d)] == (if x in m then m[x] else empty)) <==> (x in m || !Shared(m, x))
  {
    hide *;
    PlayMirrors(empty, ops);
    GetLine(Play(empty, ops), Line(ops), Delayed(ops), empty, d);
  }

  /** The pipe the map of delayed pipes has for a line. */
  function DuePipe(due: map<nat, Reg>, x: nat): Ends {
    if x in due then due[x].p else NoEnds
  }

  /** Exactly when the next piece starts with the pipe of its own line: no slot has been used
      twice so far, and no other targeted line shares the slot of the next line. */
  lemma NextPipeExact(ps: seq<seq<Command>>) returns (due: map<nat, Reg>)
    requires WellFormed(ps) && NoReuse(ps)
    ensures Targets(ps, due)
    ensures Begin(Run(ps)).s.curr == DuePipe(due, |ps| + 1) <==> Clean(due, |ps| + 1)
  {
    hide Cell, Run, WellFormed, NoReuse, Idle, NextHead;
    due := RunOk(ps);
    var m := Run(ps);
    NextSlot(|ps|);
    if Clean(due, |ps| + 1) {
      FrontDue(m, |ps|, due);
    } else {
      var y :| y in due && y != |ps| + 1 && Cell(y) == Cell(|ps| + 1);
      assert m.s.ring[Cell(y)] == due[y].p;
    }
  }

  const Delay: seq<Command> := [Exe(["ls"]), Numbered(1, false)]
  const Cat: seq<Command> := [Exe(["cat"])]

  /** `ls |1` and as many plain lines as the ring has slots. */
  function Stale(): seq<seq<Command>> {
    [Delay] + seq(SIZE, _ => Cat)
  }

  lemma StaleFine()
    ensures WellFormed(Stale()) && NoReuse(Stale()) && Sends(Stale(), 0, 2)
    ensures forall j: nat, x :: Sends(Stale(), j, x) ==> j == 0 && x == 2
  {
    var ps := Stale();
    assert forall k :: 0 < k < |ps| ==> ps[k] == Cat;
    forall j: nat, k: nat, x: nat, y: nat | j < k && Sends(ps, j, x) && Uses(ps, k, y) && x != y
      ensures Cell(x) != Cell(y)
    {
      assert j == 0 && x == 2 && y == k + 1 && y <= SIZE + 1;
    }
  }

  lemma StaleSlot()
    ensures |Stale()| + 1 == SIZE + 2 && Cell(2) == Cell(SIZE + 2)
  {
  }

  /** A slot is never emptied: after `ls |1` and SIZE more lines, the next line starts with the
      numbers of the pipe line 2 has long closed, though nothing was ever sent to it. */
  lemma StalePipe()
    ensures Begin(Run(Stale())).s.curr != NoEnds
    ensures Senders(Stale(), |Stale()| + 1) == {}
  {
    hide Cell, Run, Stale, Begin, WellFormed, NoReuse;
    StaleFine();
    StaleSlot();
    var due := NextPipeExact(Stale());
    assert Sends(Stale(), 0, 2);
    assert 2 in due && SIZE + 2 !in due;
    SendersSome(Stale(), due, SIZE + 2);
  }
}
