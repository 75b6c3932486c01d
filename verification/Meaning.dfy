/** What the wiring of a run means, written out command by command. */
module Meaning {
  import opened Kernel
  import opened Pipes
  import opened Shell
  import opened Ownership
  import opened Accounts
  import opened Wiring
  import opened RunWiring
  import opened Programs

  /** How many children the first k pieces fork. */
  function Forked(ps: seq<seq<Command>>, k: nat): nat
    requires k <= |ps|
  {
    |Run(ps[..k]).k.kids|
  }

  lemma ForkedSoFar(ps: seq<seq<Command>>, k: nat)
    requires WellFormed(ps) && NoReuse(ps) && k <= |ps|
    ensures Forked(ps, k) == FirstFork(ps, k)
  {
    hide Run;
    PrefixFine(ps, k);
    WiringOk(ps[..k]);
    PrefixFork(ps, k, k);
  }

  lemma StageAt(ps: seq<seq<Command>>, kids: seq<Child>, k: nat, j: nat)
    requires WellFormed(ps) && NoReuse(ps) && kids == Run(ps).k.kids && k < |ps| && 2 * j < |ps[k]|
    ensures var i := Forked(ps, k) + j;
            && i < |kids| && i == FirstFork(ps, k) + j && j < StageCount(ps[k])
            && Fed(kids, i, Writers(ps, k, j)) && Aimed(kids[i], LinkOf(ps[k], j))
            && Executes(kids[i], ArgvOf(ps[k], j))
  {
    hide Run, Fed, Aimed, Writers, LinkOf, Executes, ArgvOf;
    WiringOk(ps);
    ForkedSoFar(ps, k);
    RunArgv(ps, k, j);
    assert FedAt(ps, kids, k, j);
  }

  /** Child c runs the program at position at of a piece; its output goes to the terminal, the file
      behind `>`, or a pipe, and standard error with it behind `!n` only. */
  ghost predicate Directed(c: Child, cmds: seq<Command>, at: nat) {
    && at < |cmds| && cmds[at].Exe? && c.prog != [] && c.prog[|c.prog| - 1] == Exec(cmds[at].argv)
    && {1, 2} <= View(c).Keys
    && if at + 1 == |cmds| then View(c)[1].obj == Other(1) && View(c)[2].obj == Other(2)
       else
         && (cmds[at + 1].FileTo? ==> View(c)[1].obj == File(cmds[at + 1].name))
         && (cmds[at + 1].PipeTo? || cmds[at + 1].Numbered? ==> View(c)[1].obj.WriteEnd?)
         && View(c)[2].obj == if cmds[at + 1].Numbered? && cmds[at + 1].err then View(c)[1].obj else Other(2)
  }

  /** It has no other descriptor than the standard ones. */
  ghost predicate OutputRight(c: Child, cmds: seq<Command>, at: nat) {
    Directed(c, cmds, at) && View(c).Keys == {0, 1, 2}
  }

  /** Stage j of piece k, in every run that uses no slot twice. */
  lemma OutputMeans(ps: seq<seq<Command>>, kids: seq<Child>, k: nat, j: nat)
    requires WellFormed(ps) && NoReuse(ps) && kids == Run(ps).k.kids && k < |ps| && 2 * j < |ps[k]|
    ensures Forked(ps, k) + j < |kids| && OutputRight(kids[Forked(ps, k) + j], ps[k], 2 * j)
  {
    hide Run, Fed, Writers, View, Forked;
    StageAt(ps, kids, k, j);
    assert ps[k][2 * j].Exe?;
    if 2 * j + 1 < |ps[k]| { assert !ps[k][2 * j + 1].Exe?; }
  }

  /** Piece q ends in `|n` or `!n` with n the number of pieces from it to piece k. */
  predicate DelaysTo(ps: seq<seq<Command>>, q: nat, k: nat) {
    q < k && q < |ps| && ps[q] != [] && var c := ps[q][|ps[q]| - 1]; c.Numbered? && q + c.n == k
  }

  /** Child u is the last one of a piece that delays its output to piece k. */
  ghost predicate DelayedBy(ps: seq<seq<Command>>, k: nat, u: nat) {
    exists q: nat :: DelaysTo(ps, q, k) && u + 1 == Forked(ps, q + 1)
  }

  /** Child u is one of those whose output stage j of piece k is to read. */
  ghost predicate Writes(ps: seq<seq<Command>>, k: nat, j: nat, u: nat) {
    && k < |ps| && 2 * j < |ps[k]|
    && if j == 0 then DelayedBy(ps, k, u) else ps[k][2 * j - 1] == PipeTo && u + 1 == Forked(ps, k) + j
  }

  /** The output of c is the pipe whose read end input is. */
  predicate WritesTo(c: Child, input: Obj) {
    input.ReadEnd? && 1 in View(c) && View(c)[1].obj == WriteEnd(input.id)
  }

  /** Child i reads the pipe that exactly the children in ws write and nobody else reads, or the
      terminal if there are none. */
  ghost predicate InputRight(kids: seq<Child>, i: nat, ws: nat -> bool)
    requires i < |kids|
  {
    0 in View(kids[i]) &&
    var input := View(kids[i])[0].obj;
    if exists u :: 0 <= u < |kids| && ws(u) then
      && input.ReadEnd?
      && (forall u :: 0 <= u < |kids| ==> (WritesTo(kids[u], input) <==> ws(u)))
      && forall u :: 0 <= u < |kids| && 0 in View(kids[u]) && View(kids[u])[0].obj == input ==> u == i
    else input == Other(0)
  }

  lemma InputFed(kids: seq<Child>, i: nat, ws: nat -> bool, writers: set<nat>)
    requires Fed(kids, i, writers) && 0 in View(kids[i])
    requires forall u: nat :: u in writers ==> u < |kids|
    requires forall u: nat :: u in writers <==> ws(u)
    ensures InputRight(kids, i, ws)
  {
    hide View;
    if writers != {} {
      var w :| w in writers;
      assert ws(w);
      var input := View(kids[i])[0].obj;
      forall u | 0 <= u < |kids|
        ensures WritesTo(kids[u], input) <==> ws(u)
      {
        assert u in Feeders(kids, input.id) <==> Out(kids[u]) == WriteEnd(input.id);
      }
    }
  }

  lemma DelayedWriters(ps: seq<seq<Command>>, k: nat, u: nat)
    requires WellFormed(ps) && NoReuse(ps) && k < |ps|
    ensures u in Senders(ps, k + 1) <==> DelayedBy(ps, k, u)
  {
    hide Forked, Alternating;
    SendersPast(ps, k);
    assert ps[..|ps|] == ps;
    SendersPrefix(ps, k, k + 1, u);
    forall q: nat | q < k
      ensures Sends(ps, q, k + 1) <==> DelaysTo(ps, q, k)
      ensures LastFork(ps, q) + 1 == Forked(ps, q + 1)
    {
      ForkedSoFar(ps, q + 1);
    }
    if DelayedBy(ps, k, u) {
      var q: nat :| DelaysTo(ps, q, k) && u + 1 == Forked(ps, q + 1);
      assert Sends(ps, q, k + 1) && LastFork(ps, q) == u;
    }
  }

  lemma WritersMeans(ps: seq<seq<Command>>, k: nat, j: nat, u: nat)
    requires WellFormed(ps) && NoReuse(ps) && k < |ps| && 2 * j < |ps[k]|
    ensures u in Writers(ps, k, j) <==> Writes(ps, k, j, u)
  {
    hide Forked, DelayedBy, Senders;
    if j == 0 {
      DelayedWriters(ps, k, u);
    } else {
      ForkedSoFar(ps, k);
    }
  }

  lemma WritersForked(ps: seq<seq<Command>>, kids: seq<Child>, k: nat, j: nat, u: nat)
    requires WellFormed(ps) && NoReuse(ps) && kids == Run(ps).k.kids && k < |ps| && 2 * j < |ps[k]| && Writes(ps, k, j, u)
    ensures u < |kids|
  {
    hide Run;
    RunGrows(ps, k);
    if j == 0 {
      var q: nat :| DelaysTo(ps, q, k) && u + 1 == Forked(ps, q + 1);
      RunGrows(ps, q + 1);
    } else {
      StageAt(ps, kids, k, j);
    }
  }

  /** What stage j of piece k reads, in every run that uses no slot twice: behind a `|` its left
      neighbour's pipe, behind a file the terminal, and at the start of the piece the pipe of exactly
      those pieces that delay their output to it, or the terminal if there are none. */
  lemma InputMeans(ps: seq<seq<Command>>, kids: seq<Child>, k: nat, j: nat)
    requires WellFormed(ps) && NoReuse(ps) && kids == Run(ps).k.kids && k < |ps| && 2 * j < |ps[k]|
    ensures Forked(ps, k) + j < |kids|
    ensures InputRight(kids, Forked(ps, k) + j, (u: nat) => Writes(ps, k, j, u))
  {
    hide Run, Aimed, LinkOf, View, Fed, Writers, Writes, Forked, InputRight;
    StageAt(ps, kids, k, j);
    StdViewed(ps, kids, k, j);
    forall u: nat
      ensures u in Writers(ps, k, j) <==> Writes(ps, k, j, u)
      ensures u in Writers(ps, k, j) ==> u < |kids|
    {
      WritersMeans(ps, k, j, u);
      if Writes(ps, k, j, u) { WritersForked(ps, kids, k, j, u); }
    }
    InputFed(kids, Forked(ps, k) + j, (u: nat) => Writes(ps, k, j, u), Writers(ps, k, j));
  }

  lemma StdViewed(ps: seq<seq<Command>>, kids: seq<Child>, k: nat, j: nat)
    requires WellFormed(ps) && NoReuse(ps) && kids == Run(ps).k.kids && k < |ps| && 2 * j < |ps[k]|
    ensures Forked(ps, k) + j < |kids| && 0 in View(kids[Forked(ps, k) + j])
  {
    hide Run, LinkOf, View, Fed, Writers, Forked;
    StageAt(ps, kids, k, j);
  }
}
