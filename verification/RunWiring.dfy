/** Over every run, each program reads exactly what the command lines say it reads. */
module RunWiring {
  import opened Kernel
  import opened Pipes
  import opened Shell
  import opened Ownership
  import opened Pieces
  import opened PieceRuns
  import opened Runs
  import opened Accounts
  import opened Wiring
  import opened PieceWiring

  /** The number of children forked for the first k pieces. */
  function FirstFork(ps: seq<seq<Command>>, k: nat): nat
    requires k <= |ps|
  {
    if k == 0 then 0 else FirstFork(ps, k - 1) + StageCount(ps[k - 1])
  }

  function LastFork(ps: seq<seq<Command>>, k: nat): int
    requires k < |ps|
  {
    FirstFork(ps, k) + StageCount(ps[k]) - 1
  }

  /** The last children of the pieces that delay their output to line x. */
  ghost function Senders(ps: seq<seq<Command>>, x: int): set<nat> {
    set k: nat | k < |ps| && Sends(ps, k, x) && 0 <= LastFork(ps, k) :: LastFork(ps, k)
  }

  /** Who is to write what stage j of piece k reads: the previous stage across a `|`, or the last
      programs of the earlier pieces that delay their output to this piece's line. */
  ghost function Writers(ps: seq<seq<Command>>, k: nat, j: nat): set<nat>
    requires k < |ps|
  {
    WritersAt(FirstFork(ps, k), ps[k], Senders(ps, k + 1), j)
  }

  /** The child of stage j of piece k reads, writes and reports errors where it should. */
  ghost predicate FedAt(ps: seq<seq<Command>>, kids: seq<Child>, k: nat, j: nat)
    requires k < |ps|
  {
    var i := FirstFork(ps, k) + j;
    i < |kids| && Fed(kids, i, Writers(ps, k, j)) && Aimed(kids[i], LinkOf(ps[k], j))
  }

  ghost predicate RunFed(ps: seq<seq<Command>>, kids: seq<Child>) {
    forall k: nat, j: nat :: k < |ps| && j < StageCount(ps[k]) ==> FedAt(ps, kids, k, j)
  }

  ghost predicate DueFed(ps: seq<seq<Command>>, due: map<nat, Reg>, kids: seq<Child>) {
    forall x :: x in due && |ps| < x ==> Feeders(kids, due[x].id) == Senders(ps, x)
  }

  lemma {:induction false} PrefixFork(ps: seq<seq<Command>>, n: nat, k: nat)
    requires k <= n <= |ps|
    ensures FirstFork(ps[..n], k) == FirstFork(ps, k)
  {
    if k > 0 { PrefixFork(ps, n, k - 1); }
  }

  lemma SenderIn(ps: seq<seq<Command>>, k: nat, x: int)
    requires WellFormed(ps) && Sends(ps, k, x)
    ensures 0 <= LastFork(ps, k) && LastFork(ps, k) in Senders(ps, x)
  {
  }

  lemma SenderOf(ps: seq<seq<Command>>, x: int, u: nat) returns (k: nat)
    requires u in Senders(ps, x)
    ensures Sends(ps, k, x) && LastFork(ps, k) == u
  {
    k :| k < |ps| && Sends(ps, k, x) && 0 <= LastFork(ps, k) && LastFork(ps, k) == u;
  }

  /** The first n pieces that send to line x. */
  lemma SendersPrefix(ps: seq<seq<Command>>, n: nat, x: int, u: nat)
    requires n <= |ps| && WellFormed(ps)
    ensures u in Senders(ps[..n], x) <==> exists k: nat :: k < n && Sends(ps, k, x) && LastFork(ps, k) == u
  {
    if u in Senders(ps[..n], x) {
      var k := SenderOf(ps[..n], x, u);
      PrefixFork(ps, n, k);
      assert Sends(ps, k, x);
    }
    if k: nat :| k < n && Sends(ps, k, x) && LastFork(ps, k) == u {
      PrefixFork(ps, n, k);
      assert Sends(ps[..n], k, x);
      PrefixWell(ps, n);
      SenderIn(ps[..n], k, x);
    }
  }

  lemma SendersStep(ps: seq<seq<Command>>, x: int)
    requires ps != [] && WellFormed(ps)
    ensures var n := |ps| - 1;
            Senders(ps, x) == Senders(ps[..n], x) + if Sends(ps, n, x) then {LastFork(ps, n)} else {}
  {
    var n := |ps| - 1;
    assert ps[..|ps|] == ps && 0 <= LastFork(ps, n);
    var added: set<nat> := if Sends(ps, n, x) then {LastFork(ps, n)} else {};
    forall u | u in Senders(ps, x) || u in Senders(ps[..n], x) || u in added
      ensures u in Senders(ps, x) && (u in Senders(ps[..n], x) || u in added)
    {
      SendersPrefix(ps, n, x, u);
      SendersPrefix(ps, |ps|, x, u);
    }
  }

  /** Only earlier pieces send to a line. */
  lemma SendersPast(ps: seq<seq<Command>>, k: nat)
    requires WellFormed(ps) && k < |ps|
    ensures Senders(ps, k + 1) == Senders(ps[..k], k + 1)
  {
    assert ps[..|ps|] == ps;
    var x := k + 1;
    forall u | u in Senders(ps, x) || u in Senders(ps[..k], x)
      ensures u in Senders(ps, x) && u in Senders(ps[..k], x)
    {
      SendersPrefix(ps, k, k + 1, u);
      SendersPrefix(ps, |ps|, k + 1, u);
    }
  }

  lemma SendersSome(ps: seq<seq<Command>>, due: map<nat, Reg>, x: nat)
    requires WellFormed(ps) && Targets(ps, due)
    ensures x in due <==> Senders(ps, x) != {}
  {
    if x in due {
      var j: nat :| Sends(ps, j, x);
      SenderIn(ps, j, x);
    }
    if u :| u in Senders(ps, x) {
      var j := SenderOf(ps, x, u);
    }
  }

  /** The due pipe offers the first stage of the next piece what was sent to its line. */
  lemma FrontOffers(m: Machine, ps: seq<seq<Command>>, due: map<nat, Reg>)
    requires WellFormed(ps) && RingOk(m, |ps|, due) && Clean(due, |ps| + 1) && Targets(ps, due)
    requires DueFed(ps, due, m.k.kids)
    ensures Offers(m.k.fds, Front(m), m.k.kids, Senders(ps, |ps| + 1))
  {
    FrontDue(m, |ps|, due);
    SendersSome(ps, due, |ps| + 1);
  }

  /** Children that write only other pipes leave the feeders of pipe id alone. */
  lemma SameFeeders(kids: seq<Child>, kids': seq<Child>, id: nat)
    requires kids <= kids'
    requires forall u :: |kids| <= u < |kids'| ==> Out(kids'[u]) != WriteEnd(id)
    ensures Feeders(kids', id) == Feeders(kids, id)
  {
  }

  /** Older pieces stay connected, and the new piece is. */
  lemma RunFedStep(ps: seq<seq<Command>>, kids: seq<Child>, kids': seq<Child>)
    requires ps != [] && WellFormed(ps)
    requires var n := |ps| - 1;
             && RunFed(ps[..n], kids) && |kids| == FirstFork(ps, n) && kids <= kids' && Keeps(kids, kids')
             && StagesFed(kids', |kids|, ps[n], Senders(ps[..n], n + 1), StageCount(ps[n]))
    ensures RunFed(ps, kids')
  {
    hide Fed, Aimed, LinkOf, FirstFork, Senders, WellFormed, WritersAt;
    var n := |ps| - 1;
    forall k: nat, j: nat | k < |ps| && j < StageCount(ps[k])
      ensures FedAt(ps, kids', k, j)
    {
      PrefixFork(ps, n, k);
      SendersPast(ps, k);
      if k < n {
        assert ps[..n][k] == ps[k] && ps[..n][..k] == ps[..k];
        PrefixWell(ps, n);
        SendersPast(ps[..n], k);
        assert FedAt(ps[..n], kids, k, j);
      }
    }
  }

  lemma PrefixWell(ps: seq<seq<Command>>, n: nat)
    requires n <= |ps| && WellFormed(ps)
    ensures WellFormed(ps[..n])
  {
  }

  /** The state between two pieces, as far as connections go. */
  ghost predicate Connected(ps: seq<seq<Command>>, m: Machine, due: map<nat, Reg>) {
    && |m.k.kids| == FirstFork(ps, |ps|)
    && Quiet(m.k.fds) && StdIs(m.k.fds)
    && DueFed(ps, due, m.k.kids) && RunFed(ps, m.k.kids)
  }

  /** A piece that is not delayed leaves the senders of every later line as they were. */
  lemma PlainDue(ps: seq<seq<Command>>, due: map<nat, Reg>, m: Machine, r: Machine)
    requires ps != [] && WellFormed(ps) && !EndsNumbered(ps[|ps| - 1])
    requires RingOk(m, |ps| - 1, due) && DueFed(ps[..|ps| - 1], due, m.k.kids)
    requires m.k.kids <= r.k.kids && WriteNew(r.k.kids, |m.k.kids|, m.k.pipes)
    ensures DueFed(ps, due, r.k.kids)
  {
    forall x | x in due && |ps| < x
      ensures Feeders(r.k.kids, due[x].id) == Senders(ps, x)
    {
      SameFeeders(m.k.kids, r.k.kids, due[x].id);
      SendersStep(ps, x);
    }
  }

  lemma PlainConnected(ps: seq<seq<Command>>, due: map<nat, Reg>, m: Machine)
    requires ps != [] && WellFormed(ps) && !EndsNumbered(ps[|ps| - 1])
    requires |m.s.ring| == SIZE && Idle(m) && RingOk(m, |ps| - 1, due) && Clean(due, |ps|)
    requires Targets(ps[..|ps| - 1], due) && Connected(ps[..|ps| - 1], m, due)
    ensures Connected(ps, RunPiece(m, ps[|ps| - 1]), due)
  {
    hide Idle, Clean, Targets, Quiet, StdIs, RunFed, RingOk, RunPiece, WriteNew, DueFed, Alternating, NoUser, Keeps, StagesFed;
    var n := |ps| - 1;
    var r := RunPiece(m, ps[n]);
    PrefixWell(ps, n);
    assert Alternating(ps[n]) && NoUser(ps[n]);
    FrontDue(m, n, due);
    FrontOffers(m, ps[..n], due);
    PlainWires(m, ps[n], Senders(ps[..n], n + 1));
    PlainPiece(m, ps[n]);
    PrefixFork(ps, n, n);
    RunFedStep(ps, m.k.kids, r.k.kids);
    PlainDue(ps, due, m, r);
    QuietAdd(m.k.fds, NewEnds(m.k.fds, m.k.pipes), m.k.pipes, Front(m));
  }

  lemma QuietAdd(t: Table, p: Ends, id: nat, q: Ends)
    requires Quiet(t) && StdIs(t) && p.rd !in t && p.wr !in t
    requires q == NoEnds || (3 <= q.rd && 3 <= q.wr)
    ensures Quiet(AddPipe(t, p, id) - Keys(q)) && StdIs(AddPipe(t, p, id) - Keys(q))
    ensures Quiet(t - Keys(q)) && StdIs(t - Keys(q))
  {
  }

  /** The feeders of a delayed pipe after a piece that ends in a numbered pipe. */
  lemma NumberedFeeders(m: Machine, last: Machine, r: Machine, cmds: seq<Command>, ws0: set<nat>, tid: nat, id: nat)
    requires NumberedWired(m, last, r, cmds, ws0, tid)
    ensures id < m.k.pipes ==> Feeders(r.k.kids, id) == Feeders(m.k.kids, id) + if id == tid then {|last.k.kids|} else {}
    ensures last.k.pipes == id == tid ==> Feeders(r.k.kids, id) == {|last.k.kids|}
  {
    hide LoopWired;
    var n := |last.k.kids|;
    assert r.k.kids == last.k.kids + [r.k.kids[n]];
    FeedersGrow(last.k.kids, r.k.kids[n], id);
    if id < m.k.pipes { SameFeeders(m.k.kids, last.k.kids, id); }
    if id == last.k.pipes { FreshFeeders(last.k.kids, last.k.pipes); }
  }

  /** The pipe of the target line, in the map of delayed pipes and in the table. */
  lemma TargetIdDue(m: Machine, line: nat, due: map<nat, Reg>, cmds: seq<Command>, r: Machine)
    requires RingOk(m, line, due) && Clean(due, line + 1) && Delays(cmds) && Clean(due, TargetLine(line, cmds))
    requires 0 < r.k.pipes
    ensures var x := TargetLine(line, cmds); var n := cmds[|cmds| - 1].n;
            && TargetId(m, r, n) == (if x in due then due[x].id else r.k.pipes - 1)
            && (x !in due <==> m.s.ring[Slot(m.s.head, n + 1)] == NoEnds)
  {
    TargetDue(m, line, due, cmds[|cmds| - 1].n);
    var x := TargetLine(line, cmds);
    if x in due { assert Owns(m.k.fds, due[x].p, due[x].id); }
  }

  lemma NumberedDue(ps: seq<seq<Command>>, due: map<nat, Reg>, m: Machine, last: Machine, r: Machine, ws0: set<nat>)
    requires ps != [] && WellFormed(ps) && Delays(ps[|ps| - 1]) && Targets(ps[..|ps| - 1], due)
    requires RingOk(m, |ps| - 1, due) && DueFed(ps[..|ps| - 1], due, m.k.kids)
    requires Clean(due, |ps|) && Clean(due, TargetLine(|ps| - 1, ps[|ps| - 1]))
    requires var cmds := ps[|ps| - 1]; var n := cmds[|cmds| - 1].n;
             && m.k.pipes < r.k.pipes && NumberedWired(m, last, r, cmds, ws0, TargetId(m, r, n)) && MadeLast(m, last, r, n)
    requires |last.k.kids| == LastFork(ps, |ps| - 1)
    ensures 0 < r.k.pipes && DueFed(ps, DueAfter(due, |ps| - 1, ps[|ps| - 1], r), r.k.kids)
  {
    hide NumberedWired, LastFork, Senders, Folds, Cell, Slot, WellFormed, TargetId, Feeders;
    var n := |ps| - 1;
    var cmds := ps[n];
    var t := TargetLine(n, cmds);
    var due' := DueAfter(due, n, cmds, r);
    var tid := TargetId(m, r, cmds[|cmds| - 1].n);
    PrefixWell(ps, n);
    TargetIdDue(m, n, due, cmds, r);
    forall x | x in due' && |ps| < x
      ensures Feeders(r.k.kids, due'[x].id) == Senders(ps, x)
    {
      NumberedFeeders(m, last, r, cmds, ws0, tid, due'[x].id);
      SendersStep(ps, x);
      SendersSome(ps[..n], due, x);
      assert Sends(ps, n, x) <==> x == t;
    }
  }

  lemma NumberedQuiet(m: Machine, r: Machine, cmds: seq<Command>)
    requires EndsNumbered(cmds) && |m.s.ring| == SIZE && NumberedEffect(m, r, cmds)
    requires Quiet(m.k.fds) && StdIs(m.k.fds) && (Front(m) == NoEnds || (3 <= Front(m).rd && 3 <= Front(m).wr))
    ensures Quiet(r.k.fds) && StdIs(r.k.fds)
  {
  }

  lemma NumberedConnected(ps: seq<seq<Command>>, due: map<nat, Reg>, m: Machine)
    requires ps != [] && WellFormed(ps) && EndsNumbered(ps[|ps| - 1])
    requires |m.s.ring| == SIZE && Idle(m) && RingOk(m, |ps| - 1, due) && Clean(due, |ps|)
    requires Clean(due, TargetLine(|ps| - 1, ps[|ps| - 1]))
    requires Targets(ps[..|ps| - 1], due) && Connected(ps[..|ps| - 1], m, due)
    ensures var r := RunPiece(m, ps[|ps| - 1]);
            0 < r.k.pipes && Connected(ps, r, DueAfter(due, |ps| - 1, ps[|ps| - 1], r))
  {
    hide Idle, Clean, Targets, Quiet, StdIs, RunFed, RingOk, RunPiece, DueFed, Alternating, NoUser, Keeps, StagesFed, TargetId, LastStart, Slot, MadeLast;
    var n := |ps| - 1;
    var cmds := ps[n];
    var ws0 := Senders(ps[..n], n + 1);
    var r := RunPiece(m, cmds);
    var last := LastStart(m, cmds);
    PrefixWell(ps, n);
    assert Alternating(cmds) && NoUser(cmds) && Delays(cmds);
    FrontDue(m, n, due);
    TargetDue(m, n, due, cmds[|cmds| - 1].n);
    FrontOffers(m, ps[..n], due);
    NumberedWire(m, cmds, ws0);
    NumberedPiece(m, cmds);
    PrefixFork(ps, n, n);
    RunFedStep(ps, m.k.kids, r.k.kids);
    NumberedDue(ps, due, m, last, r, ws0);
    FrontAbove(m);
    NumberedQuiet(m, r, cmds);
  }

  lemma FrontAbove(m: Machine)
    requires |m.s.ring| == SIZE && FrontOk(m)
    ensures Front(m) == NoEnds || (3 <= Front(m).rd && 3 <= Front(m).wr)
  {
  }

  lemma {:induction false} RunConnected(ps: seq<seq<Command>>) returns (due: map<nat, Reg>)
    requires WellFormed(ps) && NoReuse(ps)
    ensures Idle(Run(ps)) && RingOk(Run(ps), |ps|, due) && Targets(ps, due) && Connected(ps, Run(ps), due)
    decreases |ps|
  {
    hide RingOk, Idle, Run, RunPiece, NoReuse, Connected, Targets, DueAfter;
    if ps == [] {
      due := map[];
      StartOk();
      StartConnected();
    } else {
      var n := |ps| - 1;
      PrefixFine(ps, n);
      var before := RunConnected(ps[..n]);
      RunStep(ps);
      CleanNext(ps, before);
      due := PieceStep(Run(ps[..n]), n, before, ps[n]);
      TargetsNext(ps, before, due);
      ConnectStep(ps, before, Run(ps[..n]));
    }
  }

  lemma StartConnected()
    ensures Connected([], Run([]), map[]) && Targets([], map[])
  {
  }

  lemma ConnectStep(ps: seq<seq<Command>>, due: map<nat, Reg>, m: Machine)
    requires ps != [] && WellFormed(ps)
    requires |m.s.ring| == SIZE && Idle(m) && RingOk(m, |ps| - 1, due) && Clean(due, |ps|)
    requires Delays(ps[|ps| - 1]) ==> Clean(due, TargetLine(|ps| - 1, ps[|ps| - 1]))
    requires Targets(ps[..|ps| - 1], due) && Connected(ps[..|ps| - 1], m, due)
    ensures var r := RunPiece(m, ps[|ps| - 1]);
            0 < r.k.pipes ==> Connected(ps, r, DueAfter(due, |ps| - 1, ps[|ps| - 1], r))
  {
    hide Idle, Clean, Targets, RingOk, RunPiece, Connected;
    if EndsNumbered(ps[|ps| - 1]) {
      NumberedConnected(ps, due, m);
    } else {
      PlainConnected(ps, due, m);
    }
  }

  /** Over every run without slot reuse, every program forked for every stage of every piece
      reads exactly what its command line says, alone, and its output and error go where the
      connector behind it says; it starts with the three standard descriptors and no others. */
  lemma WiringOk(ps: seq<seq<Command>>)
    requires WellFormed(ps) && NoReuse(ps)
    ensures |Run(ps).k.kids| == FirstFork(ps, |ps|)
    ensures RunFed(ps, Run(ps).k.kids)
  {
    var due := RunConnected(ps);
  }
}
