/** What every interleaving of the shell and its children satisfies, over every run. */
module Concurrent {
  import opened Kernel
  import opened Shell
  import opened Pieces
  import opened PieceRuns
  import opened Runs
  import opened Accounts
  import opened Reaping
  import opened History
  import opened Schedule
  import opened Liveness
  import opened Fairness

  lemma RunOrderly(ps: seq<seq<Command>>)
    requires WellFormed(ps) && NoReuse(ps)
    ensures Orderly(Run(ps).k)
  {
    var due := RunOk(ps);
    RunCoherent(ps);
  }

  /** Progress: with pipes of unbounded capacity and programs that end at the end of their input,
      in every fair interleaving every wait and every drain returns, and the shell comes to its
      next prompt. */
  lemma PromptReturns(ps: seq<seq<Command>>, r: nat -> Sys) returns (m: nat)
    requires WellFormed(ps) && NoReuse(ps) && Fair(Run(ps).k, r)
    ensures r(m).pc == |Run(ps).k.log|
  {
    RunOrderly(ps);
    m := Finishes(Run(ps).k, r, 0);
  }

  /** Such interleavings exist: with the eager scheduler the shell does come to its prompt. */
  lemma PromptReached(ps: seq<seq<Command>>) returns (m: nat)
    requires WellFormed(ps) && NoReuse(ps)
    ensures Fair(Run(ps).k, EagerRun(Run(ps).k)) && EagerRun(Run(ps).k)(m).pc == |Run(ps).k.log|
  {
    hide Fair, EagerRun, WellFormed, NoReuse, Run;
    RunCoherent(ps);
    FairExists(Run(ps).k);
    m := PromptReturns(ps, EagerRun(Run(ps).k));
  }

  lemma {:induction false} DoAllGrows(k: Proc, ops: seq<Op>)
    ensures k.log <= DoAll(k, ops).log && k.kids <= DoAll(k, ops).kids
    decreases |ops|
  {
    if ops != [] { DoAllGrows(Do(k, ops[0]), ops[1..]); }
  }

  lemma {:induction false} RunGrows(ps: seq<seq<Command>>, n: nat)
    requires n <= |ps|
    ensures Run(ps[..n]).k.log <= Run(ps).k.log && Run(ps[..n]).k.kids <= Run(ps).k.kids
    decreases |ps|
  {
    hide Run, RunPiece, Leads;
    if n == |ps| {
      assert ps[..n] == ps;
    } else {
      var last := |ps| - 1;
      RunGrows(ps[..last], n);
      assert ps[..last][..n] == ps[..n];
      PieceGrows(Run(ps[..last]), ps[last]);
      RunStep(ps);
    }
  }

  lemma PieceGrows(m: Machine, cmds: seq<Command>)
    requires |m.s.ring| == SIZE
    ensures m.k.log <= RunPiece(m, cmds).k.log && m.k.kids <= RunPiece(m, cmds).k.kids
  {
    hide RunPiece;
    var ops := PieceOps(m, cmds);
    DoAllGrows(m.k, ops);
  }

  /** A piece ending in a numbered pipe drains its barrier pipe last but one. */
  lemma PieceDrains(ps: seq<seq<Command>>)
    requires ps != [] && WellFormed(ps) && NoReuse(ps) && EndsNumbered(ps[|ps| - 1])
    ensures var m := Run(ps[..|ps| - 1]); Drained(Run(ps), m.k.pipes, |m.k.kids|)
  {
    hide RingOk, Idle, Run, RunPiece, NoReuse, Drained;
    var n := |ps| - 1;
    PrefixFine(ps, n);
    var due := RunOk(ps[..n]);
    RunStep(ps);
    CleanNext(ps, due);
    FrontDue(Run(ps[..n]), n, due);
    TargetDue(Run(ps[..n]), n, due, ps[n][|ps[n]| - 1].n);
    NumberedPiece(Run(ps[..n]), ps[n]);
  }

  /** Exec barrier: in every interleaving, by the time the shell has finished with a piece that
      ends in a numbered pipe, every child forked for that piece has exec'd or exited. */
  lemma ExecBarrier(ps: seq<seq<Command>>, n: nat, r: nat -> Sys, t: nat)
    requires n < |ps| && WellFormed(ps) && NoReuse(ps) && EndsNumbered(ps[n])
    requires Behaviour(Run(ps).k, r)
    requires |Run(ps[..n + 1]).k.log| <= r(t).pc
    ensures |Run(ps[..n + 1]).k.kids| <= |r(t).procs|
    ensures forall u :: |Run(ps[..n]).k.kids| <= u < |Run(ps[..n + 1]).k.kids| ==> PastExec(r(t).procs[u])
  {
    hide Run, WellFormed, NoReuse, Coherent, Inv, Drained, EndsNumbered, Behaviour;
    var k := Run(ps).k;
    var qs := ps[..n + 1];
    PrefixFine(ps, n + 1);
    assert qs[..|qs| - 1] == ps[..n] && qs[n] == ps[n];
    PieceDrains(qs);
    RunGrows(ps, n + 1);
    RunCoherent(ps);
    Always(k, r, t);
    BarrierAt(k, Run(qs), Run(ps[..n]).k.pipes, |Run(ps[..n]).k.kids|, r(t));
  }

  lemma BarrierAt(k: Proc, q: Machine, e: nat, first: nat, st: Sys)
    requires Coherent(k) && Inv(k, st) && Drained(q, e, first)
    requires q.k.log <= k.log && q.k.kids <= k.kids && |q.k.log| <= st.pc
    ensures |q.k.kids| <= |st.procs|
    ensures forall u :: first <= u < |q.k.kids| ==> PastExec(st.procs[u])
  {
    hide Coherent, Bars, TableAt;
    var d := |q.k.log| - 2;
    assert k.log[d] == q.k.log[d];
    BornMono(k, d, st.pc);
    forall u | first <= u < |q.k.kids|
      ensures PastExec(st.procs[u])
    {
      assert k.kids[u] == q.k.kids[u];
      assert Guards(k, d, u, q.s.eol.wr);
    }
  }

  /** Reaping: in every interleaving, whenever the shell is about to fork, all children but the
      two most recent have exited. */
  lemma ReapedAtFork(ps: seq<seq<Command>>, r: nat -> Sys, t: nat)
    requires Behaviour(Run(ps).k, r)
    requires r(t).pc < |Run(ps).k.log| && Run(ps).k.log[r(t).pc].op.Fork?
    ensures forall u :: 0 <= u < |r(t).procs| - 2 ==> r(t).procs[u].Exited?
  {
    hide Run, Coherent, Inv, Behaviour, ForksReaped;
    ReapingOk(ps);
    RunCoherent(ps);
    Always(Run(ps).k, r, t);
    ReapedAt(Run(ps).k, r(t));
  }

  lemma ReapedAt(k: Proc, st: Sys)
    requires Inv(k, st) && ForksReaped(k.log) && st.pc < |k.log| && k.log[st.pc].op.Fork?
    ensures forall u :: 0 <= u < |st.procs| - 2 ==> st.procs[u].Exited?
  {
    hide Guards;
    forall u | 0 <= u < |st.procs| - 2
      ensures st.procs[u].Exited?
    {
      assert Waited(k.log[..st.pc], u + 1);
      var i :| 0 <= i < st.pc && k.log[..st.pc][i].op == Wait(u + 1);
      assert k.log[i].op.Wait?;
    }
  }

  /** A piece that does not end in a numbered pipe is over only when its last program has exited. */
  lemma LastExited(ps: seq<seq<Command>>, r: nat -> Sys, t: nat)
    requires ps != [] && !EndsNumbered(ps[|ps| - 1]) && Run(ps).k.kids != []
    requires Behaviour(Run(ps).k, r) && r(t).pc == |Run(ps).k.log|
    ensures |r(t).procs| == |Run(ps).k.kids| && r(t).procs[|r(t).procs| - 1].Exited?
  {
    hide Run, Coherent, WindowExact, Inv, Behaviour, EndsNumbered, Waited;
    ReapingOk(ps);
    RunCoherent(ps);
    Always(Run(ps).k, r, t);
    LastReaped(Run(ps).k, r(t));
  }

  lemma LastReaped(k: Proc, st: Sys)
    requires Inv(k, st) && st.pc == |k.log| && k.kids != [] && Waited(k.log, |k.kids|)
    ensures |st.procs| == |k.kids| && st.procs[|st.procs| - 1].Exited?
  {
    hide Guards;
    var i :| 0 <= i < |k.log| && k.log[i].op == Wait(|k.kids|);
    assert k.log[i].op.Wait?;
  }
}
