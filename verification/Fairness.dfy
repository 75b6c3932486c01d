/**
 Fair behaviours exist: letting some process that owes or can take a step take it, as long as there
 is one, is one.  So what holds in every fair interleaving does happen.
 */
module Fairness {
  import opened Kernel
  import opened History
  import opened Schedule
  import opened Liveness

  /** Some child owes a step. */
  ghost predicate Owed(k: Proc, st: Sys)
    requires |st.procs| <= |k.kids|
  {
    exists u: nat :: u < |st.procs| && Obliged(k, st, u)
  }

  /** The step of the eager scheduler: a child that owes one first, the shell otherwise. */
  ghost function Advance(k: Proc, st: Sys): Sys {
    if |st.procs| > |k.kids| then st
    else if Owed(k, st) then
      var u: nat :| u < |st.procs| && Obliged(k, st, u);
      var s := st.procs[u];
      st.(procs := st.procs[u := if s.Setup? then ChildNext(k.kids[u], s.done) else Exited])
    else if CanStep(k, st) then ShellNext(k, st)
    else st
  }

  ghost function Eager(k: Proc, n: nat): Sys {
    if n == 0 then Boot else Advance(k, Eager(k, n - 1))
  }

  ghost function EagerRun(k: Proc): nat -> Sys {
    (n: nat) => Eager(k, n)
  }

  lemma AdvanceNext(k: Proc, st: Sys)
    requires |st.procs| <= |k.kids|
    ensures Next(k, st, Advance(k, st))
  {
    if Owed(k, st) {
      var u: nat :| u < |st.procs| && Advance(k, st) == st.(procs := st.procs[u := Advance(k, st).procs[u]]) && Obliged(k, st, u)
        && Advance(k, st).procs[u] == (if st.procs[u].Setup? then ChildNext(k.kids[u], st.procs[u].done) else Exited);
      assert ChildStep(k, st, Advance(k, st), u);
    }
  }

  lemma EagerBehaves(k: Proc)
    ensures Behaviour(k, EagerRun(k))
  {
    hide Next, Advance;
    var r := EagerRun(k);
    forall n: nat
      ensures StepAt(k, r, n)
    {
      assert r(n + 1) == Advance(k, r(n));
      if |r(n).procs| <= |k.kids| { AdvanceNext(k, r(n)); }
    }
  }

  /** The steps child u may still take, born or not. */
  function Left(k: Proc, st: Sys, u: nat): nat
    requires u < |k.kids|
  {
    if u < |st.procs| then WorkOf(k.kids[u], st.procs[u]) else |k.kids[u].prog| + 1
  }

  function AllLeft(k: Proc, st: Sys, p: nat): nat
    requires p <= |k.kids|
  {
    if p == 0 then 0 else AllLeft(k, st, p - 1) + Left(k, st, p - 1)
  }

  lemma {:induction false} LeftLess(k: Proc, a: Sys, b: Sys, p: nat)
    requires p <= |k.kids| && forall u :: 0 <= u < p ==> Left(k, b, u) <= Left(k, a, u)
    ensures AllLeft(k, b, p) <= AllLeft(k, a, p)
    ensures (exists u :: 0 <= u < p && Left(k, b, u) < Left(k, a, u)) ==> AllLeft(k, b, p) < AllLeft(k, a, p)
  {
    hide Left;
    if p > 0 { LeftLess(k, a, b, p - 1); }
  }

  /** The steps the whole system may still take. */
  function Measure(k: Proc, st: Sys): nat
    requires st.pc <= |k.log|
  {
    |k.log| - st.pc + AllLeft(k, st, |k.kids|)
  }

  lemma ChildLess(k: Proc, st: Sys, u: nat, s: Status)
    requires Inv(k, st) && u < |st.procs| && !st.procs[u].Exited?
    requires s == if st.procs[u].Setup? then ChildNext(k.kids[u], st.procs[u].done) else Exited
    ensures Measure(k, st.(procs := st.procs[u := s])) < Measure(k, st)
  {
    hide Guards;
    LeftLess(k, st, st.(procs := st.procs[u := s]), |k.kids|);
    assert Left(k, st.(procs := st.procs[u := s]), u) < Left(k, st, u);
  }

  lemma AdvanceLess(k: Proc, st: Sys)
    requires Coherent(k) && Inv(k, st)
    ensures Inv(k, Advance(k, st))
    ensures Advance(k, st) != st ==> Measure(k, Advance(k, st)) < Measure(k, st)
    ensures Advance(k, st) == st ==> !Owed(k, st) && !CanStep(k, st)
  {
    InvBound(k, st);
    AdvanceNext(k, st);
    NextKeeps(k, st, Advance(k, st));
    hide Inv, Next, Coherent;
    if Owed(k, st) {
      OwedLess(k, st);
    } else if CanStep(k, st) {
      ShellLess(k, st);
    }
  }

  lemma OwedLess(k: Proc, st: Sys)
    requires Inv(k, st) && |st.procs| <= |k.kids| && Owed(k, st) && st.pc <= |k.log|
    ensures Advance(k, st).pc == st.pc && Measure(k, Advance(k, st)) < Measure(k, st)
  {
    hide Inv;
    var u: nat :| u < |st.procs| && Obliged(k, st, u) && Advance(k, st) == st.(procs := st.procs[u := Advance(k, st).procs[u]])
      && Advance(k, st).procs[u] == (if st.procs[u].Setup? then ChildNext(k.kids[u], st.procs[u].done) else Exited);
    ChildLess(k, st, u, Advance(k, st).procs[u]);
  }

  lemma ShellLess(k: Proc, st: Sys)
    requires Inv(k, st) && |st.procs| <= |k.kids| && !Owed(k, st) && CanStep(k, st) && st.pc < |k.log|
    ensures Advance(k, st).pc == st.pc + 1 && Measure(k, Advance(k, st)) < Measure(k, st)
  {
    hide Inv, Owed;
    var st' := ShellNext(k, st);
    forall u | 0 <= u < |k.kids|
      ensures Left(k, st', u) <= Left(k, st, u)
    {
    }
    LeftLess(k, st, st', |k.kids|);
  }

  /** The eager scheduler comes to rest. */
  lemma {:induction false} Settles(k: Proc, n: nat) returns (t: nat)
    requires Coherent(k) && Inv(k, Eager(k, n)) && Eager(k, n).pc <= |k.log|
    ensures n <= t && Inv(k, Eager(k, t)) && Advance(k, Eager(k, t)) == Eager(k, t)
    decreases Measure(k, Eager(k, n))
  {
    hide Inv, Coherent, Advance, Measure;
    AdvanceLess(k, Eager(k, n));
    if Advance(k, Eager(k, n)) == Eager(k, n) {
      t := n;
    } else {
      assert Eager(k, n + 1) == Advance(k, Eager(k, n));
      InvBound(k, Eager(k, n + 1));
      t := Settles(k, n + 1);
    }
  }

  lemma {:induction false} Rests(k: Proc, t: nat, m: nat)
    requires t <= m && Advance(k, Eager(k, t)) == Eager(k, t)
    ensures Eager(k, m) == Eager(k, t)
    decreases m
  {
    hide Advance;
    if t < m { Rests(k, t, m - 1); }
  }

  /** For every history there is a fair behaviour. */
  lemma FairExists(k: Proc)
    requires Coherent(k)
    ensures Fair(k, EagerRun(k))
  {
    hide Inv, Advance, Owed, CanStep, Obliged;
    BootInv(k);
    EagerBehaves(k);
    InvBound(k, Boot);
    var t := Settles(k, 0);
    AdvanceLess(k, Eager(k, t));
    hide Coherent;
    var r := EagerRun(k);
    forall u: nat, n: nat
      ensures ChildFair(k, r, u, n)
    {
      var m := if n < t then t else n;
      Rests(k, t, m);
      assert ChildMoves(k, r, u, m) by { NobodyOwes(k, r, u, m); }
    }
    forall n: nat
      ensures ShellFair(k, r, n)
    {
      var m := if n < t then t else n;
      Rests(k, t, m);
      assert ShellMoves(k, r, m);
    }
  }

  lemma NobodyOwes(k: Proc, r: nat -> Sys, u: nat, m: nat)
    requires |r(m).procs| <= |k.kids| ==> !Owed(k, r(m))
    ensures ChildMoves(k, r, u, m)
  {
    hide Obliged;
  }
}
