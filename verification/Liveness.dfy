/**
 Every wait and every drain of the shell returns, in every fair interleaving: the least child
 not yet finished is never held up by anybody else.
 */
module Liveness {
  import opened Kernel
  import opened Ownership
  import opened History
  import opened Schedule

  predicate ShellHolds(k: Proc, st: Sys, id: nat) {
    Writes(TableAt(k, st.pc), id)
  }

  /** Child u owes a step: it is setting up, or its program sees the end of its input, which is
      when nobody holds the write end of the pipe it reads. */
  predicate Obliged(k: Proc, st: Sys, u: nat)
    requires |st.procs| <= |k.kids| && u < |st.procs|
  {
    || st.procs[u].Setup?
    || (st.procs[u].Running?
        && (In(k.kids[u]).ReadEnd? ==>
              !ShellHolds(k, st, In(k.kids[u]).id) && !Written(k, st, In(k.kids[u]).id)))
  }

  /** At time m child u does what it owes, if it owes anything. */
  ghost predicate ChildMoves(k: Proc, r: nat -> Sys, u: nat, m: nat) {
    |r(m).procs| <= |k.kids| && u < |r(m).procs| && Obliged(k, r(m), u) ==>
      u < |r(m + 1).procs| && r(m + 1).procs[u] != r(m).procs[u]
  }

  /** At time m the shell steps, if it can. */
  ghost predicate ShellMoves(k: Proc, r: nat -> Sys, m: nat) {
    |r(m).procs| <= |k.kids| && CanStep(k, r(m)) ==> r(m).pc < r(m + 1).pc
  }

  ghost predicate ChildFair(k: Proc, r: nat -> Sys, u: nat, n: nat) {
    exists m: nat :: n <= m && ChildMoves(k, r, u, m)
  }

  ghost predicate ShellFair(k: Proc, r: nat -> Sys, n: nat) {
    exists m: nat :: n <= m && ShellMoves(k, r, m)
  }

  /** A behaviour in which nobody who can step, or owes a step, is passed over forever. */
  ghost predicate Fair(k: Proc, r: nat -> Sys) {
    && Behaviour(k, r)
    && (forall u: nat, n: nat :: ChildFair(k, r, u, n))
    && (forall n: nat :: ShellFair(k, r, n))
  }

  /** What the history of every run satisfies (module Ownership). */
  ghost predicate Orderly(k: Proc) {
    Coherent(k) && LogOk(k) && KidsOk(k.kids, k.pipes)
  }

  function WorkOf(c: Child, s: Status): nat {
    match s
    case Setup(d) => if d < |c.prog| then |c.prog| - d + 1 else 1
    case Running => 1
    case Exited => 0
  }

  /** The steps the first p children still owe. */
  function Work(k: Proc, procs: seq<Status>, p: nat): nat
    requires p <= |procs| <= |k.kids|
  {
    if p == 0 then 0 else Work(k, procs, p - 1) + WorkOf(k.kids[p - 1], procs[p - 1])
  }

  lemma {:induction false} WorkLess(k: Proc, a: seq<Status>, b: seq<Status>, p: nat)
    requires p <= |a| <= |k.kids| && p <= |b| <= |k.kids|
    requires forall u :: 0 <= u < p ==> WorkOf(k.kids[u], b[u]) <= WorkOf(k.kids[u], a[u])
    ensures Work(k, b, p) <= Work(k, a, p)
    ensures (exists u :: 0 <= u < p && WorkOf(k.kids[u], b[u]) < WorkOf(k.kids[u], a[u])) ==>
              Work(k, b, p) < Work(k, a, p)
  {
    if p > 0 { WorkLess(k, a, b, p - 1); }
  }

  lemma {:induction false} WorkDone(k: Proc, procs: seq<Status>, p: nat)
    requires p <= |procs| <= |k.kids| && Work(k, procs, p) == 0
    ensures forall u :: 0 <= u < p ==> procs[u].Exited?
  {
    if p > 0 { WorkDone(k, procs, p - 1); }
  }

  /** From a to b child u has moved on, if it has moved at all. */
  ghost predicate Onward(k: Proc, a: Sys, b: Sys, u: nat) {
    && u < |a.procs| <= |b.procs| <= |k.kids| && a.pc <= b.pc
    && WorkOf(k.kids[u], b.procs[u]) <= WorkOf(k.kids[u], a.procs[u])
    && (b.procs[u] != a.procs[u] ==> WorkOf(k.kids[u], b.procs[u]) < WorkOf(k.kids[u], a.procs[u]))
    && (a.procs[u].Exited? ==> b.procs[u].Exited?)
    && (PastExec(a.procs[u]) ==> PastExec(b.procs[u]))
  }

  lemma NextOnward(k: Proc, st: Sys, st': Sys, u: nat)
    requires Inv(k, st) && Inv(k, st') && Next(k, st, st') && u < |st.procs|
    ensures Onward(k, st, st', u)
  {
    hide Guards, Writes, Written;
  }

  lemma OnwardTrans(k: Proc, a: Sys, b: Sys, c: Sys, u: nat)
    requires Onward(k, a, b, u) && Onward(k, b, c, u)
    ensures Onward(k, a, c, u)
  {
  }

  lemma {:induction false} RunOnward(k: Proc, r: nat -> Sys, n: nat, m: nat, u: nat)
    requires Orderly(k) && Behaviour(k, r) && n <= m && u < |r(n).procs|
    ensures Onward(k, r(n), r(m), u)
    decreases m
  {
    hide Next, Inv, Onward, Coherent, LogOk, KidsOk;
    Always(k, r, n);
    InvBound(k, r(n));
    if n < m {
      RunOnward(k, r, n, m - 1, u);
      OnwardBound(k, r(n), r(m - 1), u);
      Always(k, r, m - 1);
      Always(k, r, m);
      InvBound(k, r(m - 1));
      assert StepAt(k, r, m - 1);
      NextOnward(k, r(m - 1), r(m), u);
      OnwardTrans(k, r(n), r(m - 1), r(m), u);
    } else {
      OnwardSelf(k, r(n), u);
    }
  }

  lemma OnwardBound(k: Proc, a: Sys, b: Sys, u: nat)
    requires Onward(k, a, b, u)
    ensures u < |b.procs|
  {
  }

  lemma OnwardSelf(k: Proc, a: Sys, u: nat)
    requires u < |a.procs| <= |k.kids|
    ensures Onward(k, a, a, u)
  {
  }

  lemma InvBound(k: Proc, st: Sys)
    requires Inv(k, st)
    ensures |st.procs| <= |k.kids| && st.pc <= |k.log|
  {
  }

  lemma {:induction false} RunPc(k: Proc, r: nat -> Sys, n: nat, m: nat)
    requires Orderly(k) && Behaviour(k, r) && n <= m
    ensures r(n).pc <= r(m).pc
    decreases m
  {
    hide Inv, Coherent, LogOk, KidsOk;
    if n < m {
      RunPc(k, r, n, m - 1);
      Always(k, r, m - 1);
      InvBound(k, r(m - 1));
      assert StepAt(k, r, m - 1);
    }
  }

  /** The objects a stage's redirections leave are objects it was forked with. */
  lemma {:induction false} SetupObjects(t: Table, ops: seq<Op>, id: nat)
    requires forall i :: 0 <= i < |ops| ==> ops[i].Close? || ops[i].Dup2? || ops[i].Exec?
    requires Writes(ApplyAll(t, ops), id)
    ensures Writes(t, id)
    decreases |ops|
  {
    if ops != [] {
      SetupObjects(Apply(t, ops[0]), ops[1..], id);
      ApplyObjects(t, ops[0], id);
    }
  }

  lemma ApplyObjects(t: Table, op: Op, id: nat)
    requires op.Close? || op.Dup2? || op.Exec?
    requires Writes(Apply(t, op), id)
    ensures Writes(t, id)
  {
    var fd :| fd in Apply(t, op) && Apply(t, op)[fd].obj == WriteEnd(id);
    if op.Dup2? && fd == op.to && op.from in t && op.from != op.to {
      assert t[op.from].obj == WriteEnd(id);
    } else {
      assert t[fd].obj == WriteEnd(id);
    }
  }

  lemma TableObjects(c: Child, s: Status, id: nat)
    requires StageProgram(c.prog) && Writes(TableOf(c, s), id)
    ensures Writes(c.table, id)
  {
    if s.Setup? && s.done <= |c.prog| {
      SetupObjects(c.table, c.prog[..s.done], id);
    } else if s.Running? {
      SetupObjects(c.table, c.prog, id);
    }
  }

  /** No child forked after u was ever handed an end of u's input. */
  lemma LaterLack(k: Proc, u: nat, v: nat, s: Status)
    requires Orderly(k) && u < v < |k.kids| && In(k.kids[u]).ReadEnd?
    ensures !Writes(TableOf(k.kids[v], s), In(k.kids[u]).id)
  {
    hide KidsOk;
    var id := In(k.kids[u]).id;
    var j :| 0 <= j < |k.log| && k.log[j].op == Fork(k.kids[v].prog)
               && k.log[j].born == v && k.log[j].before == k.kids[v].table;
    assert EventOk(k.kids, k.log[j]);
    assert Lacks(k.kids[v].table, id);
    if Writes(TableOf(k.kids[v], s), id) {
      TableObjects(k.kids[v], s, id);
    }
  }

  /** While the shell waits for child pid - 1, the least unfinished child up to that one owes a
      step: nobody else can hold its input open. */
  lemma LeastObliged(k: Proc, st: Sys, u: nat)
    requires Orderly(k) && Inv(k, st) && st.pc < |k.log| && k.log[st.pc].op.Wait?
    requires u < k.log[st.pc].op.pid && u < |st.procs| && !st.procs[u].Exited?
    requires forall v :: 0 <= v < u ==> st.procs[v].Exited?
    ensures Obliged(k, st, u)
  {
    if st.procs[u].Running? && In(k.kids[u]).ReadEnd? {
      var id := In(k.kids[u]).id;
      assert EventOk(k.kids, k.log[st.pc]);
      assert Lacks(TableAt(k, st.pc), id);
      forall v | 0 <= v < |st.procs|
        ensures !Writes(TableOf(k.kids[v], st.procs[v]), id)
      {
        if v == u {
          assert KidOk(k.kids[u], k.pipes);
        } else if u < v {
          LaterLack(k, u, v, st.procs[v]);
        }
      }
    }
  }

  lemma {:induction false} LeastUnfinished(k: Proc, procs: seq<Status>, p: nat) returns (u: nat)
    requires p <= |procs| <= |k.kids| && Work(k, procs, p) > 0
    ensures u < p && !procs[u].Exited? && forall v :: 0 <= v < u ==> procs[v].Exited?
  {
    if Work(k, procs, p - 1) > 0 {
      u := LeastUnfinished(k, procs, p - 1);
    } else {
      WorkDone(k, procs, p - 1);
      u := p - 1;
    }
  }

  /** Between n and m, with nothing new forked, the first p children have less to do when child
      u has changed, and never more. */
  lemma WorkRuns(k: Proc, r: nat -> Sys, n: nat, m: nat, p: nat, u: nat)
    requires Orderly(k) && Behaviour(k, r) && n <= m && u < p <= |r(n).procs|
    ensures p <= |r(m).procs| <= |k.kids| && |r(n).procs| <= |k.kids|
    ensures r(m).procs[u] != r(n).procs[u] ==> Work(k, r(m).procs, p) < Work(k, r(n).procs, p)
  {
    hide Coherent, LogOk, KidsOk, Next, TableOf, Behaviour;
    RunOnward(k, r, n, m, u);
    forall v | 0 <= v < p
      ensures WorkOf(k.kids[v], r(m).procs[v]) <= WorkOf(k.kids[v], r(n).procs[v])
    {
      RunOnward(k, r, n, m, v);
    }
    WorkLess(k, r(n).procs, r(m).procs, p);
  }

  /** The state at a time, without the rest of the behaviour. */
  lemma AtTime(k: Proc, r: nat -> Sys, n: nat)
    requires Orderly(k) && Behaviour(k, r)
    ensures Inv(k, r(n)) && |r(n).procs| <= |k.kids|
  {
    Always(k, r, n);
  }

  /** A child that owes a step as long as the shell stays where it is, takes it or sees the shell
      move on. */
  lemma ChildActs(k: Proc, r: nat -> Sys, n: nat, u: nat) returns (m: nat)
    requires Orderly(k) && Fair(k, r) && u < |r(n).procs|
    requires forall i: nat ::
               (n <= i && r(i).pc == r(n).pc && u < |r(i).procs| <= |k.kids| && r(i).procs[u] == r(n).procs[u] ==>
                  Obliged(k, r(i), u))
    ensures n <= m
    ensures r(n).pc < r(m).pc || (r(m).pc == r(n).pc && u < |r(m).procs| && r(m).procs[u] != r(n).procs[u])
  {
    hide Coherent, LogOk, KidsOk, Next, TableOf, Obliged, CanStep;
    assert ChildFair(k, r, u, n);
    m :| n <= m && ChildMoves(k, r, u, m);
    RunOnward(k, r, n, m, u);
    if r(m).pc == r(n).pc && r(m).procs[u] == r(n).procs[u] {
      assert Obliged(k, r(m), u);
      RunPc(k, r, n, m + 1);
      m := m + 1;
    }
  }

  /** A shell that can step as long as it stays where it is, moves on. */
  lemma ShellActs(k: Proc, r: nat -> Sys, n: nat) returns (m: nat)
    requires Orderly(k) && Fair(k, r)
    requires forall i: nat :: n <= i && r(i).pc == r(n).pc && |r(i).procs| <= |k.kids| ==> CanStep(k, r(i))
    ensures n <= m && r(n).pc < r(m).pc
  {
    hide Coherent, LogOk, KidsOk, Next, TableOf, Obliged, CanStep;
    assert ShellFair(k, r, n);
    m :| n <= m && ShellMoves(k, r, m);
    RunPc(k, r, n, m);
    AtTime(k, r, m);
    if r(m).pc == r(n).pc { m := m + 1; }
  }

  lemma {:induction false} WaitReturns(k: Proc, r: nat -> Sys, n: nat) returns (m: nat)
    requires Orderly(k) && Fair(k, r) && r(n).pc < |k.log| && k.log[r(n).pc].op.Wait?
    ensures n <= m && r(n).pc < r(m).pc
    decreases var p := k.log[r(n).pc].op.pid;
              if p <= |r(n).procs| <= |k.kids| then Work(k, r(n).procs, p) else 0
  {
    hide Coherent, KidsOk, Next, TableOf, KidOk, Behaviour, Gone;
    var pid := k.log[r(n).pc].op.pid;
    AtTime(k, r, n);
    assert EventOk(k.kids, k.log[r(n).pc]);
    if Work(k, r(n).procs, pid) == 0 {
      WorkDone(k, r(n).procs, pid);
      forall i: nat | n <= i && r(i).pc == r(n).pc && |r(i).procs| <= |k.kids|
        ensures CanStep(k, r(i))
      {
        RunOnward(k, r, n, i, pid - 1);
      }
      m := ShellActs(k, r, n);
    } else {
      var u := LeastUnfinished(k, r(n).procs, pid);
      forall i: nat | n <= i && r(i).pc == r(n).pc && u < |r(i).procs| <= |k.kids| && r(i).procs[u] == r(n).procs[u]
        ensures Obliged(k, r(i), u)
      {
        AtTime(k, r, i);
        forall v | 0 <= v < u
          ensures r(i).procs[v].Exited?
        {
          RunOnward(k, r, n, i, v);
        }
        LeastObliged(k, r(i), u);
      }
      m := ChildActs(k, r, n, u);
      if r(m).pc == r(n).pc {
        WorkRuns(k, r, n, m, pid, u);
        m := WaitReturns(k, r, m);
      }
    }
  }

  /** With nobody setting up any more, nobody holds the write end of the pipe being drained. */
  lemma DrainReady(k: Proc, st: Sys)
    requires Orderly(k) && Inv(k, st) && st.pc < |k.log| && k.log[st.pc].op.Drain?
    requires forall u :: 0 <= u < |st.procs| ==> PastExec(st.procs[u])
    ensures CanStep(k, st)
  {
    hide Coherent, KidsOk, View;
    assert EventOk(k.kids, k.log[st.pc]);
    var e := k.log[st.pc];
    var id := e.before[e.op.fd].obj.id;
    forall u | 0 <= u < |st.procs|
      ensures !Writes(TableOf(k.kids[u], st.procs[u]), id)
    {
      assert st.procs[u].Running? ==> TableOf(k.kids[u], st.procs[u]) == View(k.kids[u]);
    }
  }

  lemma {:induction false} DrainReturns(k: Proc, r: nat -> Sys, n: nat) returns (m: nat)
    requires Orderly(k) && Fair(k, r) && r(n).pc < |k.log| && k.log[r(n).pc].op.Drain?
    ensures n <= m && r(n).pc < r(m).pc
    decreases if |r(n).procs| <= |k.kids| then Work(k, r(n).procs, |r(n).procs|) else 0
  {
    hide Coherent, LogOk, KidsOk, Next, TableOf, CanStep, Behaviour;
    AtTime(k, r, n);
    var p := |r(n).procs|;
    if u: nat :| u < p && r(n).procs[u].Setup? {
      m := ChildActs(k, r, n, u);
      if r(m).pc == r(n).pc {
        AtTime(k, r, m);
        WorkRuns(k, r, n, m, p, u);
        m := DrainReturns(k, r, m);
      }
    } else {
      forall i: nat | n <= i && r(i).pc == r(n).pc && |r(i).procs| <= |k.kids|
        ensures CanStep(k, r(i))
      {
        AtTime(k, r, i);
        forall u | 0 <= u < p
          ensures PastExec(r(i).procs[u])
        {
          RunOnward(k, r, n, i, u);
        }
        DrainReady(k, r(i));
      }
      m := ShellActs(k, r, n);
    }
  }

  lemma OtherReturns(k: Proc, r: nat -> Sys, n: nat) returns (m: nat)
    requires Orderly(k) && Fair(k, r) && r(n).pc < |k.log|
    requires !k.log[r(n).pc].op.Wait? && !k.log[r(n).pc].op.Drain?
    ensures n <= m && r(n).pc < r(m).pc
  {
    m := ShellActs(k, r, n);
  }

  /** In every fair behaviour the shell gets to the end of its history. */
  lemma {:induction false} Finishes(k: Proc, r: nat -> Sys, n: nat) returns (m: nat)
    requires Orderly(k) && Fair(k, r)
    ensures n <= m && r(m).pc == |k.log|
    decreases |k.log| - r(n).pc
  {
    hide Orderly, Fair, Inv;
    AtTimePc(k, r, n);
    m := n;
    if r(n).pc < |k.log| {
      if k.log[r(n).pc].op.Wait? {
        m := WaitReturns(k, r, n);
      } else if k.log[r(n).pc].op.Drain? {
        m := DrainReturns(k, r, n);
      } else {
        m := OtherReturns(k, r, n);
      }
      m := Finishes(k, r, m);
    }
  }

  lemma AtTimePc(k: Proc, r: nat -> Sys, n: nat)
    requires Orderly(k) && Fair(k, r)
    ensures r(n).pc <= |k.log|
  {
    AtTime(k, r, n);
  }
}
