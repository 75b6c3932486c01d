/**
 The shell and the processes it forks, running concurrently.  The shell works through its
 history one operation at a time and blocks in waits and drains; every child works through its
 program of redirections, then runs, then exits; any process may take the next step, and any
 child may exit at any time.  Pipes hold any amount of data, so writing never blocks.
 */
module Schedule {
  import opened Kernel
  import opened Pieces
  import opened History

  datatype Status = Setup(done: nat) | Running | Exited

  datatype Sys = Sys(pc: nat, procs: seq<Status>)

  const Boot := Sys(0, [])

  /** The descriptors a child has, given how far it has come. */
  function TableOf(c: Child, s: Status): Table {
    match s
    case Setup(d) => if d <= |c.prog| then ApplyAll(c.table, c.prog[..d]) else map[]
    case Running => View(c)
    case Exited => map[]
  }

  predicate Writes(t: Table, id: nat) {
    exists fd :: fd in t && t[fd].obj == WriteEnd(id)
  }

  /** Some child holds the write end of pipe id. */
  predicate Written(k: Proc, st: Sys, id: nat)
    requires |st.procs| <= |k.kids|
  {
    exists u :: 0 <= u < |st.procs| && Writes(TableOf(k.kids[u], st.procs[u]), id)
  }

  /** The shell's next operation can complete: a wait when the child has exited, a drain when
      nobody holds the write end of what it reads. */
  predicate CanStep(k: Proc, st: Sys)
    requires |st.procs| <= |k.kids|
  {
    && st.pc < |k.log|
    && var e := k.log[st.pc];
       match e.op
       case Wait(pid) => 1 <= pid <= |st.procs| && st.procs[pid - 1].Exited?
       case Drain(fd) =>
         fd in e.before && e.before[fd].obj.ReadEnd? ==>
           !Writes(e.before, e.before[fd].obj.id) && !Written(k, st, e.before[fd].obj.id)
       case _ => true
  }

  function ShellNext(k: Proc, st: Sys): Sys
    requires st.pc < |k.log|
  {
    Sys(st.pc + 1, if k.log[st.pc].op.Fork? then st.procs + [Setup(0)] else st.procs)
  }

  function ChildNext(c: Child, d: nat): Status {
    if d + 1 < |c.prog| then Setup(d + 1) else Running
  }

  /** Child u performs its next redirection or exec, or exits. */
  predicate ChildStep(k: Proc, st: Sys, st': Sys, u: nat)
    requires |st.procs| <= |k.kids|
  {
    && u < |st.procs| && !st.procs[u].Exited?
    && (st' == st.(procs := st.procs[u := Exited])
        || (st.procs[u].Setup? && st' == st.(procs := st.procs[u := ChildNext(k.kids[u], st.procs[u].done)])))
  }

  ghost predicate Next(k: Proc, st: Sys, st': Sys)
    requires |st.procs| <= |k.kids|
  {
    || st' == st
    || (CanStep(k, st) && st' == ShellNext(k, st))
    || exists u: nat :: ChildStep(k, st, st', u)
  }

  predicate PastExec(s: Status) {
    s.Running? || s.Exited?
  }

  /** What holds in every reachable state: children are where the history puts them, everybody
      waited for has exited, and everybody a drain looked out for is past exec. */
  ghost predicate Inv(k: Proc, st: Sys) {
    && st.pc <= |k.log| && |st.procs| == BornAt(k, st.pc) <= |k.kids|
    && (forall u :: 0 <= u < |st.procs| && st.procs[u].Setup? ==> st.procs[u].done < |k.kids[u].prog|)
    && (forall i :: 0 <= i < st.pc && k.log[i].op.Wait? ==>
          1 <= k.log[i].op.pid <= |st.procs| && st.procs[k.log[i].op.pid - 1].Exited?)
    && (forall i, u, fd: int :: 0 <= i < st.pc && 0 <= u < |st.procs| && Guards(k, i, u, fd) ==> PastExec(st.procs[u]))
  }

  /** Operation i drains a pipe whose write end child u carries at fd until its exec. */
  ghost predicate Guards(k: Proc, i: nat, u: nat, fd: int)
    requires u < |k.kids|
  {
    && i < |k.log| && k.log[i].op.Drain? && u < k.log[i].born
    && var e := k.log[i];
       e.op.fd in e.before && e.before[e.op.fd].obj.ReadEnd? && Bars(k.kids[u], fd, e.before[e.op.fd].obj.id)
  }

  lemma {:induction false} BarHolds(c: Child, fd: int, id: nat, d: nat)
    requires Bars(c, fd, id) && d < |c.prog|
    ensures var t := ApplyAll(c.table, c.prog[..d]); fd in t && t[fd].obj == WriteEnd(id)
  {
    if d == 0 {
      assert c.prog[..0] == [];
    } else {
      BarHolds(c, fd, id, d - 1);
      assert c.prog[..d] == c.prog[..d - 1] + [c.prog[d - 1]];
      ApplyAllConcat(c.table, c.prog[..d - 1], [c.prog[d - 1]]);
      var t := ApplyAll(c.table, c.prog[..d - 1]);
      assert [c.prog[d - 1]][1..] == [];
      assert ApplyAll(t, [c.prog[d - 1]]) == Apply(t, c.prog[d - 1]);
    }
  }

  /** A drain that completes finds every child it looks out for past exec. */
  lemma DrainGuards(k: Proc, st: Sys, u: nat, fd: int)
    requires Inv(k, st) && CanStep(k, st) && u < |st.procs| && Guards(k, st.pc, u, fd)
    ensures PastExec(st.procs[u])
  {
    var e := k.log[st.pc];
    var id := e.before[e.op.fd].obj.id;
    assert !Writes(TableOf(k.kids[u], st.procs[u]), id);
    if st.procs[u].Setup? {
      BarHolds(k.kids[u], fd, id, st.procs[u].done);
    }
  }

  lemma ShellGuards(k: Proc, st: Sys, i: nat, u: nat, fd: int)
    requires Coherent(k) && Inv(k, st) && CanStep(k, st)
    requires i <= st.pc && u < |ShellNext(k, st).procs| && u < |k.kids| && Guards(k, i, u, fd)
    ensures PastExec(ShellNext(k, st).procs[u])
  {
    BornMono(k, i, st.pc);
    if i == st.pc {
      DrainGuards(k, st, u, fd);
    }
  }

  lemma ShellFacts(k: Proc, st: Sys)
    requires Coherent(k) && Inv(k, st) && CanStep(k, st)
    ensures st.pc < |k.log|
    ensures var st' := ShellNext(k, st); var op := k.log[st.pc].op;
            && |st'.procs| == BornAt(k, st'.pc) <= |k.kids| && st.procs <= st'.procs
            && (op.Fork? ==> 0 < |k.kids[|st.procs|].prog|)
            && (op.Wait? ==> 1 <= op.pid <= |st.procs| && st.procs[op.pid - 1].Exited?)
  {
    hide Guards, Written, Writes, TableAt, StageProgram;
    BornGrows(k, st.pc + 1);
    if k.log[st.pc].op.Fork? { BornForks(k, st.pc); }
  }

  lemma ShellKeeps(k: Proc, st: Sys)
    requires Coherent(k) && Inv(k, st) && CanStep(k, st)
    ensures Inv(k, ShellNext(k, st))
  {
    hide Guards, CanStep, Coherent, BornAt;
    ShellFacts(k, st);
    var st' := ShellNext(k, st);
    forall i, u, fd: int | 0 <= i < st'.pc && 0 <= u < |st'.procs| && Guards(k, i, u, fd)
      ensures PastExec(st'.procs[u])
    {
      ShellGuards(k, st, i, u, fd);
    }
  }

  lemma ChildKeeps(k: Proc, st: Sys, st': Sys, u: nat)
    requires Inv(k, st) && ChildStep(k, st, st', u)
    ensures Inv(k, st')
  {
  }

  lemma {:induction false} BornMono(k: Proc, i: nat, j: nat)
    requires Coherent(k) && i <= j <= |k.log|
    ensures BornAt(k, i) <= BornAt(k, j)
    decreases j - i
  {
    if i < j { BornMono(k, i + 1, j); }
  }

  lemma BornGrows(k: Proc, j: nat)
    requires Coherent(k) && j <= |k.log|
    ensures BornAt(k, j) <= |k.kids|
  {
    BornMono(k, j, |k.log|);
  }

  lemma BornForks(k: Proc, j: nat)
    requires Coherent(k) && j < |k.log| && k.log[j].op.Fork?
    ensures k.log[j].born < |k.kids| && 0 < |k.kids[k.log[j].born].prog|
  {
    BornGrows(k, j + 1);
  }

  /** Every step of every interleaving keeps the invariant. */
  lemma NextKeeps(k: Proc, st: Sys, st': Sys)
    requires Coherent(k) && Inv(k, st) && Next(k, st, st')
    ensures Inv(k, st')
  {
    if CanStep(k, st) && st' == ShellNext(k, st) {
      ShellKeeps(k, st);
    } else if u: nat :| ChildStep(k, st, st', u) {
      ChildKeeps(k, st, st', u);
    }
  }

  ghost predicate StepAt(k: Proc, r: nat -> Sys, n: nat) {
    |r(n).procs| <= |k.kids| ==> Next(k, r(n), r(n + 1))
  }

  /** A behaviour: one state after another, from the start. */
  ghost predicate Behaviour(k: Proc, r: nat -> Sys) {
    r(0) == Boot && forall n: nat :: StepAt(k, r, n)
  }

  lemma BootInv(k: Proc)
    requires Coherent(k)
    ensures Inv(k, Boot)
  {
    assert BornAt(k, 0) == 0;
  }

  lemma {:induction false} Always(k: Proc, r: nat -> Sys, n: nat)
    requires Coherent(k) && Behaviour(k, r)
    ensures Inv(k, r(n))
  {
    hide Next, Coherent;
    if n == 0 {
      BootInv(k);
    } else {
      Always(k, r, n - 1);
      assert StepAt(k, r, n - 1);
      NextKeeps(k, r(n - 1), r(n));
    }
  }
}
