/** The two-slot window: which children have been waited for, over every run whatsoever. */
module Reaping {
  import opened Kernel
  import opened Pipes
  import opened Shell

  ghost predicate Waited(log: seq<Event>, pid: nat) {
    exists i :: 0 <= i < |log| && log[i].op == Wait(pid)
  }

  /** At every fork, all children but the two most recent had been waited for. */
  ghost predicate ForksReaped(log: seq<Event>) {
    forall j, pid: nat :: 0 <= j < |log| && log[j].op.Fork? && 1 <= pid <= log[j].born - 2 ==>
      Waited(log[..j], pid)
  }

  /** The window holds the last two children, and everyone before them has been waited for. */
  ghost predicate WindowExact(m: Machine) {
    && m.s.w1 == |m.k.kids|
    && m.s.w0 == (if m.k.kids == [] then 0 else |m.k.kids| - 1)
    && (forall pid: nat :: 1 <= pid <= |m.k.kids| - 2 ==> Waited(m.k.log, pid))
    && ForksReaped(m.k.log)
  }

  /** k' continues k without a fork. */
  ghost predicate Continues(k: Proc, k': Proc) {
    && k'.kids == k.kids && k.log <= k'.log
    && forall j :: |k.log| <= j < |k'.log| ==> !k'.log[j].op.Fork?
  }

  lemma WaitedGrows(log: seq<Event>, log': seq<Event>, pid: nat)
    requires log <= log' && Waited(log, pid)
    ensures Waited(log', pid)
  {
    var i :| 0 <= i < |log| && log[i].op == Wait(pid);
    assert log'[i] == log[i];
  }

  lemma ContinuesKeeps(k: Proc, k': Proc)
    requires Continues(k, k') && ForksReaped(k.log)
    ensures ForksReaped(k'.log)
    ensures forall pid: nat :: Waited(k.log, pid) ==> Waited(k'.log, pid)
  {
    forall j, pid: nat | 0 <= j < |k'.log| && k'.log[j].op.Fork? && 1 <= pid <= k'.log[j].born - 2
      ensures Waited(k'.log[..j], pid)
    {
      assert k'.log[j] == k.log[j];
      assert k'.log[..j] == k.log[..j];
    }
    forall pid: nat | Waited(k.log, pid)
      ensures Waited(k'.log, pid)
    {
      WaitedGrows(k.log, k'.log, pid);
    }
  }

  lemma {:induction false} DoAllContinues(k: Proc, ops: seq<Op>)
    requires forall i :: 0 <= i < |ops| ==> !ops[i].Fork?
    ensures Continues(k, DoAll(k, ops))
    decreases |ops|
  {
    if ops != [] { DoAllContinues(Do(k, ops[0]), ops[1..]); }
  }

  lemma ConnectContinues(m: Machine, link: Link)
    requires |m.s.ring| == SIZE
    ensures Continues(m.k, Connect(m, link).k)
    ensures Connect(m, link).s.w0 == m.s.w0 && Connect(m, link).s.w1 == m.s.w1
  {
  }

  lemma SpawnExact(m: Machine, err: bool, argv: seq<string>)
    requires WindowExact(m)
    ensures WindowExact(Spawn(m, err, argv))
  {
    var prog := ChildProgram(m.s.prev, m.s.curr, err, argv);
    var k1 := Do(m.k, Fork(prog));
    var n := |m.k.kids|;
    assert m.k.log <= k1.log;
    forall j, pid: nat | 0 <= j < |k1.log| && k1.log[j].op.Fork? && 1 <= pid <= k1.log[j].born - 2
      ensures Waited(k1.log[..j], pid)
    {
      assert k1.log[..j] == m.k.log[..j];
      if j == |m.k.log| { assert m.k.log[..j] == m.k.log; }
    }
    var r := Spawn(m, err, argv);
    if m.s.w0 != 0 {
      var k2 := Do(k1, Wait(m.s.w0));
      assert Continues(k1, k2);
      ContinuesKeeps(k1, k2);
      assert k2.log[|k1.log|].op == Wait(m.s.w0);
    }
    forall pid: nat | 1 <= pid <= n - 1
      ensures Waited(r.k.log, pid)
    {
      if pid <= n - 2 { WaitedGrows(m.k.log, r.k.log, pid); }
    }
  }

  lemma StageExact(m: Machine, link: Link, argv: seq<string>)
    requires |m.s.ring| == SIZE && WindowExact(m)
    ensures WindowExact(Stage(m, link, argv))
  {
    var m1 := Shift(m);
    DoAllContinues(m.k, CloseOps(m.s.prev));
    ContinuesKeeps(m.k, m1.k);
    var m2 := Connect(m1, link);
    ConnectContinues(m1, link);
    ContinuesKeeps(m1.k, m2.k);
    assert WindowExact(m2);
    SpawnExact(m2, PipeError(link), argv);
  }

  lemma {:induction false} StagesExact(m: Machine, cmds: seq<Command>, j: nat)
    requires |m.s.ring| == SIZE && WindowExact(m)
    ensures var r := AfterStages(m, cmds, j); WindowExact(r) && |r.k.kids| == |m.k.kids| + j
  {
    hide WindowExact, Stage, LinkOf;
    if j > 0 {
      StagesExact(m, cmds, j - 1);
      StageExact(AfterStages(m, cmds, j - 1), LinkOf(cmds, j - 1), ArgvOf(cmds, j - 1));
      StageKids(AfterStages(m, cmds, j - 1), LinkOf(cmds, j - 1), ArgvOf(cmds, j - 1));
    }
  }

  lemma StageKids(m: Machine, link: Link, argv: seq<string>)
    requires |m.s.ring| == SIZE
    ensures |Stage(m, link, argv).k.kids| == |m.k.kids| + 1
  {
    DoAllContinues(m.k, CloseOps(m.s.prev));
    ConnectContinues(Shift(m), link);
  }

  lemma FinishExact(m: Machine, numbered: bool)
    requires WindowExact(m)
    ensures WindowExact(Finish(m, numbered)) && Finish(m, numbered).k.kids == m.k.kids
    ensures !numbered ==> Waited(Finish(m, numbered).k.log, |m.k.kids|)
  {
    var k1 := DoAll(m.k, CloseOps(m.s.prev));
    DoAllContinues(m.k, CloseOps(m.s.prev));
    ContinuesKeeps(m.k, k1);
    if numbered {
      DoAllContinues(k1, DrainOps(m.s.eol));
      ContinuesKeeps(k1, Finish(m, numbered).k);
    } else {
      var k2 := Do(k1, Wait(m.s.w1));
      assert Continues(k1, k2);
      ContinuesKeeps(k1, k2);
      assert k2.log[|k1.log|].op == Wait(m.s.w1);
      DoAllContinues(k2, CloseOps(m.s.curr));
      ContinuesKeeps(k2, Finish(m, numbered).k);
    }
  }

  /** Over every run, also one that reuses slots of the ring: before each fork all children but
      the two most recent had been waited for, all but the last two have been by now, and the
      last one too unless the last piece ends in a numbered pipe. */
  lemma {:induction false} ReapingOk(ps: seq<seq<Command>>)
    ensures WindowExact(Run(ps))
    ensures ps != [] && !EndsNumbered(ps[|ps| - 1]) ==> Waited(Run(ps).k.log, |Run(ps).k.kids|)
    decreases |ps|
  {
    if ps != [] {
      var n := |ps| - 1;
      ReapingOk(ps[..n]);
      var m := Run(ps[..n]);
      var m1 := Begin(m);
      assert Continues(m.k, m1.k);
      ContinuesKeeps(m.k, m1.k);
      StagesExact(m1, ps[n], StageCount(ps[n]));
      FinishExact(AfterStages(m1, ps[n], StageCount(ps[n])), EndsNumbered(ps[n]));
    }
  }
}
