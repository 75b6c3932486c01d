/** A run of the shell is one straight sequence of kernel operations; its history says so. */
module History {
  import opened Kernel
  import opened Pipes
  import opened Shell

  /** What a forked stage may do before its program runs. */
  predicate StageProgram(p: seq<Op>) {
    && p != [] && p[|p| - 1].Exec?
    && forall i :: 0 <= i < |p| - 1 ==> p[i].Close? || p[i].Dup2?
  }

  predicate StagesOnly(ops: seq<Op>) {
    forall i :: 0 <= i < |ops| && ops[i].Fork? ==> StageProgram(ops[i].prog)
  }

  /** k' is what the operations ops make of k. */
  ghost predicate Leads(k: Proc, ops: seq<Op>, k': Proc) {
    k' == DoAll(k, ops) && StagesOnly(ops)
  }

  lemma {:induction false} DoAllConcat(k: Proc, a: seq<Op>, b: seq<Op>)
    ensures DoAll(k, a + b) == DoAll(DoAll(k, a), b)
    decreases |a|
  {
    if a == [] {
      assert a + b == b;
    } else {
      assert (a + b)[1..] == a[1..] + b;
      DoAllConcat(Do(k, a[0]), a[1..], b);
    }
  }

  lemma Then(k: Proc, a: seq<Op>, k1: Proc, b: seq<Op>, k2: Proc) returns (ops: seq<Op>)
    requires Leads(k, a, k1) && Leads(k1, b, k2)
    ensures Leads(k, ops, k2)
  {
    ops := a + b;
    DoAllConcat(k, a, b);
  }

  lemma One(k: Proc, op: Op)
    requires op.Fork? ==> StageProgram(op.prog)
    ensures Leads(k, [op], Do(k, op))
  {
    assert [op][1..] == [];
    assert DoAll(k, [op]) == DoAll(Do(k, op), []);
  }

  lemma ConnectOps(m: Machine, link: Link) returns (ops: seq<Op>)
    requires |m.s.ring| == SIZE
    ensures Leads(m.k, ops, Connect(m, link).k)
  {
    var op := if link.Via? && link.c.FileTo? then Kernel.Open(link.c.name) else Pipe2(m.k.pipes);
    if Connect(m, link).k == m.k {
      ops := [];
    } else {
      ops := [op];
      One(m.k, op);
    }
  }

  lemma ProgramIs(prev: Ends, curr: Ends, err: bool, argv: seq<string>)
    ensures StageProgram(ChildProgram(prev, curr, err, argv))
  {
    var p := ChildProgram(prev, curr, err, argv);
    var body := ReadOps(prev) + WriteOps(curr, err);
    forall i | 0 <= i < |p| - 1
      ensures p[i].Close? || p[i].Dup2?
    {
      assert p[i] == body[i];
    }
  }

  lemma SpawnOps(m: Machine, err: bool, argv: seq<string>) returns (ops: seq<Op>)
    ensures Leads(m.k, ops, Spawn(m, err, argv).k)
  {
    var fork := Fork(ChildProgram(m.s.prev, m.s.curr, err, argv));
    ProgramIs(m.s.prev, m.s.curr, err, argv);
    One(m.k, fork);
    ops := [fork];
    if m.s.w0 != 0 {
      var k1 := Do(m.k, fork);
      One(k1, Wait(m.s.w0));
      ops := Then(m.k, ops, k1, [Wait(m.s.w0)], Do(k1, Wait(m.s.w0)));
    }
  }

  lemma StageOps(m: Machine, link: Link, argv: seq<string>) returns (ops: seq<Op>)
    requires |m.s.ring| == SIZE
    ensures Leads(m.k, ops, Stage(m, link, argv).k)
  {
    var m1 := Shift(m);
    var m2 := Connect(m1, link);
    var b := ConnectOps(m1, link);
    ops := Then(m.k, CloseOps(m.s.prev), m1.k, b, m2.k);
    var c := SpawnOps(m2, PipeError(link), argv);
    ops := Then(m.k, ops, m2.k, c, Spawn(m2, PipeError(link), argv).k);
  }

  lemma {:induction false} StagesOps(m: Machine, cmds: seq<Command>, j: nat) returns (ops: seq<Op>)
    requires |m.s.ring| == SIZE
    ensures Leads(m.k, ops, AfterStages(m, cmds, j).k)
  {
    hide Stage, Leads;
    if j == 0 {
      ops := [];
      Nothing(m.k);
    } else {
      var m1 := AfterStages(m, cmds, j - 1);
      var a := StagesOps(m, cmds, j - 1);
      var b := StageOps(m1, LinkOf(cmds, j - 1), ArgvOf(cmds, j - 1));
      ops := Then(m.k, a, m1.k, b, Stage(m1, LinkOf(cmds, j - 1), ArgvOf(cmds, j - 1)).k);
    }
  }

  lemma Nothing(k: Proc)
    ensures Leads(k, [], k)
  {
  }

  lemma FinishOps(m: Machine, numbered: bool) returns (ops: seq<Op>)
    ensures Leads(m.k, ops, Finish(m, numbered).k)
  {
    var k1 := DoAll(m.k, CloseOps(m.s.prev));
    if numbered {
      ops := Then(m.k, CloseOps(m.s.prev), k1, DrainOps(m.s.eol), Finish(m, numbered).k);
    } else {
      var k2 := Do(k1, Wait(m.s.w1));
      One(k1, Wait(m.s.w1));
      ops := Then(m.k, CloseOps(m.s.prev), k1, [Wait(m.s.w1)], k2);
      ops := Then(m.k, ops, k2, CloseOps(m.s.curr), Finish(m, numbered).k);
    }
  }

  lemma PieceOps(m: Machine, cmds: seq<Command>) returns (ops: seq<Op>)
    requires |m.s.ring| == SIZE
    ensures Leads(m.k, ops, RunPiece(m, cmds).k)
  {
    hide Leads, Finish;
    var m1 := Begin(m);
    One(m.k, Pipe2(m.k.pipes));
    var m2 := AfterStages(m1, cmds, StageCount(cmds));
    var b := StagesOps(m1, cmds, StageCount(cmds));
    ops := Then(m.k, [Pipe2(m.k.pipes)], m1.k, b, m2.k);
    var c := FinishOps(m2, EndsNumbered(cmds));
    ops := Then(m.k, ops, m2.k, c, RunPiece(m, cmds).k);
  }

  lemma {:induction false} RunOps(ps: seq<seq<Command>>) returns (ops: seq<Op>)
    ensures Leads(FreshProc, ops, Run(ps).k)
    decreases |ps|
  {
    if ps == [] {
      ops := [];
      Nothing(FreshProc);
    } else {
      hide Leads, RunPiece;
      var m := Run(ps[..|ps| - 1]);
      var a := RunOps(ps[..|ps| - 1]);
      var b := PieceOps(m, ps[|ps| - 1]);
      ops := Then(FreshProc, a, m.k, b, RunPiece(m, ps[|ps| - 1]).k);
    }
  }

  function BornAt(k: Proc, j: nat): nat {
    if j < |k.log| then k.log[j].born else |k.kids|
  }

  function TableAt(k: Proc, j: nat): Table {
    if j < |k.log| then k.log[j].before else k.fds
  }

  /** Each operation was issued on the table the one before it left, children are counted at
      their forks, and every child was forked by a recorded operation. */
  ghost predicate Coherent(k: Proc) {
    && BornAt(k, 0) == 0
    && (forall j :: 0 <= j < |k.log| ==>
          && BornAt(k, j + 1) == k.log[j].born + (if k.log[j].op.Fork? then 1 else 0)
          && TableAt(k, j + 1) == Apply(k.log[j].before, k.log[j].op))
    && (forall u :: 0 <= u < |k.kids| ==>
          && StageProgram(k.kids[u].prog)
          && exists j :: 0 <= j < |k.log| && k.log[j].op == Fork(k.kids[u].prog)
               && k.log[j].born == u && k.log[j].before == k.kids[u].table)
  }

  lemma CoherentStep(k: Proc, op: Op)
    requires Coherent(k) && (op.Fork? ==> StageProgram(op.prog))
    ensures Coherent(Do(k, op))
  {
    var k1 := Do(k, op);
    forall j | 0 <= j < |k1.log|
      ensures BornAt(k1, j + 1) == k1.log[j].born + (if k1.log[j].op.Fork? then 1 else 0)
      ensures TableAt(k1, j + 1) == Apply(k1.log[j].before, k1.log[j].op)
    {
      if j < |k.log| {
        assert k1.log[j] == k.log[j];
        assert BornAt(k1, j + 1) == BornAt(k, j + 1) && TableAt(k1, j + 1) == TableAt(k, j + 1);
      }
    }
    forall u | 0 <= u < |k1.kids|
      ensures StageProgram(k1.kids[u].prog)
      ensures exists j :: 0 <= j < |k1.log| && k1.log[j].op == Fork(k1.kids[u].prog)
                && k1.log[j].born == u && k1.log[j].before == k1.kids[u].table
    {
      if u < |k.kids| {
        var j :| 0 <= j < |k.log| && k.log[j].op == Fork(k.kids[u].prog)
                && k.log[j].born == u && k.log[j].before == k.kids[u].table;
        assert k1.log[j] == k.log[j] && k1.kids[u] == k.kids[u];
      } else {
        assert k1.log[|k.log|].op == Fork(k1.kids[u].prog);
      }
    }
  }

  lemma {:induction false} CoherentAll(k: Proc, ops: seq<Op>)
    requires Coherent(k) && StagesOnly(ops)
    ensures Coherent(DoAll(k, ops))
    decreases |ops|
  {
    if ops != [] {
      CoherentStep(k, ops[0]);
      CoherentAll(Do(k, ops[0]), ops[1..]);
    }
  }

  /** The history of every run is coherent. */
  lemma RunCoherent(ps: seq<seq<Command>>)
    ensures Coherent(Run(ps).k)
  {
    var ops := RunOps(ps);
    CoherentAll(FreshProc, ops);
  }
}
