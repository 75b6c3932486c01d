/** Progress of the single-process server: nobody's line ever blocks it for good. */
module ServerProgress {
  import opened Kernel
  import opened Pipes
  import opened Shell
  import opened History
  import opened Schedule
  import opened Liveness
  import opened UserShell
  import opened World
  import opened WorldRuns

  lemma ReadOpsOf(f: Flight, live: set<nat>, user: nat, uid: int) returns (ops: seq<Op>)
    ensures Leads(f.m.k, ops, ReadUser(f, live, user, uid).m.k)
  {
    if Exists(live, uid) && (user, uid as nat) in f.pipes {
      var p := f.pipes[(user, uid as nat)];
      One(f.m.k, Dup(p.rd));
      ops := Then(f.m.k, [Dup(p.rd)], Do(f.m.k, Dup(p.rd)), CloseOps(p), ReadUser(f, live, user, uid).m.k);
    } else {
      One(f.m.k, Kernel.Open("/dev/null"));
      ops := [Kernel.Open("/dev/null")];
    }
  }

  lemma WriteOpsOf(f: Flight, live: set<nat>, user: nat, uid: int) returns (ops: seq<Op>)
    ensures Leads(f.m.k, ops, WriteUser(f, live, user, uid).m.k)
  {
    if Exists(live, uid) && (uid as nat, user) !in f.pipes {
      var p := NewEnds(f.m.k.fds, f.m.k.pipes);
      var k1 := MakePipe(f.m.k);
      One(f.m.k, Pipe2(f.m.k.pipes));
      One(k1, Dup(p.wr));
      ops := Then(f.m.k, [Pipe2(f.m.k.pipes)], k1, [Dup(p.wr)], Do(k1, Dup(p.wr)));
    } else {
      One(f.m.k, Kernel.Open("/dev/null"));
      ops := [Kernel.Open("/dev/null")];
    }
  }

  lemma UConnectOps(f: Flight, live: set<nat>, user: nat, writeUid: int, link: Link) returns (ops: seq<Op>)
    requires |f.m.s.ring| == SIZE
    ensures Leads(f.m.k, ops, UConnect(f, live, user, writeUid, link).m.k)
  {
    hide Leads, WriteUser, Connect;
    if link == Via(UserTo) {
      if 0 < writeUid {
        ops := WriteOpsOf(f, live, user, writeUid);
      } else {
        Nothing(f.m.k);
        ops := [];
      }
    } else {
      ops := ConnectOps(f.m, link);
    }
  }

  lemma ShiftOps(m: Machine)
    ensures Leads(m.k, CloseOps(m.s.prev), Shift(m).k)
  {
  }

  lemma UStageOps(f: Flight, live: set<nat>, user: nat, writeUid: int, link: Link, argv: seq<string>) returns (ops: seq<Op>)
    requires |f.m.s.ring| == SIZE
    ensures Leads(f.m.k, ops, UStage(f, live, user, writeUid, link, argv).m.k)
  {
    hide Leads, UConnect, Spawn;
    var f1 := f.(m := Shift(f.m));
    ShiftOps(f.m);
    var b := UConnectOps(f1, live, user, writeUid, link);
    var f2 := UConnect(f1, live, user, writeUid, link);
    ops := Then(f.m.k, CloseOps(f.m.s.prev), f1.m.k, b, f2.m.k);
    var c := SpawnOps(f2.m, PipeError(link), argv);
    ops := Then(f.m.k, ops, f2.m.k, c, Spawn(f2.m, PipeError(link), argv).k);
  }

  lemma {:induction false} UStagesOps(f: Flight, live: set<nat>, user: nat, p: Piece, j: nat) returns (ops: seq<Op>)
    requires |f.m.s.ring| == SIZE
    ensures Leads(f.m.k, ops, UStages(f, live, user, p, j).m.k)
  {
    hide Leads, UStage;
    if j == 0 {
      Nothing(f.m.k);
      ops := [];
    } else {
      var f1 := UStages(f, live, user, p, j - 1);
      var a := UStagesOps(f, live, user, p, j - 1);
      var b := UStageOps(f1, live, user, p.writeUid, LinkOf(p.cmds, j - 1), ArgvOf(p.cmds, j - 1));
      ops := Then(f.m.k, a, f1.m.k, b, UStages(f, live, user, p, j).m.k);
    }
  }

  lemma UBeginOps(f: Flight, live: set<nat>, user: nat, readUid: int) returns (ops: seq<Op>)
    requires |f.m.s.ring| == SIZE
    ensures Leads(f.m.k, ops, UBegin(f, live, user, readUid).m.k)
  {
    hide Leads, ReadUser;
    One(f.m.k, Pipe2(f.m.k.pipes));
    ops := [Pipe2(f.m.k.pipes)];
    if 0 < readUid {
      var f1 := f.(m := Begin(f.m));
      var b := ReadOpsOf(f1, live, user, readUid);
      ops := Then(f.m.k, ops, f1.m.k, b, ReadUser(f1, live, user, readUid).m.k);
    }
  }

  lemma URunOps(f: Flight, live: set<nat>, user: nat, p: Piece) returns (ops: seq<Op>)
    requires |f.m.s.ring| == SIZE
    ensures Leads(f.m.k, ops, URun(f, live, user, p).m.k)
  {
    hide Leads, Finish, UBegin, UStages;
    var f1 := UBegin(f, live, user, p.readUid);
    var f2 := UStages(f1, live, user, p, StageCount(p.cmds));
    ops := UBeginOps(f, live, user, p.readUid);
    var b := UStagesOps(f1, live, user, p, StageCount(p.cmds));
    ops := Then(f.m.k, ops, f1.m.k, b, f2.m.k);
    var c := FinishOps(f2.m, EndsNumbered(p.cmds));
    ops := Then(f.m.k, ops, f2.m.k, c, URun(f, live, user, p).m.k);
  }

  lemma ExitOps(m: Machine) returns (ops: seq<Op>)
    ensures Leads(m.k, ops, CloseVariables(m).k)
  {
    hide DoAll;
    var k1 := DoAll(m.k, CloseOps(m.s.eol));
    var k2 := DoAll(k1, CloseOps(m.s.prev));
    ops := Then(m.k, CloseOps(m.s.eol), k1, CloseOps(m.s.prev), k2);
    ops := Then(m.k, ops, k2, CloseOps(m.s.curr), CloseVariables(m).k);
  }

  lemma StepOps(w: World, e: Act) returns (ops: seq<Op>)
    ensures Leads(w.k, ops, Step(w, e).k)
  {
    hide Leads, URun, UBegin, CloseVariables;
    if e.Typed? && e.id in w.users && |w.users[e.id].shell.ring| == SIZE {
      ops := URunOps(FlightOf(w, e.id), w.users.Keys, e.id, e.p);
    } else if e.Exit? && e.id in w.users {
      ops := ExitOps(Machine(w.k, w.users[e.id].shell));
    } else if e.Join? && e.id !in w.users {
      One(w.k, OpenSock(e.id));
      ops := [OpenSock(e.id)];
    } else if e.Leave? && e.id in w.users {
      One(w.k, Close(w.users[e.id].sock));
      ops := [Close(w.users[e.id].sock)];
    } else {
      Nothing(w.k);
      ops := [];
    }
  }

  lemma {:induction false} AfterOps(es: seq<Act>) returns (ops: seq<Op>)
    ensures Leads(FreshProc, ops, After(es).k)
    decreases |es|
  {
    if es == [] {
      ops := StartOps;
    } else {
      hide Leads, Step;
      var w := After(es[..|es| - 1]);
      var a := AfterOps(es[..|es| - 1]);
      var b := StepOps(w, es[|es| - 1]);
      ops := Then(FreshProc, a, w.k, b, After(es).k);
    }
  }

  /** With pipes of unbounded capacity and programs that end at the end of their input, in every
      fair interleaving of the server with all the processes its users' lines have started, every
      wait and every drain returns, whoever's line it was. */
  lemma ServerReturns(es: seq<Act>, r: nat -> Sys) returns (m: nat)
    requires AllProper(es) && Fair(After(es).k, r)
    ensures r(m).pc == |After(es).k.log|
  {
    hide After, Fair, AllProper;
    var dues := AfterOk(es);
    WorldParts(After(es), dues);
    var ops := AfterOps(es);
    CoherentAll(FreshProc, ops);
    m := Finishes(After(es).k, r, 0);
  }
}
