/** Which program every child runs: the one written at its place on its command line. */
module Programs {
  import opened Kernel
  import opened Shell
  import opened Ownership
  import opened UserShell

  /** The child c ends its preparations by running the program argv. */
  predicate Executes(c: Child, argv: seq<string>) {
    c.prog != [] && c.prog[|c.prog| - 1] == Exec(argv)
  }

  /** From n on the children are the first j programs of a piece. */
  ghost predicate Launched(kids: seq<Child>, n: nat, cmds: seq<Command>, j: nat) {
    |kids| == n + j && forall i :: 0 <= i < j ==> Executes(kids[n + i], ArgvOf(cmds, i))
  }

  lemma LaunchedMore(kids: seq<Child>, kids': seq<Child>, n: nat, cmds: seq<Command>, j: nat)
    requires Launched(kids, n, cmds, j) && kids <= kids' && |kids'| == |kids| + 1 && Executes(kids'[|kids|], ArgvOf(cmds, j))
    ensures Launched(kids', n, cmds, j + 1)
  {
    hide Executes, ArgvOf;
    forall i | 0 <= i < j + 1
      ensures Executes(kids'[n + i], ArgvOf(cmds, i))
    {
      if i < j { assert kids'[n + i] == kids[n + i]; }
    }
  }

  lemma SpawnArgv(m: Machine, err: bool, argv: seq<string>)
    ensures var r := Spawn(m, err, argv); |r.k.kids| == |m.k.kids| + 1 && m.k.kids <= r.k.kids && Executes(r.k.kids[|m.k.kids|], argv)
  {
  }

  lemma ShiftConnectKids(m: Machine, link: Link)
    requires |m.s.ring| == SIZE
    ensures Connect(Shift(m), link).k.kids == m.k.kids
  {
    CloseEffect(m.k, m.s.prev);
  }

  lemma StageArgv(m: Machine, link: Link, argv: seq<string>)
    requires |m.s.ring| == SIZE
    ensures var r := Stage(m, link, argv);
            |r.k.kids| == |m.k.kids| + 1 && m.k.kids <= r.k.kids && Executes(r.k.kids[|m.k.kids|], argv)
  {
    hide Connect, Shift, Spawn;
    ShiftConnectKids(m, link);
    SpawnArgv(Connect(Shift(m), link), PipeError(link), argv);
  }

  lemma {:induction false} StagesArgv(m: Machine, cmds: seq<Command>, j: nat)
    requires |m.s.ring| == SIZE
    ensures var r := AfterStages(m, cmds, j); m.k.kids <= r.k.kids && Launched(r.k.kids, |m.k.kids|, cmds, j)
  {
    hide Stage, ArgvOf;
    if j > 0 {
      StagesArgv(m, cmds, j - 1);
      var last := AfterStages(m, cmds, j - 1);
      StageArgv(last, LinkOf(cmds, j - 1), ArgvOf(cmds, j - 1));
      LaunchedMore(last.k.kids, AfterStages(m, cmds, j).k.kids, |m.k.kids|, cmds, j - 1);
    }
  }

  /** Every piece, whatever it is, starts its programs in their order and nothing else. */
  lemma PieceArgv(m: Machine, cmds: seq<Command>)
    requires |m.s.ring| == SIZE
    ensures var r := RunPiece(m, cmds);
            m.k.kids <= r.k.kids && Launched(r.k.kids, |m.k.kids|, cmds, StageCount(cmds))
  {
    hide Begin, AfterStages, Finish, Launched;
    BeginKids(m);
    StagesArgv(Begin(m), cmds, StageCount(cmds));
    FinishKids(AfterStages(Begin(m), cmds, StageCount(cmds)), EndsNumbered(cmds));
  }

  lemma BeginKids(m: Machine)
    requires |m.s.ring| == SIZE
    ensures Begin(m).k.kids == m.k.kids && |Begin(m).s.ring| == SIZE
  {
  }

  lemma {:induction false} RunGrows(ps: seq<seq<Command>>, n: nat)
    requires n <= |ps|
    ensures Run(ps[..n]).k.kids <= Run(ps).k.kids
    decreases |ps|
  {
    hide Run, RunPiece;
    if n == |ps| {
      assert ps[..n] == ps;
    } else {
      var front := ps[..|ps| - 1];
      RunMore(ps);
      PieceArgv(Run(front), ps[|ps| - 1]);
      RunGrows(front, n);
      assert front[..n] == ps[..n];
    }
  }

  /** In every run, whatever its lines, stage j of piece k runs the program written there, and the
      children of a piece come behind those of all pieces before it. */
  lemma RunArgv(ps: seq<seq<Command>>, k: nat, j: nat)
    requires k < |ps| && j < StageCount(ps[k])
    ensures var kids := Run(ps).k.kids; var n := |Run(ps[..k]).k.kids|;
            && |Run(ps[..k + 1]).k.kids| == n + StageCount(ps[k]) && n + j < |kids|
            && Executes(kids[n + j], ArgvOf(ps[k], j))
  {
    hide Run, RunPiece, ArgvOf, Executes;
    var qs := ps[..k + 1];
    RunMore(qs);
    assert qs[..|qs| - 1] == ps[..k] && qs[|qs| - 1] == ps[k];
    PieceArgv(Run(ps[..k]), ps[k]);
    RunGrows(ps, k + 1);
  }

  lemma RunMore(ps: seq<seq<Command>>)
    requires ps != []
    ensures Run(ps) == RunPiece(Run(ps[..|ps| - 1]), ps[|ps| - 1])
  {
    hide RunPiece;
  }

  lemma UStageArgv(f: Flight, live: set<nat>, user: nat, writeUid: int, link: Link, argv: seq<string>)
    requires |f.m.s.ring| == SIZE
    ensures var r := UStage(f, live, user, writeUid, link, argv).m;
            |r.k.kids| == |f.m.k.kids| + 1 && f.m.k.kids <= r.k.kids && Executes(r.k.kids[|f.m.k.kids|], argv)
  {
    hide Shift, Spawn;
    CloseEffect(f.m.k, f.m.s.prev);
    var f1 := f.(m := Shift(f.m));
    UConnectKids(f1, live, user, writeUid, link);
    var f2 := UConnect(f1, live, user, writeUid, link);
    SpawnArgv(f2.m, PipeError(link), argv);
    assert f1.m.k.kids == f.m.k.kids by { ShiftKids(f.m); }
  }

  lemma ShiftKids(m: Machine)
    ensures Shift(m).k.kids == m.k.kids
  {
    CloseEffect(m.k, m.s.prev);
  }

  lemma UConnectKids(f: Flight, live: set<nat>, user: nat, writeUid: int, link: Link)
    requires |f.m.s.ring| == SIZE
    ensures UConnect(f, live, user, writeUid, link).m.k.kids == f.m.k.kids
  {
  }

  lemma {:induction false} UStagesArgv(f: Flight, live: set<nat>, user: nat, p: Piece, j: nat)
    requires |f.m.s.ring| == SIZE
    ensures var r := UStages(f, live, user, p, j).m;
            f.m.k.kids <= r.k.kids && Launched(r.k.kids, |f.m.k.kids|, p.cmds, j)
  {
    hide UStage, ArgvOf;
    if j > 0 {
      UStagesArgv(f, live, user, p, j - 1);
      var last := UStages(f, live, user, p, j - 1);
      UStageArgv(last, live, user, p.writeUid, LinkOf(p.cmds, j - 1), ArgvOf(p.cmds, j - 1));
      LaunchedMore(last.m.k.kids, UStages(f, live, user, p, j).m.k.kids, |f.m.k.kids|, p.cmds, j - 1);
    }
  }

  /** So does every piece of every user of the server. */
  lemma UPieceArgv(f: Flight, live: set<nat>, user: nat, p: Piece)
    requires |f.m.s.ring| == SIZE
    ensures var r := URun(f, live, user, p);
            f.m.k.kids <= r.m.k.kids && Launched(r.m.k.kids, |f.m.k.kids|, p.cmds, StageCount(p.cmds))
  {
    hide UStages, Finish, Launched;
    UBeginKids(f, live, user, p.readUid);
    var f1 := UBegin(f, live, user, p.readUid);
    UStagesArgv(f1, live, user, p, StageCount(p.cmds));
    FinishKids(UStages(f1, live, user, p, StageCount(p.cmds)).m, EndsNumbered(p.cmds));
  }

  lemma UBeginKids(f: Flight, live: set<nat>, user: nat, readUid: int)
    requires |f.m.s.ring| == SIZE
    ensures UBegin(f, live, user, readUid).m.k.kids == f.m.k.kids
  {
    var f1 := f.(m := Begin(f.m));
    if 0 < readUid && Exists(live, readUid) && (user, readUid as nat) in f1.pipes {
      var p := f1.pipes[(user, readUid as nat)];
      CloseEffect(Do(f1.m.k, Dup(p.rd)), p);
    }
  }
}
