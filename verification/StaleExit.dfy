/**
 Runs in which an exit is not clear: a user's eol still names numbers that have since become another
 user's delayed pipe, or his socket, and the exit closes it.
 */
module StaleExit {
  import opened Kernel
  import opened Pipes
  import opened Shell
  import opened Ownership
  import opened PieceRuns
  import opened Runs
  import opened Accounts
  import opened UserShell
  import opened UserStages
  import opened UserVars
  import opened World
  import opened WorldRuns
  import opened Independence

  /** `ls |n`. */
  function Delay(n: int): Piece {
    Piece([Exe(["ls"]), Numbered(n, false)], 0, 0)
  }

  const Ls: Piece := Piece([Exe(["ls"])], 0, 0)

  /** a and b are the two least numbers from 0 on that s does not have. */
  predicate Lowest(s: set<int>, a: nat, b: nat) {
    a < b && a !in s && b !in s && forall k :: 0 <= k < b && k != a ==> k in s
  }

  lemma NewAt(t: Table, id: nat, a: nat, b: nat)
    requires Lowest(t.Keys, a, b)
    ensures NewEnds(t, id) == Ends(a, b)
    ensures Apply(t, Pipe2(id)) == AddPipe(t, Ends(a, b), id)
  {
    var t1 := t[LowestFree(t) := Entry(ReadEnd(id), true)];
    assert LowestFree(t) == a;
    assert t1.Keys == t.Keys + {a};
    assert LowestFree(t1) == b;
  }

  /** The state before the only stage of a piece, and after its fork. */
  lemma OneUserStage(f: Flight, live: set<nat>, user: nat, p: Piece, link: Link)
    requires |f.m.s.ring| == SIZE && p.readUid == 0 && StageCount(p.cmds) == 1 && LinkOf(p.cmds, 0) == link
    requires link != Via(UserTo)
    ensures URun(f, live, user, p) == f.(m := Finish(Spawn(Connect(Shift(Begin(f.m)), link), PipeError(link), ArgvOf(p.cmds, 0)), EndsNumbered(p.cmds)))
  {
    hide Finish, Spawn, Connect, Shift, Begin, LinkOf;
    var f1 := UBegin(f, live, user, p.readUid);
    assert f1 == f.(m := Begin(f.m));
    assert UStages(f1, live, user, p, 0) == f1;
    assert UStages(f1, live, user, p, 1) == UStage(f1, live, user, p.writeUid, link, ArgvOf(p.cmds, 0));
  }

  /** What one delayed `ls` does to the machine. */
  lemma DelayMachine(m: Machine, n: int, a: nat, b: nat, c: nat, d: nat, argv: seq<string>)
    requires |m.s.ring| == SIZE && m.s.prev == NoEnds && Lowest(m.k.fds.Keys, a, b) && Lowest(m.k.fds.Keys + {a, b}, c, d)
    requires m.s.ring[Slot(NextHead(m.s.head), n)] == NoEnds
    ensures var r := Finish(Spawn(Connect(Shift(Begin(m)), Via(Numbered(n, false))), false, argv), true);
            var front := m.s.ring[NextHead(m.s.head)];
            && r.k.fds.Keys == m.k.fds.Keys + {a, b} + {c, d} - Keys(front) - {a, b}
            && r.s.ring == m.s.ring[Slot(NextHead(m.s.head), n) := Ends(c, d)] && r.s.head == NextHead(m.s.head)
            && r.s.eol == Ends(a, b) && r.s.prev == NoEnds && r.s.curr == Ends(c, d)
  {
    hide Slot, NextHead, Lowest;
    NewAt(m.k.fds, m.k.pipes, a, b);
    var m1 := Shift(Begin(m));
    assert CloseOps(NoEnds) == [];
    var t1 := AddPipe(m.k.fds, Ends(a, b), m.k.pipes);
    assert m1.k.fds == t1 && t1.Keys == m.k.fds.Keys + {a, b};
    NewAt(t1, m1.k.pipes, c, d);
    var m2 := Connect(m1, Via(Numbered(n, false)));
    var t2 := AddPipe(t1, Ends(c, d), m1.k.pipes);
    assert m2.k.fds == t2 && t2.Keys == m.k.fds.Keys + {a, b} + {c, d};
    var m3 := Spawn(m2, false, argv);
    assert m3.k.fds == t2;
    DelayLast(m3);
  }

  lemma DelayLast(m: Machine)
    ensures Finish(m, true).k.fds == m.k.fds - Keys(m.s.prev) - {m.s.eol.wr} - {m.s.eol.rd}
    ensures Finish(m, true).s == m.s.(prev := NoEnds)
  {
    hide DoAll, DrainOps, CloseOps;
    CloseEffect(m.k, m.s.prev);
    DrainTable(DoAll(m.k, CloseOps(m.s.prev)), m.s.eol);
  }

  /** What one plain `ls` does, when nothing is due. */
  lemma LsMachine(m: Machine, a: nat, b: nat, argv: seq<string>)
    requires |m.s.ring| == SIZE && m.s.prev == NoEnds && Lowest(m.k.fds.Keys, a, b)
    requires m.s.ring[NextHead(m.s.head)] == NoEnds
    ensures var r := Finish(Spawn(Connect(Shift(Begin(m)), NoLink), false, argv), false);
            && r.k.fds.Keys == m.k.fds.Keys + {a, b}
            && r.s.ring == m.s.ring && r.s.head == NextHead(m.s.head) && r.s.prev == NoEnds
  {
    hide NextHead, Lowest;
    NewAt(m.k.fds, m.k.pipes, a, b);
    assert CloseOps(NoEnds) == [];
    var t1 := AddPipe(m.k.fds, Ends(a, b), m.k.pipes);
    var m3 := Spawn(Connect(Shift(Begin(m)), NoLink), false, argv);
    assert m3.k.fds == t1 && t1.Keys == m.k.fds.Keys + {a, b};
    assert m3.s.prev == NoEnds && m3.s.curr == NoEnds;
  }

  predicate AllSmall(past: seq<Piece>) {
    forall q :: q in past ==> q == Ls || q in {Delay(1), Delay(2), Delay(3), Delay(4), Delay(5)}
  }

  lemma SmallPiece(q: Piece, i: nat)
    requires AllSmall([q])
    ensures UShape(q) && (EndsNumbered(q.cmds) ==> Delays(q.cmds) && TargetLine(i, q.cmds) <= i + 6)
  {
    assert q in [q];
  }

  /** Small lines use no slot twice. */
  lemma SmallProper(past: seq<Piece>)
    requires |past| <= 3 && AllSmall(past)
    ensures Proper(past)
  {
    hide UShape;
    var ps := Cmds(past);
    forall i: nat | i < |past|
      ensures UShape(past[i]) && ps[i] == past[i].cmds
      ensures EndsNumbered(ps[i]) ==> Delays(ps[i]) && TargetLine(i, ps[i]) <= i + 6
    {
      assert past[i] in past;
      SmallPiece(past[i], i);
    }
    forall j: nat, k: nat, x: nat, y: nat | j < k && Sends(ps, j, x) && Uses(ps, k, y) && x != y
      ensures Cell(x) != Cell(y)
    {
      assert x <= j + 6 && y <= k + 6;
    }
  }

  /** A user's shell as far as the run below needs it. */
  ghost predicate ShellIs(s: Shell, head: nat, ring: map<nat, Ends>) {
    && |s.ring| == SIZE && s.head == head && s.prev == NoEnds
    && forall c :: 0 <= c < SIZE ==> s.ring[c] == if c in ring then ring[c] else NoEnds
  }

  lemma FreshIs()
    ensures ShellIs(NewShell(), 0, map[])
  {
  }

  lemma SlotIs(head: nat, n: nat)
    requires head + n < SIZE
    ensures Slot(head, n) == head + n && (head + 1 < SIZE ==> NextHead(head) == head + 1)
  {
  }

  lemma TypedDelay(w: World, u: nat, n: nat, head: nat, ring: map<nat, Ends>, a: nat, b: nat, c: nat, d: nat)
    requires u in w.users && ShellIs(w.users[u].shell, head, ring) && head + 1 + n < SIZE && head + 1 + n !in ring
    requires Lowest(w.k.fds.Keys, a, b) && Lowest(w.k.fds.Keys + {a, b}, c, d)
    ensures var w' := Step(w, Typed(u, Delay(n))); var front := if head + 1 in ring then ring[head + 1] else NoEnds;
            && w'.k.fds.Keys == w.k.fds.Keys + {a, b} + {c, d} - Keys(front) - {a, b}
            && w'.users.Keys == w.users.Keys && (forall v :: v in w.users && v != u ==> w'.users[v] == w.users[v])
            && ShellIs(w'.users[u].shell, head + 1, ring[head + 1 + n := Ends(c, d)])
            && w'.users[u].shell.eol == Ends(a, b) && w'.users[u].shell.curr == Ends(c, d)
            && w'.users[u].past == w.users[u].past + [Delay(n)] && w'.users[u].cut == w.users[u].cut
            && w'.users[u].sock == w.users[u].sock && w'.pipes == w.pipes
  {
    hide URun, Finish, Spawn, Connect, Shift, Begin, Lowest;
    var m := FlightOf(w, u).m;
    SlotIs(head, 1);
    SlotIs(head + 1, n);
    OneUserStage(FlightOf(w, u), w.users.Keys, u, Delay(n), Via(Numbered(n, false)));
    DelayMachine(m, n, a, b, c, d, ["ls"]);
  }

  lemma TypedLs(w: World, u: nat, head: nat, ring: map<nat, Ends>, a: nat, b: nat)
    requires u in w.users && ShellIs(w.users[u].shell, head, ring) && head + 1 < SIZE && head + 1 !in ring
    requires Lowest(w.k.fds.Keys, a, b)
    ensures var w' := Step(w, Typed(u, Ls));
            && w'.k.fds.Keys == w.k.fds.Keys + {a, b}
            && w'.users.Keys == w.users.Keys && (forall v :: v in w.users && v != u ==> w'.users[v] == w.users[v])
            && ShellIs(w'.users[u].shell, head + 1, ring)
            && w'.users[u].past == w.users[u].past + [Ls] && w'.users[u].cut == w.users[u].cut && w'.users[u].sock == w.users[u].sock
  {
    hide URun, Finish, Spawn, Connect, Shift, Begin, Lowest;
    var m := FlightOf(w, u).m;
    SlotIs(head, 1);
    OneUserStage(FlightOf(w, u), w.users.Keys, u, Ls, NoLink);
    LsMachine(m, a, b, ["ls"]);
  }

  /** Adding a typed piece, proper after what its user has typed, keeps a run proper. */
  lemma AddTyped(es: seq<Act>, u: nat, p: Piece)
    requires AllProper(es) && u in After(es).users && After(es).users[u].cut == {}
    requires |After(es).users[u].past| <= 2
    requires AllSmall(After(es).users[u].past + [p])
    ensures AllProper(es + [Typed(u, p)]) && After(es + [Typed(u, p)]) == Step(After(es), Typed(u, p))
  {
    hide AllProper, After, Step, Proper;
    SmallProper(After(es).users[u].past + [p]);
    LastAdded(es, Typed(u, p));
  }

  /** A delayed `ls` in a run. */
  lemma RunDelay(es: seq<Act>, u: nat, n: nat, head: nat, ring: map<nat, Ends>, a: nat, b: nat, c: nat, d: nat)
    requires AllProper(es) && u in After(es).users && After(es).users[u].cut == {} && 1 <= n <= 5
    requires |After(es).users[u].past| <= 2
    requires AllSmall(After(es).users[u].past)
    requires ShellIs(After(es).users[u].shell, head, ring) && head <= 2 && head + 1 + n !in ring
    requires Lowest(After(es).k.fds.Keys, a, b) && Lowest(After(es).k.fds.Keys + {a, b}, c, d)
    ensures var es' := es + [Typed(u, Delay(n))]; var w := After(es); var w' := After(es');
            var front := if head + 1 in ring then ring[head + 1] else NoEnds;
            && AllProper(es')
            && w'.k.fds.Keys == w.k.fds.Keys + {a, b} + {c, d} - Keys(front) - {a, b}
            && w'.users.Keys == w.users.Keys && (forall v :: v in w.users && v != u ==> w'.users[v] == w.users[v])
            && ShellIs(w'.users[u].shell, head + 1, ring[head + 1 + n := Ends(c, d)])
            && w'.users[u].shell.eol == Ends(a, b) && w'.users[u].shell.curr == Ends(c, d)
            && w'.users[u].past == w.users[u].past + [Delay(n)] && w'.users[u].cut == {}
            && w'.users[u].sock == w.users[u].sock && w'.pipes == w.pipes
  {
    hide AllProper, After, Step, ShellIs, Lowest, Keys;
    AddTyped(es, u, Delay(n));
    TypedDelay(After(es), u, n, head, ring, a, b, c, d);
  }

  /** A user who has just joined. */
  ghost predicate Newly(u: User, sock: int) {
    ShellIs(u.shell, 0, map[]) && u.past == [] && u.cut == {} && u.sock == sock
  }

  predicate Least(s: set<int>, n: nat) {
    n !in s && forall k :: 0 <= k < n ==> k in s
  }

  /** A user joins and gets the lowest free number n as his socket. */
  lemma JoinAt(es: seq<Act>, u: nat, n: nat)
    requires AllProper(es) && u !in After(es).users && 1 <= u < MAX_CONN
    requires Least(After(es).k.fds.Keys, n)
    ensures var w := After(es); var w' := After(es + [Join(u)]);
            && AllProper(es + [Join(u)]) && w'.users.Keys == w.users.Keys + {u} && w'.pipes == w.pipes
            && w'.k.fds.Keys == w.k.fds.Keys + {n} && w'.k.fds[n].obj == Sock(u)
            && Newly(w'.users[u], n)
            && forall v :: v in w.users ==> w'.users[v] == w.users[v]
  {
    hide After, AllProper, NewShell, ShellIs;
    FreshIs();
    LastAdded(es, Join(u));
    assert LowestFree(After(es).k.fds) == n;
  }

  lemma StartKeys()
    ensures NewWorld.k.fds.Keys == {0, 1, 2, 3, 4, 5, 6} && NewWorld.users == map[] && NewWorld.pipes == map[]
  {
    hide DoAll;
    StartTable();
  }

  const Opening: seq<Act> := [Join(1), Join(2), Join(3)]

  /** The server's own descriptors and three sockets. */
  const Ten: set<int> := {0, 1, 2, 3, 4, 5, 6, 7, 8, 9}

  const Seven: set<int> := {0, 1, 2, 3, 4, 5, 6}

  lemma Sockets()
    ensures Least(Seven, 7) && Least(Seven + {7}, 8) && Least(Seven + {7} + {8}, 9) && Seven + {7} + {8} + {9} == Ten
  {
  }

  /** One user has joined. */
  lemma FirstJoined()
    ensures var w := After([Join(1)]);
            && AllProper([Join(1)]) && w.users.Keys == {1} && w.k.fds.Keys == Seven + {7} && w.pipes == map[]
            && Newly(w.users[1], 7)
  {
    hide After, AllProper, Newly, Step, Least;
    AfterNone();
    StartKeys();
    Sockets();
    var e0: seq<Act> := [];
    JoinAt(e0, 1, 7);
    assert e0 + [Join(1)] == [Join(1)];
  }

  lemma OpeningIs()
    ensures var w := After(Opening);
            && AllProper(Opening) && w.users.Keys == {1, 2, 3} && w.k.fds.Keys == Ten && w.pipes == map[]
            && forall u :: u in {1, 2, 3} ==> Newly(w.users[u], 6 + u)
  {
    hide After, AllProper, Newly, Step, Least;
    FirstJoined();
    Sockets();
    var e1 := [Join(1)];
    var e2 := e1 + [Join(2)];
    JoinAt(e1, 2, 8);
    JoinAt(e2, 3, 9);
    assert e2 + [Join(3)] == Opening;
  }

  /** User 1 delays a first pipe, and holds on to the two lowest numbers. */
  const First: seq<Act> := Opening + [Typed(1, Delay(2))] + [Typed(1, Ls)]

  lemma FirstIs()
    ensures var w := After(First);
            && AllProper(First) && w.users.Keys == {1, 2, 3} && w.k.fds.Keys == Ten + {10, 11, 12, 13}
            && ShellIs(w.users[1].shell, 2, map[3 := Ends(12, 13)]) && w.users[1].past == [Delay(2), Ls] && w.users[1].cut == {}
            && forall u :: u in {2, 3} ==> Newly(w.users[u], 6 + u)
  {
    hide After, AllProper, ShellIs, Step;
    OpeningIs();
    var e1 := Opening + [Typed(1, Delay(2))];
    assert Lowest(Ten, 10, 11) && Lowest(Ten + {10, 11}, 12, 13);
    RunDelay(Opening, 1, 2, 0, map[], 10, 11, 12, 13);
    assert Keys(NoEnds) == {};
    assert After(e1).k.fds.Keys == Ten + {12, 13};
    assert Lowest(Ten + {12, 13}, 10, 11);
    AddTyped(e1, 1, Ls);
    TypedLs(After(e1), 1, 1, map[3 := Ends(12, 13)], 10, 11);
  }

  /** User 2 delays, so that his eol names 14 and 15; user 1 consumes his first pipe; user 3 delays. */
  const Stale: seq<Act> :=
    [Join(1), Join(2), Join(3), Typed(1, Delay(2)), Typed(1, Ls), Typed(2, Delay(5)), Typed(1, Delay(5)), Typed(3, Delay(5))]

  const Second: seq<Act> := First + [Typed(2, Delay(5))]

  lemma SecondIs()
    ensures var w := After(Second);
            && AllProper(Second) && w.users.Keys == {1, 2, 3} && w.k.fds.Keys == Ten + {10, 11, 12, 13, 16, 17}
            && ShellIs(w.users[1].shell, 2, map[3 := Ends(12, 13)]) && w.users[1].past == [Delay(2), Ls] && w.users[1].cut == {}
            && w.users[2].shell.eol == Ends(14, 15)
            && Newly(w.users[3], 9)
  {
    hide After, AllProper, ShellIs, Step;
    FirstIs();
    var k0 := Ten + {10, 11, 12, 13};
    assert Lowest(k0, 14, 15) && Lowest(k0 + {14, 15}, 16, 17);
    RunDelay(First, 2, 5, 0, map[], 14, 15, 16, 17);
    assert Keys(NoEnds) == {};
    assert k0 + {14, 15} + {16, 17} - {} - {14, 15} == Ten + {10, 11, 12, 13, 16, 17};
  }

  const Third: seq<Act> := Second + [Typed(1, Delay(5))]

  lemma ThirdIs()
    ensures var w := After(Third);
            && AllProper(Third) && w.users.Keys == {1, 2, 3} && w.k.fds.Keys == Ten + {10, 11, 16, 17, 18, 19}
            && w.users[2].shell.eol == Ends(14, 15)
            && Newly(w.users[3], 9)
  {
    hide After, AllProper, ShellIs, Step, Lowest;
    SecondIs();
    ThirdKeys();
    RunDelay(Second, 1, 5, 2, map[3 := Ends(12, 13)], 14, 15, 18, 19);
    assert Keys(Ends(12, 13)) == {12, 13};
  }

  lemma ThirdKeys()
    ensures var k1 := Ten + {10, 11, 12, 13, 16, 17};
            && Lowest(k1, 14, 15) && Lowest(k1 + {14, 15}, 18, 19)
            && k1 + {14, 15} + {18, 19} - {12, 13} - {14, 15} == Ten + {10, 11, 16, 17, 18, 19}
  {
  }

  lemma StaleKeys()
    ensures var k2 := Ten + {10, 11, 16, 17, 18, 19};
            Lowest(k2, 12, 13) && Lowest(k2 + {12, 13}, 14, 15) && {14, 15} <= k2 + {12, 13} + {14, 15} - {} - {12, 13}
  {
  }

  lemma StaleIs()
    ensures var w := After(Stale);
            && AllProper(Stale) && w.users.Keys == {1, 2, 3} && {14, 15} <= w.k.fds.Keys
            && w.users[2].shell.eol == Ends(14, 15)
            && ShellIs(w.users[3].shell, 1, map[6 := Ends(14, 15)]) && w.users[3].past == [Delay(5)] && w.users[3].cut == {}
  {
    hide After, AllProper, ShellIs, Step, Lowest;
    ThirdIs();
    StaleKeys();
    RunDelay(Third, 3, 5, 0, map[], 12, 13, 14, 15);
    assert Keys(NoEnds) == {};
    assert Third + [Typed(3, Delay(5))] == Stale;
    assert map[][6 := Ends(14, 15)] == map[6 := Ends(14, 15)];
  }

  /** User 2's exit is not clear: it closes both ends of the pipe user 3's line 6 awaits. */
  lemma ExitCloses()
    ensures var w := After(Stale); var w' := Step(w, Exit(2));
            && AllProper(Stale) && {2, 3} <= w.users.Keys && w.users[3].past == [Delay(5)]
            && Awaited(w.users[3].past, 6) && |w.users[3].shell.ring| == SIZE && w.users[3].shell.ring[6] == Ends(14, 15)
            && 14 in w.k.fds && 15 in w.k.fds && 14 !in w'.k.fds && 15 !in w'.k.fds
            && !Clear(w, 2)
  {
    hide After, AllProper, CloseVariables;
    StaleIs();
    var w := After(Stale);
    ClosedVars(Machine(w.k, w.users[2].shell));
    assert Sends(Cmds(w.users[3].past), 0, 6);
    var x: nat := 6;
    assert Cell(x) == 6 && Awaited(w.users[3].past, x) && 14 in Keys(w.users[3].shell.ring[Cell(x)]);
    assert 14 in Held(w.users[2].shell);
  }

  /** User 1 delays a pipe, so that his eol names 8 and 9; user 2 is accepted on number 8. */
  const Newcomer: seq<Act> := [Join(1), Typed(1, Delay(5)), Join(2)]

  lemma NewcomerKeys()
    ensures Lowest(Seven + {7}, 8, 9) && Lowest(Seven + {7} + {8, 9}, 10, 11)
    ensures Least(Seven + {7} + {8, 9} + {10, 11} - {} - {8, 9}, 8)
  {
  }

  lemma NewcomerIs()
    ensures var w := After(Newcomer);
            && AllProper(Newcomer) && w.users.Keys == {1, 2} && w.users[1].shell.eol == Ends(8, 9)
            && w.users[2].sock == 8 && 8 in w.k.fds && w.k.fds[8].obj == Sock(2)
  {
    hide After, AllProper, ShellIs, Step, Lowest, Least;
    FirstJoined();
    NewcomerKeys();
    var e1 := [Join(1)];
    RunDelay(e1, 1, 5, 0, map[], 8, 9, 10, 11);
    assert Keys(NoEnds) == {};
    var e2 := e1 + [Typed(1, Delay(5))];
    JoinAt(e2, 2, 8);
    assert e2 + [Join(2)] == Newcomer;
  }

  /** User 1's exit is not clear: it closes user 2's socket, which the server goes on watching. */
  lemma ExitClosesSocket()
    ensures var w := After(Newcomer); var w' := Step(w, Exit(1));
            && AllProper(Newcomer) && w.users.Keys == {1, 2} == w'.users.Keys
            && w'.users[2].sock == w.users[2].sock == 8 && w.k.fds.Keys - w'.k.fds.Keys >= {8}
            && !Clear(w, 1)
  {
    hide After, AllProper, CloseVariables;
    NewcomerIs();
    var w := After(Newcomer);
    ClosedVars(Machine(w.k, w.users[1].shell));
    assert 8 in Held(w.users[1].shell);
  }

  /** Exits can be clear: user 1 delays a pipe, says exit and leaves. */
  lemma ClearExit()
    ensures AllProper(Opening + [Typed(1, Delay(2))] + [Exit(1)] + [Leave(1)])
  {
    hide After, AllProper, Step, Clear;
    OpeningIs();
    assert Lowest(Ten, 10, 11) && Lowest(Ten + {10, 11}, 12, 13);
    RunDelay(Opening, 1, 2, 0, map[], 10, 11, 12, 13);
    var es := Opening + [Typed(1, Delay(2))];
    NobodyWaits(After(es), 1, 10);
    LastAdded(es, Exit(1));
    LastAdded(es + [Exit(1)], Leave(1));
  }

  lemma NobodyWaits(w: World, u: nat, n: nat)
    requires u in w.users && w.pipes == map[] && forall v :: v in w.users && v != u ==> w.users[v].past == []
    requires forall v :: v in w.users ==> w.users[v].sock < n
    requires w.users[u].shell.eol == Ends(n, n + 1) && w.users[u].shell.prev == NoEnds
    requires w.users[u].shell.curr == Ends(n + 2, n + 3)
    ensures Clear(w, u)
  {
    assert forall fd :: fd in Held(w.users[u].shell) ==> n <= fd;
  }

  /** User 1 delays a pipe to his next line, and that line says exit before it comes to a program. */
  const Cut: seq<Act> := [Join(1), Typed(1, Delay(1)), Exit(1)]

  lemma BeforeCut()
    ensures var w := After([Join(1), Typed(1, Delay(1))]);
            && AllProper([Join(1), Typed(1, Delay(1))]) && w.users.Keys == {1} && Clear(w, 1)
            && ShellIs(w.users[1].shell, 1, map[2 := Ends(10, 11)]) && w.users[1].shell.curr == Ends(10, 11)
            && w.users[1].past == [Delay(1)] && w.users[1].cut == {}
  {
    hide After, AllProper, Step, Lowest, Least, Clear;
    FirstJoined();
    NewcomerKeys();
    var e1 := [Join(1)];
    RunDelay(e1, 1, 1, 0, map[], 8, 9, 10, 11);
    assert Keys(NoEnds) == {} && map[][2 := Ends(10, 11)] == map[2 := Ends(10, 11)];
    assert e1 + [Typed(1, Delay(1))] == [Join(1), Typed(1, Delay(1))];
    NobodyWaits(After(e1 + [Typed(1, Delay(1))]), 1, 8);
  }

  /** Whatever piece follows on that line comes to a slot that names two closed numbers. */
  lemma CutSlot(p: Piece)
    ensures var w := After(Cut);
            && AllProper(Cut) && 1 in w.users && !Spared(w.users[1], p)
            && ShellIs(w.users[1].shell, 1, map[2 := Ends(10, 11)]) && 10 !in w.k.fds && 11 !in w.k.fds
  {
    hide After, AllProper, CloseVariables, Clear;
    BeforeCut();
    var es := [Join(1), Typed(1, Delay(1))];
    LastAdded(es, Exit(1));
    assert es + [Exit(1)] == Cut;
    var w := After(es);
    ClosedVars(Machine(w.k, w.users[1].shell));
    assert Target(0, Delay(1).cmds) == {2};
    assert 10 in Held(w.users[1].shell) && 11 in Held(w.users[1].shell);
  }
}
