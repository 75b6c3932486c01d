/** The acts of module World are what executing whole lines amounts to. */
module Lines {
  import opened Kernel
  import opened Shell
  import opened UserShell
  import opened CmdHandling
  import opened UserParser
  import opened World
  import opened WorldRuns
  import opened Independence

  function Does(w: World, acts: seq<Act>): World {
    if acts == [] then w else Step(Does(w, acts[..|acts| - 1]), acts[|acts| - 1])
  }

  function Exits(u: nat, quits: nat): seq<Act> {
    if quits == 0 then [] else Exits(u, quits - 1) + [Exit(u)]
  }

  function Types(u: nat, ps: seq<Piece>): seq<Act> {
    if ps == [] then [] else Types(u, ps[..|ps| - 1]) + [Typed(u, ps[|ps| - 1])]
  }

  /** The acts of user u's line: its exits, its pieces, and his removal if there was an exit. */
  function LineActs(u: nat, line: string): seq<Act> {
    Exits(u, UQuits(line)) + Types(u, UParse(line)) + if UQuits(line) > 0 then [Leave(u)] else []
  }

  lemma DoesMore(w: World, acts: seq<Act>, e: Act)
    ensures Does(w, acts + [e]) == Step(Does(w, acts), e)
  {
    hide Step;
    assert (acts + [e])[..|acts|] == acts;
  }

  lemma DoesNone(w: World)
    ensures Does(w, []) == w
  {
  }

  lemma {:induction false} DoesAll(w: World, a: seq<Act>, b: seq<Act>)
    ensures Does(w, a + b) == Does(Does(w, a), b)
    decreases |b|
  {
    hide Step;
    if b == [] {
      assert a + b == a;
    } else {
      var n := |b| - 1;
      DoesAll(w, a, b[..n]);
      assert a + b == (a + b[..n]) + [b[n]];
      DoesMore(w, a + b[..n], b[n]);
      assert b == b[..n] + [b[n]];
      DoesMore(Does(w, a), b[..n], b[n]);
    }
  }

  /** Acting in a run. */
  lemma {:induction false} AfterDoes(es: seq<Act>, acts: seq<Act>)
    ensures After(es + acts) == Does(After(es), acts)
    decreases |acts|
  {
    hide Step;
    if acts == [] {
      assert es + acts == es;
    } else {
      var n := |acts| - 1;
      AfterDoes(es, acts[..n]);
      assert es + acts == (es + acts[..n]) + [acts[n]];
      LastAdded(es + acts[..n], acts[n]);
    }
  }

  /** Nothing about the users has changed but the shell, pieces and flag of user u. */
  ghost predicate OnlyOf(w: World, w': World, u: nat)
    requires u in w.users
  {
    w'.users.Keys == w.users.Keys && w'.users[u].sock == w.users[u].sock && forall v :: v in w.users && v != u ==> w'.users[v] == w.users[v]
  }

  lemma {:induction false} ExitsDo(w: World, u: nat, quits: nat)
    requires u in w.users
    ensures var w' := Does(w, Exits(u, quits));
            && OnlyOf(w, w', u) && w'.users[u].past == w.users[u].past
            && FlightOf(w', u) == FlightOf(w, u).(m := CloseTimes(FlightOf(w, u).m, quits))
  {
    hide CloseVariables, Does;
    if quits > 0 {
      ExitsDo(w, u, quits - 1);
      DoesMore(w, Exits(u, quits - 1), Exit(u));
    } else {
      assert Does(w, []) == w by { DoesNone(w); }
    }
  }

  lemma {:induction false} TypesDo(w: World, u: nat, ps: seq<Piece>)
    requires u in w.users && |w.users[u].shell.ring| == SIZE
    ensures var w' := Does(w, Types(u, ps));
            && OnlyOf(w, w', u) && w'.users[u].past == w.users[u].past + ps
            && FlightOf(w', u) == ULine(FlightOf(w, u), w.users.Keys, u, ps)
    decreases |ps|
  {
    hide URun;
    if ps != [] {
      var n := |ps| - 1;
      TypesDo(w, u, ps[..n]);
      DoesMore(w, Types(u, ps[..n]), Typed(u, ps[n]));
      assert w.users[u].past + ps == w.users[u].past + ps[..n] + [ps[n]];
    } else {
      assert w.users[u].past + ps == w.users[u].past;
    }
  }

  lemma {:induction false} RingsStay(es: seq<Act>, u: nat)
    requires u in After(es).users
    ensures |After(es).users[u].shell.ring| == SIZE
    decreases |es|
  {
    hide After, URun, CloseVariables;
    if es == [] {
      AfterNone();
    } else {
      var before := es[..|es| - 1];
      LastAct(es);
      if u in After(before).users { RingsStay(before, u); }
      RingStays(After(before), es[|es| - 1], u);
    }
  }

  lemma RingStays(w: World, e: Act, u: nat)
    requires u in w.users ==> |w.users[u].shell.ring| == SIZE
    ensures u in Step(w, e).users ==> |Step(w, e).users[u].shell.ring| == SIZE
  {
    hide URun, CloseVariables;
    if e.Exit? && e.id in w.users {
      assert CloseVariables(Machine(w.k, w.users[e.id].shell)).s.ring == w.users[e.id].shell.ring;
    }
    if e.Typed? && e.id in w.users && |w.users[e.id].shell.ring| == SIZE {
      assert |URun(FlightOf(w, e.id), w.users.Keys, e.id, e.p).m.s.ring| == SIZE;
    }
  }

  /** The unread user pipes after a receiver has gone. */
  function Without(pipes: PipeTable, u: nat): PipeTable {
    map key | key in pipes && key.0 != u :: pipes[key]
  }

  /** A line of user u in a run does to process, shell and user pipes what the command handler's
      runShell does and touches no other user's shell; if it says exit, u is removed with his
      socket and the pipes written for him. */
  lemma LineIsActs(es: seq<Act>, u: nat, line: string)
    requires u in After(es).users
    ensures |After(es).users[u].shell.ring| == SIZE
    ensures var w := After(es); var w' := After(es + LineActs(u, line)); var f := FlightOf(w, u);
            var r := ULine(f.(m := CloseTimes(f.m, UQuits(line))), w.users.Keys, u, UParse(line));
            && w'.notes == r.notes
            && (if UQuits(line) == 0 then
                  w'.users.Keys == w.users.Keys && w'.users[u].shell == r.m.s && w'.k == r.m.k && w'.pipes == r.pipes
                else
                  && w'.users.Keys == w.users.Keys - {u} && w'.k == Do(r.m.k, Close(w.users[u].sock))
                  && w'.pipes == Without(r.pipes, u))
            && forall v :: v in w.users && v != u ==> w'.users[v] == w.users[v]
  {
    hide After, UParse, UQuits, CloseTimes, ULine, Exits, Types, Step, Do;
    RingsStay(es, u);
    var w := After(es);
    var quits := UQuits(line);
    var acts := Exits(u, quits) + Types(u, UParse(line));
    ExitsDo(w, u, quits);
    var w1 := Does(w, Exits(u, quits));
    TypesDo(w1, u, UParse(line));
    DoesAll(w, Exits(u, quits), Types(u, UParse(line)));
    AfterDoes(es, LineActs(u, line));
    if quits > 0 {
      DoesMore(w, acts, Leave(u));
      LeaveOnly(Does(w, acts), u);
    } else {
      assert LineActs(u, line) == acts;
    }
  }

  lemma LeaveOnly(w: World, u: nat)
    requires u in w.users
    ensures var w' := Step(w, Leave(u));
            && w'.k == Do(w.k, Close(w.users[u].sock)) && w'.notes == w.notes && w'.users == w.users - {u}
            && w'.pipes == Without(w.pipes, u)
  {
  }
}
