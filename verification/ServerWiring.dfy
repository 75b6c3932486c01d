/** Over every run of the single-process server: who reads the pipes between users. */
module ServerWiring {
  import opened Kernel
  import opened Pipes
  import opened Shell
  import opened Ownership
  import opened Pieces
  import opened Runs
  import opened Accounts
  import opened Wiring
  import opened UserShell
  import opened UserPipes
  import opened UserStages
  import opened UserPieces
  import opened UserWiring
  import opened World
  import opened WorldRuns
  import opened Independence

  /** No pipe and no file survives exec but as a standard descriptor, every child was forked so, and
      every unread user pipe is written by exactly one child. */
  ghost predicate Wired(w: World) {
    Tidy(w.k.fds) && Bare(w.k.kids, 0) && BoxFed(w.pipes, w.notes, w.k.kids)
  }

  /** From k on children are only added, and nobody's reading changes. */
  ghost predicate Onward(k: Proc, k': Proc) {
    k.kids <= k'.kids && Keeps(k.kids, k'.kids)
  }

  lemma OnwardSelf(k: Proc)
    ensures Onward(k, k)
  {
    hide Fed;
  }

  lemma OnwardTrans(a: Proc, b: Proc, c: Proc)
    requires Onward(a, b) && Onward(b, c)
    ensures Onward(a, c)
  {
    hide Fed;
  }

  lemma TypedUnboxed(w: World, dues: Dues, user: nat, p: Piece)
    requires WorldOk(w, dues) && user in w.users && user in dues
    requires NextProper(|w.users[user].past|, dues[user], w.users[user].cut, p) && EndsNumbered(p.cmds)
    ensures |FlightOf(w, user).m.s.ring| == SIZE
    ensures var f := FlightOf(w, user); var n := p.cmds[|p.cmds| - 1].n;
            TargetUnboxed(f, n, f.m.s.ring[Slot(f.m.s.head, n + 1)])
  {
    hide WorldOk, Slot, Unboxed, UIdle, RingBut, Targets, NextProper, UserIn, PipesOk, Alternate, SocksOk, Sound, Gone, TargetUnboxed;
    TypedIdle(w, dues, user);
    WorldParts(w, dues);
    ProperParts(|w.users[user].past|, dues[user], w.users[user].cut, p);
    forall x | x in dues[user]
      ensures Unboxed(w.pipes, w.notes, dues[user][x].id)
    {
    }
    SlotUnboxed(FlightOf(w, user), |w.users[user].past|, dues[user], w.users[user].cut, p.cmds[|p.cmds| - 1].n);
  }

  lemma SlotUnboxed(f: Flight, line: nat, due: map<nat, Reg>, cut: set<nat>, n: int)
    requires |f.m.s.ring| == SIZE && RingBut(f.m, line, due, cut) && Clean(due, line + 1) && 1 <= n && Clean(due, line + 1 + n)
    requires line + 1 !in cut && line + 1 + n !in cut
    requires forall x :: x in due ==> Unboxed(f.pipes, f.notes, due[x].id)
    ensures TargetUnboxed(f, n, f.m.s.ring[Slot(f.m.s.head, n + 1)])
  {
    hide Folds, Cell, Slot, Unboxed;
    var x: nat := line + 1 + n;
    TargetBut(f.m, line, due, cut, n);
    if x in due {
      assert Owns(f.m.k.fds, due[x].p, due[x].id);
    }
  }

  lemma TypedFed(w: World, dues: Dues, user: nat, p: Piece)
    requires WorldOk(w, dues) && user in w.users && user in dues && NextProper(|w.users[user].past|, dues[user], w.users[user].cut, p)
    requires Tidy(w.k.fds) && BoxFed(w.pipes, w.notes, w.k.kids)
    ensures |FlightOf(w, user).m.s.ring| == SIZE
    ensures var f := FlightOf(w, user); var r := URun(f, w.users.Keys, user, p);
            && KidsFed(f.m, r) && Tidy(r.m.k.fds)
            && (0 < p.readUid && Exists(w.users.Keys, p.readUid) && (user, p.readUid as nat) in w.pipes ==>
                  Receives(f, r, user, p.readUid))
  {
    hide WorldOk, Taken, URun, Clean, Mailbox, UTargetOk, UShape, TargetUnboxed, Tidy, BoxFed, KidsFed, Receives, Slot;
    TypedIdle(w, dues, user);
    var f := FlightOf(w, user);
    FrontBut(f.m, |w.users[user].past|, dues[user], w.users[user].cut);
    if p.readUid <= 0 {
      forall r: nat, s: nat | (r, s) in f.pipes
        ensures Mailbox(f.notes, s, r).Full? && Mailbox(f.notes, s, r).id !in Taken(f, w.users.Keys, user, p.readUid)
      {
        BoxesNotTaken(w, dues, user, p.readUid, r, s);
      }
    }
    if EndsNumbered(p.cmds) {
      TypedTarget(w, dues, user, p);
      TypedUnboxed(w, dues, user, p);
    }
    UPieceFed(f, w.users.Keys, user, p);
  }

  lemma WiredTyped(w: World, dues: Dues, user: nat, p: Piece)
    requires WorldOk(w, dues) && user in w.users && user in dues && Proper(w.users[user].past + [p]) && Spared(w.users[user], p) && Wired(w)
    ensures var w' := Step(w, Typed(user, p));
            && Wired(w') && Onward(w.k, w'.k)
            && (0 < p.readUid && Exists(w.users.Keys, p.readUid) && (user, p.readUid as nat) in w.pipes ==>
                  |w.users[user].shell.ring| == SIZE
                  && Receives(FlightOf(w, user), URun(FlightOf(w, user), w.users.Keys, user, p), user, p.readUid))
    ensures |w.users[user].shell.ring| == SIZE
  {
    hide WorldOk, Proper, URun, NextProper, Targets, UIdle, RingBut, Receives, BoxFed, Tidy;
    TypedIdle(w, dues, user);
    NextIsProper(w.users[user].past, p, dues[user], w.users[user].cut);
    TypedFed(w, dues, user, p);
    var r := URun(FlightOf(w, user), w.users.Keys, user, p);
    BareAll(w.k.kids, r.m.k.kids);
  }

  lemma BareAll(kids: seq<Child>, kids': seq<Child>)
    requires kids <= kids' && Bare(kids, 0)
    ensures Bare(kids', |kids|) ==> Bare(kids', 0)
  {
    hide View;
    assert forall u :: 0 <= u < |kids| ==> kids'[u] == kids[u];
  }

  /** Joining and leaving: unread pipes become fewer. */
  lemma BoxFedSome(pipes: PipeTable, notes: seq<Note>, pipes': PipeTable, notes': seq<Note>, kids: seq<Child>)
    requires BoxFed(pipes, notes, kids)
    requires forall r: nat, s: nat :: (r, s) in pipes' ==> (r, s) in pipes && Mailbox(notes', s, r) == Mailbox(notes, s, r)
    ensures BoxFed(pipes', notes', kids)
  {
    hide Feeders, Mailbox;
  }

  lemma TidySock(t: Table, fd: int, owner: int)
    requires Tidy(t) && fd !in t
    ensures Tidy(t[fd := Entry(Sock(owner), false)])
  {
  }

  lemma WiredJoin(w: World, dues: Dues, id: nat)
    requires WorldOk(w, dues) && id !in w.users && Wired(w)
    ensures Wired(Step(w, Join(id))) && Step(w, Join(id)).k.kids == w.k.kids
  {
    hide Tidy, Bare, BoxFed, UserIn, Apart, SocksOk, Sound, Gone, Alternate, Mailbox;
    forall r: nat, s: nat | (r, s) in w.pipes
      ensures Mailbox(w.notes + [Joined(id)], s, r) == Mailbox(w.notes, s, r)
    {
      MailboxMore(w.notes, Joined(id), s, r);
    }
    BoxFedSome(w.pipes, w.notes, w.pipes, w.notes + [Joined(id)], w.k.kids);
    TidySock(w.k.fds, LowestFree(w.k.fds), id);
  }

  lemma TidyFewer(t: Table, fd: int)
    requires Tidy(t) && 3 <= fd
    ensures Tidy(t - {fd})
  {
  }

  lemma WiredLeave(w: World, dues: Dues, id: nat)
    requires WorldOk(w, dues) && id in w.users && Wired(w)
    ensures Wired(Step(w, Leave(id))) && Step(w, Leave(id)).k.kids == w.k.kids
  {
    hide Tidy, Bare, BoxFed, UserIn, Apart, Sound, Gone, Alternate, Mailbox, PipesOk;
    BoxFedSome(w.pipes, w.notes, Step(w, Leave(id)).pipes, w.notes, w.k.kids);
    TidyFewer(w.k.fds, w.users[id].sock);
  }

  lemma WiredExit(w: World, dues: Dues, u: nat)
    requires WorldOk(w, dues) && u in w.users && Wired(w)
    ensures Wired(Step(w, Exit(u))) && Step(w, Exit(u)).k.kids == w.k.kids
  {
    hide Bare, BoxFed, WorldOk, Held, CloseVariables, LogOk, SocksOk, Sound, UserIn;
    WorldParts(w, dues);
    ClosedHeld(w, u);
    HeldAbove(w, dues, u);
  }

  /** Every act keeps the wiring. */
  lemma WiredStep(w: World, dues: Dues, e: Act)
    requires WorldOk(w, dues) && Allowed(w, e) && Wired(w)
    ensures Wired(Step(w, e)) && Onward(w.k, Step(w, e).k)
  {
    hide WorldOk, Proper, URun, Clear, CloseVariables, Wired, Receives, Keeps;
    Watched(w, dues);
    OnwardSelf(w.k);
    match e
    case Join(id) => if id !in w.users { WiredJoin(w, dues, id); }
    case Leave(id) => if id in w.users { WiredLeave(w, dues, id); }
    case Exit(id) => if id in w.users { WiredExit(w, dues, id); }
    case Typed(id, p) => if id in w.users { WiredTyped(w, dues, id, p); }
  }

  lemma StartWired()
    ensures Wired(NewWorld)
  {
    hide DoAll;
    StartTable();
    StartKids();
  }

  lemma {:induction false} AfterWired(es: seq<Act>)
    requires AllProper(es)
    ensures Wired(After(es))
    decreases |es|
  {
    if es == [] {
      StartWired();
    } else {
      hide WorldOk, Step, Allowed, After, AllProper, Wired;
      LastAct(es);
      AfterWired(es[..|es| - 1]);
      var dues := AfterOk(es[..|es| - 1]);
      WiredStep(After(es[..|es| - 1]), dues, es[|es| - 1]);
    }
  }

  /** Over every run every child starts with the three standard descriptors, inherited sockets and
      the like and nothing else, and every unread user pipe is written by exactly one child. */
  lemma OneWriter(es: seq<Act>, r: nat, s: nat)
    requires AllProper(es)
    ensures var w := After(es);
            && (forall u :: 0 <= u < |w.k.kids| ==> Inherits(w.k.kids[u]))
            && ((r, s) in w.pipes ==>
                  (Mailbox(w.notes, s, r).Full? && exists c: nat :: Feeders(w.k.kids, Mailbox(w.notes, s, r).id) == {c}))
  {
    hide After, AllProper, Feeders, Mailbox, View;
    AfterWired(es);
    var dues := AfterOk(es);
    WorldParts(After(es), dues);
  }

  /** Over every run: the first child of a piece that reads a user pipe reads the very pipe the
      sender wrote last, which one earlier child writes and nobody else reads or writes. */
  lemma ReaderWired(es: seq<Act>, u: nat, p: Piece)
    requires AllProper(es + [Typed(u, p)]) && u in After(es).users
    requires 0 < p.readUid && Exists(After(es).users.Keys, p.readUid) && (u, p.readUid as nat) in After(es).pipes
    ensures var w := After(es); var kids := After(es + [Typed(u, p)]).k.kids; var first := |w.k.kids|;
            && Mailbox(w.notes, p.readUid, u).Full? && first < |kids|
            && In(kids[first]) == ReadEnd(Mailbox(w.notes, p.readUid, u).id)
            && exists c: nat :: c < first && Fed(kids, first, {c})
  {
    hide After, AllProper, Wired, WorldOk, URun, Proper, Mailbox, Fed, Onward;
    var es' := es + [Typed(u, p)];
    LastAct(es');
    assert es'[..|es'| - 1] == es;
    LastAdded(es, Typed(u, p));
    AfterWired(es);
    var dues := AfterOk(es);
    Watched(After(es), dues);
    WiredTyped(After(es), dues, u, p);
  }

  /** And it stays so, whatever anybody does later. */
  lemma {:induction false} ReadingStays(es: seq<Act>, more: seq<Act>)
    requires AllProper(es + more)
    ensures Onward(After(es).k, After(es + more).k)
    decreases |more|
  {
    hide After, AllProper, Wired, WorldOk, Onward, Step, Allowed;
    if more == [] {
      assert es + more == es;
      OnwardSelf(After(es).k);
    } else {
      var all := es + more;
      var front := more[..|more| - 1];
      assert all[..|all| - 1] == es + front;
      LastAct(all);
      ReadingStays(es, front);
      AfterWired(es + front);
      var dues := AfterOk(es + front);
      WiredStep(After(es + front), dues, all[|all| - 1]);
      OnwardTrans(After(es).k, After(es + front).k, After(all).k);
    }
  }
}
