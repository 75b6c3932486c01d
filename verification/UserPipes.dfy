/** User pipes: who owns their descriptors, and that writes and reads of each pair alternate. */
module UserPipes {
  import opened Kernel
  import opened Pipes
  import opened Shell
  import opened Ownership
  import opened Pieces
  import opened PieceRuns
  import opened Runs
  import opened UserShell

  /** The pipe a sender has written for a receiver that the receiver has not read yet. */
  datatype Box = Empty | Full(id: nat)

  function BoxAfter(b: Box, n: Note, sender: nat, receiver: nat): Box {
    match n
    case Joined(u) => if u == receiver then Empty else b
    case Wrote(s, r, id) => if s == sender && r == receiver then Full(id) else b
    case Took(s, r, _) => if s == sender && r == receiver then Empty else b
  }

  function Mailbox(notes: seq<Note>, sender: nat, receiver: nat): Box {
    if notes == [] then Empty
    else BoxAfter(Mailbox(notes[..|notes| - 1], sender, receiver), notes[|notes| - 1], sender, receiver)
  }

  /** A write finds the pair's box empty; a read takes the very pipe the last write left. */
  predicate InTurn(notes: seq<Note>, n: Note) {
    match n
    case Joined(_) => true
    case Wrote(s, r, _) => Mailbox(notes, s, r) == Empty
    case Took(s, r, id) => Mailbox(notes, s, r) == Full(id)
  }

  /** Between joins of the receiver, successful writes and reads of every pair alternate, starting
      with a write, and each read yields the pipe of the write just before it. */
  predicate Alternate(notes: seq<Note>) {
    forall i :: 0 <= i < |notes| ==> InTurn(notes[..i], notes[i])
  }

  lemma AlternateMore(notes: seq<Note>, n: Note)
    requires Alternate(notes) && InTurn(notes, n)
    ensures Alternate(notes + [n])
  {
    var all := notes + [n];
    forall i | 0 <= i < |all|
      ensures InTurn(all[..i], all[i])
    {
      assert all[..i] == notes[..i];
      if i == |notes| { assert notes[..i] == notes; }
    }
  }

  lemma MailboxMore(notes: seq<Note>, n: Note, s: nat, r: nat)
    ensures Mailbox(notes + [n], s, r) == BoxAfter(Mailbox(notes, s, r), n, s, r)
  {
    assert (notes + [n])[..|notes|] == notes;
  }

  /** The pipes kept for receivers are exactly the unread ones, and the server holds both ends of
      each of them, once. */
  ghost predicate PipesOk(pipes: PipeTable, notes: seq<Note>, t: Table, np: nat, live: set<nat>) {
    && (forall r: nat, s: nat :: (r, s) in pipes ==> r in live && Mailbox(notes, s, r).Full?)
    && (forall r: nat, s: nat :: r in live && Mailbox(notes, s, r).Full? ==> (r, s) in pipes)
    && (forall r: nat, s: nat :: (r, s) in pipes ==>
          && Mailbox(notes, s, r).id < np
          && Owns(t, pipes[(r, s)], Mailbox(notes, s, r).id))
    && (forall r: nat, s: nat, r': nat, s': nat :: (r, s) in pipes && (r', s') in pipes && (r, s) != (r', s') ==>
          Mailbox(notes, s, r).id != Mailbox(notes, s', r').id)
  }

  /** A descriptor the server never closes while executing a piece: a socket, or one of those it
      starts with. */
  predicate Lasts(e: Entry) {
    e.obj.Other? || e.obj.Sock?
  }

  ghost predicate Lasting(t: Table, b: Table) {
    forall fd :: fd in t && Lasts(t[fd]) ==> fd in b && b[fd] == t[fd]
  }

  /** No end of an old pipe that t lacks is in b. */
  ghost predicate NoneBack(t: Table, b: Table, np: nat) {
    forall id: nat :: id < np && Lacks(t, id) ==> Lacks(b, id)
  }

  /** Pipes owned in t are still owned in b, but for those in gone; sockets are still open; and no
      pipe that was gone is back. */
  ghost predicate Frame(t: Table, b: Table, np: nat, gone: set<nat>) {
    && (forall p, id: nat :: id < np && id !in gone && Owns(t, p, id) ==> Owns(b, p, id))
    && Lasting(t, b) && NoneBack(t, b, np)
  }

  lemma FrameTrans(a: Table, b: Table, c: Table, np: nat, np': nat, gone: set<nat>)
    requires Frame(a, b, np, gone) && Frame(b, c, np', {}) && np <= np'
    ensures Frame(a, c, np, gone)
  {
  }

  lemma FrameAdd(t: Table, p: Ends, id: nat)
    requires p.rd !in t && p.wr !in t
    ensures Frame(t, AddPipe(t, p, id), id, {})
  {
  }

  lemma FrameDrop(t: Table, p: Ends, id: nat, np: nat)
    requires Owns(t, p, id)
    ensures Frame(t, t - Keys(p), np, {id})
  {
  }

  lemma PipesFrame(pipes: PipeTable, notes: seq<Note>, t: Table, b: Table, np: nat, np': nat, live: set<nat>, gone: set<nat>)
    requires PipesOk(pipes, notes, t, np, live) && Frame(t, b, np, gone) && np <= np'
    requires forall r: nat, s: nat :: (r, s) in pipes ==> Mailbox(notes, s, r).id !in gone
    ensures PipesOk(pipes, notes, b, np', live)
  {
    hide Owns, Mailbox;
  }

  /** Pipe e is nobody's user pipe. */
  ghost predicate Unboxed(pipes: PipeTable, notes: seq<Note>, e: nat) {
    forall r: nat, s: nat :: (r, s) in pipes ==> Mailbox(notes, s, r) != Full(e)
  }

  lemma OldUnboxed(pipes: PipeTable, notes: seq<Note>, t: Table, np: nat, live: set<nat>, e: nat)
    requires PipesOk(pipes, notes, t, np, live) && np <= e
    ensures Unboxed(pipes, notes, e)
  {
  }

  /** The state of a user's piece in flight. */
  ghost predicate UGoing(m0: Machine, f: Flight, base: Table, e: nat, j: nat, live: set<nat>) {
    && Going(m0, f.m, base, e, j)
    && PipesOk(f.pipes, f.notes, base, f.m.k.pipes, live)
    && Alternate(f.notes) && Unboxed(f.pipes, f.notes, e)
  }

  /** Taking the pipe (user, uid) out of the boxes. */
  lemma TookPipes(f: Flight, user: nat, uid: nat, t: Table, np: nat, live: set<nat>)
    requires PipesOk(f.pipes, f.notes, t, np, live) && (user, uid) in f.pipes && Alternate(f.notes)
    ensures var id := Mailbox(f.notes, uid, user).id; var p := f.pipes[(user, uid)];
            var notes := f.notes + [Took(uid, user, id)];
            && PipesOk(f.pipes - {(user, uid)}, notes, t - Keys(p), np, live) && Alternate(notes)
            && forall e: nat :: Unboxed(f.pipes, f.notes, e) ==> Unboxed(f.pipes - {(user, uid)}, notes, e)
  {
    hide Owns;
    var id := Mailbox(f.notes, uid, user).id;
    var p := f.pipes[(user, uid)];
    var n := Took(uid, user, id);
    AlternateMore(f.notes, n);
    FrameDrop(t, p, id, np);
    var notes := f.notes + [n];
    var pipes := f.pipes - {(user, uid)};
    forall r: nat, s: nat
      ensures Mailbox(notes, s, r) == if (r, s) == (user, uid) then Empty else Mailbox(f.notes, s, r)
    {
      MailboxMore(f.notes, n, s, r);
    }
    assert PipesOk(pipes, notes, t, np, live);
    PipesFrame(pipes, notes, t, t - Keys(p), np, np, live, {id});
  }

  /** Putting a new pipe into the box (user, uid). */
  lemma WrotePipes(f: Flight, user: nat, uid: nat, t: Table, np: nat, live: set<nat>, p: Ends)
    requires PipesOk(f.pipes, f.notes, t, np, live) && (uid, user) !in f.pipes && uid in live && Alternate(f.notes)
    requires p.rd !in t && p.wr !in t && Owns(AddPipe(t, p, np), p, np)
    ensures var notes := f.notes + [Wrote(user, uid, np)];
            && PipesOk(f.pipes[(uid, user) := p], notes, AddPipe(t, p, np), np + 1, live) && Alternate(notes)
            && forall e: nat :: Unboxed(f.pipes, f.notes, e) && e != np ==> Unboxed(f.pipes[(uid, user) := p], notes, e)
  {
    hide Owns, AddPipe;
    var n := Wrote(user, uid, np);
    AlternateMore(f.notes, n);
    FrameAdd(t, p, np);
    var notes := f.notes + [n];
    var pipes := f.pipes[(uid, user) := p];
    PipesFrame(f.pipes, f.notes, t, AddPipe(t, p, np), np, np, live, {});
    forall r: nat, s: nat
      ensures Mailbox(notes, s, r) == if (r, s) == (uid, user) then Full(np) else Mailbox(f.notes, s, r)
    {
      MailboxMore(f.notes, n, s, r);
    }
  }

  /** The state just after eol and the ring have been prepared. */
  ghost predicate UBegun(m0: Machine, f: Flight, live: set<nat>) {
    && |f.m.s.ring| == SIZE && Sound(f.m.k) && WindowOk(f.m) && f.m.s.prev == NoEnds
    && Gone(f.m.k.kids, |f.m.k.kids|, f.m.k.fds)
    && Owns(f.m.k.fds, f.m.s.eol, m0.k.pipes) && KidsOk(m0.k.kids, m0.k.pipes)
    && f.m.k.kids == m0.k.kids && f.m.k.pipes == m0.k.pipes + 1
    && PipesOk(f.pipes, f.notes, f.m.k.fds, f.m.k.pipes, live) && Alternate(f.notes)
    && Unboxed(f.pipes, f.notes, m0.k.pipes)
  }

  lemma UPrepared(f: Flight, live: set<nat>)
    requires Idle(f.m) && FrontOk(f.m)
    requires PipesOk(f.pipes, f.notes, f.m.k.fds, f.m.k.pipes, live) && Alternate(f.notes)
    ensures var f1 := f.(m := Begin(f.m));
            && UBegun(f.m, f1, live) && Frame(f.m.k.fds, f1.m.k.fds, f.m.k.pipes, {})
            && Loop(f1.m, f1.m.k.fds - Keys(Front(f.m)))
            && Barrier(f1.m, f1.m.k.fds - Keys(Front(f.m)), f.m.k.pipes, |f.m.k.kids|)
  {
    BeginOk(f.m);
    var f1 := f.(m := Begin(f.m));
    assert f1.m.k.fds == AddPipe(f.m.k.fds, f1.m.s.eol, f.m.k.pipes);
    FrameAdd(f.m.k.fds, f1.m.s.eol, f.m.k.pipes);
    hide AddPipe, Mailbox, Owns;
    OldUnboxed(f.pipes, f.notes, f.m.k.fds, f.m.k.pipes, live, f.m.k.pipes);
    PipesFrame(f.pipes, f.notes, f.m.k.fds, f1.m.k.fds, f.m.k.pipes, f1.m.k.pipes, live, {});
  }

  /** A descriptor opened next to the others, read from by the first stage. */
  lemma ExtraCurr(k: Proc, k1: Proc, op: Op, d: int)
    requires TableOk(k.fds, k.pipes) && (op.Open? || (op.Dup? && op.from in k.fds)) && k1 == Do(k, op) && d == LowestFree(k.fds)
    ensures 3 <= d && d !in k.fds && k1.fds.Keys == k.fds.Keys + {d} && k1.fds - {d} == k.fds
    ensures k1.kids == k.kids && k1.pipes == k.pipes
    ensures op.Open? ==> k1.fds[d] == Entry(File(op.name), false)
    ensures op.Dup? ==> k1.fds[d] == Entry(k.fds[op.from].obj, false)
    ensures LogOk(k) ==> LogOk(k1)
  {
    assert 0 in k.fds && 1 in k.fds && 2 in k.fds;
    if LogOk(k) { DoLog(k, op); }
  }

  /** Objects that were not in t are not in a table drawn from t. */
  ghost predicate DrawnFrom(t: Table, b: Table) {
    forall fd :: fd in b ==> b[fd].obj.File? || exists d :: d in t && t[d].obj == b[fd].obj
  }

  lemma GoneDrawn(kids: seq<Child>, t: Table, b: Table)
    requires Gone(kids, |kids|, t) && DrawnFrom(t, b)
    ensures Gone(kids, |kids|, b)
  {
    hide In;
    forall u | 0 <= u < |kids| && In(kids[u]).ReadEnd?
      ensures Lacks(b, In(kids[u]).id)
    {
      assert Lacks(t, In(kids[u]).id);
    }
  }

  /** Children of before know nothing of a pipe made after. */
  lemma KidsLack(kids: seq<Child>, np: nat)
    requires KidsOk(kids, np)
    ensures forall u, fd :: 0 <= u < |kids| && fd in View(kids[u]) ==> View(kids[u])[fd].obj != WriteEnd(np)
  {
    forall u, fd | 0 <= u < |kids| && fd in View(kids[u])
      ensures View(kids[u])[fd].obj != WriteEnd(np)
    {
      assert KidOk(kids[u], np);
    }
  }

  /** The current pipe is a lone descriptor d to read from; apart from it the table is base. */
  ghost predicate ReadsFrom(f: Flight, r: Flight, base: Table, d: int) {
    && r.m.s == f.m.s.(curr := Ends(d, -1)) && r.m.k.kids == f.m.k.kids && r.m.k.pipes == f.m.k.pipes
    && 3 <= d && d in r.m.k.fds && r.m.k.fds - {d} == base
    && TableOk(r.m.k.fds, r.m.k.pipes) && LogOk(r.m.k)
    && Sole(r.m.k.fds, Ends(d, -1)) && DrawnFrom(f.m.k.fds, r.m.k.fds)
  }

  lemma FirstReads(m0: Machine, f: Flight, live: set<nat>, r: Flight, base: Table, d: int)
    requires UBegun(m0, f, live) && ReadsFrom(f, r, base, d)
    requires Owns(r.m.k.fds, f.m.s.eol, m0.k.pipes) && f.m.s.eol.rd in base && f.m.s.eol.wr in base
    ensures Going(r.m, r.m, base, m0.k.pipes, 0)
  {
    var t := r.m.k.fds;
    KidsLack(m0.k.kids, m0.k.pipes);
    GoneDrawn(f.m.k.kids, f.m.k.fds, t);
    hide View, PipesOk, LogOk;
    assert t - Keys(r.m.s.prev) == t;
    assert t - Keys(r.m.s.prev) - Keys(r.m.s.curr) == base;
    assert Loop(r.m, base);
  }

  lemma ReadNullOk(m0: Machine, f: Flight, live: set<nat>)
    requires UBegun(m0, f, live)
    ensures var r := ReadNull(f);
            && UGoing(r.m, r, f.m.k.fds, m0.k.pipes, 0, live)
            && ReadsFrom(f, r, f.m.k.fds, r.m.s.curr.rd)
  {
    var r := ReadNull(f);
    ExtraCurr(f.m.k, r.m.k, Kernel.Open("/dev/null"), r.m.s.curr.rd);
    hide PipesOk, Alternate, KidsOk, View;
    assert DrawnFrom(f.m.k.fds, r.m.k.fds);
    FirstReads(m0, f, live, r, f.m.k.fds, r.m.s.curr.rd);
  }

  /** After a successful read: the copy of the read end is the only end of that pipe left. */
  lemma ReadTaken(k: Proc, p: Ends, id: nat)
    requires TableOk(k.fds, k.pipes) && Owns(k.fds, p, id)
    ensures var k2 := DoAll(Do(k, Dup(p.rd)), CloseOps(p)); var d := LowestFree(k.fds);
            && 3 <= d && d !in k.fds && k2.fds == (k.fds - Keys(p))[d := Entry(ReadEnd(id), false)]
            && k2.fds - {d} == k.fds - Keys(p)
            && k2.kids == k.kids && k2.pipes == k.pipes
            && (LogOk(k) ==> LogOk(k2))
            && (forall fd :: fd in k2.fds ==> k2.fds[fd].obj != WriteEnd(id))
  {
    var k1 := Do(k, Dup(p.rd));
    ExtraCurr(k, k1, Dup(p.rd), LowestFree(k.fds));
    CloseEffect(k1, p);
  }

  lemma ReadUserReads(f: Flight, live: set<nat>, user: nat, uid: nat, p: Ends, id: nat)
    requires Sound(f.m.k) && Exists(live, uid) && (user, uid) in f.pipes && p == f.pipes[(user, uid)]
    requires Owns(f.m.k.fds, p, id)
    ensures var r := ReadUser(f, live, user, uid);
            && ReadsFrom(f, r, f.m.k.fds - Keys(p), r.m.s.curr.rd)
            && (forall fd :: fd in r.m.k.fds ==> r.m.k.fds[fd].obj != WriteEnd(id))
            && r.m.s.curr.rd in r.m.k.fds && r.m.k.fds[r.m.s.curr.rd].obj == ReadEnd(id)
            && r.pipes == f.pipes - {(user, uid)} && r.notes == f.notes + [Took(uid, user, id)]
  {
    hide KidsOk, LogOk;
    ReadTaken(f.m.k, p, id);
  }

  lemma ReadUserOk(m0: Machine, f: Flight, live: set<nat>, user: nat, uid: nat)
    requires UBegun(m0, f, live) && Exists(live, uid) && (user, uid) in f.pipes
    requires Mailbox(f.notes, uid, user).Full? && Mailbox(f.notes, uid, user).id != m0.k.pipes
    ensures var r := ReadUser(f, live, user, uid); var base := f.m.k.fds - Keys(f.pipes[(user, uid)]);
            && UGoing(r.m, r, base, m0.k.pipes, 0, live)
            && ReadsFrom(f, r, base, r.m.s.curr.rd)
  {
    hide ReadUser, ReadsFrom, Alternate, Sound, Gone, KidsOk, LogOk;
    var id := Mailbox(f.notes, uid, user).id;
    var p := f.pipes[(user, uid)];
    var t := f.m.k.fds;
    OwnedIn(f.pipes, f.notes, t, f.m.k.pipes, live, user, uid);
    TookPipes(f, user, uid, t, f.m.k.pipes, live);
    hide PipesOk, Mailbox;
    OwnsApart(t, f.m.s.eol, m0.k.pipes, p, id);
    ReadUserReads(f, live, user, uid, p, id);
    var r := ReadUser(f, live, user, uid);
    EolStays(f, r, t - Keys(p), r.m.s.curr.rd, f.m.s.eol, m0.k.pipes);
    FirstReads(m0, f, live, r, t - Keys(p), r.m.s.curr.rd);
    ReadSame(f, r, t - Keys(p), r.m.s.curr.rd);
  }

  lemma OwnedIn(pipes: PipeTable, notes: seq<Note>, t: Table, np: nat, live: set<nat>, r: nat, s: nat)
    requires PipesOk(pipes, notes, t, np, live) && (r, s) in pipes
    ensures Mailbox(notes, s, r).Full? && Mailbox(notes, s, r).id < np
    ensures Owns(t, pipes[(r, s)], Mailbox(notes, s, r).id)
  {
  }

  lemma EolStays(f: Flight, r: Flight, base: Table, d: int, eol: Ends, e: nat)
    requires ReadsFrom(f, r, base, d) && Owns(base, eol, e) && d in r.m.k.fds && !IsEnd(r.m.k.fds[d].obj, e)
    ensures Owns(r.m.k.fds, eol, e)
  {
    assert forall fd :: fd in r.m.k.fds && fd != d ==> fd in base;
  }

  lemma ReadSame(f: Flight, r: Flight, base: Table, d: int)
    requires ReadsFrom(f, r, base, d)
    ensures r.m.k.pipes == f.m.k.pipes
  {
  }
}
