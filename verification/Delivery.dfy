/**
 In every run of the single-process server: what a piece delays to a later piece of its user is what
 that piece reads, whatever anybody does in between.
 */
module Delivery {
  import opened Kernel
  import opened Pipes
  import opened Shell
  import opened Ownership
  import opened Runs
  import opened Accounts
  import opened Wiring
  import opened UserShell
  import opened UserPipes
  import opened UserStages
  import opened World
  import opened WorldRuns
  import opened ServerWiring
  import opened ServerMeaning

  /** A user stays until he leaves. */
  lemma StepStays(w: World, e: Act, user: nat)
    requires user in w.users && e != Leave(user)
    ensures user in Step(w, e).users
  {
    hide URun, CloseVariables;
  }

  lemma {:induction false} LaterOk(es: seq<Act>, more: seq<Act>, dues: Dues, user: nat) returns (dues': Dues)
    requires AllProper(es + more) && WorldOk(After(es), dues) && user in After(es).users && Leave(user) !in more
    ensures WorldOk(After(es + more), dues') && user in After(es + more).users && user in dues && user in dues'
    ensures forall x :: x in dues[user] ==> x in dues'[user] && dues'[user][x] == dues[user][x]
    decreases |more|
  {
    hide WorldOk, Step, Allowed, After, AllProper;
    if more == [] {
      assert es + more == es;
      dues' := dues;
      Watched(After(es), dues);
    } else {
      var n := |more| - 1;
      var all := es + more;
      assert all[..|all| - 1] == es + more[..n];
      LastAct(all);
      var between := LaterOk(es, more[..n], dues, user);
      dues' := StepOk(After(es + more[..n]), between, more[n]);
      StepStays(After(es + more[..n]), more[n], user);
      Watched(After(es + more[..n]), between);
      Watched(After(all), dues');
    }
  }

  /** The slot of line x names both ends of pipe id. */
  ghost predicate SlotIs(w: World, user: nat, x: nat, id: nat) {
    && user in w.users && |w.users[user].shell.ring| == 1024 && w.users[user].shell.head == |w.users[user].past| % 1024
    && var q := w.users[user].shell.ring[x % 1024];
       q != NoEnds && At(w.k.fds, q.rd) == ReadEnd(id) && At(w.k.fds, q.wr) == WriteEnd(id)
  }

  lemma SlotIn(w: World, dues: Dues, user: nat, x: nat)
    requires WorldOk(w, dues) && user in w.users && user in dues && x in dues[user]
    requires |w.users[user].past| < x && x !in w.users[user].cut
    ensures SlotIs(w, user, x, dues[user][x].id)
  {
    hide SocksOk, PipesOk, Alternate, Sound, Gone, Apart, Targets, Proper, VarsOk;
    assert UserIn(w, dues, user);
    SlotOf(w.k, w.users[user], dues[user], x);
  }

  /** After a piece that delays its output its line is among the pending ones. */
  lemma SentIn(w: World, dues: Dues, user: nat, past: seq<Piece>, p: Piece)
    requires WorldOk(w, dues) && user in w.users && w.users[user].past == past + [p] && Delays(p.cmds)
    ensures user in dues && TargetLine(|past|, p.cmds) in dues[user]
  {
    hide SocksOk, PipesOk, Alternate, Sound, Gone, Apart, Proper, VarsOk, RingBut;
    assert UserIn(w, dues, user);
    var ps := Cmds(past + [p]);
    assert ps[|past|] == p.cmds;
    assert Sends(ps, |past|, TargetLine(|past|, p.cmds));
  }

  /** The pipe that goes from the last child of w1 to the first one behind those of w2. */
  ghost predicate Hands(w1: World, w2: World, kids: seq<Child>) {
    var last, first := |w1.k.kids| - 1, |w2.k.kids|;
    && 0 <= last < first < |kids| && 1 in View(kids[last]) && 0 in View(kids[first])
    && exists id :: View(kids[last])[1].obj == WriteEnd(id) && View(kids[first])[0].obj == ReadEnd(id)
  }

  lemma HandedOver(w: World, w1: World, w2: World, w3: World, user: nat, p: Piece, p2: Piece, x: nat, id: nat)
    requires PieceMeans(w, w1, user, p) && PieceMeans(w2, w3, user, p2) && EndsNumbered(p.cmds) && p2.readUid <= 0
    requires SlotIs(w1, user, x, id) && SlotIs(w2, user, x, id) && w1.k.kids <= w2.k.kids <= w3.k.kids
    requires x == |w1.users[user].past| + p.cmds[|p.cmds| - 1].n == |w2.users[user].past| + 1
    ensures Hands(w1, w2, w3.k.kids)
  {
    hide StageMeans, BoxesMean, View, Mailbox;
    var last := |w1.k.kids| - 1;
    assert w3.k.kids[last] == w1.k.kids[last];
    SameSlot(|w1.users[user].past|, p.cmds[|p.cmds| - 1].n);
    SameSlot(|w2.users[user].past|, 1);
  }

  lemma SameSlot(line: nat, n: int)
    ensures (line % 1024 + n) % 1024 == (line + n) % 1024
  {
  }

  /** Piece p of a user ends in `|n` or `!n`; n pieces later, with any acts of all users in between, he
      types p2, which reads from no user: p's last program writes the pipe p2's first program reads. */
  lemma Delivered(es: seq<Act>, user: nat, p: Piece, more: seq<Act>, p2: Piece, e1: seq<Act>, e2: seq<Act>, e3: seq<Act>)
    requires e1 == es + [Typed(user, p)] && e2 == e1 + more && e3 == e2 + [Typed(user, p2)]
    requires AllProper(e3) && user in After(es).users && Leave(user) !in more
    requires EndsNumbered(p.cmds) && p2.readUid <= 0
    requires user in After(e2).users ==>
               |After(e2).users[user].past| == |After(es).users[user].past| + p.cmds[|p.cmds| - 1].n
    ensures Hands(After(e1), After(e2), After(e3).k.kids)
  {
    hide After, AllProper, WorldOk, Proper, PieceMeans, Step, Onward, Hands, SlotIs, Allowed;
    var x, dues1 := SentOff(es, user, p, e3);
    ProperUpTo(e2, [Typed(user, p2)]);
    var dues2 := LaterOk(e1, more, dues1, user);
    ArrivedOk(e2, user, p2, e3);
    assert |After(e2).users[user].past| + 1 == x;
    SlotIn(After(e2), dues2, user, x);
    ServerMeans(es, user, p);
    ServerMeans(e2, user, p2);
    ReadingStays(e1, more);
    ReadingStays(e2, [Typed(user, p2)]);
    OnwardKids(After(e1).k, After(e2).k);
    OnwardKids(After(e2).k, After(e3).k);
    HandedOver(After(es), After(e1), After(e2), After(e3), user, p, p2, x, dues1[user][x].id);
  }

  lemma OnwardKids(k: Proc, k': Proc)
    requires Onward(k, k')
    ensures k.kids <= k'.kids
  {
    hide Keeps;
  }

  /** The delaying piece: its target's slot. */
  lemma SentOff(es: seq<Act>, user: nat, p: Piece, e3: seq<Act>) returns (x: nat, dues1: Dues)
    requires var e1 := es + [Typed(user, p)]; e1 <= e3 && AllProper(e3) && user in After(es).users && EndsNumbered(p.cmds)
    ensures var e1 := es + [Typed(user, p)];
            && AllProper(e1) && WorldOk(After(e1), dues1) && user in After(e1).users && user in dues1 && x in dues1[user]
            && x == |After(es).users[user].past| + 1 + p.cmds[|p.cmds| - 1].n
            && |After(e1).users[user].past| == |After(es).users[user].past| + 1
            && SlotIs(After(e1), user, x, dues1[user][x].id)
  {
    hide After, AllProper, WorldOk, Proper, Step, SlotIs, UserIn, RingBut, Targets;
    var e1 := es + [Typed(user, p)];
    assert e3 == e1 + e3[|e1|..];
    ProperUpTo(e1, e3[|e1|..]);
    LastAct(e1);
    assert e1[..|e1| - 1] == es;
    var dues := AfterOk(es);
    Watched(After(es), dues);
    RingIn(After(es), dues, user);
    StepTyped(After(es), user, p);
    dues1 := AfterOk(e1);
    var past := After(es).users[user].past;
    DelaysIn(past, p);
    x := TargetLine(|past|, p.cmds);
    SentIn(After(e1), dues1, user, past, p);
    SlotIn(After(e1), dues1, user, x);
  }

  lemma RingIn(w: World, dues: Dues, user: nat)
    requires WorldOk(w, dues) && user in w.users
    ensures |w.users[user].shell.ring| == SIZE
  {
    hide SocksOk, PipesOk, Alternate, Sound, Gone, Apart, Targets, Proper, VarsOk, RingBut;
    assert UserIn(w, dues, user);
  }

  lemma DelaysIn(past: seq<Piece>, p: Piece)
    requires Proper(past + [p]) && EndsNumbered(p.cmds)
    ensures Delays(p.cmds)
  {
    hide UShape, NoReuse;
    assert (past + [p])[|past|] == p;
  }

  /** The piece it is sent to: nobody's exit has cut it off. */
  lemma ArrivedOk(e2: seq<Act>, user: nat, p2: Piece, e3: seq<Act>)
    requires e3 == e2 + [Typed(user, p2)] && AllProper(e3) && user in After(e2).users
    ensures AllProper(e2) && |After(e2).users[user].past| + 1 !in After(e2).users[user].cut
  {
    hide After, AllProper, Proper, Step;
    LastAct(e3);
    assert e3[..|e3| - 1] == e2;
  }
}
