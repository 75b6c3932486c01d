/**
 The chat server's tables of users and sockets, and one pass of its select loop, which accepts users
 and executes their lines.
 */
module Registry {
  import opened Kernel
  import opened Sets
  import opened Shell
  import opened UserShell
  import opened UserParser
  import opened World
  import opened WorldRuns
  import opened Independence
  import opened Lines

  /** The first key of a std::map. */
  function Least(s: set<nat>): (x: nat)
    requires s != {}
    ensures x in s && forall y :: y in s ==> x <= y
  {
    LeastExists(s);
    var z :| z in s && forall y :: y in s ==> z <= y;
    z
  }

  lemma LeastExists(s: set<nat>)
    requires s != {}
    ensures exists z :: z in s && forall y :: y in s ==> z <= y
  {
    var a :| a in s;
    LeastFrom(s, a);
  }

  lemma {:induction false} LeastFrom(s: set<nat>, a: nat)
    requires a in s
    ensures exists z :: z in s && forall y :: y in s ==> z <= y
    decreases a
  {
    if b :| b in s && b < a {
      LeastFrom(s, b);
    } else {
      assert forall y :: y in s ==> a <= y;
    }
  }

  /** id is the least positive number not in s. */
  predicate LeastUnused(s: set<nat>, id: nat) {
    1 <= id && id !in s && forall k :: 1 <= k < id ==> k in s
  }

  /** The descriptors below n that are ready, the listening one left out, in order. */
  function ServedBelow(ready: set<int>, listener: int, n: nat): seq<int> {
    if n == 0 then []
    else ServedBelow(ready, listener, n - 1) + if n - 1 in ready && n - 1 != listener then [n - 1] else []
  }

  lemma {:induction false} ServedInOrder(ready: set<int>, listener: int, n: nat)
    ensures var r := ServedBelow(ready, listener, n);
            && (forall fd :: fd in r <==> fd in ready && fd != listener && 0 <= fd < n)
            && (forall i, j :: 0 <= i < j < |r| ==> r[i] < r[j])
  {
    if n > 0 {
      ServedInOrder(ready, listener, n - 1);
      var r := ServedBelow(ready, listener, n - 1);
      assert forall i :: 0 <= i < |r| ==> r[i] in r;
    }
  }

  /** The ready descriptors below n whose line ends the session. */
  ghost function EndedBelow(ready: set<int>, listener: int, quits: int -> bool, n: nat): set<int> {
    if n == 0 then {}
    else EndedBelow(ready, listener, quits, n - 1)
           + if n - 1 in ready && n - 1 != listener && quits(n - 1) then {n - 1} else {}
  }

  /** The ready users whose line ends their session. */
  ghost function Ended(ready: set<int>, listener: int, quits: int -> bool): set<int> {
    set fd | fd in ready && fd != listener && quits(fd)
  }

  lemma {:induction false} EndedIn(ready: set<int>, listener: int, quits: int -> bool, n: nat)
    ensures forall fd :: fd in EndedBelow(ready, listener, quits, n) <==>
              fd in Ended(ready, listener, quits) && 0 <= fd < n
  {
    if n > 0 { EndedIn(ready, listener, quits, n - 1); }
  }

  lemma EndedAll(ready: set<int>, listener: int, quits: int -> bool, n: nat)
    requires forall fd :: fd in ready ==> 0 <= fd < n
    ensures EndedBelow(ready, listener, quits, n) == Ended(ready, listener, quits)
  {
    EndedIn(ready, listener, quits, n);
  }

  /** From table t, those in gone have left and those in came have been added. */
  ghost predicate Moved(t: map<int, nat>, gone: set<int>, came: set<int>, t': map<int, nat>) {
    && t'.Keys == t.Keys - gone + came
    && forall sock :: sock in t' && sock !in came ==> sock in t && t'[sock] == t[sock]
  }

  lemma MovedNot(t: map<int, nat>)
    ensures Moved(t, {}, {}, t)
  {
  }

  lemma MovedOne(t: map<int, nat>, sock: int, id: nat)
    requires sock !in t
    ensures Moved(t, {}, {sock}, t[sock := id])
  {
  }

  lemma MovedBy(t: map<int, nat>, gone: set<int>, came: set<int>, t1: map<int, nat>, out: set<int>)
    requires Moved(t, gone, came, t1) && out !! came
    ensures Moved(t, gone + out, came, t1 - out)
  {
  }

  lemma MovedIn(t: map<int, nat>, gone: set<int>, t1: map<int, nat>, came: set<int>, t2: map<int, nat>)
    requires Moved(t, gone, {}, t1) && Moved(t1, {}, came, t2)
    ensures Moved(t, gone, came, t2)
  {
  }

  lemma MovedSame(t: map<int, nat>, gone: set<int>, came: set<int>, t': map<int, nat>, fd: int)
    requires Moved(t, gone, came, t') && fd in t' && fd !in came
    ensures fd in t && t'[fd] == t[fd]
  {
  }

  /** The descriptors whose lines say exit. */
  function Quits(lines: int -> string): int -> bool {
    fd => UQuits(lines(fd)) > 0
  }

  function Above(s: set<nat>, k: nat): set<nat> {
    set x | x in s && k <= x
  }

  /** The least positive number from k on that s does not have. */
  function FirstUnused(s: set<nat>, k: nat): (id: nat)
    requires 1 <= k && forall j :: 1 <= j < k ==> j in s
    ensures LeastUnused(s, id)
    decreases |Above(s, k)|
  {
    if k !in s then k
    else
      assert Above(s, k + 1) == Above(s, k) - {k};
      FirstUnused(s, k + 1)
  }

  lemma OnlyUnused(s: set<nat>, id: nat)
    requires LeastUnused(s, id)
    ensures id == FirstUnused(s, 1)
  {
  }

  /** The user behind a socket. */
  ghost predicate Behind(w: World, fd: int, u: nat) {
    u in w.users && w.users[u].sock == fd
  }

  ghost function OwnerOf(w: World, fd: int): nat {
    if u: nat :| Behind(w, fd, u) then u else 0
  }

  /** What a ready descriptor leads to: the listener to a new user, a socket to a line of his. */
  ghost function ActsOf(w: World, fd: int, line: string): seq<Act> {
    if fd == Listener then [Join(FirstUnused(w.users.Keys, 1))] else LineActs(OwnerOf(w, fd), line)
  }

  /** What a pass over the ready descriptors below n leads to, one after the other. */
  ghost function PassActs(w: World, ready: set<int>, lines: int -> string, n: nat): seq<Act> {
    if n == 0 then []
    else
      var acts := PassActs(w, ready, lines, n - 1);
      if n - 1 in ready then acts + ActsOf(Does(w, acts), n - 1, lines(n - 1)) else acts
  }

  lemma {:induction false} PassMore(w: World, ready: set<int>, lines: int -> string, m: nat, n: nat)
    requires m <= n
    ensures PassActs(w, ready, lines, m) <= PassActs(w, ready, lines, n)
    ensures (forall fd :: fd in ready ==> fd < m) ==> PassActs(w, ready, lines, m) == PassActs(w, ready, lines, n)
    decreases n - m
  {
    hide ActsOf, Does;
    if m < n { PassMore(w, ready, lines, m, n - 1); }
  }

  /** At every moment of the run every socket the server watches is open, so accept yields another. */
  ghost predicate Undamaged(es: seq<Act>) {
    forall n :: 0 <= n <= |es| ==> SocksLive(After(es[..n]), After(es[..n]).k.fds)
  }

  lemma Watching(es: seq<Act>)
    requires Undamaged(es)
    ensures SocksLive(After(es), After(es).k.fds)
  {
    hide After, SocksLive;
    assert es[..|es|] == es;
  }

  lemma UndamagedUpTo(es: seq<Act>, more: seq<Act>)
    requires Undamaged(es + more)
    ensures Undamaged(es)
  {
    hide After, SocksLive;
    forall n | 0 <= n <= |es|
      ensures SocksLive(After(es[..n]), After(es[..n]).k.fds)
    {
      assert (es + more)[..n] == es[..n];
    }
  }

  /** No proper run closes a socket the server watches. */
  lemma ProperUndamaged(es: seq<Act>)
    requires AllProper(es)
    ensures Undamaged(es)
  {
    hide After, AllProper, WorldOk;
    forall n | 0 <= n <= |es|
      ensures SocksLive(After(es[..n]), After(es[..n]).k.fds)
    {
      assert es == es[..n] + es[n..];
      ProperUpTo(es[..n], es[n..]);
      var dues := AfterOk(es[..n]);
      SocksIn(After(es[..n]), dues);
    }
  }

  lemma StartUndamaged()
    ensures Undamaged([]) && After([]) == NewWorld
  {
    hide DoAll;
    AfterNone();
    StartTable();
  }

  /** What an accepted connection does to the users. */
  lemma JoinStep(w: World, id: nat)
    requires LeastUnused(w.users.Keys, id)
    ensures id !in w.users
    ensures var w' := Step(w, Join(id));
            && w'.users.Keys == w.users.Keys + {id} && w'.users[id].sock == LowestFree(w.k.fds)
            && forall u :: u in w.users ==> w'.users[u] == w.users[u]
  {
    hide NewShell;
  }

  lemma OwnerIs(w: World, t: map<int, nat>, users: map<nat, int>, fd: int)
    requires fd in t && w.users.Keys == users.Keys && forall u :: u in users ==> w.users[u].sock == users[u]
    requires forall u :: u in users ==> users[u] in t && t[users[u]] == u
    requires t[fd] in users && users[t[fd]] == fd
    ensures OwnerOf(w, fd) == t[fd]
  {
    assert Behind(w, fd, t[fd]);
  }

  /** A line adds no user and moves no socket before a removal. */
  lemma LineStep(es: seq<Act>, id: nat, line: string)
    requires id in After(es).users
    ensures var w := After(es); var w' := After(es + (Exits(id, UQuits(line)) + Types(id, UParse(line))));
            w'.users.Keys == w.users.Keys && forall u :: u in w.users ==> w'.users[u].sock == w.users[u].sock
  {
    hide After, UParse, UQuits, Exits, Types, Step;
    RingsStay(es, id);
    var w := After(es);
    ExitsDo(w, id, UQuits(line));
    var w1 := Does(w, Exits(id, UQuits(line)));
    TypesDo(w1, id, UParse(line));
    DoesAll(w, Exits(id, UQuits(line)), Types(id, UParse(line)));
    AfterDoes(es, Exits(id, UQuits(line)) + Types(id, UParse(line)));
  }

  lemma NextActs(es0: seq<Act>, es: seq<Act>, w0: World, w: World, ready: set<int>, lines: int -> string, fd: nat, n: nat)
    requires w0 == After(es0) && w == After(es) && es == es0 + PassActs(w0, ready, lines, fd) && fd in ready && fd < n
    requires Undamaged(es0 + PassActs(w0, ready, lines, n))
    ensures var acts := ActsOf(w, fd, lines(fd));
            Undamaged(es + acts) && es + acts == es0 + PassActs(w0, ready, lines, fd + 1)
  {
    hide After, Undamaged, ActsOf, Does;
    var acts := PassActs(w0, ready, lines, fd);
    AfterDoes(es0, acts);
    PassMore(w0, ready, lines, fd + 1, n);
    var upTo := es0 + PassActs(w0, ready, lines, fd + 1);
    var all := es0 + PassActs(w0, ready, lines, n);
    assert upTo == es + ActsOf(w, fd, lines(fd));
    assert all == upTo + all[|upTo|..];
    UndamagedUpTo(upTo, all[|upTo|..]);
  }

  /** The state of a pass that has come to descriptor fd: t0 is the table at its beginning. */
  ghost predicate Passed(t0: map<int, nat>, ready: set<int>, lines: int -> string, listener: int, fd: nat,
                         served: seq<int>, ids: seq<nat>, accepted: set<int>, t: map<int, nat>) {
    && served == ServedBelow(ready, listener, fd) && |ids| == |served|
    && (forall i :: 0 <= i < |served| ==> served[i] in t0 && ids[i] == t0[served[i]])
    && (accepted == {}) == !(listener in ready && listener < fd)
    && Moved(t0, EndedBelow(ready, listener, Quits(lines), fd), accepted, t)
    && forall a :: a in ready && fd <= a ==> a !in accepted && (a == listener || a in t)
  }

  lemma PassedNone(t0: map<int, nat>, w: World, ready: set<int>, lines: int -> string, listener: int)
    requires 0 <= listener && forall a :: a in ready ==> a == listener || a in t0
    ensures Passed(t0, ready, lines, listener, 0, [], [], {}, t0) && PassActs(w, ready, lines, 0) == []
  {
    hide Quits;
    MovedNot(t0);
  }

  lemma PassedReady(t0: map<int, nat>, ready: set<int>, lines: int -> string, listener: int, fd: nat,
                    served: seq<int>, ids: seq<nat>, accepted: set<int>, t: map<int, nat>)
    requires Passed(t0, ready, lines, listener, fd, served, ids, accepted, t) && fd in ready
    ensures fd == listener || fd in t
  {
    hide Quits, Moved;
  }

  lemma MovedKeys(t: map<int, nat>, came: set<int>, t': map<int, nat>)
    requires Moved(t, {}, came, t')
    ensures t.Keys <= t'.Keys
  {
  }

  lemma OverListener(ready: set<int>, listener: nat, quits: int -> bool)
    ensures EndedBelow(ready, listener, quits, listener + 1) == EndedBelow(ready, listener, quits, listener)
    ensures ServedBelow(ready, listener, listener + 1) == ServedBelow(ready, listener, listener)
  {
    assert EndedBelow(ready, listener, quits, listener) + {} == EndedBelow(ready, listener, quits, listener);
  }

  lemma PassedListen(t0: map<int, nat>, ready: set<int>, lines: int -> string, listener: nat,
                     served: seq<int>, ids: seq<nat>, accepted: set<int>, t: map<int, nat>, arrived: set<int>, t1: map<int, nat>)
    requires Passed(t0, ready, lines, listener, listener, served, ids, accepted, t) && listener in ready
    requires Moved(t, {}, arrived, t1) && arrived != {} && arrived !! {listener} + t.Keys
    ensures Passed(t0, ready, lines, listener, listener + 1, served, ids, arrived, t1)
  {
    hide Quits, Moved, EndedBelow, ServedBelow;
    OverListener(ready, listener, Quits(lines));
    MovedIn(t0, EndedBelow(ready, listener, Quits(lines), listener), t, arrived, t1);
    MovedKeys(t, arrived, t1);
  }

  lemma PassedServe(t0: map<int, nat>, ready: set<int>, lines: int -> string, listener: int, fd: nat,
                    served: seq<int>, ids: seq<nat>, accepted: set<int>, t: map<int, nat>, t1: map<int, nat>)
    requires Passed(t0, ready, lines, listener, fd, served, ids, accepted, t) && fd in ready && fd != listener && fd in t
    requires t1 == t - (if Quits(lines)(fd) then {fd} else {})
    ensures Passed(t0, ready, lines, listener, fd + 1, served + [fd], ids + [t[fd]], accepted, t1)
  {
    hide Quits, Moved;
    var gone := EndedBelow(ready, listener, Quits(lines), fd);
    MovedSame(t0, gone, accepted, t, fd);
    MovedBy(t0, gone, accepted, t, if Quits(lines)(fd) then {fd} else {});
  }

  lemma PassedOver(t0: map<int, nat>, w: World, ready: set<int>, lines: int -> string, listener: int, fd: nat,
                   served: seq<int>, ids: seq<nat>, accepted: set<int>, t: map<int, nat>)
    requires Passed(t0, ready, lines, listener, fd, served, ids, accepted, t) && fd !in ready
    ensures Passed(t0, ready, lines, listener, fd + 1, served, ids, accepted, t)
    ensures PassActs(w, ready, lines, fd + 1) == PassActs(w, ready, lines, fd)
  {
    hide Quits, Moved;
    assert EndedBelow(ready, listener, Quits(lines), fd) + {} == EndedBelow(ready, listener, Quits(lines), fd);
  }

  lemma PassedAll(t0: map<int, nat>, ready: set<int>, lines: int -> string, listener: int, fd: nat,
                  served: seq<int>, ids: seq<nat>, accepted: set<int>, t: map<int, nat>)
    requires Passed(t0, ready, lines, listener, fd, served, ids, accepted, t)
    requires forall a :: a in ready ==> 0 <= a < fd
    ensures forall a :: a in served <==> a in ready && a != listener
    ensures forall i, j :: 0 <= i < j < |served| ==> served[i] < served[j]
    ensures |ids| == |served| && forall i :: 0 <= i < |served| ==> served[i] in t0 && ids[i] == t0[served[i]]
    ensures listener in ready ==> listener < fd
    ensures (accepted == {}) == (listener !in ready)
    ensures Moved(t0, Ended(ready, listener, Quits(lines)), accepted, t)
  {
    hide Quits, Moved;
    ServedInOrder(ready, listener, fd);
    EndedAll(ready, listener, Quits(lines), fd);
  }

  class ChatServer {
    /** The socket of each registered user. */
    var users: map<nat, int>
    /** The user of each registered socket. */
    var sockIDTable: map<int, nat>
    var masterSocks: set<int>
    var maxSocks: int
    const serverSock: int
    /** The process, with the users' shells and the pipes between them, and what has happened. */
    var w: World
    ghost var es: seq<Act>

    /** Sockets, ids and users are in bijection, and the sockets watched are the listening one and
        exactly the registered ones. */
    ghost predicate Valid()
      reads this
    {
      && 0 <= serverSock && serverSock !in sockIDTable && 0 !in users
      && (forall id :: id in users ==> users[id] in sockIDTable && sockIDTable[users[id]] == id)
      && (forall sock :: sock in sockIDTable ==> sockIDTable[sock] in users && users[sockIDTable[sock]] == sock)
      && masterSocks == {serverSock} + sockIDTable.Keys
      && forall sock :: sock in masterSocks ==> 0 <= sock <= maxSocks
    }

    /** The tables are those of the process, and every socket watched is open. */
    ghost predicate InStep()
      reads this
      ensures InStep() ==>
                && Valid() && serverSock == Listener && Undamaged(es) && w == After(es)
                && masterSocks == {serverSock} + sockIDTable.Keys && serverSock !in sockIDTable
                && forall sock :: sock in masterSocks ==> 0 <= sock <= maxSocks
    {
      && Valid() && serverSock == Listener && Undamaged(es) && w == After(es)
      && w.users.Keys == users.Keys && forall u :: u in users ==> w.users[u].sock == users[u]
    }

    constructor ()
      ensures InStep() && es == [] && users == map[] && sockIDTable == map[]
    {
      var listener := Listener;
      StartUndamaged();
      w := NewWorld;
      es := [];
      serverSock := listener;
      users := map[];
      sockIDTable := map[];
      masterSocks := {listener};
      maxSocks := listener;
    }

    /** The search for an id: walks the users in order of their ids until there is a gap. */
    method MinKey() returns (minKey: nat)
      requires 0 !in users
      ensures LeastUnused(users.Keys, minKey)
    {
      minKey := 1;
      var rest := users.Keys;
      while rest != {}
        invariant 1 <= minKey && forall k :: 1 <= k < minKey ==> k in users
        invariant rest == set k | k in users && minKey <= k
        decreases rest
      {
        var id := Least(rest);
        if minKey < id {
          assert minKey !in rest;
          break;
        }
        minKey := minKey + 1;
        rest := rest - {id};
      }
      assert minKey in users ==> minKey in rest;
    }

    /** A connection accepted on sock becomes the user with the least unused id. */
    method AddUser(sock: int) returns (id: nat)
      requires Valid() && 0 <= sock && sock !in masterSocks
      modifies this`users, this`sockIDTable, this`masterSocks, this`maxSocks
      ensures Valid()
      ensures LeastUnused(old(users.Keys), id)
      ensures users == old(users)[id := sock] && sockIDTable == old(sockIDTable)[sock := id]
      ensures masterSocks == old(masterSocks) + {sock}
      ensures old(maxSocks) <= maxSocks
    {
      masterSocks := masterSocks + {sock};
      if sock > maxSocks { maxSocks := sock; }
      id := MinKey();
      sockIDTable := sockIDTable[sock := id];
      users := users[id := sock];
    }

    method RemoveUser(sock: int)
      requires Valid() && sock in sockIDTable
      modifies this`users, this`sockIDTable, this`masterSocks
      ensures Valid()
      ensures users == old(users) - {old(sockIDTable)[sock]} && sockIDTable == old(sockIDTable) - {sock}
      ensures masterSocks == old(masterSocks) - {sock} && maxSocks == old(maxSocks)
    {
      var id := sockIDTable[sock];
      users := users - {id};
      sockIDTable := sockIDTable - {sock};
      masterSocks := masterSocks - {sock};
    }

    /** The line read from fd: the user behind fd executes it, and stays unless it says exit. */
    method RunShellLoop(fd: int, line: string) returns (stays: bool, id: nat)
      requires InStep() && fd in sockIDTable
      modifies this`w, this`es
      ensures id == sockIDTable[fd] && stays == (UQuits(line) == 0)
      ensures es == old(es) + (Exits(id, UQuits(line)) + Types(id, UParse(line))) && w == After(es)
    {
      hide Undamaged, After, Step, UParse, UQuits;
      id := sockIDTable[fd];
      var pieces, quits := ParseCommand(line);
      stays := quits == 0;
      var n := 0;
      while n < quits
        invariant n <= quits && es == old(es) + Exits(id, n) && w == After(es)
      {
        LastAdded(es, Exit(id));
        w := Step(w, Exit(id));
        es := es + [Exit(id)];
        n := n + 1;
      }
      var i := 0;
      while i < |pieces|
        invariant i <= |pieces| && es == old(es) + (Exits(id, quits) + Types(id, pieces[..i])) && w == After(es)
      {
        LastAdded(es, Typed(id, pieces[i]));
        w := Step(w, Typed(id, pieces[i]));
        es := es + [Typed(id, pieces[i])];
        assert pieces[..i + 1][..i] == pieces[..i];
        i := i + 1;
      }
      assert pieces[..i] == pieces;
    }

    /** The user accepted on the least free descriptor. */
    method Accept() returns (clientFd: int)
      requires InStep() && Undamaged(es + [Join(FirstUnused(w.users.Keys, 1))])
      modifies this
      ensures InStep() && es == old(es) + [Join(FirstUnused(old(w).users.Keys, 1))]
      ensures clientFd == LowestFree(old(w).k.fds) && clientFd !in old(masterSocks)
      ensures Moved(old(sockIDTable), {}, {clientFd}, sockIDTable) && old(maxSocks) <= maxSocks
    {
      hide Undamaged, After, LeastUnused, FirstUnused, Step, Moved;
      Watching(es);
      clientFd := LowestFree(w.k.fds);
      MovedOne(sockIDTable, clientFd, FirstUnused(w.users.Keys, 1));
      var id := AddUser(clientFd);
      OnlyUnused(w.users.Keys, id);
      JoinStep(w, id);
      LastAdded(es, Join(id));
      w := Step(w, Join(id));
      es := es + [Join(id)];
    }

    /** A line of the user behind fd, who is removed if it says exit. */
    method ServeUser(fd: int, line: string) returns (id: nat)
      requires InStep() && fd in sockIDTable && Undamaged(es + LineActs(sockIDTable[fd], line))
      modifies this
      ensures InStep() && es == old(es) + LineActs(old(sockIDTable)[fd], line)
      ensures maxSocks == old(maxSocks) && id == old(sockIDTable)[fd]
      ensures sockIDTable == old(sockIDTable) - (if UQuits(line) > 0 then {fd} else {})
    {
      hide Undamaged, After, Step, UQuits, UParse, Exits, Types, Without, Do, LeastUnused, Moved;
      var stays: bool;
      stays, id := RunShellLoop(fd, line);
      LineStep(old(es), id, line);
      if !stays {
        RemoveUser(fd);
        LastAdded(es, Leave(id));
        LeaveOnly(w, id);
        w := Step(w, Leave(id));
        es := es + [Leave(id)];
      }
      assert es == old(es) + LineActs(id, line);
    }

    /** What one ready descriptor leads to: the listening socket to a new user, any other to a
        line of the user behind it, who is registered, and to his removal if the line says exit. */
    method Dispatch(fd: int, lines: int -> string) returns (accepted: set<int>, ids: seq<nat>)
      requires InStep() && fd in masterSocks && Undamaged(es + ActsOf(w, fd, lines(fd)))
      modifies this
      ensures InStep() && es == old(es) + ActsOf(old(w), fd, lines(fd)) && old(maxSocks) <= maxSocks
      ensures fd == serverSock ==> accepted != {} && accepted !! old(masterSocks) && ids == []
      ensures fd == serverSock ==> Moved(old(sockIDTable), {}, accepted, sockIDTable)
      ensures fd != serverSock ==> accepted == {} && maxSocks == old(maxSocks)
      ensures fd != serverSock ==> fd in old(sockIDTable) && ids == [old(sockIDTable)[fd]]
      ensures fd != serverSock ==> sockIDTable == old(sockIDTable) - (if Quits(lines)(fd) then {fd} else {})
    {
      hide Undamaged, After, LineActs, Moved, UQuits, OwnerOf;
      accepted, ids := {}, [];
      if fd == serverSock {
        var clientFd := Accept();
        accepted := {clientFd};
      } else {
        OwnerIs(w, sockIDTable, users, fd);
        var id := ServeUser(fd, lines(fd));
        ids := [id];
      }
    }

    /** One pass over the ready descriptors, if no exit in it closes a socket that is watched: every ready descriptor but the
        listening one is served, in order and once, each for the user who was behind it when the
        pass began; his line is executed; afterwards exactly the users whose line said exit are
        gone, the one accepted in the pass is there, and the tables are those of the process. */
    method Pass(ready: set<int>, lines: int -> string) returns (served: seq<int>, ids: seq<nat>, accepted: set<int>)
      requires InStep() && ready <= masterSocks && Undamaged(es + PassActs(w, ready, lines, maxSocks + 1))
      modifies this
      ensures InStep() && es == old(es) + PassActs(old(w), ready, lines, old(maxSocks) + 1)
      ensures forall fd :: fd in served <==> fd in ready && fd != serverSock
      ensures forall i, j :: 0 <= i < j < |served| ==> served[i] < served[j]
      ensures |ids| == |served|
      ensures forall i :: 0 <= i < |served| ==> served[i] in old(sockIDTable) && ids[i] == old(sockIDTable)[served[i]]
      ensures (accepted == {}) == (serverSock !in ready)
      ensures Moved(old(sockIDTable), Ended(ready, serverSock, Quits(lines)), accepted, sockIDTable)
    {
      hide Undamaged, After, ActsOf, Does, InStep, Valid, Passed, PassActs, Ended, Moved, Quits, LeastUnused, ServedBelow;
      served, ids, accepted := [], [], {};
      PassedNone(sockIDTable, w, ready, lines, serverSock);
      var fd := 0;
      while fd <= maxSocks
        invariant InStep() && 0 <= fd && old(maxSocks) <= maxSocks
        invariant es == old(es) + PassActs(old(w), ready, lines, fd)
        invariant Passed(old(sockIDTable), ready, lines, serverSock, fd, served, ids, accepted, sockIDTable)
        decreases if fd <= serverSock then 1 else 0, maxSocks - fd
      {
        ghost var before := sockIDTable;
        if fd in ready {
          NextActs(old(es), es, old(w), w, ready, lines, fd, old(maxSocks) + 1);
          PassedReady(old(sockIDTable), ready, lines, serverSock, fd, served, ids, accepted, before);
          var arrived, more := Dispatch(fd, lines);
          if fd == serverSock {
            PassedListen(old(sockIDTable), ready, lines, serverSock, served, ids, accepted, before, arrived, sockIDTable);
            accepted := arrived;
          } else {
            PassedServe(old(sockIDTable), ready, lines, serverSock, fd, served, ids, accepted, before, sockIDTable);
            served := served + [fd];
            ids := ids + more;
          }
        } else {
          PassedOver(old(sockIDTable), old(w), ready, lines, serverSock, fd, served, ids, accepted, sockIDTable);
        }
        fd := fd + 1;
      }
      PassMore(old(w), ready, lines, old(maxSocks) + 1, fd);
      PassedAll(old(sockIDTable), ready, lines, serverSock, fd, served, ids, accepted, sockIDTable);
    }
  }

  /** The numbers from 1 to n. */
  function UpTo(n: nat): set<nat> {
    if n == 0 then {} else UpTo(n - 1) + {n}
  }

  lemma {:induction false} UpToIs(n: nat)
    ensures |UpTo(n)| == n && forall k :: k in UpTo(n) <==> 1 <= k <= n
  {
    if n > 0 { UpToIs(n - 1); }
  }

  /** The ids given out stay within the number of users. */
  lemma LeastUnusedSmall(s: set<nat>, id: nat)
    requires LeastUnused(s, id)
    ensures id <= |s| + 1
  {
    UpToIs(id - 1);
    SubsetSize(UpTo(id - 1), s);
  }

  /** An id fits into the users' arrays of user pipes exactly if not all thirty smaller ids are in
      use; the guard that looks the user up only asks for uid <= MAX_CONN. */
  lemma IdFits(s: set<nat>, id: nat)
    requires LeastUnused(s, id)
    ensures id < MAX_CONN <==> !(UpTo(MAX_CONN - 1) <= s)
  {
    UpToIs(MAX_CONN - 1);
    var top := UpTo(MAX_CONN - 1);
    assert id in top <==> id < MAX_CONN;
    if id !in top {
      assert forall k :: k in top ==> 1 <= k < id;
    }
  }

  /** The thirty-first user gets the id just past the arrays, and the guard lets it through. */
  lemma ThirtyFirst()
    ensures LeastUnused(UpTo(30), 31) && Exists(UpTo(30) + {31}, 31) && !(31 < MAX_CONN)
  {
    UpToIs(30);
  }
}
