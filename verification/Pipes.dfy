/**
 The pipe variables of the shell and the two redirections a forked stage performs.
 A pipe variable is a pair of descriptor numbers, copied by assignment; -1 is "none".
 */
module Pipes {
  import opened Kernel

  datatype Ends = Ends(rd: int, wr: int)

  const NoEnds := Ends(-1, -1)

  /** The descriptor numbers a pipe variable names. */
  function Keys(p: Ends): set<int> {
    (if p.rd != -1 then {p.rd} else {}) + (if p.wr != -1 then {p.wr} else {})
  }

  function CloseOps(p: Ends): seq<Op> {
    (if p.rd != -1 then [Close(p.rd)] else []) + (if p.wr != -1 then [Close(p.wr)] else [])
  }

  function ReadOps(p: Ends): seq<Op> {
    [Dup2(p.rd, 0)] + CloseOps(p)
  }

  function WriteOps(p: Ends, err: bool): seq<Op> {
    [Dup2(p.wr, 1)] + (if err then [Dup2(p.wr, 2)] else []) + CloseOps(p)
  }

  /** What a forked stage does before its program runs: prevPipe.read, currPipe.write, exec. */
  function ChildProgram(prev: Ends, curr: Ends, err: bool, argv: seq<string>): seq<Op> {
    ReadOps(prev) + WriteOps(curr, err) + [Exec(argv)]
  }

  function StdinOf(t: Table, prev: Ends): Obj
    requires 0 in t
  {
    if prev.rd in t then t[prev.rd].obj else t[0].obj
  }

  /** The object standard output (number 1) or standard error (number 2) ends up with: the
      write end of curr, unless reading prev has already closed that number. */
  function OutputOf(t: Table, prev: Ends, curr: Ends, std: int): Obj
    requires std in t
  {
    if curr.wr in t && curr.wr !in Keys(prev) then t[curr.wr].obj else t[std].obj
  }

  ghost predicate StdOpen(t: Table) {
    && 0 in t && 1 in t && 2 in t
    && !t[0].cloexec && !t[1].cloexec && !t[2].cloexec
    && forall fd :: fd in t ==> 0 <= fd
  }

  /** Pipe variables never name the three standard descriptors. */
  predicate Above(p: Ends) {
    (p.rd == -1 || 3 <= p.rd) && (p.wr == -1 || 3 <= p.wr)
  }

  /** The descriptors a stage's program starts with, given the table at fork time. */
  ghost function ExecTable(t: Table, prev: Ends, curr: Ends, err: bool): Table
    requires StdOpen(t)
  {
    map fd | fd in t && (fd < 3 || (!t[fd].cloexec && fd !in Keys(prev) + Keys(curr))) ::
      if fd == 0 then Entry(StdinOf(t, prev), false)
      else if fd == 1 then Entry(OutputOf(t, prev, curr, 1), false)
      else if fd == 2 && err then Entry(OutputOf(t, prev, curr, 2), false)
      else t[fd]
  }

  lemma CloseTable(t: Table, p: Ends)
    ensures ApplyAll(t, CloseOps(p)) == t - Keys(p)
  {
    var t1 := if p.rd != -1 then t - {p.rd} else t;
    assert ApplyAll(t, if p.rd != -1 then [Close(p.rd)] else []) == t1;
    assert ApplyAll(t1, if p.wr != -1 then [Close(p.wr)] else []) == t - Keys(p);
    ApplyAllConcat(t, if p.rd != -1 then [Close(p.rd)] else [], if p.wr != -1 then [Close(p.wr)] else []);
  }

  lemma ReadTable(t: Table, p: Ends)
    ensures ApplyAll(t, ReadOps(p)) == Apply(t, Dup2(p.rd, 0)) - Keys(p)
  {
    CloseTable(Apply(t, Dup2(p.rd, 0)), p);
    assert ReadOps(p)[1..] == CloseOps(p);
  }

  function Redirect(t: Table, p: Ends, err: bool): Table {
    var t1 := Apply(t, Dup2(p.wr, 1));
    if err then Apply(t1, Dup2(p.wr, 2)) else t1
  }

  lemma WriteTable(t: Table, p: Ends, err: bool)
    ensures ApplyAll(t, WriteOps(p, err)) == Redirect(t, p, err) - Keys(p)
  {
    var rest := (if err then [Dup2(p.wr, 2)] else []) + CloseOps(p);
    assert WriteOps(p, err)[0] == Dup2(p.wr, 1) && WriteOps(p, err)[1..] == rest;
    if err {
      assert rest[0] == Dup2(p.wr, 2) && rest[1..] == CloseOps(p);
    } else {
      assert rest == CloseOps(p);
    }
    CloseTable(Redirect(t, p, err), p);
  }

  lemma ProgramTable(t: Table, prev: Ends, curr: Ends, err: bool, argv: seq<string>)
    ensures View(Child(t, ChildProgram(prev, curr, err, argv)))
         == Apply(Redirect(Apply(t, Dup2(prev.rd, 0)) - Keys(prev), curr, err) - Keys(curr), Exec(argv))
  {
    ApplyAllConcat(t, ReadOps(prev), WriteOps(curr, err));
    ApplyAllConcat(t, ReadOps(prev) + WriteOps(curr, err), [Exec(argv)]);
    ReadTable(t, prev);
    var t1 := ApplyAll(t, ReadOps(prev));
    WriteTable(t1, curr, err);
    var t2 := ApplyAll(t1, WriteOps(curr, err));
    assert [Exec(argv)][1..] == [];
    assert ApplyAll(t2, [Exec(argv)]) == Apply(t2, Exec(argv));
  }

  /** Reading prev: standard input is redirected, prev's numbers are closed. */
  lemma AfterRead(t: Table, prev: Ends)
    requires StdOpen(t) && Above(prev)
    ensures var t2 := Apply(t, Dup2(prev.rd, 0)) - Keys(prev);
            && StdOpen(t2) && t2[0] == Entry(StdinOf(t, prev), false) && t2[1] == t[1] && t2[2] == t[2]
            && forall fd :: 3 <= fd ==> (fd in t2 <==> fd in t && fd !in Keys(prev)) && (fd in t2 ==> t2[fd] == t[fd])
  {
  }

  /** Writing curr: standard output, and standard error if asked, are redirected. */
  lemma AfterWrite(t: Table, curr: Ends, err: bool)
    requires StdOpen(t) && Above(curr)
    ensures var t3 := Redirect(t, curr, err);
            && StdOpen(t3) && t3[0] == t[0]
            && t3[1].obj == (if curr.wr in t then t[curr.wr].obj else t[1].obj)
            && t3[2].obj == (if err && curr.wr in t then t[curr.wr].obj else t[2].obj)
            && forall fd :: 3 <= fd ==> (fd in t3 <==> fd in t) && (fd in t3 ==> t3[fd] == t[fd])
  {
  }

  /** Whatever the two pipe variables alias, the program of a forked stage starts with exactly
      the descriptors of ExecTable. */
  lemma ChildView(t: Table, prev: Ends, curr: Ends, err: bool, argv: seq<string>)
    requires StdOpen(t) && Above(prev) && Above(curr)
    ensures View(Child(t, ChildProgram(prev, curr, err, argv))) == ExecTable(t, prev, curr, err)
  {
    ProgramTable(t, prev, curr, err, argv);
    AfterRead(t, prev);
    var t2 := Apply(t, Dup2(prev.rd, 0)) - Keys(prev);
    AfterWrite(t2, curr, err);
    var t3 := Redirect(t2, curr, err);
    hide View, ChildProgram, Redirect;
    assert Apply(t3 - Keys(curr), Exec(argv)) == ExecTable(t, prev, curr, err);
  }
}
