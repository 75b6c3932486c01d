# Verification of the network programming shells, server and proxies

A Dafny model of the parts of the repository whose correctness is not visible from any one
function, with proofs over every input, every run and every interleaving.

**The shell of project 1** (`312552017_np_project1/shell`). `Kernel` is a small kernel:
descriptor tables with lowest-free allocation, pipe ends with identities, close-on-exec, fork,
exec, dup2 and close. `Pipes` and `Shell` are the executor as a function on values, one `Machine`
being the process together with the three pipe variables, the ring of delayed pipes and the pid
window. `CmdHandling` has the program's own classes and loops (`Pipe`, `CircularBuffer`,
`CmdHandler`), each method proved to do what those functions say. On top of them:

- `Ownership`, `Stages`, `Pieces`, `PieceRuns`: which descriptors belong to which pipe variable
  while a piece is executed, though the variables alias each other all the time;
- `Runs`, `Accounts`, `DelayRing`, `StaleRead`: the ring against the unbounded map from lines to pipes, exactly
  when the two agree, and the exact number of open descriptors;
- `Wiring`, `PieceWiring`, `RunWiring`, `Programs`, `Meaning`: who runs what and reads from whom, for
  every program of every run;
- `Reaping`, `History`, `Schedule`, `Liveness`, `Fairness`, `Concurrent`: the shell and its children running
  concurrently; the barrier, and progress by a measure on the order of forks;
- `Text`, `Parser`, `RoundTrip`, `Builtins`: splitting lines into pieces.

**The single-process server of project 2** (`312552017_np_project2`). `Registry` has the tables of
users and sockets and a pass of the select loop, which accepts users and executes their lines on
`World`. `UserShell` and `UserHandling` are the per-user
executor with pipes from user to user, `UserPipes`, `UserStages`, `UserPieces` and `UserBoxes`
what one piece does, `UserVars` what it leaves in the pipe variables, `UserWiring` and
`ServerWiring` who writes and who reads the pipes between users. `World` and `WorldRuns` have
any number of users joining on sockets, typing, exiting and leaving, `Lines` says that this is what whole lines
amount to, and `Independence` and `ServerProgress` what follows from it: user pipes alternate, users
do not interfere with each other's delayed pipes, and no wait blocks the server for good.
`UserMeaning`, `ServerMeaning` and `Delivery` write out what every piece of every user does.
`StaleExit` has runs on which an exit does interfere. `UserParser` and `UserBuiltins` are the
server's version of the parser.

**Translations of projects 3 and 4.** `Replacing` and `Firewall`: wildcard rules rewritten to
regular expressions, and what they then mean. `Socks`: SOCKS4 and SOCKS4A requests, as the
protocols "SOCKS: A protocol for TCP proxy across firewalls" (section CONNECT) and "SOCKS 4A: A
Simple Extension to SOCKS 4 Protocol" describe them, from the CGI server's bytes to the SOCKS
server's reading of them; `Requests`: from those bytes and the rules to the answer. `Query`: the
two parsers of the console's query string. `Escape`: the two escapers.

## What runs are assumed to look like

- Delays behind a `|` or `!` are at least 1, and no slot of the ring is used for two different
  lines (`Accounts.NoReuse`). Without the second assumption the ring is not a delay line:
  `DelayRing.StalePipe` is a run that shows it, `DelayRing.GetExact` and `DelayRing.NextPipeExact`
  say exactly when it still is one; it holds while all lines are at most 1024
  (`Accounts.ShortRuns`). The reaping results need neither.
- In project 2 the same is asked of every user's own pieces, and a positive id behind `>`; users
  have ids from 1 to 30; and every exit is clear: no unread user pipe, no slot another user's later
  line awaits and no socket has a number the leaver's pipe variables name at that moment. A piece
  behind an exit that has closed a delayed pipe of the same user does not come to that pipe's slot
  (`World.Allowed`, `World.Spared`).
- For progress, pipes hold any amount of data and a program ends once its input has ended; with
  bounded pipes the wait two stages back can block the shell.

## What turned out not to hold as one would expect

- A user's exit can close another user's pipe: `eol` keeps its two numbers after they have been
  closed, the process gives them to somebody else's pipe, and the word `exit` closes them again.
  It can even close the socket of a user who has joined since. `StaleExit.ExitCloses` and
  `StaleExit.ExitClosesSocket` are such runs; `WorldRuns.ExitExact` says exactly when it does not
  happen.
- An exit can close the pipe its own line is to read (`StaleExit.CutSlot`); `WorldRuns.SparedExact`
  says exactly which pieces that concerns.
- The order of the firewall's rules matters (`Firewall.ParenFirst`), exactly when a rule that
  matches comes together with one whose pattern the library refuses (`Firewall.OrderExact`).
- The guard on user ids lets id 31 through, one past the arrays of user pipes
  (`Registry.ThirtyFirst`); the exact condition is `Registry.IdFits`.
- A delay or an id past the range of `int` is read as another one (`Text.AtoiWraps`); `Text.AtoiItoa`
  is exact.
- A consumed ring slot is never emptied (`DelayRing.StalePipe`), so that a program can read a pipe
  nobody meant for it (`StaleRead.StaleChild`); the exact condition is `DelayRing.NextPipeExact`.
- A piece that does not end in a numbered pipe leaves its two `eol` descriptors open for good
  (`Accounts.OpenCount` counts them).
- The user ids of `<n` and `>n` outlive the piece they are written in: after `cat <2 |1 ls` the
  second piece reads from user 2 as well (`UserParser.CarriedId`); the exact condition is
  `UserParser.UParseExact`.
- The request the CGI server writes for an address from 0.0.0.1 to 0.0.0.255 is read as one for a
  domain name (`Socks.ProxyRead`).
- `printEscape` can only be undone on ASCII text (`Escape.ReadExact`); the splitting query parser
  stays within its tokens only if they come in threes (`Query.ServersShort`).

## Model

| member | source | states |
|---|---|---|
| `RunWiring.WiringOk` | 312552017_np_project1/shell/cmdHandler.cpp:25-86 | over every sequence of pieces without slot reuse: there is one child per program; the first program of a piece reads a pipe whose writers are exactly the last programs of the earlier pieces that delay their output to its line (or the terminal if there are none), every other program reads the pipe written by exactly its left neighbour; outputs and error outputs go where the connector behind says; no other descriptor survives exec |
| `Meaning.OutputMeans` | 312552017_np_project1/shell/cmdHandler.cpp:40-71 | the same written out command by command: stage j of piece k runs the arguments written there; its output is the terminal, the file behind `>` or a pipe, its errors go with it behind `!n` only, and it has no fourth descriptor |
| `Meaning.InputMeans` | 312552017_np_project1/shell/cmdHandler.cpp:26-66 | behind a `\|` it reads the pipe its left neighbour alone writes, behind a file the terminal; the first stage reads the pipe written by exactly the last programs of the pieces that end in `\|n` or `!n` n pieces before, alone, or the terminal if there are none |
| `Programs.RunArgv` | 312552017_np_project1/shell/cmdHandler.cpp:40-66 | in every run, whatever its lines, the j-th child of the k-th piece runs the arguments of its j-th program, and a piece's children come behind those of all pieces before it |
| `Pipes.ChildView` | 312552017_np_project1/shell/pipe.cpp:46-55 | whatever descriptors the two pipe variables name and share, the program of a forked stage starts with exactly the table computed from the table at the fork; in particular the last program keeps the shell's output when its current pipe aliases the previous one |
| `Stages.SpawnView` | 312552017_np_project1/shell/cmdHandler.cpp:58-66 | a stage's child reads what prevPipe reads, writes what currPipe writes unless reading prevPipe has closed that number, and never holds the write end of its own input |
| `Stages.StageOk` | 312552017_np_project1/shell/cmdHandler.cpp:44-71 | one turn of the loop over the programs keeps the ownership invariant: outside prevPipe and currPipe the table is unchanged, and no end of an earlier child's input is left in it |
| `Pieces.StagesOk` | 312552017_np_project1/shell/cmdHandler.cpp:40-71 | the invariants hold after any number of stages, and exactly that many children have been forked |
| `Pieces.FinishPlain` | 312552017_np_project1/shell/cmdHandler.cpp:73-79 | after a piece without a numbered pipe, waiting for the last child and closing the aliased currPipe a second time restores exactly the table outside the piece's own pipes |
| `Pieces.FinishNumbered` | 312552017_np_project1/shell/cmdHandler.cpp:73-82 | after a piece ending in a numbered pipe the barrier pipe is drained with no write end in the shell or in any program, and is gone from the table |
| `PieceRuns.PlainPiece` | 312552017_np_project1/shell/cmdHandler.cpp:26-79 | the whole effect of such a piece on descriptors, ring, children and pid window |
| `PieceRuns.NumberedPiece` | 312552017_np_project1/shell/cmdHandler.cpp:26-82 | the whole effect of a piece ending in a numbered pipe, with its target slot empty or already filled by an earlier piece |
| `Runs.FrontDue` | 312552017_np_project1/shell/util.hpp:13-18 | while no slot is used for two lines, the front of the ring is the pipe of the next line, or empty if nothing was sent to it |
| `Runs.TargetDue` | 312552017_np_project1/shell/cmdType.cpp:31-37 | likewise the slot n lines ahead holds the pipe of exactly that line, disjoint from the pipe due now |
| `Accounts.RunOk` | 312552017_np_project1/shell/cmdHandler.cpp:25-86 | over every run without slot reuse the ring is the map from target lines to pipes folded onto its slots, and the map is defined on exactly the lines targeted so far |
| `Accounts.OpenCount` | 312552017_np_project1/shell/cmdHandler.cpp:25-86 | exact accounting: open descriptors == 3 + 2 * (distinct pending target lines) + 2 * (pieces so far not ending in a numbered pipe) |
| `Accounts.Undisturbed` | 312552017_np_project1/shell/cmdHandler.cpp:44-82 | executing a piece leaves every descriptor the shell already had as it was, except the two ends of the pipe due for it; no close hits a descriptor of another pipe |
| `Accounts.SharedSlot` | 312552017_np_project1/shell/util.hpp:9-14 | two lines share a slot exactly if they are a multiple of 1024 lines apart |
| `Accounts.ShortRuns` | 312552017_np_project1/shell/util.hpp:9-14 | while all lines and all lines they send to are at most 1024, no slot is used for two of them |
| `Accounts.LongRuns` | 312552017_np_project1/shell/util.hpp:9-14 | a run that goes on 1024 lines past a line something was sent to does use a slot twice |
| `Reaping.ReapingOk` | 312552017_np_project1/shell/cmdHandler.cpp:58-79 | over every run whatsoever: before each fork all children but the two most recent have been waited for, and a piece not ending in a numbered pipe waits for its last child |
| `History.RunCoherent` | 312552017_np_project1/shell/cmdHandler.cpp:25-86 | the recorded operations of a run form one sequence: each is issued on the table the one before left, and every child comes from one recorded fork |
| `Schedule.NextKeeps` | 312552017_np_project1/shell/cmdHandler.cpp:58-82 | every step of the shell or of any child, in any order, keeps the invariant tying waits to exits and the barrier's write ends to children before exec |
| `Schedule.Always` | 312552017_np_project1/shell/cmdHandler.cpp:58-82 | that invariant holds at every moment of every interleaving |
| `Liveness.LeastObliged` | 312552017_np_project1/shell/cmdHandler.cpp:58-79 | whenever the shell waits, the least child not yet finished is held up by nobody: neither the shell nor any child holds a write end of its input |
| `Liveness.WaitReturns` | 312552017_np_project1/shell/cmdHandler.cpp:68-78 | in every fair interleaving a wait the shell blocks in returns |
| `Liveness.DrainReturns` | 312552017_np_project1/shell/pipe.cpp:66-71 | in every fair interleaving reading eol to its end returns |
| `Liveness.Finishes` | 312552017_np_project1/shell/cmdHandler.cpp:25-86 | in every fair interleaving the shell gets through any history that meets the ownership conditions |
| `Concurrent.PromptReturns` | 312552017_np_project1/shell/cmdHandler.cpp:25-86 | over every run without slot reuse and every fair interleaving the shell comes to its next prompt |
| `Fairness.FairExists` | 312552017_np_project1/shell/cmdHandler.cpp:58-82 | for every coherent history there is a fair interleaving: the eager scheduler, which comes to rest |
| `Concurrent.PromptReached` | 312552017_np_project1/shell/cmdHandler.cpp:25-86 | in that interleaving the shell does come to its next prompt, so the progress results are not empty |
| `Concurrent.ExecBarrier` | 312552017_np_project1/shell/cmdHandler.cpp:77-82 | in every interleaving, when the shell is past a piece ending in a numbered pipe, every child forked for it has exec'd or exited |
| `Concurrent.ReapedAtFork` | 312552017_np_project1/shell/cmdHandler.cpp:58-70 | in every interleaving, whenever the shell is about to fork, all children but the two most recent have exited |
| `Concurrent.LastExited` | 312552017_np_project1/shell/cmdHandler.cpp:77-79 | a piece not ending in a numbered pipe is over only when its last program has exited |
| `DelayRing.PlayMirrors` | 312552017_np_project1/shell/util.hpp:9-24 | after any sequence of next and set each slot holds the item put for the latest line that uses it |
| `DelayRing.GetExact` | 312552017_np_project1/shell/util.hpp:12-18 | get(d) yields the delay map's entry for d lines ahead if and only if that line has an entry or no other line with an entry shares its slot |
| `DelayRing.NextPipeExact` | 312552017_np_project1/shell/cmdHandler.cpp:28-30 | with no reuse so far, the next piece starts with the pipe of its own line if and only if no other targeted line shares the slot of that line |
| `DelayRing.StalePipe` | 312552017_np_project1/shell/util.hpp:14-18 | a consumed slot is never emptied: a concrete run after which a line nothing was sent to starts with the numbers of a pipe closed long ago |
| `StaleRead.StaleChild` | 312552017_np_project1/shell/cmdHandler.cpp:28-62 | what that does: in the same run the program of that line reads a pipe, the barrier pipe of the third line, instead of the terminal |
| `CmdHandling.Pipe.Create` | 312552017_np_project1/shell/pipe.cpp:11-16 | the variable names the two lowest free descriptors, now the ends of a new close-on-exec pipe |
| `CmdHandling.Pipe.OpenFile` | 312552017_np_project1/shell/pipe.cpp:18-36 | to write or append, the variable has only an output, the lowest free descriptor; to read, only an input; any other mode changes nothing |
| `CmdHandling.Pipe.ClosePipe` | 312552017_np_project1/shell/pipe.cpp:40-44 | closes the numbers that are not -1, in order, and empties the variable |
| `CmdHandling.Pipe.Read` | 312552017_np_project1/shell/pipe.cpp:46-49 | the process's table is that of the redirection of standard input followed by the closes |
| `CmdHandling.Pipe.Write` | 312552017_np_project1/shell/pipe.cpp:51-55 | likewise for standard output and, if asked, standard error |
| `CmdHandling.Pipe.ReadEOF` | 312552017_np_project1/shell/pipe.cpp:66-71 | closes the write end, drains, closes the read end; the variable keeps its numbers |
| `CmdHandling.StageRedirects` | 312552017_np_project1/shell/cmdHandler.cpp:59-66 | the two redirections and exec, executed in place on a copy of the process, leave exactly the table of ExecTable |
| `CmdHandling.CircularBuffer.Set` | 312552017_np_project1/shell/util.hpp:12 | writes the slot n ahead of the head and no other |
| `CmdHandling.CmdHandler.CreatePipe` | 312552017_np_project1/shell/cmdType.cpp:22-37 | the createPipe of each connector, on the objects, equals Connect: a numbered connector reuses the pipe its slot has or puts a new one there |
| `CmdHandling.CmdHandler.Launch` | 312552017_np_project1/shell/cmdHandler.cpp:58-70 | fork, the wait two stages back, and the shift of the pid window equal Spawn |
| `CmdHandling.CmdHandler.RunStage` | 312552017_np_project1/shell/cmdHandler.cpp:42-71 | the body of the loop equals Stage, and nextCommand is always a connector |
| `CmdHandling.CmdHandler.RunCommands` | 312552017_np_project1/shell/cmdHandler.cpp:26-85 | one piece, with its loop, equals RunPiece |
| `CmdHandling.CmdHandler.ParseCommand` | 312552017_np_project1/shell/cmdHandler.cpp:93-158 | the token loop computes Parse, closes the pipe variables and stops the shell once per exit |
| `CmdHandling.CmdHandler.RunShell` | 312552017_np_project1/shell/cmdHandler.cpp:14-91 | a typed line takes the machine to RunFrom of its parsed pieces, from the state its exits leave |
| `Parser.ParseShape` | 312552017_np_project1/shell/cmdHandler.cpp:93-158 | for every line whatsoever: programs and connectors alternate, a numbered connector is only ever last in its piece, every piece but the last ends in one; so the casts of the executor succeed |
| `RoundTrip.ParsePrint` | 312552017_np_project1/shell/cmdHandler.cpp:93-158 | printing any well-formed sequence of pieces as a line and parsing it gives back the same pieces |
| `Builtins.SameWords` | 312552017_np_project1/shell/cmdHandler.cpp:98-100 | of a line only its words matter |
| `Builtins.ExitRemoved` | 312552017_np_project1/shell/cmdHandler.cpp:101-105 | `exit` anywhere in a line, but behind a word that takes it for an argument, counts as one exit more and leaves the pieces as they are without it |
| `Builtins.PrintenvRemoved` | 312552017_np_project1/shell/cmdHandler.cpp:107-112 | `printenv` and the word behind it, whatever it is, leave pieces and exits as they are without them |
| `Builtins.SetenvRemoved` | 312552017_np_project1/shell/cmdHandler.cpp:113-119 | so do `setenv` and the two words behind it |
| `Builtins.EndRemoved` | 312552017_np_project1/shell/cmdHandler.cpp:107-119 | at the end of a line their words may be missing |
| `Builtins.ExitsCounted` | 312552017_np_project1/shell/cmdHandler.cpp:101-105 | a list of words without words that take arguments exits as often as `exit` is in it, and has the pieces of the list without `exit` |
| `Builtins.NoExit` | 312552017_np_project1/shell/cmdHandler.cpp:101-105 | a line without the word `exit` does not end the shell |
| `Builtins.AnyNumber` | 312552017_np_project1/shell/cmdHandler.cpp:130-138 | the number of a `\|n` or `!n` is what atoi makes of the rest of the word, whatever it is |
| `Builtins.NoFileName` | 312552017_np_project1/shell/cmdHandler.cpp:125-129 | a `>` at the end of a line writes to the file with the empty name |
| `Builtins.Symbols` | 312552017_np_project1/shell/cmdHandler.cpp:122-156 | arguments, `\|`, arguments, `>` and a file, arguments, `\|n` or `!n`, arguments: read as exactly these commands in this order, the number ending the piece |
| `Text.WordsJoin` | 312552017_np_project1/shell/cmdHandler.cpp:98-100 | extracting words from words joined by blanks gives back the words |
| `Text.WordsSplit` | 312552017_np_project1/shell/cmdHandler.cpp:98-100 | a line falls into words at blanks, tabs, line feeds, carriage returns, vertical tabs and form feeds, any number of them, and nowhere else |
| `Text.WordsAre` | 312552017_np_project1/shell/cmdHandler.cpp:98-100 | no word is empty or has one of these characters in it |
| `Text.NumberMeans` | 312552017_np_project1/shell/cmdHandler.cpp:131 | the number a text starts with: blanks, a sign, then digits counting tens; what follows does not matter |
| `Text.AtoiCuts` | 312552017_np_project1/shell/cmdHandler.cpp:131 | atoi is that number if it is an int; its last 32 bits if it fits into 64; -1 or 0 beyond |
| `Text.AtoiItoa` | 312552017_np_project1/shell/cmdHandler.cpp:131 | atoi of a printed number is the number if and only if it is an int |
| `Text.AtoiWraps` | 312552017_np_project1/shell/cmdHandler.cpp:131 | 2147483648 is read as the least int |
| `Registry.ChatServer.MinKey` | 312552017_np_project2/server/chatServer.cpp:140-151 | the walk over the sorted users finds the least unused positive id |
| `Registry.LeastUnusedSmall` | 312552017_np_project2/server/chatServer.cpp:140-152 | the id is at most one more than the number of users |
| `Registry.IdFits` | 312552017_np_project2/server/chatServer.cpp:140-152 | an id lies within the arrays of user pipes, which have 31 entries from 0, if and only if not all of 1 to 30 are in use |
| `Registry.ThirtyFirst` | 312552017_np_project2/server/chatServer.cpp:450-454 | the thirty-first user gets id 31, which the guard accepts and which lies past the arrays |
| `Registry.ChatServer.AddUser` | 312552017_np_project2/server/chatServer.cpp:138-177 | adds one user under the least unused id and keeps sockets, ids and users in bijection and the watched sockets equal to the listener and the registered ones |
| `Registry.ChatServer.RemoveUser` | 312552017_np_project2/server/chatServer.cpp:179-203 | removes exactly one user and his socket and keeps the same |
| `Registry.ChatServer.RunShellLoop` | 312552017_np_project2/server/chatServer.cpp:490-512 | the line is executed for the user registered behind the socket: exits and pieces, one after the other, take the process, his shell and the user pipes to the state they lead to; he stays exactly if it has no exit |
| `Registry.ChatServer.Accept` | 312552017_np_project2/np_single_proc.cpp:80-91 | the connection gets the least free descriptor, which is none that is watched, and the least unused id; the tables stay those of the process |
| `Registry.ChatServer.ServeUser` | 312552017_np_project2/np_single_proc.cpp:92-98 | the line is executed, and if it says exit the user is removed and his socket closed; the tables stay those of the process |
| `Registry.ChatServer.Dispatch` | 312552017_np_project2/np_single_proc.cpp:77-99 | every watched ready descriptor leads to an accept or to a line of a registered user and his removal exactly if it says exit; what has happened is ActsOf, and the tables stay those of the process |
| `Registry.ChatServer.Pass` | 312552017_np_project2/np_single_proc.cpp:77-101 | over one pass, with removals and an accept in it, in which no exit closes a watched socket: every ready descriptor but the listener is served once, in order, for the user who was behind it when the pass began, and his line is executed; afterwards exactly those whose line said exit are gone, the accepted one is there, and users and sockets in the tables are those of the process |
| `Registry.ProperUndamaged` | 312552017_np_project2/np_single_proc.cpp:67-101 | no proper run, so no pass of one, closes a socket the server watches |
| `UserHandling.PipeServer.HandleUserPipe` | 312552017_np_project2/server/chatServer.cpp:421-461 | all three flags are exact: whether the user exists, whether the array access is in bounds, and, if both, whether the pair's pipe is there |
| `UserHandling.PipeServer.WriteUserPipe` | 312552017_np_project2/server/chatServer.cpp:297-332 | equals WriteUser: a new pipe is kept for the receiver and a copy of its write end becomes currPipe, or /dev/null; with the exact condition for the array access to be in bounds |
| `UserHandling.PipeServer.ReadUserPipe` | 312552017_np_project2/server/chatServer.cpp:335-372 | equals ReadUser: a copy of the read end becomes currPipe and both ends are closed, or /dev/null; with the same exact condition |
| `UserHandling.UserCmdHandler.StartPiece` | 312552017_np_project2/shell/cmdHandler.cpp:31-44 | a piece begins as UBegin says, and the one shared pointer then names this user's ring |
| `UserHandling.UserCmdHandler.CreateNumbered` | 312552017_np_project2/shell/cmdType.cpp:31-38 | looking up and filling a slot through the shared pointer is, as long as it names the user's ring, UConnect on his own ring |
| `UserHandling.TwoTurns` | 312552017_np_project2/shell/cmdHandler.cpp:30-110 | two users' pieces one after the other through the one shared pointer: the second runs on his own ring from what the first left of the process, and leaves the first user's ring as it was |
| `UserHandling.UserCmdHandler.RunStage` | 312552017_np_project2/shell/cmdHandler.cpp:59-96 | the body of the per-user loop, with numbered pipes through the shared pointer, equals UStage and keeps the pointer on this user's ring |
| `UserHandling.UserCmdHandler.RunCommands` | 312552017_np_project2/shell/cmdHandler.cpp:30-110 | one piece of a user's line, through the shared pointer, equals URun on his own ring |
| `UserHandling.UserCmdHandler.RunShell` | 312552017_np_project2/shell/cmdHandler.cpp:14-112 | a user's line: its exits close the three pipe variables, then its parsed pieces are executed in order; the user stays exactly if there was no exit |
| `UserPipes.WrotePipes` | 312552017_np_project2/server/chatServer.cpp:310-327 | a successful write keeps the table of user pipes owned, distinct and exact, and the notes in turn |
| `UserPipes.TookPipes` | 312552017_np_project2/server/chatServer.cpp:344-369 | so does a successful read |
| `UserPipes.ReadUserReads` | 312552017_np_project2/server/chatServer.cpp:365-369 | after a read the server holds one descriptor of that pipe, a read end, and no write end |
| `UserPieces.UPieceOk` | 312552017_np_project2/shell/cmdHandler.cpp:30-110 | every piece of every user: pipes it does not take over stay owned, no pipe that was gone comes back, sockets stay open, user pipes stay in turn, and its ring changes only in its own target slot |
| `UserBoxes.RunBoxes` | 312552017_np_project2/shell/cmdHandler.cpp:30-110 | a piece puts no pipe into a mailbox that was made before it |
| `UserVars.RunVars` | 312552017_np_project2/shell/pipe.cpp:95-100 | after a piece eol still names the numbers of its barrier pipe, which are closed if the piece ends in a numbered pipe; prevPipe is empty, currPipe too unless it does |
| `UserVars.ClosedVars` | 312552017_np_project2/shell/cmdHandler.cpp:128-132 | an exit leaves exactly the descriptors that none of eol, prevPipe and currPipe names, and all three empty |
| `World.NotTaken` | 312552017_np_project2/shell/cmdHandler.cpp:33-44 | what a piece takes over is its own due pipe or a user pipe, never a later pipe of anybody |
| `World.TypedEffect` | 312552017_np_project2/shell/cmdHandler.cpp:30-110 | a piece typed by any user in a server in order has the effect of UPieceOk |
| `WorldRuns.TypedOk` | 312552017_np_project2/shell/cmdHandler.cpp:30-110 | a typed piece keeps the server's invariant for all users at once |
| `WorldRuns.ExitExact` | 312552017_np_project2/shell/cmdHandler.cpp:128-132 | an exit, which closes whatever the leaver's eol, prevPipe and currPipe name by then, leaves all unread user pipes, everybody else's delayed pipes and every watched socket alone if and only if none of them has one of those numbers |
| `WorldRuns.ExitOk` | 312552017_np_project2/shell/cmdHandler.cpp:128-132 | a clear exit keeps the server's invariant for everybody, the leaver included; of his own delayed pipes exactly the one his currPipe names is gone |
| `WorldRuns.SparedExact` | 312552017_np_project2/shell/cmdHandler.cpp:117-132 | a piece on the line of an exit, or after it, comes to no slot that exit has cut off if and only if every pipe that waits for it, or that it is to write to once more, is still the one put there |
| `StaleExit.ExitCloses` | 312552017_np_project2/shell/cmdHandler.cpp:128-132 | a run of eight acts, proper all along, after which user 2's exit closes both ends of the pipe a later line of user 3 awaits |
| `StaleExit.ExitClosesSocket` | 312552017_np_project2/np_single_proc.cpp:84-98 | a run of three acts, proper all along, after which user 1's exit closes the socket of user 2, who joined after him; the server goes on watching it |
| `StaleExit.ClearExit` | 312552017_np_project2/shell/cmdHandler.cpp:128-132 | a run in which a user delays a pipe, says exit and leaves, with two others there, is proper |
| `StaleExit.CutSlot` | 312552017_np_project2/shell/cmdHandler.cpp:117-132 | a line is sent a delayed pipe and says exit: whatever piece follows on it comes to a slot that names two closed numbers |
| `Lines.LineIsActs` | 312552017_np_project2/shell/cmdHandler.cpp:14-112 | a user's whole line does to process, shell and user pipes what its exits, its pieces and his removal do one after the other; with an exit the pipes kept for him and his socket go too; so the results about acts are about lines |
| `WorldRuns.AfterOk` | 312552017_np_project2/np_single_proc.cpp:67-101 | the invariant holds after every sequence of joins, leaves, clear exits, and pieces typed by any users that come to no slot an exit of their own has cut off |
| `Independence.UserPipesAlternate` | 312552017_np_project2/server/chatServer.cpp:297-372 | over every run with clear exits and at most 30 users, between joins of the receiver, successful writes and reads of each pair alternate, starting with a write, and each read takes the pipe of the write just before it |
| `Independence.UnreadPipes` | 312552017_np_project2/server/chatServer.cpp:421-461 | over every such run a registered receiver has an unread pipe exactly when the last thing between the two was a write, and the server owns both its ends |
| `Independence.ReadDetaches` | 312552017_np_project2/server/chatServer.cpp:335-372 | over every such run a read starts the piece on the very pipe written last and leaves none of its write ends in the server |
| `Independence.AloneProper` | 312552017_np_project2/shell/cmdHandler.cpp:33-36 | what is asked of a user's pieces is not about the others: alone on the server he may type the same |
| `Independence.NonInterference` | 312552017_np_project2/shell/cmdHandler.cpp:33-36 | in any interleaving with clear exits a user's ring is, up to an injective renaming of live pipes, the one he would have alone, empty slots included; only pipes his own exits have closed are not matched |
| `Independence.SampleRun` | 312552017_np_project2/np_single_proc.cpp:67-101 | a run with two users, one writing to the other, who reads, meets everything that is asked of runs |
| `UserWiring.UPieceFed` | 312552017_np_project2/shell/cmdHandler.cpp:56-106 | a piece of any user: its children start with the three standard descriptors, inherited sockets and copies of the server's own, and no pipe or file; every unread user pipe, one it has just written included, has exactly one child writing it; nobody's reading changes; and if it reads a user pipe its first child reads that pipe |
| `ServerWiring.OneWriter` | 312552017_np_project2/server/chatServer.cpp:310-327 | over every run with clear exits every child of the server starts with the three standard descriptors, inherited sockets and copies of the server's own, and no pipe or file; and every unread user pipe is kept with exactly one child writing it |
| `ServerWiring.ReaderWired` | 312552017_np_project2/server/chatServer.cpp:335-372 | over every such run the first child of a piece that reads a user pipe reads the very pipe the sender wrote last, which exactly one earlier child writes and nobody else reads |
| `ServerWiring.ReadingStays` | 312552017_np_project2/np_single_proc.cpp:67-101 | whatever anybody does later, every child goes on reading from exactly the same children |
| `UserMeaning.UPieceMeant` | 312552017_np_project2/shell/cmdHandler.cpp:30-110 | one piece of any user in a process in order: what ServerMeans says, from the state before it |
| `Programs.UPieceArgv` | 312552017_np_project2/shell/cmdHandler.cpp:56-96 | the children of any piece of any user run the arguments of its programs, in order |
| `ServerMeaning.ServerMeans` | 312552017_np_project2/shell/cmdHandler.cpp:30-110 | over every run with clear exits, any user's piece means what it says: every program runs its own arguments; outputs, errors and neighbours are connected as written; the first program reads the pipe the user behind `<n` sent last, /dev/null if there is no such user or nothing sent, or the pipe of its slot; the first `>n` sends its output to user n if he is there and nothing is waiting, to /dev/null otherwise; nothing else happens to the user pipes; and the last program of a piece ending in `\|n` writes the pipe in the slot n pieces ahead |
| `Delivery.Delivered` | 312552017_np_project2/shell/cmdHandler.cpp:33-36 | over every run with clear exits, whatever all users do in between: the last program of a piece ending in `\|n` or `!n` writes the pipe that the first program of its user's piece n pieces later reads, if that one reads from no user |
| `ServerProgress.ServerReturns` | 312552017_np_project2/np_single_proc.cpp:67-101 | in every fair interleaving of the server with all processes of all users, over every run with clear exits, every wait and drain returns |
| `UserParser.ParseCommand` | 312552017_np_project2/shell/cmdHandler.cpp:117-214 | the token loop of the server computes UParse |
| `UserParser.UParseShape` | 312552017_np_project2/shell/cmdHandler.cpp:117-214 | every line splits into pieces of the shape the executor relies on |
| `UserParser.UParsePrint` | 312552017_np_project2/shell/cmdHandler.cpp:184-198 | a line asking for some pieces comes out as these pieces, each with the latest ids named up to its end, and does not end the session |
| `UserParser.UParseExact` | 312552017_np_project2/shell/cmdHandler.cpp:184-198 | pieces come out with the ids they ask for if and only if no piece without an id comes behind one that names an id of the same kind |
| `UserParser.CarriedId` | 312552017_np_project2/shell/cmdHandler.cpp:184-198 | the input `cat <2` with a numbered pipe and then `ls`: the second piece reads from user 2 too |
| `UserBuiltins.USameWords` | 312552017_np_project2/shell/cmdHandler.cpp:125-127 | of a user's line only its words matter |
| `UserBuiltins.UExitRemoved` | 312552017_np_project2/shell/cmdHandler.cpp:128-132 | `exit` anywhere in a line, but behind a word that takes it, counts as one exit more and leaves the pieces as they are without it |
| `UserBuiltins.UPrintenvRemoved` | 312552017_np_project2/shell/cmdHandler.cpp:134-139 | `printenv` and the word behind it leave pieces and exits as they are without them |
| `UserBuiltins.USetenvRemoved` | 312552017_np_project2/shell/cmdHandler.cpp:140-146 | so do `setenv` and the two words behind it |
| `UserBuiltins.UWhoRemoved` | 312552017_np_project2/shell/cmdHandler.cpp:148-149 | so does `who`, alone |
| `UserBuiltins.SpeechRemoved` | 312552017_np_project2/shell/cmdHandler.cpp:150-167 | `tell`, `yell` and `name` take the whole rest of the line, whatever it says |
| `UserBuiltins.UEndRemoved` | 312552017_np_project2/shell/cmdHandler.cpp:134-146 | at the end of a line the words behind `printenv` and `setenv` may be missing |
| `UserBuiltins.UExitsCounted` | 312552017_np_project2/shell/cmdHandler.cpp:128-132 | a list of words without words that take others exits as often as `exit` is in it, and has the pieces of the list without `exit` |
| `UserBuiltins.UNoExit` | 312552017_np_project2/shell/cmdHandler.cpp:128-132 | a line without the word `exit` does not end the session |
| `UserBuiltins.UAnyNumber` | 312552017_np_project2/shell/cmdHandler.cpp:177-198 | the number behind `\|`, `!`, `<` or `>` is what atoi makes of the rest of the word, whatever it is |
| `UserBuiltins.UNoFileName` | 312552017_np_project2/shell/cmdHandler.cpp:172-176 | a `>` at the end of a line writes to the file with the empty name |
| `UserBuiltins.LastReadWins` | 312552017_np_project2/shell/cmdHandler.cpp:196-198 | of two ids to read from, one behind the other, the second counts |
| `UserBuiltins.ReadMoves` | 312552017_np_project2/shell/cmdHandler.cpp:196-198 | an id to read from may change places with an argument and with `\|` |
| `UserBuiltins.USymbols` | 312552017_np_project2/shell/cmdHandler.cpp:169-210 | `<r`, arguments, `\|`, arguments, `>` and a file, arguments, `>u`, arguments, `\|n` or `!n`, arguments: read as exactly these commands and ids, the piece behind inheriting both ids |
| `Replacing.ReplaceEach` | 312552017_np_project4/socks4server/socks4_util.cpp:6-10 | the in-place loop with find and replace ends and equals the replacement of every occurrence |
| `Firewall.TwoPasses` | 312552017_np_project4/socks4server/socks4_util.cpp:4-20 | escaping dots and then rewriting stars is one pass of `.` to `\.` and `*` to `.*` |
| `Firewall.ConvertToRegexPattern` | 312552017_np_project4/socks4server/socks4_util.cpp:4-20 | the two loops compute that one pass |
| `Firewall.RewritingMeans` | 312552017_np_project4/socks4server/socks4_util.cpp:4-26 | for rules without other special characters the pattern is valid and its full match is wildcard matching of the rule |
| `Firewall.PartWise` | 312552017_np_project4/socks4server/socks4_util.cpp:22-29 | a rule and a text of equally many dot-separated parts match exactly when each part matches its own, although a star may stand for text with dots |
| `Firewall.OctetWise` | 312552017_np_project4/socks.conf:1-2 | a four-part rule of digits and stars accepts an address exactly when every part of its text matches its own part of the rule; which byte that is, is Requests.AddressOf |
| `Firewall.PartMatches` | 312552017_np_project4/socks4server/socks4_util.cpp:13-17 | a part without stars matches only itself, a star alone every part |
| `Firewall.MatchFirewallRule` | 312552017_np_project4/socks4server/socks4_util.cpp:22-29 | whatever the rule, a rule of the other kind does not match, and one of the kind asked about is what the library says of its rewritten pattern, a refused pattern included |
| `Firewall.MatchedPermits` | 312552017_np_project4/socks4server/socks4_util.cpp:22-29 | without other special characters a rule matches exactly requests of its kind and addresses it matches as a wildcard |
| `Firewall.IsDestinationIPAddressAllowed` | 312552017_np_project4/socks4server/socks4_handler.cpp:142-152 | whatever the file, the answer is the decision on its rules in order: access at the first rule that matches, an exception at the first refused pattern before that, no access without a file or such a rule |
| `Firewall.SomePermits` | 312552017_np_project4/socks4server/socks4_handler.cpp:142-152 | for rules without other special characters the decision is access if some rule permits the address, and no access if none does; never an exception |
| `Firewall.RulesOfConf` | 312552017_np_project4/socks4server/socks4_handler.cpp:145-148 | rules written one per line are read back, whatever each line's first word says |
| `Firewall.OrderExact` | 312552017_np_project4/socks4server/socks4_handler.cpp:146-151 | the decision is the same for every order of the rules if and only if they do not include both a rule that matches and one whose pattern is refused |
| `Firewall.ParenFirst` | 312552017_np_project4/socks4server/socks4_handler.cpp:146-151 | the rules `(` and `*`: the decision is an exception in this order and access in the other |
| `Firewall.StrictRefuses` | 312552017_np_project4/socks4server/socks4_util.cpp:22-26 | such a library exists: one that refuses every pattern no plain rule is rewritten to |
| `Firewall.OrderFree` | 312552017_np_project4/socks4server/socks4_handler.cpp:145-151 | for rules without other special characters the decision on the file is the same for every order of its rules, whatever the first words of their lines say |
| `Socks.NameBranch` | 312552017_np_project4/socks4server/socks4_util.hpp:13 | the printed address matches 0.0.0.[1-9][0-9]{0,2} exactly for values 1 to 255 |
| `Socks.StoredSwapped` | 312552017_np_project4/cgiserver/cgi_application.cpp:73-74 | swapping and storing in the machine's order leaves the bytes in network order |
| `Socks.CStringEnds` | 312552017_np_project4/socks4server/socks4_handler.cpp:50-51 | a text is found in the buffer exactly if there is a NUL behind its start, and then it is the text up to the first one |
| `Socks.RequestRead` | 312552017_np_project4/socks4server/socks4_handler.cpp:41-59 | any request at the start of the buffer is decoded to its user id, domain name and port for addresses 1 to 255, and to its address and port otherwise |
| `Socks.ConnectProxy` | 312552017_np_project4/cgiserver/cgi_application.cpp:70-76 | the 13 bytes written in place are the public request for the endpoint |
| `Socks.ProxyRead` | 312552017_np_project4/cgiserver/cgi_application.cpp:70-76 | the handler decodes those bytes to the same endpoint if and only if the address is not from 1 to 255 |
| `Socks.LowAddress` | 312552017_np_project4/cgiserver/cgi_application.cpp:70-76 | port 80 of 0.0.0.1 is an endpoint that is not read back |
| `Requests.AddressOf` | 312552017_np_project4/socks4server/socks4_handler.cpp:28 | the text of an address is the decimals of its four bytes, most significant first, with dots between |
| `Requests.OnTheWire` | 312552017_np_project4/cgiserver/cgi_application.cpp:70-76 | the bytes of a request, one by one: version, command, port and address with the most significant byte first, the texts with a zero behind each; and those of the CGI server's |
| `Requests.HeaderNumbers` | 312552017_np_project4/socks4server/socks4_handler.cpp:42-55 | the handler's port and address are bytes 2 to 3 and 4 to 7 in that order, its command byte 1 |
| `Requests.TargetOf` | 312552017_np_project4/socks4server/socks4_handler.cpp:41-59 | by the bytes: an address 0.0.0.x with x not 0 asks for the name behind the second zero byte, any other for itself |
| `Requests.HandleRead` | 312552017_np_project4/socks4server/socks4_handler.cpp:17-39 | a request is served, rejected with the bytes 0, 91 and six zeros, or ends by an exception or past the buffer, exactly as target, resolver, rules and command byte say |
| `Requests.PermitsOctets` | 312552017_np_project4/socks4server/socks4_util.cpp:22-29 | a rule of four parts, each a star or digits, permits an address of its kind exactly if each part is a star or the decimal of the byte in the same place |
| `Requests.DecidedByOctets` | 312552017_np_project4/socks4server/socks4_handler.cpp:142-152 | under such rules a request for an address has access exactly if some rule of the kind its command byte asks for agrees with bytes 4 to 7 in order |
| `Requests.LineOfConf` | 312552017_np_project4/socks4server/socks4_handler.cpp:145-148 | a line of the file is a word that is skipped, a character and a word, in this order, with any blanks before it |
| `Query.ParseQueryString` | 312552017_np_project3/cgiserver/cgi_util.cpp:9-23 | the splitting loop equals Servers of the tokens, None where it would read past the last token |
| `Query.ServersShort` | 312552017_np_project3/cgiserver/cgi_util.cpp:14-18 | it stays within the tokens exactly if their number is a multiple of three |
| `Query.OneToken` | 312552017_np_project3/cgiserver/cgi_util.cpp:14-18 | the query `h0=a` makes it read past its last token |
| `Query.MatchExact` | 312552017_np_project3/cgiserver/cgi_util.cpp:34-42 | a match is a text of the expression's form with the longest last field, and there is one whenever the text starts with that form |
| `Query.RegexSearch` | 312552017_np_project3/cgiserver/cgi_util.cpp:38 | the search stops at the first place with a match, or at the end if there is none |
| `Query.ParseHTTPQueryString` | 312552017_np_project3/cgiserver/cgi_util.cpp:26-46 | the searching loop collects what successive leftmost searches find, empty triples dropped |
| `Query.ParsersAgree` | 312552017_np_project3/cgiserver/cgi_util.cpp:9-46 | on what a form with `&`-free fields sends, the first parser returns all slots in order and the second exactly those with some field filled in |
| `Query.OneSlot` | 312552017_np_project3/cgiserver/cgi_util.cpp:9-46 | one slot of a form and whatever follows, written out: both parsers give back host, port and file in order, the second nothing for an empty slot, and go on with what follows |
| `Query.EqualsMeans` | 312552017_np_project3/cgiserver/cgi_util.cpp:14-18 | of a token the splitting parser keeps what follows its first `=`, or all of it |
| `Escape.SevenIsOne` | 312552017_np_project3/cgiserver/cgi_util.cpp:106-115 | the seven whole-string replacements equal one map over the characters |
| `Escape.EscapedMeans` | 312552017_np_project3/cgiserver/cgi_util.cpp:106-115 | `&`, `<`, `>`, `"`, `'` and line feeds become their entities, carriage returns disappear, all else stands for itself |
| `Escape.CgiHtmlEscape` | 312552017_np_project3/cgiserver/cgi_util.cpp:106-115 | the escaper computes that map, and its result has no `<`, `>`, quote, apostrophe or line end in it |
| `Escape.UnescapeEscaped` | 312552017_np_project3/cgiserver/cgi_util.cpp:106-115 | decoding gives back the text without its carriage returns |
| `Escape.NumericMeans` | 312552017_np_project3/cgiserver/cgi_util.cpp:134-141 | the characters 0-9, A-Z and a-z stand for themselves, every other byte is `&#`, its value as a signed char and `;` |
| `Escape.PrintEscape` | 312552017_np_project3/cgiserver/cgi_util.cpp:134-141 | the loop does that to every byte, and nothing but letters, digits, `&`, `#`, `;` and `-` comes out |
| `Escape.ReadAscii` | 312552017_np_project3/cgiserver/cgi_util.cpp:134-141 | decoding gives back every ASCII text |
| `Escape.ReadExact` | 312552017_np_project3/cgiserver/cgi_util.cpp:134-141 | decoding gives back a text of bytes if and only if it is ASCII: others become negative numbers, which are no entities |
| `Escape.HighByte` | 312552017_np_project3/cgiserver/cgi_util.cpp:134-141 | byte 128 is not read back |

## Left out

- The build with shared memory and FIFOs (`CONFIG_SHM`, `np_multi_proc.cpp`): rests on timing, signals and unlocked memory of the operating system.
- Data: what programs compute and what flows through pipes; a program is its arguments, who it reads from and where it writes, and ends at the end of its input.
- Failing calls: `pipe2`, `open`, `fork` and `accept` always succeed, and there is no limit on descriptors or processes.
- Programs that cannot be executed: a child that prints "Unknown command" and exits is a child that exits.
- `createFileWithMode` and the `file` field of a command line: never called.
- `runShell` with a descriptor other than standard input in project 1: no caller passes one.
- The environment: `printenv` and `setenv` skip their arguments as in the program and do nothing else.
- The redirection of descriptors 0 to 2 to the user's socket around each line: in the model they name the same three objects throughout, which stand for whatever they are redirected to; the copies 3 to 5, the listener and the sockets of the users are in the table.
- The one buffered `std::cin` all users of project 2 share, with its end-of-file state across redirections: a line is the text read for the descriptor that is served.
- `who`, `tell`, `yell`, `name` and all broadcasts: output only; the parser takes the rest of the line as their text.
- `select`: a pass is given any set of ready descriptors among the watched ones.
- Per-user objects: `World` keeps every user's shell as a value in a map, with his ring in it; that numbered pipes reach it through one shared pointer is the subject of `UserHandling`, whose methods are proved equal to the steps of `World`.
- The SIGCHLD handler of the servers: a child it reaps first makes the later wait return at once, as it does in the model once the child has exited.
- Regular expressions beyond the ones that arise: what rules with special characters other than `.` and `*` match is whatever the library says.
- DNS resolution (`Requests.HandleRead` takes any resolver), the relay loops, `bind` and `reply`, HTTP handling and the HTML pages.
- Commands `noop`, `number`, `removetag`, `removetag0`: small filters.
- RunWiring.WiringOk: assumes that no slot is used for two lines, because with a stale slot a line can start on descriptors of another pipe (`StaleRead.StaleChild`). It also leaves out lines that say `exit` and more: their closes happen while the line is split, before any of its pieces runs, and the shell ends after it.
- Concurrent.PromptReturns: assumes pipes of unbounded capacity, because with bounded ones the shell can block in the wait two stages back.
- Registry.ChatServer.Pass: assumes that no exit on the way closes a socket that is watched (`Registry.Undamaged`), because the loop then goes on watching a closed number, or one that `accept` gives out again.
- Registry.ChatServer.RunShellLoop: executes the line on `World`, where shells are values; that the handler's own statements do the same is `UserHandling.UserCmdHandler.RunShell` with `Lines.LineIsActs`.
- WorldRuns.AfterOk: does not cover runs beyond an exit that is not clear or a piece that comes to a slot cut off, because descriptors then are anybody's; `WorldRuns.ExitExact` and `WorldRuns.SparedExact` say exactly which acts these are.
- UserHandling.PipeServer.HandleUserPipe: an access past the array is reported, not carried out, because its result is undefined; WriteUserPipe and ReadUserPipe then stop.
