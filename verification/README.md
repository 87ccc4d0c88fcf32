# A verified model of the libfuse 3.0.2 engine room

This project models the parts of libfuse 3.0.2 in which a file system's
correctness is decided before any file-system code runs: the path locks and the
node store of the high-level library, POSIX record locks, the interrupt
protocol of the low-level library, the scatter/gather copy, the option parser,
directory reading, and the shell quoting of `mount.fuse`. The results are proved
for all inputs, all runs or all interleavings; where the code does not do what
it says, an input or a run shows it and a condition says exactly when.

`dafny verify dfyconfig.toml` checks everything.

## How it is organised

| files | what they hold |
|---|---|
| `Basics` | what the components share |
| `Forest`, `TreeLocks`, `Requests`, `PathState` | the parent relation, the values of `treelock`, the requests inside the library, and the state `f->lock` protects with its invariant |
| `PathLocks`, `PathQueue`, `PathWake`, `PathRefs`, `PathMoves`, `PathOps`, `PathNodes`, `PathArrivals` | each kind of critical section keeps the invariant |
| `PathRuns`, `PathLinks`, `PathTheorems` | whole runs, who may move a node, and what the invariant means |
| `PathOutcomes`, `PathPass`, `PathCounts` | what a request is told in terms of who holds what, that no wake-up is lost, and how lookups add up over a run |
| `PathWedge`, `PathStarvation` | when the head of the queue waits for ever, and a run in which it does |
| `PathTree` | the code itself: a class whose methods walk, lock, hash and unhash in place |
| `PathNames`, `PathStrings` | the text of a path and where it leads, and the path buffer that grows backwards |
| `NodeTables`, `NodeIds` | linear hashing one bucket at a time, and `next_id` |
| `RecordLocks`, `RecordPids` | `locks_insert` and `locks_conflict`, and which process a byte is recorded for |
| `Interrupts`, `InterruptProofs`, `InterruptFates` | requests, pending interrupts and callbacks, and what becomes of an interrupt |
| `BufVec`, `Options`, `OptParse`, `ShellQuote`, `Readdir` | one component each |

### The path locks

A critical section under `f->lock` is one atomic step. The state is the node
tree (`parent` and `name` of every node), the `treelock`, `nlookup` and `refctr`
of every live node, and the list of requests inside the library in order of
arrival. The lock queue is the subsequence of those requests that are queued;
the others run between `get_path` and `free_path`. Each request records what
it has been granted: the chain of nodes read-locked and the child write-locked.
`PathRuns.Allowed` says when a step may happen. Apart from what the code itself
waits for, it states what the kernel promises:

* requests name directories that have been looked up (or are pinned by a lookup
  of "."), and an entry they change that exists has been looked up;
* at most one request in flight changes a given entry, so the two entries of a
  rename or an exchange differ, and no lookup creates an entry that a request in
  flight is changing (nor does a hidden name collide with one);
* a forget takes between one and the outstanding number of lookups, and the last
  lookup of a node is not forgotten while a waiting request names the node;
* fewer than INT_MAX paths are wanted at a time.

### The interrupt protocol

A step is what one thread does between taking and releasing a lock, so that
handlers, owners and arrivals interleave freely. The kernel gives requests that
are in flight distinct unique numbers; an owner registers callbacks before it
replies and replies once.

## Findings

* **The head of the lock queue can starve.** The comment at
  `fuse-3.0.2/lib/fuse.c:1081-1087` lets the first element stay partially locked
  "to prevent starvation". Suppose that only the head holds locks, that its two
  paths do not conflict and that both are reachable. `PathWake.HeadFinishes`: the
  next pass finishes it if and only if no node on a path it still wants carries
  the mark of a waiting writer. `PathWedge.HeadFinishesOrNever`: if that pass does
  not finish it, no pass in any continuation of the run ever does, because the
  marked directory is one the head itself has read-locked, the mark goes only
  with the last reader, and whoever wants to move the second path away has to
  walk through the same directory. `PathStarvation.StuckReached` gives a run that
  ends there: while /a/g is being read, a rename of /a/f to /a/g arrives, and
  then a rename of /a.
* **A leading empty option is lost.** `add_opt_common` separates by a comma only
  if there is text before, so `["", "ro"]` comes back as `["ro"]`
  (`Options.EmptyFirstIsLost`). `Options.RoundTrip` proves that a list comes back
  if and only if it has one element or a non-empty first one.
* **The destination cursor of `fuse_buf_copy` lags.** When the source runs out,
  the short-circuit at `fuse-3.0.2/lib/buffer.c:312-313` skips the advance of
  the destination. `BufVec.Copy` proves that the destination cursor has moved over
  what was copied if and only if more lay ahead in the source than in the
  destination or the last source buffer had nothing left, and that otherwise it
  stays behind by exactly the last piece (`BufVec.Lag`). `BufVec.CursorStays` is
  the smallest case: one byte copied, cursor unmoved.
* **A trailing "--" is removed only without options.** The comment at
  `fuse-3.0.2/lib/fuse_opt.c:387` says that an option separator that is the last
  argument is removed, but `opt_parse` compares `nonopt` with the argument count
  after it has inserted `-o`. `OptParse.SeparatorRemoved`: it is removed if and
  only if no argument before it is a group of options. `OptParse.SeparatorStays`
  has `p -oro --`, which becomes `p -o ro --`.

## Model

| member | source | states |
|---|---|---|
| `Forest.ChainUnique` | fuse-3.0.2/lib/fuse.c:927-946 | a parent walk is determined by where it starts |
| `Forest.ChainDistinct` | fuse-3.0.2/lib/fuse.c:927-946 | a parent walk that ends never meets a node twice |
| `Forest.RelinkAcyclic` | fuse-3.0.2/lib/fuse.c:1361-1426 | moving any set of nodes below directories whose walks meet none of them keeps the parent relation acyclic |
| `TreeLocks.TakeRelease` | fuse-3.0.2/lib/fuse.c:927-1028 | unlocking a path right after locking it restores every treelock, wait marks included |
| `TreeLocks.TargetOffChain` | fuse-3.0.2/lib/fuse.c:975-1008 | the child to be write-locked never lies on the walk of its own directory, so the walk does not meet the lock just taken |
| `TreeLocks.GrantedMeans` | fuse-3.0.2/lib/fuse.c:975-1018 | a granted path ends at the root, met no writer and no waiting writer, and its target was completely unlocked |
| `PathLocks.LockTake` | fuse-3.0.2/lib/fuse.c:975-1008 | after a grant every treelock still encodes its holders exactly, counting the new one |
| `PathLocks.LockDrop` | fuse-3.0.2/lib/fuse.c:927-946 | after a release every treelock still encodes the remaining holders; a wait mark goes with the last reader |
| `PathLocks.LockMark` | fuse-3.0.2/lib/fuse.c:978-984 | marking a waiting writer changes no holder count |
| `PathLocks.HeldLocks` | fuse-3.0.2/lib/fuse.c:932-942 | the assertions in unlock_path hold for every granted path |
| `PathLocks.TrySlotCore` | fuse-3.0.2/lib/fuse.c:948-1028 | an attempt keeps the invariant; a failed one changes nobody's holds; ENOENT means the directory is cut off from the root |
| `PathLocks.DropSlotCore` | fuse-3.0.2/lib/fuse.c:1030-1044 | giving one path back keeps the invariant |
| `PathLocks.UnlockElemCore` | fuse-3.0.2/lib/fuse.c:1030-1044 | queue_element_unlock keeps the invariant and leaves the element holding nothing |
| `PathLocks.DetachedUnlocked` | fuse-3.0.2/lib/fuse.c:989-994 | nobody has locked a node below an unlinked one |
| `PathLocks.GoneNoEnt` | fuse-3.0.2/lib/fuse.c:989-994 | every attempt on a path below an unlinked node answers ENOENT and changes nothing |
| `PathQueue.WakeElemCore` | fuse-3.0.2/lib/fuse.c:1046-1100 | a queue element's turn keeps the invariant; the element ends done, half locked at the head, or holding nothing |
| `PathQueue.WakeGone` | fuse-3.0.2/lib/fuse.c:1059-1074 | an element that failed with ENOENT but has not left the queue fails again on every later pass |
| `PathWake.WakeFromInv` | fuse-3.0.2/lib/fuse.c:1102-1108 | a whole pass over the queue keeps the invariant |
| `PathWake.HeadIsFirst` | fuse-3.0.2/lib/fuse.c:1046-1100 | if only the head holds locks then no request is running |
| `PathWake.HeadFinishes` | fuse-3.0.2/lib/fuse.c:1046-1108 | if only the head holds locks and its reachable paths do not conflict, one pass finishes it if and only if no node on a path it still wants is marked by a waiting writer |
| `PathRefs.LastReference` | fuse-3.0.2/lib/fuse.c:815-821 | a reference count of one that is being dropped belongs to a node without lookups, pins or children, and never to the root |
| `PathRefs.EraseCore` | fuse-3.0.2/lib/fuse.c:801-813 | deleting such a node breaks nobody's path, the node is unlocked, and exactly the reference on its parent remains to be dropped |
| `PathRefs.UnrefCore` | fuse-3.0.2/lib/fuse.c:801-821 | the whole cascade of delete_node, unhash_name and unref_node ends with exact counts, frees only unlocked nodes nobody names, and spares the root |
| `PathMoves.CutCore` | fuse-3.0.2/lib/fuse.c:718-744 | unhashing a write-locked node breaks no held chain; failed waiters stay failed |
| `PathMoves.UnhashCore` | fuse-3.0.2/lib/fuse.c:718-744 | unhash_name of a write-locked node below a named directory keeps the invariant and deletes nothing |
| `PathMoves.HashCore` | fuse-3.0.2/lib/fuse.c:775-799 | hanging an unlinked node at a free name keeps the invariant if the new parent does not hang below the node |
| `PathOps.EntryHeld` | fuse-3.0.2/lib/fuse.c:1350-1395 | the node found at a locked entry is the one the request write-locked |
| `PathOps.RemoveCore` | fuse-3.0.2/lib/fuse.c:1350-1359 | remove_node keeps the invariant; the node found at the entry, if any, loses its name and no other does |
| `PathOps.HideCore` | fuse-3.0.2/lib/fuse.c:2307-2322 | rename_node to a hidden name in the same directory keeps the invariant; the node at the entry is at the hidden name afterwards, unless that was taken: then nothing has changed |
| `PathOps.RenameCore` | fuse-3.0.2/lib/fuse.c:1361-1395 | a granted rename keeps the invariant, above all acyclicity, unique names and exact reference counts; the node at the old entry is at the new one, the node that was there has no name, and nothing else has moved |
| `PathOps.ExchangeCore` | fuse-3.0.2/lib/fuse.c:1397-1426 | a granted exchange keeps the invariant, whichever of the two entries have nodes; those they have have changed places, and nothing else has moved |
| `PathOps.RenamedLookups` | fuse-3.0.2/lib/fuse.c:1361-1395 | after a rename looking up the new name gives what the old one gave, the old one gives nothing, and every other name what it gave |
| `PathOps.HiddenLookups` | fuse-3.0.2/lib/fuse.c:1377-1381 | hiding is a rename if the hidden name is free, and changes nothing if it is taken |
| `PathOps.ExchangedLookups` | fuse-3.0.2/lib/fuse.c:1397-1426 | after an exchange each of the two names gives what the other one gave, and every other name what it gave |
| `PathOps.RemovedLookups` | fuse-3.0.2/lib/fuse.c:1350-1359 | after a removal the name gives nothing, and every other name what it gave |
| `PathNodes.IncCore` | fuse-3.0.2/lib/fuse.c:848-853 | inc_nlookup keeps the counts exact |
| `PathNodes.FindCore` | fuse-3.0.2/lib/fuse.c:855-892 | find_node keeps the invariant, whether it finds the node or creates it |
| `PathNodes.ForgetCore` | fuse-3.0.2/lib/fuse.c:1303-1339 | forgetting keeps the invariant, also when the last lookup goes and the node and its ancestors with it |
| `PathNodes.ForgetCounts` | fuse-3.0.2/lib/fuse.c:1330-1337 | a forget takes exactly `k` lookups from its node and none from any other; with the last one a node without pins and children is freed |
| `PathNodes.PinCore` | fuse-3.0.2/lib/fuse.c:2543-2561 | the reference a lookup of "." takes keeps the counts exact |
| `PathNodes.UnpinCore` | fuse-3.0.2/lib/fuse.c:2584-2588 | dropping that reference keeps the invariant, cascade included |
| `PathNodes.UnlockedSpared` | fuse-3.0.2/lib/fuse.c:1312-1328 | waiting for a zero treelock is enough: then no granted path relies on the node |
| `PathArrivals.GetPathInv` | fuse-3.0.2/lib/fuse.c:1164-1185 | a new request keeps the invariant, whether it is granted, queued or turned away |
| `PathArrivals.BothTriedInv` | fuse-3.0.2/lib/fuse.c:1219-1238 | try_get_path2 ends with both paths locked or with none |
| `PathArrivals.ReturnInv` | fuse-3.0.2/lib/fuse.c:1142-1162 | leaving the queue, with locks or with an error, keeps the invariant |
| `PathArrivals.FreeInv` | fuse-3.0.2/lib/fuse.c:1273-1301 | releasing a request's paths and waking the queue keeps the invariant, also after the request has moved its own nodes |
| `PathRuns.InitInv` | fuse-3.0.2/lib/fuse.c:4702-4735 | the invariant holds of a new file system |
| `PathRuns.StepInv` | fuse-3.0.2/lib/fuse.c:718-1426 | every critical section keeps the invariant |
| `PathRuns.RunInv` | fuse-3.0.2/lib/fuse.c:718-1426 | the invariant holds in every state of every run |
| `PathOutcomes.AttemptOutcome` | fuse-3.0.2/lib/fuse.c:948-1028 | a path is granted if and only if its directory is reachable, no writer holds or waits for a node of the walk, and nobody holds the entry to be changed; ENOENT means exactly that the directory is cut off |
| `PathOutcomes.WaitingWriterBlocks` | fuse-3.0.2/lib/fuse.c:975-984 | a refused writer changes the treelock of its target only, and no further path through the target is granted until the mark has gone |
| `PathOutcomes.GetOutcome` | fuse-3.0.2/lib/fuse.c:1164-1217 | a request for one path runs at once with its path if nobody is in the way, is turned away if its directory is cut off, and else stands at the end of the queue with nothing |
| `PathOutcomes.GetTwoOutcome` | fuse-3.0.2/lib/fuse.c:1219-1271 | a request for two paths runs at once if and only if each would be granted alone and neither writes what the other locks; which of turning away and queueing happens otherwise, and then it has nothing |
| `PathOutcomes.StepOrder` | fuse-3.0.2/lib/fuse.c:1046-1301 | no step of anybody else takes from a running request what it has been granted, removes a request, or changes the order: requests come in at the end and leave by their own step |
| `PathPass.TurnSettles` | fuse-3.0.2/lib/fuse.c:1046-1100 | after its turn an element is done or lacks something the treelocks do not allow; the head gives nothing back unless it is done, and lacks only what is refused; behind the head a turn unlocks nothing |
| `PathPass.PassSettles` | fuse-3.0.2/lib/fuse.c:1102-1108 | after a whole pass that is so of every element of the queue, with the treelocks as they are then |
| `PathPass.NobodyOverlooked` | fuse-3.0.2/lib/fuse.c:1273-1301 | in every run, when a request has given its paths back, each that still waits wants something the treelocks do not allow: no wake-up is lost |
| `PathCounts.StepLookups` | fuse-3.0.2/lib/fuse.c:848-892 | every critical section changes the lookup count of every node by exactly what it hands out and takes back, also when it frees nodes |
| `PathCounts.LookupsBalance` | fuse-3.0.2/lib/fuse.c:1303-1339 | after any run a node has the lookups handed out for it less those forgotten; the root starts with one |
| `PathCounts.AliveForAReason` | fuse-3.0.2/lib/fuse.c:801-821 | in every reachable state a node is live if and only if it has lookups, pins or children |
| `PathTheorems.TreelockExact` | fuse-3.0.2/lib/fuse.c:927-1044 | in every reachable state a treelock is -1 exactly for one writer and no reader, else the number r of readers or INT_MIN + r with r > 0 |
| `PathTheorems.MutualExclusion` | fuse-3.0.2/lib/fuse.c:948-1028 | in every reachable state a node write-locked by one path is locked by no other path in any way |
| `PathTheorems.HeldChainIntact` | fuse-3.0.2/lib/fuse.c:927-946 | in every reachable state the chain of a held path is still its directory's chain up to the root, so unlock_path releases exactly what was locked |
| `PathLinks.StepKeeps` | fuse-3.0.2/lib/fuse.c:718-1426 | no critical section frees a locked node, or changes the parent or the name of a node that is not write-locked and lives on |
| `PathLinks.ReadHeldKept` | fuse-3.0.2/lib/fuse.c:927-1028 | no step of anybody changes the parent or the name of a node that some path has read-locked |
| `PathLinks.HeldParentsFixed` | fuse-3.0.2/lib/fuse.c:927-1028 | a node that is read-locked throughout a stretch of a run hangs at its end where it hung at its beginning |
| `PathLinks.HeldPathFixed` | fuse-3.0.2/lib/fuse.c:960-1018 | while the nodes of a path are read-locked, the walk from its directory and the text of the path stay what they were when it was granted |
| `PathTheorems.NeverBelowItself` | fuse-3.0.2/lib/fuse.c:1219-1238 | a request is never granted both a directory and a place below it, nor the same node twice |
| `PathTheorems.RefctrExact` | fuse-3.0.2/lib/fuse.c:801-892 | in every reachable state refctr is one for the lookups, one per child and one per pin, and positive; parents and the root are live |
| `PathTheorems.NamesUnique` | fuse-3.0.2/lib/fuse.c:834-846 | after any run at most one node has a given parent and name, and its parent walk ends |
| `PathTheorems.QueueAllOrNothing` | fuse-3.0.2/lib/fuse.c:1081-1089 | behind the head a queued request holds all it wants or nothing |
| `PathTheorems.DoneAllOrNothing` | fuse-3.0.2/lib/fuse.c:1094-1100 | a waiter told ENOENT holds nothing, one told success holds everything |
| `PathWedge.MarkedWedges` | fuse-3.0.2/lib/fuse.c:1046-1100 | if only the head holds locks and the pass will not finish it, a marked directory of its locked path lies on its other path, and nobody writes what hangs between |
| `PathWedge.WedgedStep` | fuse-3.0.2/lib/fuse.c:927-1426 | no critical section of anybody changes that |
| `PathWedge.WedgedForever` | fuse-3.0.2/lib/fuse.c:927-1426 | nor does any run: the element stays in the queue, half locked and not done |
| `PathWedge.HeadFinishesOrNever` | fuse-3.0.2/lib/fuse.c:1046-1108 | if only the head holds locks and its reachable paths do not conflict, either the next pass finishes it or it stays in the queue as it is for ever |
| `PathStarvation.StuckReached` | fuse-3.0.2/lib/fuse.c:1046-1108 | a run reaches a state in which only the head holds locks, its paths are reachable and do not conflict, and the next pass does not finish it |
| `PathStarvation.HeadStarves` | fuse-3.0.2/lib/fuse.c:1046-1108 | in every continuation of that run the head stays in the queue, half locked and not done |
| `PathTree.Fuse.constructor` | fuse-3.0.2/lib/fuse.c:4702-4735 | a new file system is in the initial state of the runs |
| `PathTree.Fuse.LookupNode` | fuse-3.0.2/lib/fuse.c:834-846 | the search in the bucket of the name table returns the one node with that parent and name, or nothing if there is none, however often buckets have been split and merged |
| `PathTree.Fuse.UnlockPath` | fuse-3.0.2/lib/fuse.c:927-946 | the walk ends, its assertions hold, and it releases exactly the nodes before `end` and the target |
| `PathTree.Fuse.WalkDown` | fuse-3.0.2/lib/fuse.c:937-945 | the loop of unlock_path decrements exactly those nodes |
| `PathTree.Fuse.TryGetPath` | fuse-3.0.2/lib/fuse.c:948-1028 | grants exactly when the specification does, with the same treelocks and hold; the text given out begins with a slash and splits into the names from the root down to the directory and the request's own name, if it has one; a refusal leaves the treelocks as they were, but for the mark of a waiting writer |
| `PathTree.Fuse.WalkUp` | fuse-3.0.2/lib/fuse.c:985-1023 | locks the whole chain or, via out_unlock, restores every treelock; the error says whether a writer or an unlinked node was met |
| `PathTree.Fuse.Climb` | fuse-3.0.2/lib/fuse.c:989-1008 | the upward loop has locked a prefix of the chain and written its names when it stops |
| `PathTree.Fuse.QueueElementUnlock` | fuse-3.0.2/lib/fuse.c:1030-1044 | computes the specified state: both paths given back |
| `PathTree.Fuse.QueueElementWakeup` | fuse-3.0.2/lib/fuse.c:1046-1100 | computes the specified turn, for every combination of outcomes of the two attempts |
| `PathTree.Fuse.SecondHalf` | fuse-3.0.2/lib/fuse.c:1067-1100 | the same from the second path on |
| `PathTree.Fuse.WakeUpQueued` | fuse-3.0.2/lib/fuse.c:1102-1108 | the in-place loop computes the specified pass |
| `PathTree.Fuse.GetPath` | fuse-3.0.2/lib/fuse.c:1240-1271 | computes the specified arrival, and its result tells granted, queued and turned away apart |
| `PathTree.Fuse.TryBoth` | fuse-3.0.2/lib/fuse.c:1219-1238 | computes the specified attempt on both paths |
| `PathTree.Fuse.FreePath` | fuse-3.0.2/lib/fuse.c:1290-1301 | computes the specified release and pass |
| `PathTree.Fuse.UnrefNode` | fuse-3.0.2/lib/fuse.c:815-821 | the recursive code terminates and computes the specified cascade |
| `PathTree.Fuse.UnrefLast` | fuse-3.0.2/lib/fuse.c:801-813 | so does the part of it that deletes the node |
| `PathTree.Fuse.DeleteNode` | fuse-3.0.2/lib/fuse.c:801-813 | removes the node from both tables |
| `PathTree.Fuse.UnhashName` | fuse-3.0.2/lib/fuse.c:718-744 | name table and links stay inverse to each other, and the parent loses a reference, with whatever that sets off |
| `PathTree.Fuse.HashName` | fuse-3.0.2/lib/fuse.c:775-799 | name table and links stay inverse to each other, and the parent gains a reference |
| `PathTree.Fuse.FindNode` | fuse-3.0.2/lib/fuse.c:855-892 | afterwards looking the name up gives the node returned; it is the one that had the name, or the new one if the name was free; it has one lookup more and every other node as many as before |
| `PathTree.Fuse.NewNode` | fuse-3.0.2/lib/fuse.c:866-888 | a new node is found under its name afterwards |
| `PathTree.Fuse.ForgetNode` | fuse-3.0.2/lib/fuse.c:1330-1337 | computes the specified forgetting, cascade included: exactly `k` lookups are gone from the node, none from any other, and with the last one the node itself if it has no pins and no children |
| `PathTree.Fuse.RemoveNode` | fuse-3.0.2/lib/fuse.c:1350-1359 | for a request that has locked the entry: the node found there, if any, has lost its name, and the tree is otherwise what it was |
| `PathTree.Fuse.RenameNode` | fuse-3.0.2/lib/fuse.c:1361-1395 | for a running request that has locked both entries, computes the rename step of the runs: the node at the old entry is at the new one, the node that was there has no name, and the tree is otherwise what it was |
| `PathTree.Fuse.ExchangeNode` | fuse-3.0.2/lib/fuse.c:1397-1426 | for a running request that has locked both entries, computes the exchange step of the runs: the nodes at the two entries have changed places, and the tree is otherwise what it was |
| `PathStrings.PathBuf.constructor` | fuse-3.0.2/lib/fuse.c:960-966 | the buffer starts empty with a final NUL |
| `PathStrings.PathBuf.AddName` | fuse-3.0.2/lib/fuse.c:894-925 | puts "/name" in front of the text without writing outside the buffer, whether or not it had to grow |
| `PathStrings.PathBuf.Grow` | fuse-3.0.2/lib/fuse.c:898-917 | doubling ends, moves the text to the end unchanged and makes enough room |
| `PathStrings.BuildPath` | fuse-3.0.2/lib/fuse.c:960-1014 | the bytes in the buffer are the text of the request's path |
| `PathNames.TextIsChain` | fuse-3.0.2/lib/fuse.c:989-1014 | the text is "/name" for every node of the chain, from the root down |
| `PathNames.RenderSplit` | fuse-3.0.2/lib/fuse.c:989-1014 | splitting such a text at its slashes returns the names |
| `PathNames.WalkNames` | fuse-3.0.2/lib/fuse.c:834-846 | looking the names of a chain up from its top leads to the node it belongs to |
| `PathNames.PathSpells` | fuse-3.0.2/lib/fuse.c:960-1018 | the path begins with a slash, and splitting it gives the names from the root to the directory and then the name in the request |
| `PathNames.PathLeadsBack` | fuse-3.0.2/lib/fuse.c:834-1018 | looking the components of a path up from the root gives the directory it was built for, or, with a name, what that entry holds |
| `NodeTables.SlotLive` | fuse-3.0.2/lib/fuse.c:498-507 | every hash falls into the first size/2 + split buckets |
| `NodeTables.SlotSplit` | fuse-3.0.2/lib/fuse.c:498-507 | splitting a bucket changes the place of its own keys only, and only by half the table |
| `NodeTables.SlotDouble` | fuse-3.0.2/lib/fuse.c:616-631 | a fully split table places every key as an unsplit table of twice the size does |
| `NodeTables.DeadBuckets` | fuse-3.0.2/lib/fuse.c:559-599 | buckets at or above size/2 + split are empty, so halving the table loses nothing |
| `NodeTables.MergeRefines` | fuse-3.0.2/lib/fuse.c:575-599 | merging a pair of buckets leaves the contents alone and every node where its hash says |
| `NodeTables.DoubleRefines` | fuse-3.0.2/lib/fuse.c:616-631 | so does doubling |
| `NodeTables.HalveRefines` | fuse-3.0.2/lib/fuse.c:559-573 | so does halving |
| `NodeTables.SplitRound` | fuse-3.0.2/lib/fuse.c:645-657 | each round of the splitting loop keeps or moves one node and loses none |
| `NodeTables.SplitEnd` | fuse-3.0.2/lib/fuse.c:633-660 | when the loop ends the table with one more bucket split holds the same map |
| `NodeTables.NodeTable.constructor` | fuse-3.0.2/lib/fuse.c:4554-4566 | a new table holds nothing and is within its load bounds |
| `NodeTables.NodeTable.Find` | fuse-3.0.2/lib/fuse.c:509-519 | finds a node if and only if it is in the map |
| `NodeTables.NodeTable.Hash` | fuse-3.0.2/lib/fuse.c:662-671 | adds exactly that node, and splits one more bucket if and only if half the table is reached; there are never more nodes than live buckets, and always a bucket left to split |
| `NodeTables.NodeTable.Rehash` | fuse-3.0.2/lib/fuse.c:633-660 | one more bucket is in use, doubling when all are split, and the load bounds hold again |
| `NodeTables.NodeTable.SplitBucket` | fuse-3.0.2/lib/fuse.c:645-657 | the loop keeps the contents |
| `NodeTables.NodeTable.Resize` | fuse-3.0.2/lib/fuse.c:616-631 | doubling keeps contents, bounds and the buckets in use |
| `NodeTables.NodeTable.Unhash` | fuse-3.0.2/lib/fuse.c:601-614 | removes exactly that node, or nothing if it is not there; below a quarter of the table one to eight buckets are merged away, unless the table is as small as it gets |
| `NodeTables.NodeTable.Remerge` | fuse-3.0.2/lib/fuse.c:575-599 | after halving if none is split, merges from the top to the first occupied bucket, eight buckets, or the last split one, and keeps contents and bounds |
| `NodeTables.NodeTable.MergeOne` | fuse-3.0.2/lib/fuse.c:583-598 | one merge keeps the contents, and says whether the bucket it merged away was occupied |
| `NodeTables.NodeTable.Reduce` | fuse-3.0.2/lib/fuse.c:559-573 | halving keeps the contents and the buckets in use, and never goes below the minimal size |
| `NodeIds.SomeUsable` | fuse-3.0.2/lib/fuse.c:823-832 | with fewer than 2^32 - 2 live ids some id is free |
| `NodeIds.Ids.NextId` | fuse-3.0.2/lib/fuse.c:823-832 | ends on the first usable id: not 0, not 0xffffffff, not live; the pair with its generation lies beyond every earlier one |
| `NodeIds.Ids.Advance` | fuse-3.0.2/lib/fuse.c:826-828 | the position in the sequence of (generation, id) pairs grows by one |
| `NodeIds.Ids.Allocate` | fuse-3.0.2/lib/fuse.c:855-892 | no (generation, id) pair is ever given out twice |
| `RecordLocks.InsertProper` | fuse-3.0.2/lib/fuse.c:3826-3898 | every owner's locks stay sorted, disjoint, maximally merged and between 0 and OFFSET_MAX, so no end + 1 overflows |
| `RecordLocks.InsertOwn` | fuse-3.0.2/lib/fuse.c:3826-3898 | the owner's bytes in the range become the requested kind, or nothing for F_UNLCK; its other bytes stay as they were |
| `RecordLocks.InsertForeign` | fuse-3.0.2/lib/fuse.c:3826-3898 | no byte of another owner changes |
| `RecordLocks.InsertOthers` | fuse-3.0.2/lib/fuse.c:3826-3898 | the other owners' records are untouched and in the same order |
| `RecordLocks.InsertCompatible` | fuse-3.0.2/lib/fuse.c:3800-3898 | inserting a request without a conflict keeps the list free of conflicts at every byte, whatever was merged |
| `RecordLocks.HistoryRefines` | fuse-3.0.2/lib/fuse.c:3826-3898 | after any history each byte is held exactly as its owner last asked |
| `RecordLocks.HistoryCompatible` | fuse-3.0.2/lib/fuse.c:3800-3898 | if each lock was set only when locks_conflict returned nothing, no byte is ever held in conflict |
| `RecordPids.InsertRecorded` | fuse-3.0.2/lib/fuse.c:3826-3898 | after a request the bytes asked for, and those of the records it merges with, are recorded for the process that asked, unless one record said all of it before; the owner's other bytes keep theirs |
| `RecordPids.RunIsRecord` | fuse-3.0.2/lib/fuse.c:3851-3868 | bytes held without a gap and in one way are held by a single record |
| `RecordPids.HistoryRecords` | fuse-3.0.2/lib/fuse.c:3826-3898 | after any history each byte is recorded for the process of the last request of its owner that covered it or reached it through bytes of its kind, not counting requests for what was all held so already |
| `RecordPids.ConflictReports` | fuse-3.0.2/lib/fuse.c:3800-3811 | what a test for a conflict returns is how some byte of the request is held, and for which process |
| `RecordLocks.Node.Conflict` | fuse-3.0.2/lib/fuse.c:3800-3811 | returns the first lock that clashes; there is one if and only if some byte of the request is held incompatibly by another owner |
| `RecordLocks.Node.InsertLock` | fuse-3.0.2/lib/fuse.c:3826-3898 | the in-place loop, with its skip, merge, truncate, split and early-exit cases, computes that list |
| `RecordLocks.LoopBody` | fuse-3.0.2/lib/fuse.c:3844-3888 | one round makes progress towards that list; the spare record is there whenever it is used and used at most once |
| `Interrupts.Session.FindPending` | fuse-3.0.2/lib/fuse_lowlevel.c:1708-1710 | finds the first pending interrupt for a request, if there is one |
| `Interrupts.Session.FindActive` | fuse-3.0.2/lib/fuse_lowlevel.c:1648-1649 | finds the active request with that number, if there is one |
| `Interrupts.Session.ProcessRequest` | fuse-3.0.2/lib/fuse_lowlevel.c:2507-2515 | computes the arrival step: consume a pending interrupt for the request, or else evict the oldest one |
| `Interrupts.Session.HandleInterrupt` | fuse-3.0.2/lib/fuse_lowlevel.c:1683-1701 | computes the interrupt step: take a reference on an active request, drop a duplicate, or leave it pending |
| `Interrupts.Session.SetInterruptFunc` | fuse-3.0.2/lib/fuse_lowlevel.c:2315-2327 | computes both halves of the registration |
| `Interrupts.Session.FreeRequest` | fuse-3.0.2/lib/fuse_lowlevel.c:129-144 | computes the release, and tells the caller to destroy the record exactly when no thread uses it |
| `InterruptProofs.StepInv` | fuse-3.0.2/lib/fuse_lowlevel.c:1644-1724 | every step of every thread keeps the protocol's invariant |
| `InterruptProofs.RunInv` | fuse-3.0.2/lib/fuse_lowlevel.c:1644-1724 | the invariant holds in every state of every interleaving |
| `InterruptProofs.PendingMeansEarly` | fuse-3.0.2/lib/fuse_lowlevel.c:1703-1724 | no active request has a pending interrupt aimed at it, and pending interrupts have distinct targets |
| `InterruptProofs.CallbackHasRun` | fuse-3.0.2/lib/fuse_lowlevel.c:1644-1671 | an interrupted request with a registered callback has had it run, whichever came first |
| `InterruptProofs.QuietWhenUnregistered` | fuse-3.0.2/lib/fuse_lowlevel.c:2315-2327 | while no callback is registered none is running |
| `InterruptProofs.StaysQuiet` | fuse-3.0.2/lib/fuse_lowlevel.c:2315-2327 | after unregistering no callback of that request runs or starts until its owner registers one, whatever everybody else does |
| `InterruptProofs.OwnerExcludesHandlers` | fuse-3.0.2/lib/fuse_lowlevel.c:2315-2327 | nobody runs a callback of a request whose owner is registering one |
| `InterruptProofs.DestroyedOnce` | fuse-3.0.2/lib/fuse_lowlevel.c:123-144 | no record is destroyed twice |
| `InterruptProofs.DeadUnused` | fuse-3.0.2/lib/fuse_lowlevel.c:123-144 | nothing leads to a destroyed record: no list, no thread, no owner about to free it |
| `InterruptProofs.NotForgotten` | fuse-3.0.2/lib/fuse_lowlevel.c:129-144 | a live request is unanswered, referenced by a thread, or about to be destroyed by its owner |
| `InterruptProofs.NeverLost` | fuse-3.0.2/lib/fuse_lowlevel.c:123-144 | a record leaves the live ones only by being destroyed |
| `InterruptFates.ArrivalMarks` | fuse-3.0.2/lib/fuse_lowlevel.c:1703-1713 | a request is interrupted on arrival if and only if an interrupt for it has come before |
| `InterruptFates.ArrivalTakes` | fuse-3.0.2/lib/fuse_lowlevel.c:1703-1724 | an arrival takes its own interrupt off the list and destroys it; without one it throws out the oldest; the others stay, in order |
| `InterruptFates.StaysMarked` | fuse-3.0.2/lib/fuse_lowlevel.c:1644-1671 | no step of anybody takes the mark of an interrupted request away as long as it lives |
| `InterruptFates.ActiveIsMarked` | fuse-3.0.2/lib/fuse_lowlevel.c:1644-1671 | in every run an interrupt for an active request marks it as soon as its handler has taken the lock of the request, and the mark stays |
| `InterruptFates.EarlyIsKept` | fuse-3.0.2/lib/fuse_lowlevel.c:1683-1724 | in every run an interrupt that came first still waits, or has marked its request on arrival, or was thrown out as the oldest by the arrival of another one |
| `InterruptFates.RepeatIsDropped` | fuse-3.0.2/lib/fuse_lowlevel.c:1685-1701 | a repeated early interrupt is destroyed and changes nothing else |
| `InterruptFates.CallbackRuns` | fuse-3.0.2/lib/fuse_lowlevel.c:1644-1671 | a callback runs for interrupted requests only, and has run once a request, interrupted at any earlier time, has one registered |
| `BufVec.Vec.Advance` | fuse-3.0.2/lib/buffer.c:265-279 | drops exactly that many bytes from what lies ahead of the cursor |
| `BufVec.Vec.Size` | fuse-3.0.2/lib/buffer.c:22-35 | the total in 64 bits, restarted at SIZE_MAX by every buffer of that size |
| `BufVec.TotalExact` | fuse-3.0.2/lib/buffer.c:22-35 | the total is the number of bytes if that is below SIZE_MAX |
| `BufVec.CopyOne` | fuse-3.0.2/lib/buffer.c:234-245 | moves one piece, also when the two overlap |
| `BufVec.CopiedMore` | fuse-3.0.2/lib/buffer.c:281-321 | a further piece extends what has been copied and damages neither earlier bytes nor the rest of the source |
| `BufVec.CopyPiece` | fuse-3.0.2/lib/buffer.c:289-318 | one round moves the next piece of both flattened vectors and makes progress, even over empty pieces |
| `BufVec.LagKept` | fuse-3.0.2/lib/buffer.c:289-318 | a round after which the source has not run out leaves the final lag of the destination cursor as it was |
| `BufVec.LagLast` | fuse-3.0.2/lib/buffer.c:312-314 | the round with which the source runs out adds its whole piece to that lag |
| `BufVec.Copy` | fuse-3.0.2/lib/buffer.c:281-321 | terminates on vectors of any shape, copies the first min(source, destination) bytes in order and nothing else, returns that number and moves the source cursor by it; the destination cursor too if and only if the source is longer or its last buffer has nothing left, and short of that by exactly the last piece |
| `BufVec.CursorStays` | fuse-3.0.2/lib/buffer.c:312-314 | one byte is copied and the destination cursor has not moved |
| `Options.ParseEscape` | fuse-3.0.2/lib/fuse_opt.c:114-136 | splitting reads an escaped option back as it was, whatever follows |
| `Options.ParseOctal` | fuse-3.0.2/lib/fuse_opt.c:311-319 | a backslash and the three octal digits of any byte read as that byte |
| `Options.ParseBackslash` | fuse-3.0.2/lib/fuse_opt.c:311-322 | before anything else a backslash stands for what follows it, and at the very end for itself |
| `Options.ParsePlain` | fuse-3.0.2/lib/fuse_opt.c:301-325 | every other character but a comma stands for itself; a comma ends the option |
| `Options.EscapeLength` | fuse-3.0.2/lib/fuse_opt.c:127-131 | escaping adds one character for each comma and each backslash and none besides |
| `Options.ParseText` | fuse-3.0.2/lib/fuse_opt.c:293-331 | splitting the comma-separated escaped options returns the list |
| `Options.ReadBack` | fuse-3.0.2/lib/fuse_opt.c:114-151 | the list that comes back from adding options one by one and splitting: the original without leading empty options |
| `Options.RoundTrip` | fuse-3.0.2/lib/fuse_opt.c:114-151 | it is the original list if and only if that has one option or a non-empty first one |
| `Options.EmptyFirstIsLost` | fuse-3.0.2/lib/fuse_opt.c:122-125 | two options of which the first is empty come back as one |
| `Options.Renormalise` | fuse-3.0.2/lib/fuse_opt.c:114-151 | splitting and escaping again gives the same text |
| `OptParse.Spelling` | fuse-3.0.2/lib/fuse_opt.c:347-368 | every argument vector is made of plain arguments, groups of options in either spelling, and a tail after "--", unless it ends in a "-o" without its argument |
| `OptParse.ParseSpelt` | fuse-3.0.2/lib/fuse_opt.c:347-395 | the output is the program name, "-o" and the options of all groups as one list if there are any, the plain arguments in their order, and the tail, but for a final separator when there are no options; a dangling "-o" is an error |
| `OptParse.SeparatorRemoved` | fuse-3.0.2/lib/fuse_opt.c:381-392 | a separator that is the last argument is removed if and only if no argument before it is a group of options |
| `OptParse.SeparatorStays` | fuse-3.0.2/lib/fuse_opt.c:381-392 | the arguments `p -oro --` keep their separator, `p --` loses it |
| `OptParse.ParseIdempotent` | fuse-3.0.2/lib/fuse_opt.c:370-422 | parsing its own output changes nothing, whatever the arguments were |
| `OptParse.AddOptCommon` | fuse-3.0.2/lib/fuse_opt.c:114-136 | twice the option's length, a comma and a NUL are always enough, and the buffer holds the list with the option appended |
| `OptParse.WriteEscaped` | fuse-3.0.2/lib/fuse_opt.c:127-131 | the loop writes the escaped option behind what was there |
| `OptParse.ProcessGroup` | fuse-3.0.2/lib/fuse_opt.c:293-331 | unescaping in place, over text already read, yields exactly the options of the original text |
| `OptParse.ReadOne` | fuse-3.0.2/lib/fuse_opt.c:311-325 | the escape cases, octal ones included, never read past the NUL |
| `OptParse.Context.ProcessOptionGroup` | fuse-3.0.2/lib/fuse_opt.c:333-345 | splitting a copy of the text in place and appending each option, escaped, to the growing buffer adds exactly the options of the group |
| `OptParse.Context.ProcessOne` | fuse-3.0.2/lib/fuse_opt.c:347-368 | one argument, or "-o" and its argument, brings the context one step closer to the specified one; fails exactly if "-o" lacks its argument |
| `OptParse.Context.ParseVector` | fuse-3.0.2/lib/fuse_opt.c:370-395 | the loop computes the specified vector |
| `ShellQuote.LexBody` | fuse-3.0.2/util/mount.fuse.c:49-59 | inside single quotes the shell reads the quoted characters back as they were |
| `ShellQuote.SplitCommand` | fuse-3.0.2/util/mount.fuse.c:39-62 | the shell's word splitting returns exactly the arguments that were added |
| `ShellQuote.QuoteLength` | fuse-3.0.2/util/mount.fuse.c:49-59 | quoting adds two characters, and three more for each quote in the argument |
| `ShellQuote.MountCommand` | fuse-3.0.2/util/mount.fuse.c:206-215 | the shell finds the file system type, the source if there is one, the mount point, and "-o" with the options if there are any |
| `ShellQuote.Assemble` | fuse-3.0.2/util/mount.fuse.c:206-224 | so it does with a user given, behind `su - user -c` and through the second shell that su starts |
| `ShellQuote.AddArgBuffer` | fuse-3.0.2/util/mount.fuse.c:39-62 | cmdlen + 4 * optlen + 4 characters are always enough, and the buffer holds the quoted argument behind the command |
| `ShellQuote.WriteBody` | fuse-3.0.2/util/mount.fuse.c:50-58 | the loop writes the quoted body behind what was there |
| `Readdir.DecodeOne` | fuse-3.0.2/lib/fuse_lowlevel.c:266-291 | a record decodes to the entry it was made from, whatever follows |
| `Readdir.RecordAligned` | fuse-3.0.2/include/fuse_kernel.h:715-719 | every record of a chunk starts at a multiple of eight and stands there whole |
| `Readdir.FillFits` | fuse-3.0.2/lib/fuse.c:3515-3557 | a chunk is never longer than the buffer |
| `Readdir.FillDecodes` | fuse-3.0.2/lib/fuse.c:3515-3557 | a chunk decodes to the next entries, whole and in order |
| `Readdir.ListingPrefix` | fuse-3.0.2/lib/fuse.c:3515-3557 | whatever the buffer sizes, the entries listed by consecutive calls have no gap and no repetition |
| `Readdir.ListingTells` | fuse-3.0.2/lib/fuse_lowlevel.c:266-291 | each record of a listing carries the inode number and the name of the entry whose turn it is, the four type bits of its mode, and the offset of the next one |
| `Readdir.ListingComplete` | fuse-3.0.2/lib/fuse.c:3515-3557 | with buffers that hold any one entry, consecutive calls list every entry exactly once and in order |
| `Readdir.DirHandle.FillFromList` | fuse-3.0.2/lib/fuse.c:3515-3557 | the in-place loop fills the buffer with exactly that chunk |
| `Readdir.DirHandle.AddDirentry` | fuse-3.0.2/lib/fuse_lowlevel.c:266-291 | returns the record's size, writes the record if it fits and nothing otherwise, and leaves what lies before and behind it alone |

## Left out

- The `remember` mode with its LRU list and pruning thread, entry and attribute timeouts, and stat caching: clocks and floating point.
- Allocation failure: every allocation succeeds (-ENOMEM and -ENOLCK exits, and node_table_resize giving up).
- Waiting itself: pthread condition variables are left to the scheduler; a step is allowed when the code would go on, and no fairness is assumed or proved.
- Lookups of "..": they only add an arrival at another directory.
- The unlocked form of try_get_path (`need_lock` false), which hidden_name and debug_path use: it only reads.
- A rename or exchange of an entry with itself: excluded by the kernel.
- Splice, pipe and file-descriptor buffers, and partial writes: they depend on the operating system.
- Option templates, sscanf-formatted parameters and callbacks of fuse_opt_parse.
- `readdirplus` records and the buffering of `readdir` while the file system calls the filler with offsets.
- Mounting, signals, daemonising, module loading, the event loops and their worker counters.
- NOTIFY_REPLY handling and the notification calls.
- The sample file systems, and the block-allocation and metadata prototype kept beside them: unfinished, so that no invariant over whole runs is decided by the code.
- PathTree.Fuse: the nodes' fields are maps indexed by node and the lock queue is a sequence, so pointer aliasing between nodes, chains and stack-allocated queue elements is not modelled; the id table is left to NodeTables.NodeTable.
- PathTree.Fuse.GetPath: the text of a granted path is what TryGetPath returns; keeping it with the request is not modelled.
- PathTree.Fuse.RenameNode: the flag `committed`, which it sets, is the model's; it records that the request's nodes may now hang below either of its directories.
- NodeTables.NodeTable: hash chains are sequences, one generic table stands for the two copies of the code, NODE_TABLE_MIN_SIZE is an even parameter of at least 2, and the hash is an arbitrary function to the naturals.
- NodeIds.Ids.Allocate: the generation is unbounded, so what is stated holds until its 32 bits wrap.
- OptParse.Context.ParseVector: the arguments are C strings and hold no NUL.
- PathStrings.PathBuf.AddName: the text must fit into 32-bit sizes, as the doubling loop does not end otherwise.
- PathNames.PathLeadsBack: node names are non-empty and free of slashes, as the kernel's are.
- RecordLocks.Node.InsertLock: the list is a sequence; that records are unlinked and relinked rather than copied is not modelled.
- Interrupts.Session.SetInterruptFunc: one method runs both halves; the steps of other threads between them are in the state machine that InterruptProofs is about.
- BufVec.Copy: what is copied is stated for a destination that overlaps neither itself nor the source, since otherwise a later piece may read what an earlier one wrote; the count and the cursors are stated for all.
- ShellQuote.SplitCommand: the shell is modelled as far as simple commands made of quoted and plain words go; an unquoted special character makes the model refuse the line.
- Readdir.ListingComplete: inode numbers, offsets and name lengths fit their fields of 64, 64 and 32 bits.
