# go9p in Dafny

A model of go9p, a Go implementation of the 9P2000 file protocol, and proofs about it. The
project covers the wire format, the file server and the tree it serves, the streams, the
matching of replies to requests on both sides, the client's chunked transfers and the union
mount table. `dafny verify dfyconfig.toml` checks everything.

## How it is built

Each part has a specification on values: the state as a datatype, every locked region,
channel operation or request handler as one step function, and `Run` over arbitrary lists of
steps, where a step that would block leaves the state alone. Theorems about `Run` therefore
speak of every interleaving and every length of run. Where the Go code changes objects in
place there are classes beside the specification, whose methods contain the loops and
in-place updates and are proved to do to the abstract value (`View`, `Abs`, `Value`) what the
step function says. Object identity is a type parameter (`N`, `R`, `C`) of the
specifications, so the classes instantiate them with their own references.

| files | what they hold |
|---|---|
| Bytes, Proto, RoundTrip, Layout, Wire | little-endian integers, the messages, encoding and parsing, round trips, the layout as a list of fields, the composing and reading loops |
| Listing, Readdir | directory entries: readDir, ParseStats, reading a directory in pieces and through a buffer |
| Streams, StreamLaws, Passes, Leaving, StreamObjects | the fan-out streams: blocking, dropping, skipping; what one Write does to each reader; joining, reading out and leaving |
| SingleStream, Duplex | the token stream, and the way back from readers to the stream |
| FileTree, TreeLaws, Paths, Permissions | nodes, their links, walking and full paths, access bits |
| FileServer, ServerLaws, ServerResults, HandlerLaws, RequestLaws, Siblings | the request handlers, what every run keeps, what clients can rely on, when each request succeeds and what it then does, names within a directory |
| Replies, Provenance | the replies on the wire and the requests that end in a panic, and the step of the run that opened each fid |
| TreeObjects, ServerObjects | nodes, fid records, connections and the server as objects |
| ClientIO | chunked reads and writes, and listing a directory, against the server |
| Rpc, Pool, ClientTags | one reply per request on the server, its workers as a run of the file server, own reply per call on the client |
| Union, UnionListing, UnionOptions, UnionDepth, UnionBelow, UnionLoop | the mount table and its mutually recursive listing, what it shows, what mounting and unmounting change in it, and when it ends |

Integers are unbounded in Dafny; every uint16, uint32 and uint64 computation that can wrap
is written with `Wrap16`, `Wrap32` or `Wrap64`. Go panics are values (`Panic`, `Crash`,
`None`). Clocks, addresses of new objects, the iteration order of Go maps, what an
authentication stream yields and what a mounted client answers are parameters.

## Main results

- Any list of messages survives encoding and parsing with arbitrary short reads
  (`StreamRoundTrip`, `ReadStream`). A directory read in pieces gives its entries once and in
  order (`ListingRoundTrip`), all of them exactly under the condition of `CompleteIff`.
- In every interleaving a blocking stream delivers each write exactly once, a dropping one a
  contiguous part, a skipping one a subsequence (`BlockingExactlyOnce`, `DroppingContiguous`,
  `SkippingSubsequence`). A Write reaches exactly the readers that are there to take it
  (`PassMeans`), and each reader can have all it was sent (`Drained`). The in-place loops are
  such runs (`SweepIsRun`).
- In every run of the file server the tree is well formed (`TreeAlwaysOk`), files are opened
  before they are used and closed once (`OpenBeforeUse`), and every open fid goes back to the
  step that was allowed to open it (`AccessWasGranted`).
- Sibling names stay distinct exactly as long as renames are to free names
  (`NamesDistinct`, `WstatKeepsIff`, `SharedName`).
- Which requests end in a panic, exactly (`AnsweredUnless`), and what a version exchange
  promises from then on (`NegotiatedSize`).
- The server answers each request of a polite client once, under its tag, with what the file
  server returned (`OneReplyEach`), its workers amount to a run of the file server
  (`SysIsRun`), and the client hands each reply to its own call (`OwnReply`).
- Each request, given as a message to the dispatcher, does exactly what its law says, in
  terms of the tree, the fid and the stat before it (`WalkLaw`, `DotsLaw`, `OpenLaw`,
  `CreateLaw`, `ReadLaw`, `WriteLaw`, `ClunkLaw`, `RemoveLaw`, `StatLaw`,
  `WstatAllOrNothing`, `AttachLaw`, `AuthLaw`).
- What mounting, binding and unmounting change in the listing of the root (`MountLaw`,
  `BindLaw`, `UnmountLaw`).
- The listing of a union ends in every reachable table (`Reachable`, `StratifiedEnds`), and
  after binding the root exactly when `RootBindEndsIff` says; below it `BelowEnds` and
  `LaterBindLoops` do.
- The server on objects does what the specification does (`Server.Serve`), and the client's
  chunked write is one write (`Twrite`).

## Where code and documentation differ

The model follows the code in each of these.

- The comment above Wstat lets anyone with write permission in the parent rename, forbids the
  name of an existing file and makes a length change affect the content. The code asks for
  the owner, checks no sibling, and a StaticFile goes on reporting the length of its data.
- A walk whose first name is ".." or "." is answered for that name alone (`DotsLaw`); at the
  root ".." is answered with no qid and binds nothing.
- The limit on a read is `msize-11` in uint32, so it is no limit below 11 and before a version
  exchange (`ReadFits`).
- Creating a directory leaves a fid that is open but has no snapshot to read
  (`AnsweredUnless`).
- Flush is answered and does nothing else.

## Model

| member | source | states |
|---|---|---|
| Bytes.LERoundTrip | proto/marshall.go:23-71 | decoding n little-endian bytes of v gives v back exactly when v fits in n bytes |
| Bytes.TakePut16 | proto/marshall.go:23-61 | fromLittleE16 undoes toLittleE16 and leaves the rest of the buffer |
| Bytes.TakePut32 | proto/marshall.go:31-66 | the same for 32 bits |
| Bytes.TakePut64 | proto/marshall.go:39-71 | the same for 64 bits |
| Bytes.TakePutString | proto/marshall.go:47-77 | fromString undoes toString exactly when the string is shorter than 65536 bytes |
| RoundTrip.QidRoundTrip | proto/fcall.go:106-129 | a composed qid parses back and leaves the rest |
| RoundTrip.StatRoundTrip | proto/stat.go:76-125 | a composed stat parses back and leaves the rest |
| RoundTrip.StringsRoundTrip | proto/walk.go:23-56 | a counted list of names parses back |
| RoundTrip.QidsRoundTrip | proto/walk.go:74-106 | a counted list of qids parses back |
| RoundTrip.BodyRoundTrip | proto/fcall.go:131-254 | every one of the 26 message bodies survives encoding followed by the parser its type byte selects |
| RoundTrip.CallRoundTrip | proto/fcall.go:131-254 | ParseCall of an encoded well-formed message followed by anything gives the message and leaves exactly what followed |
| RoundTrip.TooLongRejected | proto/fcall.go:142-146 | a frame above MaxMsgLen is refused |
| RoundTrip.RoundTripLimit | proto/fcall.go:131-254 | a message whose type and counts are right survives exactly when its size is at most MaxMsgLen |
| RoundTrip.StreamRoundTrip | proto/fcall.go:131-254 | repeated ParseCall on the concatenation of any list of well-formed messages gives the list back |
| Layout.StatLayout | proto/stat.go:105-125 | a composed stat is its size and its fields in order, each of its own width |
| Layout.MessageLayout | proto/fcall.go:18-129 | every message is size, type, tag and the fields of its body in order, each of its own width, the size that of the whole, and the type byte that of the protocol |
| Wire.ReadBytes | proto/marshall.go:8-21 | the loop fills the buffer with the next bytes whatever the short reads, and fails exactly when there are too few |
| Wire.ReadCall | proto/fcall.go:131-254 | reading one call from a reader with arbitrary short reads is ParseCall of its bytes, and consumes exactly those |
| Wire.ReadStream | proto/fcall.go:131-254 | reading call after call gives what parsing the whole byte stream gives |
| Wire.ToString | proto/marshall.go:73-77 | the in-place write lays the string out and fails exactly when it does not fit |
| Wire.ComposeQid | proto/fcall.go:116-129 | the bytes written are the encoding of the qid |
| Wire.ComposeStat | proto/stat.go:105-125 | composing yields the encoding exactly when the size fits 16 bits and otherwise panics |
| Wire.ComposeTWalk | proto/walk.go:35-56 | the buffer is the encoding of the message |
| Wire.ComposeRWalk | proto/walk.go:88-106 | the exact condition, in uint16 arithmetic on the count, under which composing does not panic; for a matching count that nothing wrapped, and the bytes are then the encoding |
| Wire.ComposeTWstat | proto/wstat.go:26-42 | succeeds exactly when the whole message fits 16 bits, with the encoding |
| Wire.ComposeRStat | proto/stat.go:146-161 | the same for RStat |
| Wire.ComposeTWrite | proto/write.go:27-42 | succeeds exactly when the total fits 32 bits, with the encoding of the payload cut or zero-filled to the count |
| Wire.ComposeRRead | proto/read.go:57-70 | the same for RRead |
| Wire.ParseNames | proto/walk.go:23-33 | the loop reads what the recursive definition of a counted name list reads |
| Wire.ParseQidList | proto/walk.go:74-86 | the same for qids, failing where the first qid fails |
| Listing.ParseStatsLoop | proto/stat.go:62-74 | the loop is ParseStats |
| Listing.EntriesRoundTrip | proto/stat.go:62-125 | ParseStats of concatenated composed stats gives the stats |
| Listing.ReadDirLoop | fs/server.go:358-390 | the two loops return the entries of the window, or panic when one cannot be composed |
| Listing.StartAtBoundary | fs/server.go:364-374 | an offset on an entry boundary selects that entry |
| Listing.EndIsGreedy | fs/server.go:381-388 | whole entries up to the end fit the count and one more would not |
| Listing.ReadAtBoundary | fs/server.go:358-390 | a read at a boundary returns whole entries, as many as fit, and something exactly when an entry is left and has room |
| Listing.ReadAnywhere | fs/server.go:358-390 | a read from inside an entry is a read from its start, and one from beyond the last entry a read from the end |
| Listing.ListingRoundTrip | fs/server.go:358-390 | reading with any counts until an empty reply collects the entries once and in order up to where it stops, and parsing gives that much of the directory back |
| Listing.WholeListing | fs/server.go:358-390 | with room for the largest entry in every count and enough of them that is the whole directory, and the next read returns nothing |
| Readdir.CompleteIff | client/client.go:453-474 | with a buffer of a given capacity Readdir gets the whole directory, however the buffer grows, exactly when its reads reach the end before it must grow, or a point where it must and beyond which every entry has at most 512 bytes or what a message holds |
| Readdir.AskedFor | client/client.go:453-458 | with 512 bytes free the buffer stays as it is and a read asks for what is free, with less it grows and a read asks for at least 512, within what one reply may carry |
| Readdir.LostEntries | client/client.go:453-474 | of every directory of more than 65 entries of 1000 bytes it lists 65, without an error |
| StreamLaws.NextKeeps | fs/streams.go:146-355 | every step of a fan-out stream keeps the invariant |
| StreamLaws.RunKeeps | fs/streams.go:146-355 | every interleaving keeps it |
| StreamLaws.BlockingExactlyOnce | fs/streams.go:293-321 | in every run what a live reader read, has left and has queued is every write begun since it joined, once, whole and in order, except the one still under way; nothing is sent on a closed channel |
| StreamLaws.DroppingContiguous | fs/streams.go:251-273 | in every run each reader got a contiguous run of whole writes from its joining; listed readers are distinct and exactly the live ones; queues stay within the buffer |
| StreamLaws.SkippingSubsequence | fs/streams.go:340-355 | in every run each reader got an in-order subsequence of whole writes and stays until removed |
| StreamLaws.PassCompletes | fs/streams.go:304-321 | a pass over readers that are dead or have room leaves no laggard |
| StreamLaws.BlockedWriteResumes | fs/streams.go:293-302 | a blocked Write ends once each laggard was removed or made room |
| StreamObjects.ChanReader.Read | fs/streams.go:43-76 | the loop returns as many of the bytes sent as fit, across chunks, loses none, and blocks exactly on an empty open channel |
| StreamObjects.FanOut.AddReadWriter | fs/streams.go:146-161 | the objects take the Add step, also while a blocked Write waits between two passes; on a closed stream the reader starts closed |
| StreamObjects.FanOut.RemoveReader | fs/streams.go:163-177 | the in-place compaction takes the Remove step, also while a blocked Write waits between two passes |
| StreamObjects.FanOut.Close | fs/streams.go:219-232 | the loop takes the Close step, also while a blocked Write waits between two passes |
| StreamObjects.FanOut.TryWrite | fs/streams.go:304-321 | one pass over the readers: of distinct readers exactly the live ones with room have the write last in their queue, and the live ones without are the laggards returned, in order |
| StreamObjects.FanOut.DropWrite | fs/streams.go:251-273 | the in-place loop is a pass: of distinct live readers exactly those that are ready and have room have the write last in their queue and stay, in order; the others are closed |
| StreamObjects.FanOut.SkipWrite | fs/streams.go:340-355 | the loop is a pass: of distinct live readers exactly those that are ready and have room have the write last in their queue; all stay |
| Passes.SweepIsRun | fs/streams.go:251-355 | a pass of the objects is a run of single offers, so the theorems about runs cover it |
| Passes.OfferMeans | fs/streams.go:251-355 | the reader at the front is sent the write exactly when it is live, has a free place and is ready, or the stream waits for nobody; otherwise it is kept as a laggard, closed or passed over, and no other reader changes |
| Passes.PassMeans | fs/streams.go:251-355 | a whole pass does that to every reader of the list once, and to no other, and goes on listing those who stay, in order |
| Leaving.Joins | fs/streams.go:146-161 | a reader that joins an open stream is listed last, live and with nothing sent to it, and the others are as they were |
| Leaving.Drained | fs/streams.go:43-76 | reading out gets a reader exactly the writes sent to it, live or not, and changes nothing for the others |
| Leaving.RemovedForGood | fs/streams.go:163-177 | a removed reader is sent nothing in any run from there, keeps what it was sent, and the others stay as they were |
| Leaving.ClosedForGood | fs/streams.go:218-232 | after Close nobody is sent anything in any run, all keep what they were sent, and readers that join are closed from the start |
| SingleStream.RunKeeps | fs/streams.go:510-593 | every run keeps the token invariant |
| SingleStream.SingleToken | fs/streams.go:510-593 | in every run one token exists, the buffer is empty when a write may start, bytes read and buffer are the accepted writes, each consumed before the next |
| SingleStream.HolderNeverBlocks | fs/streams.go:523-570 | whoever holds the token can always take its next step |
| SingleStream.ReadReturns | fs/streams.go:523-540 | the three steps of a Read return the smaller of what was asked for and what was left |
| SingleStream.WriteIsRead | fs/streams.go:523-570 | after any run, a Write and as many Reads of at least a byte as it has bytes have returned every accepted byte and let the next Write start |
| SingleStream.Stream.Write | fs/streams.go:565-570 | a call stores the whole write and hands the token to the readers, or blocks exactly without the token and changes nothing |
| SingleStream.Stream.Read | fs/streams.go:523-540 | a call returns as many bytes of the buffer as fit and leaves the rest, and hands the token to the writers exactly when nothing is left; it blocks exactly without the token |
| Duplex.RunKeeps | fs/streams.go:78-92 | every run of writers, reader and close keeps the invariant |
| Duplex.ChunkIntegrity | fs/streams.go:117-208 | in every run results, rest of the chunk and queue are the accepted writes in order, no Read spans two writes, and each returns as much as fits of what was left of its write |
| Duplex.EofDiscardsNothing | fs/streams.go:179-208 | end of file is reported only on a closed stream and takes no queued bytes with it |
| Duplex.EofSawEmpty | fs/streams.go:179-208 | in every run a Read that may report the end of file has found the channel empty in its first look |
| Duplex.NoneAfterClose | fs/streams.go:78-92 | after Close only writes that had passed the first check by then are still accepted |
| Duplex.Pipe.Write | fs/streams.go:78-92 | an accepted write is appended whole to what is pending; it is refused exactly after Close and blocks exactly on a full channel, and otherwise is the two steps of the writer |
| Duplex.Pipe.Read | fs/streams.go:179-208 | the loop prefers the queue over the close signal and skips empty chunks, returns as much as fits of one chunk, and is a run of the reader |
| TreeLaws.CreateKeeps | fs/static.go:130-184 | creating keeps the tree well formed, also when the name is taken |
| TreeLaws.RemoveKeeps | fs/filesystem.go:263-269 | removing keeps it, however many children have the name |
| TreeLaws.SetStatKeeps | fs/filesystem.go:146-151 | writing a stat with the same qid and high mode byte keeps it |
| TreeLaws.SetDataKeeps | fs/static.go:36-72 | writing content keeps it |
| TreeLaws.PermKeepsKind | fs/server.go:573-576 | replacing the low nine mode bits leaves every other bit, so the kind, alone |
| TreeLaws.OneHome | fs/static.go:130-158 | a child is in its parent's list once and in no other |
| TreeLaws.RemoveUndoesCreate | fs/static.go:130-184 | after a create and its removal every older node is as it was and the new one is loose |
| Paths.LookupSound | fs/static.go:120-128 | Children maps a name to the last child of that name and to nothing exactly when there is none |
| Paths.DescendIff | fs/server.go:205-235 | the loop of Walk succeeds exactly when the names lead from directory to directory, the last child of each name counting, and ends where they end |
| Paths.SqueezeJoin | fs/filesystem.go:82-92 | joining a name to a clean path and squeezing slashes gives the path of the child |
| Paths.DescendPath | fs/filesystem.go:82-92 | walking names leads to the node whose FullPath is the start's extended by them |
| Paths.WalkFromRoot | fs/server.go:205-235 | from the root that path is "/" and the names joined with "/" |
| Permissions.AccessGranted | fs/permissions.go:18-68 | access is granted exactly when the mode is a real one and every bit it needs is in the digit for owner, group or others that applies |
| ServerLaws.AuthKeeps | fs/server.go:110-144 | so does Auth, with the file it opens |
| ServerLaws.AttachKeeps | fs/server.go:146-176 | so does Attach: with authentication the name is one an authentication established |
| ServerLaws.WalkKeeps | fs/server.go:178-237 | so does Walk, also over an open fid |
| ServerLaws.OpenKeeps | fs/server.go:239-276 | so does Open: a file was opened under the id of the fid |
| ServerLaws.CreateNodeKeeps | fs/server.go:278-324 | so does Create: a new file was opened under the id of the fid |
| ServerLaws.ReadKeeps | fs/server.go:326-356 | so does Read: only open files are read |
| ServerLaws.WriteKeeps | fs/server.go:392-418 | so does Write |
| ServerLaws.ClunkKeeps | fs/server.go:420-438 | so does Clunk: no other fid has the id that is closed |
| ServerLaws.RemoveNodeKeeps | fs/server.go:440-463 | so does Remove |
| ServerLaws.WstatKeeps | fs/server.go:512-591 | so does Wstat, renames included |
| ServerLaws.ConnFidInjective | fs/server.go:50-55 | connection and fid together identify a handle |
| ServerLaws.NextKeeps | fs/server.go:90-591 | every step keeps the invariant and uses at most one uid |
| ServerLaws.RunKeeps | fs/server.go:90-591 | every run keeps it while the uid counter has not gone round |
| ServerResults.OpenedEarlier | fs/server.go:326-438 | a handle is open exactly when an Open of it has no Close after it |
| ServerResults.OpenBeforeUse | fs/server.go:178-438 | in every run each Read, Write and Close a File gets comes after an Open of it under the same id with no Close between |
| ServerResults.TreeAlwaysOk | fs/server.go:278-591 | in every run links agree, uids are distinct, parents are older than children, and the qid tells the kind |
| ServerResults.WalkLaw | fs/server.go:178-237 | as a message: a walk succeeds exactly when the names lead somewhere, then binds a closed fid there under the same user with one qid per name, each that of its node, and nothing else changes; otherwise nothing does |
| ServerResults.WalkThenPath | fs/server.go:178-237 | a fid walked from the root stands for the node whose FullPath is the walked names |
| ServerResults.DotsLaw | fs/server.go:186-203 | as a message: a first ".." binds the new fid to the parent and "." to the node itself, closed, under the same user and with that node's qid, whatever names follow; without a parent nothing is bound and no qid returned |
| ServerResults.DownAndUp | fs/server.go:178-237 | walking down one name and then ".." binds the fid to the node one started from |
| ServerResults.UpPath | fs/server.go:186-194 | the FullPath of the node ".." leads to is that of the node without its last name |
| ServerResults.WstatAllOrNothing | fs/server.go:512-591 | as a message: refused exactly when a check fails, and then nothing changes; accepted, only this node's stat changes, field by field: name, group, length, time and the nine permission bits are what was asked for or as they were, and all else stays |
| ServerResults.WstatAllowed | fs/server.go:524-562 | the exact condition on configuration, user, stat and request under which a wstat is let through |
| ServerResults.MergedIdempotent | fs/server.go:564-584 | asking for the same changes twice is asking once |
| ServerResults.RefusalChangesNothing | fs/server.go:110-591 | a refused request leaves everything as it was, but for the fid of a Remove, an unreachable node of a Create and the record that a stream refused a write |
| Replies.ReadFits | fs/server.go:326-390 | a read reply of a file or a directory fits the negotiated size exactly when that is at least 11 |
| Replies.ReplyMatches | fs/server.go:95-591 | every handler's reply carries its request's tag and the reply type of its request, or is an RError, with the body its type byte announces |
| Replies.AcceptedByPeer | fs/server.go:95-591 | every reply that can be composed is parsed by the peer back to itself with nothing left over, and a read reply is within the negotiated size |
| Replies.NegotiatedSize | fs/server.go:95-108 | a version exchange returns the smaller of the client's size and 65535, and in any run on this and other connections up to the next every answered read is within it, if it holds the header, and is parsed whole by the peer |
| Replies.AnsweredUnless | server.go:120-221 | the exact requests that end in a Go panic, in the handler or when the writer composes the reply; all others are answered |
| Replies.OversizedStat | proto/stat.go:146-161 | a run of three ordinary steps after which asking for a stat panics, for every user and file name long enough |
| Provenance.StepGrants | fs/server.go:110-324 | a fid open after a step was open before it as it is, or the step is the Open, Create or Auth of that fid that was allowed to open it |
| Provenance.AccessWasGranted | fs/server.go:110-324 | in every run, in every configuration, each fid's user name was given out by an earlier attach on its connection, an authenticated one where that is required, and each open fid was opened by an earlier step of the run on that fid, at which the stat of the node, or of the directory for a create, allowed it to that user |
| HandlerLaws.AttachLaw | fs/server.go:146-176 | as a message: with authentication an attach succeeds exactly when afid's authentication ended well, and the fid is then the root's, closed, with the name established there, or the one asked for without authentication; otherwise nothing changes |
| HandlerLaws.OpenLaw | fs/server.go:239-276 | as a message: an open succeeds exactly on a closed fid with permission, never for writing a directory; a file is then open under its id and emptied exactly when bit 16 asks for it, a directory has its children as a snapshot; no other fid or node changes |
| HandlerLaws.CreateFound | fs/static.go:130-184 | a create is refused exactly when the name is taken; otherwise the name leads to the new node and no other name leads elsewhere |
| HandlerLaws.CreateLaw | fs/server.go:278-324 | as a message: the exact condition for a create, after which the fid is open on the new node and the name leads to it; the node has the mode, name, owner and group asked for, an unused uid and no content, and no other node changes but the directory by this child |
| HandlerLaws.ClunkLaw | fs/server.go:420-438 | as a message: a clunk always succeeds and frees the fid alone; an open file gets exactly one Close and its handle is not open any more |
| HandlerLaws.LookupKept | fs/static.go:144-158 | deleting a name hides that name and no other |
| HandlerLaws.RemoveLaw | fs/server.go:440-463 | as a message: the exact condition for a remove; the fid goes in any case, and of a removed node's directory only that name is gone |
| RequestLaws.UnboundRefused | fs/server.go:178-520 | a request on a fid that stands for nothing is refused and changes nothing |
| RequestLaws.VersionRefused | fs/server.go:95-108 | any version but 9P2000, and an Rversion, ends in a Go error and changes nothing |
| RequestLaws.FlushLaw | server.go:184-221 | a flush is answered and changes nothing |
| RequestLaws.StatLaw | fs/server.go:465-474 | as a message: the stat returned is the stored one but for the length, which is that of a file's content and zero for a stream |
| RequestLaws.ReadLaw | fs/server.go:326-390 | as a message: a read is refused exactly on a fid not open for reading or executing; a file gives its bytes at the offset, as many as asked for, left and allowed by the negotiated size, a directory the entries of its snapshot; nothing but the record of calls changes |
| RequestLaws.WriteLaw | fs/server.go:392-418 | as a message: a write is refused exactly on a fid not open for writing, a directory or an ended stream; otherwise the file has the new bytes at the offset, the old ones elsewhere and zeroes in the gap, and no other node changes |
| RequestLaws.AuthLaw | fs/server.go:110-144 | as a message: with authentication enabled, and only then, afid is open on a new file in no directory whose outcome is pending |
| RequestLaws.AuthDecides | fs/server.go:146-176 | nobody attaches through an authentication before it ends or after it fails, then a user of the name it gave, whatever name is asked for, and its first outcome stands |
| RequestLaws.FreshTree | fs/filesystem.go:215-223 | a new file system is an empty directory "/" with the owner, group and permissions asked for |
| RequestLaws.ConnectLaw | fs/server.go:90-93 | in every run a new connection gets the next number, which nobody has, and starts empty; the others do not notice |
| Siblings.SetStatKeepsIff | fs/filesystem.go:146-151 | writing a stat keeps sibling names distinct exactly when no sibling has its name |
| Siblings.WstatKeepsIff | fs/server.go:512-591 | an accepted wstat keeps them distinct exactly when it asks for no name or for a free one |
| Siblings.NamesDistinct | fs/static.go:120-184 | in every run whose renames are to names free at that moment no two siblings share a name, and every child is found by its name |
| Siblings.SharedName | fs/server.go:512-591 | a run of two attaches, two creates and a rename after which two siblings share a name, for all names |
| TreeObjects.FSNode.Make | fs/static.go:21-27 | a new file or directory object, a directory marked in mode and qid |
| TreeObjects.FSNode.Read | fs/static.go:45-56 | returns the part of the content that lies at the offset |
| TreeObjects.FSNode.Write | fs/static.go:58-72 | growing and copying leave the content WriteAt says, zeroes in the gap; it panics exactly when the sum leaves 64 bits or no slice has that length, and has then grown to the sum that went round if that is beyond the end |
| TreeObjects.Children | fs/static.go:120-128 | the loop's map holds for every name what Lookup finds |
| TreeObjects.ListChildren | fs/server.go:260-264 | ranging over the map in any order lists the visible children, each once |
| TreeObjects.LinkChild | fs/static.go:130-142 | the object links the child or refuses, as AddChild says |
| TreeObjects.UnlinkChild | fs/static.go:144-158 | the in-place compaction leaves what DeleteChild says: every child of the name gone and without parent |
| TreeObjects.FileSystem.constructor | fs/filesystem.go:215-223 | the new file system's view is NewFS |
| TreeObjects.FileSystem.CreateStatic | fs/static.go:163-184 | the objects take the Create step, also when the name is taken |
| TreeObjects.FileSystem.RMFile | fs/filesystem.go:263-269 | the objects take the Remove step, or refuse without a parent |
| TreeObjects.FileSystem.WalkLoop | fs/server.go:205-234 | the loop ends where Descend ends, with the qids along the way |
| ServerObjects.Connection.MarkOpen | fs/server.go:265-273 | changing the record in place changes this fid alone, because no other holds the record |
| ServerObjects.Connection.Bind | fs/server.go:22-36 | a new record replaces whatever the fid had |
| ServerObjects.Server.NewConn | fs/server.go:90-93 | the Connect step, with a number not in use |
| ServerObjects.Server.Version | fs/server.go:95-108 | the objects do what Negotiate says |
| ServerObjects.Server.Auth | fs/server.go:110-144 | likewise Auth |
| ServerObjects.Server.Attach | fs/server.go:146-176 | likewise Attach |
| ServerObjects.Server.Walk | fs/server.go:178-237 | the objects do what Walk says, which WalkLaw and DotsLaw spell out |
| ServerObjects.Server.Open | fs/server.go:239-276 | likewise Open, the snapshot in the order the map was walked |
| ServerObjects.Server.Create | fs/server.go:278-324 | likewise Create |
| ServerObjects.Server.Read | fs/server.go:326-390 | likewise Read |
| ServerObjects.Server.Write | fs/server.go:392-418 | likewise Write, with the panic of a far write and what it leaves |
| ServerObjects.Server.Clunk | fs/server.go:420-438 | likewise Clunk |
| ServerObjects.Server.Remove | fs/server.go:440-463 | likewise Remove |
| ServerObjects.Server.Stat | fs/server.go:465-474 | likewise Stat |
| ServerObjects.Server.Wstat | fs/server.go:512-591 | the checks and assignments one by one do what Wstat says, which WstatAllOrNothing spells out |
| ServerObjects.Server.Serve | server.go:184-221 | dispatching any message to the objects is Handle on their view, and keeps what every run keeps |
| ClientIO.WriteAtSplit | fs/static.go:58-72 | two adjacent writes are one |
| ClientIO.WrittenByte | fs/static.go:58-72 | a write leaves at each place the new byte, the old one, or a zero in the gap |
| ClientIO.ReadWritten | fs/static.go:45-72 | reading where one wrote gives what one wrote |
| ClientIO.ChunkFits | client/client.go:744-757 | a round of twrite sends the smaller of what is left, msize less 23 and iounit, and makes progress with a message that fits exactly when msize exceeds 23 and iounit is not 0 |
| ClientIO.WriteCallAccepted | client/client.go:740-773 | a write message within MaxMsgLen is parsed by the server back to itself |
| ClientIO.Twrite | client/client.go:740-773 | the loop ends, sends only messages within the connection's negotiated size, as few as that and the iounit allow, each parsed whole at the other end, and gets through exactly when one write of the buffer would; then it reports the full length and leaves the file as that write would, otherwise as the earlier chunks did |
| ClientIO.ReadAll | client/client.go:453-458 | reading to end of file with any counts collects the whole content |
| ClientIO.MostFits | client/client.go:644-652 | a read asks for at most what fits both the message size and the iounit |
| ClientIO.WriteThenRead | client/client.go:644-773 | what was written in chunks is what is read in chunks, for every buffer a slice can hold |
| ClientIO.ReadDirectory | client/client.go:453-467 | reading an open directory through the buffer and parsing gives the snapshot's stats as far as Stops says, which CompleteIff is about |
| ClientIO.ListDirectory | client/client.go:460-474 | opening, reading and parsing gives the stats of the visible children, each once, that far |
| Rpc.NextKeeps | server.go:110-228 | every step of reader, workers and writer keeps the invariant |
| Rpc.RunKeeps | server.go:110-228 | every interleaving keeps it, for a client that reuses no outstanding tag |
| Rpc.HandlerAnswers | server.go:184-221 | what a handler's result is sent as has the tag of its request and its reply type, or is an RError |
| Rpc.EveryReply | server.go:131-221 | in every run each reply on its way or written is what the file server's handler returned, in the state that some step of the run found it in, for the call it goes with |
| Rpc.OneReplyEach | server.go:110-228 | in every such run each request is on its way, answered or failed, in one place only; every reply written is the only one to a request that was made, is what the handler returned at some step of the run, and has the request's tag and reply type; the context check swallows none |
| Rpc.QuietMeansDone | server.go:131-152 | when nothing can move and a worker is left every request is answered or failed |
| Rpc.ServerStops | server.go:131-152 | left to itself the server stops after boundedly many steps |
| Rpc.NotQuietMoves | server.go:120-152 | until then, while the process runs, some step can be taken |
| Rpc.SharedTagLosesReply | fs/server.go:57-77 | whenever any two requests with one tag are taken the second reply can be swallowed, unless a handler panics |
| Rpc.TagTable.ContextOf | fs/server.go:57-67 | an existing context is shared, otherwise a live one is made |
| Rpc.TagTable.Drop | fs/server.go:69-77 | cancels exactly the context of the tag and forgets it |
| Rpc.HandleCall | server.go:184-228 | one call at a time: no reply is swallowed whatever the tags |
| Pool.SysIsRun | server.go:110-228 | whatever the interleaving, the file server under the workers goes through a run of its own handlers |
| Pool.PoolSafe | server.go:110-228 | with a pool of workers the tree stays well formed and files are opened before they are used, as in TreeAlwaysOk and OpenBeforeUse |
| Pool.NeverOverflows | server.go:175-179 | a client with at most 100 requests unanswered never makes the incoming queue panic, whatever its tags |
| Pool.FloodOverflowsIff | server.go:175-179 | requests sent before any is taken make it panic exactly when they are more than the room left |
| Pool.DownIff | server.go:120-221 | a step takes the process down exactly when it is a request one too many for the queue of 100, one whose handler panics, or a reply that cannot be composed |
| Pool.TakenInOrder | server.go:131-182 | in every run requests are taken in the order they arrived |
| Pool.WrittenInOrder | server.go:120-152 | in every run replies are written in the order workers hand them over |
| Pool.RequestsHandled | server.go:184-228 | every message of even type and an Rversion goes to the file server; any other ends the worker |
| Pool.DownByRequest | server.go:120-152 | a process that went down in a handler or in the writer met, when it handled some request, the condition of AnsweredUnless |
| ClientTags.NextKeeps | client/client.go:292-343 | every step of takers, callers, worker and server keeps the invariant |
| ClientTags.RunKeeps | client/client.go:292-343 | every run keeps it |
| ClientTags.OwnReply | client/client.go:69-95 | in every run a call that got a reply got its own, and one that waits has exactly one message on its way |
| ClientTags.TagsExclusive | client/client.go:316-343 | in every run free tags are distinct, given out before and disjoint from tags in use, which no two calls share, and no tag given out is lost |
| ClientTags.LastReturnedFirst | client/client.go:322-342 | the tag returned last is taken next, and a fresh one only when none is free |
| ClientTags.WorkerMoves | client/client.go:69-95 | whoever the worker holds a reply for is waiting for it |
| ClientTags.CounterGoesRound | client/client.go:322-331 | once all tags are out and none is free the third tag from there is one a call is using |
| ClientTags.TagsRunOut | client/client.go:316-331 | that point is reached by 65534 calls that take a tag before any is answered |
| ClientTags.Client.TakeFor | client/client.go:316-331 | the object takes the Take step: the top of the stack, or the next number if that is empty, and no other live call has it |
| ClientTags.Client.Register | client/client.go:292-298 | the object takes the Register step |
| ClientTags.Client.Deliver | client/client.go:71-94 | one round of the worker is the three steps pick, deliver, return: the reply goes to the call it answers and the tag onto the stack, unless it is 0 |
| Union.BindDescends | union/union.go:429-434 | following a bind leads to a table whose youngest entry is older |
| Union.Children | union/union.go:383-456 | the listing is defined for every stratified table, by recursion on bind age, and every directory in it has the table of the one listed |
| Union.FindDir | union/union.go:169-199 | so is the search, and what it finds has the table it started from |
| Union.ChildrenShown | union/union.go:383-456 | every child comes from an entry of the table and is named below its directory |
| Union.LastWins | union/union.go:383-456 | a name is shown exactly when an entry gives it that no replacing entry hides, and as the last such entry gives it |
| UnionListing.PartLaw | union/union.go:392-447 | an entry counts when it is mounted on the directory or the directory was listed through it, and then gives what its client lists at the relative path, or the children of what is found there under the bound directory |
| UnionListing.FindIff | union/union.go:169-199 | a path leads to a directory exactly when each part is shown as a directory by the one before |
| Union.ListChildren | union/union.go:383-456 | the loop ends and returns Children |
| Union.Locate | union/union.go:169-199 | the loop ends and returns FindDir |
| Union.CollectStats | union/union.go:416-428 | the inner loop builds the nodes of one client's entries, later names over earlier |
| Union.Rebase | union/union.go:435-447 | the inner loop rewrites mount, path and table of every child |
| Union.NextKeeps | union/union.go:635-778 | mounting, unmounting and binding anything but the root keep the stratification |
| Union.BindKeepsIff | union/union.go:667-698 | a bind keeps the stratification exactly when its source is not the root |
| UnionDepth.ChildrenAgree | union/union.go:383-456 | the recursion cut off at a depth gives nothing or what Children gives, and on a stratified table the age of the youngest entry is depth enough |
| UnionDepth.FindAgree | union/union.go:169-199 | the same for the search |
| UnionDepth.StratifiedEnds | union/union.go:383-456 | every listing of a stratified file system ends |
| UnionDepth.NeverEnds | union/union.go:383-456 | a table with an entry that leads back to the directory listed, not hidden by an earlier one, exhausts every depth |
| UnionDepth.RootBindEndsIff | union/union.go:667-698 | after binding the root its listing ends exactly when the bind is not onto the root's own path, or has no path to follow, or was put behind an entry that answers and replaces what follows |
| UnionBelow.StepIsNext | union/union.go:635-778 | on stratified tables the steps that BelowEnds allows are those of Union |
| UnionBelow.BelowEnds | union/union.go:169-456 | after any mounts, unmounts and binds, followed by any mounts, unmounts and binds of the root onto paths from which relative paths are shorter, every directory below the root is found and listed in boundedly many nested calls |
| UnionBelow.CleanShortens | union/union.go:383-456 | every clean mount point but "/" is such a path, for the results of filepath.Join on a clean path and a plain name and of filepath.Rel on clean paths |
| UnionLoop.LaterBindLoops | union/union.go:667-698 | a bind of another directory after that can make a listing exhaust every depth: "/a/b" bound onto "/b" with the root on "/a" |
| Union.Run | union/union.go:635-778 | every run of such operations keeps it |
| Union.Reachable | union/union.go:169-456 | in every reachable table a bind leads strictly down, and everything found below it shares its table |
| Union.UnmountUndoes | union/union.go:704-778 | unmounting what was just added gives the old table back if nothing matched before |
| Union.UnmountClientUndoesMount | union/union.go:635-752 | likewise for Mount and UnmountClient on whole states |
| UnionOptions.MountLaw | union/union.go:635-660 | a client mounted on the root that answers: its names are the whole listing after Replace; after Before they are added and the old ones win; after After they are added and win, unless a replacing entry ends the listing before; otherwise the root shows what it did |
| UnionOptions.BindLaw | union/union.go:667-698 | the same for a bound directory and its children; a path that leads nowhere changes nothing |
| UnionOptions.UnmountLaw | union/union.go:704-778 | unmounting takes out of the table exactly the entries at the mount point: all, those of the client, or those bound from directories of the path |
| Union.UnionFS.MountClient | union/union.go:635-660 | the object takes the Mount step, whose meaning for the listing is MountLaw |
| Union.UnionFS.BindPath | union/union.go:667-698 | the object takes the Bind step, whose meaning for the listing is BindLaw, fails exactly when the path is not found, and stays valid exactly when the path is not the root |
| Union.UnionFS.UnmountAt | union/union.go:704-727 | the loop keeps the entries of other mount points in order and returns the clients of this one |
| Union.UnionFS.Unmount | union/union.go:732-778 | the loops of UnmountClient and UnmountBind keep the entries they do not match |

## Left out

- TLS, certificates, SASL, libauth, dialing and listening, srv and the commands: I/O and foreign libraries. An authentication is a step that yields a name or an error.
- fs/real, fs/dynamic.go, fs/listener.go, fs/stream_file.go, SavedStream: wrappers over the operating system, hooks, pipes or a real file.
- Timers and sleeps: a timeout is a choice made by the run.
- WalkFail and custom hooks: the tree is modelled with CreateStaticFile, CreateStaticDir and RMFile, each present or absent.
- Handlers as sequences of smaller steps: a handler runs as one step, as its locks are not modelled; requests of different connections interleave between steps.
- The read of the reader list at fs/streams.go:296 is one step with the first pass of the Write.
- SingleStream after Close, and closing a chanReader behind its stream's back.
- Client fids, the path cache and flushAll; a flushed tag would never come back to the stack.
- ClientTags.Next: fresh tags stop at 65535, where the uint16 counter would go round (`CounterGoesRound` says what happens there).
- ServerLaws.RunKeeps: runs with fewer than 2^64 uids and 2^32 connections.
- Rpc.Next: writing to the connection always succeeds, and a panic under a request of another connection is not passed on to this one.
- Listing a directory while its children's stats change: the snapshot keeps the nodes, and the round trip is about stats that stay the same.
- Unions of files, creating and removing through a union, and unionDir.find: unfinished in the code. Nodes that Children returns are made anew on each call and modelled as values.
- Memory running out, and the capacity by which append grows a slice: a slice of bytes can have up to 2^48 of them (`MAX_ALLOC`, the limit of a 64-bit platform), and making a longer one panics.
- The texts of error replies: a parameter of `Response`.
- UnionDepth.RootBindEndsIff: about the root's listing. `BelowEnds` settles the directories below it when the root is bound onto other paths; those below a root bound onto its own path are not settled, nor which later binds of other directories go round (`LaterBindLoops` is one that does).
- How far bytes.Buffer grows: only that it does when fewer than 512 bytes are free, and then has at least 512.
- FSNode: StaticDir, StaticFile and the authentication file are one class told apart by a field; the server and the conn's sync.Map are plain fields.
