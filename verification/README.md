# Calabash, modelled and proved

Calabash is a small HTTP framework in C++ with an example application that manages students' leave
notes. This project models its hard parts in Dafny and proves what they are for.

* **Connections.** One event-loop thread accepts sockets, arms them in epoll for one event each, detaches
  a socket that fired and queues it; worker threads serve it and then arm it again or remove it.
  `ThreadPool`, `ObjectPool`, `Sockets` and `Connection` model this as a transition system over any number
  of slots, descriptors, workers and tasks, one step per kernel call, critical section or shared write.
  `ConnectionSafety` proves what holds in every run under every interleaving, `ConnectionFates` what
  becomes of every accepted connection, `ConnectionRemoval` that a removal goes through among the other
  threads, `ConnectionProgress` that no thread is ever stuck, and `ConnectionWitnesses` gives the runs that
  lose a socket or a connection.
  `HttpTask` ties the outcome of a request to what becomes of its socket.
* **Codecs.** `Base64` and `Base64Bits` against section 4 of RFC 4648, `Md5Rounds` and `Md5` against
  sections 3.1 to 3.5 of RFC 1321, and `Token`, which puts a digest, a cyclic mask and Base64 together.
  `Md5Vectors` and `Vectors` work out examples of the standards and fix alphabets and names as literal text.
* **HTTP.** `UrlCoding` (section 2.1 of RFC 3986), `RequestHead` and `RequestRoundTrip` (the head parser),
  `RequestBody` (receiving in pieces), `Response` (framing and partial sends) and `Decimal`.
* **Dispatch.** `Dispatch` runs arbitrary handler programs over the shared indices of `Server::Handle`;
  `Routes` is the shipped route table and its token guard.
* **Leave notes.** `Leave` is the packed status and the approval workflow under concurrent requests;
  `Paging` is the paged search.

`dafny verify dfyconfig.toml` checks the whole project.

## Where the code and its intent differ

The model follows the code, with these exceptions and findings.

* `Allocate` holds `mutex_` and calls `AllocNewBlock`, which locks it again (src/include/util/object_pool.h:51,
  56, 78). Growth is part of the one atomic step of Allocate here.
* `Format` appends a two-character array that has no terminator (src/util/md5.cpp:104-110). The model appends
  the two digits, which is what test/util/md5_test.cpp expects.
* `is_junior_` shares a union with `mentor_` (example/include/app/student_mange_server.h:43-46). Writing it sets
  the mentor's decision to Passed (true) or PendingApproval (false).
* Bytes are unsigned. With a signed `char`, bytes of 128 and above index the Base64 tables with negative numbers
  and sign-extend in MD5; `Base64Bits.SignedIndexInRange`, `Base64Bits.DecoderIndexInRange` and
  `Token.SevenBitStays` say what holds either way.
* False as a general claim, with the exact condition proved instead: sockets are never lost
  (`ConnectionSafety.WhatAbandons`), descriptors are never misused (`ConnectionSafety.NoMisuseFromStart`), remove
  closes the connection (`Sockets.RemoveCloses`, not on descriptor 0), every accepted connection is closed or owned
  (`ConnectionFates.FateOfConnection`), shutdown runs every task (`ThreadPool.FinishedAtShutdownIff`), the pool limit
  (`ObjectPool.LimitHoldsIffSane`), the padding of messages of 2^29 bytes and more (`Md5.WordsAgreeIff`), the
  round trip of users with a bar (`Token.TokenRoundTrip`), of non-canonical texts (`Base64.RoundTripIffCanonical`,
  `UrlCoding.RoundTripIffCanonical`), of heads without headers (`RequestRoundTrip.HeadRoundTripIff`), of escapes in
  lower case (`UrlCoding.DecodeAgreesIff`), of a Content-Length set by hand (`Response.ClientReadsFrame`), and of
  updates that race (`Leave.UpdateIsAloneIff`, `Leave.NothingLostIff`).

## Model

| member | source | states |
|---|---|---|
| `ThreadPool.NoLostWakeUp` | src/thread/thread_pool.cpp:8-20 | In every reachable state in which a worker sleeps, the queued tasks are at most the pushes not yet notified plus the awake workers, and after stop a sleeper implies that notify_all is still due; spurious wake-ups allowed. |
| `ThreadPool.RestingPoolIsEmpty` | src/include/thread/thread_pool.h:45-55 | A pool with workers in which nobody is awake or running and no notification is due has an empty queue. |
| `ThreadPool.AcquireOutcome` | src/thread/thread_pool.cpp:11-18 | A worker that takes the lock sleeps exactly when the queue is empty and the pool runs, exits exactly when it is empty after stop, and otherwise takes the oldest task. |
| `ThreadPool.FirstInFirstOut` | src/include/thread/thread_pool.h:37-57 | Over every run started tasks are a prefix of accepted tasks, the queue is the rest, and each started task has finished or is run by exactly one worker. |
| `ThreadPool.NothingLostAtShutdown` | src/thread/thread_pool.cpp:27-36 | Once all workers of a non-empty pool have exited, stop is set, the queue is empty and every accepted task was started and finished once. |
| `ThreadPool.PoolWithoutWorkersStartsNothing` | src/thread/thread_pool.cpp:22-23 | In every run of a pool built with no threads nothing is ever started. |
| `ThreadPool.FinishedAtShutdownIff` | src/thread/thread_pool.cpp:6-36 | When all workers have exited, every accepted task has finished exactly when the pool had a worker or nothing was accepted; otherwise all of it is still queued. |
| `ThreadPool.PoolWithoutWorkersLosesTasks` | src/thread/thread_pool.cpp:22-23 | A run in which such a pool accepts a task and is joined without running it. |
| `ThreadPool.StepAfterStopShrinks` | src/thread/thread_pool.cpp:8-20 | After stop every step shrinks a measure of queue, workers and notifications; an enqueue is refused and changes nothing. |
| `ThreadPool.StoppedPoolCanMove` | src/thread/thread_pool.cpp:27-36 | After stop, as long as a worker has not exited, some step other than an enqueue is possible. |
| `ThreadPool.ShutdownIsBounded` | src/thread/thread_pool.cpp:27-36 | After stop no run is longer than the measure. |
| `ThreadPool.ShutdownCompletes` | src/thread/thread_pool.cpp:27-36 | A run that cannot go on after stop has all workers exited and every accepted task finished. |
| `ThreadPool.RunKeepsInv` | src/thread/thread_pool.cpp:6-36 | The pool's invariant is kept by every run. |
| `ObjectPool.EverySlotIdleOrLive` | src/include/util/object_pool.h:49-84 | Over every run, with block sizes changing between growths, idle objects are listed once, are not live, and idle and live together are all objects of all blocks; the counter is the live count. |
| `ObjectPool.GrantsFreshSlot` | src/include/util/object_pool.h:49-61 | The pool refines a set allocator: a grant is a slot nobody has, and within the limit it refuses exactly when the limit is reached. |
| `ObjectPool.LimitHoldsIffSane` | src/include/util/object_pool.h:44-53 | The limit holds throughout a run exactly when it is never set below the live count. |
| `ObjectPool.NeverRefusesAboveLimit` | src/include/util/object_pool.h:52-54 | Above its limit the pool never refuses, because the test is an equality. |
| `ObjectPool.GrowthAfterSetBlockSize` | src/include/util/object_pool.h:39-42 | A growth adds as many objects as the block size last set says. |
| `ObjectPool.LastDeletedFirstGranted` | src/include/util/object_pool.h:57-73 | What was deleted last is granted first. |
| `ObjectPool.NewPoolGrants` | src/include/util/object_pool.h:16-18 | A new pool has no limit, and its first grant is the last object of its first block. |
| `ObjectPool.Pool.AllocNewBlock` | src/include/util/object_pool.h:77-84 | Adds a block of the current size and lists its objects as idle. |
| `ObjectPool.Pool.Allocate` | src/include/util/object_pool.h:50-61 | Grants the last idle object, growing first when there is none, or refuses at the limit. |
| `ObjectPool.Pool.Delete` | src/include/util/object_pool.h:69-74 | Returns a live object to the idle list and keeps the invariant. |
| `ObjectPool.Pool.SetMaxSize` | src/include/util/object_pool.h:44-47 | Sets the limit and nothing else. |
| `ObjectPool.Pool.SetBlockSize` | src/include/util/object_pool.h:39-42 | Sets the size of later blocks and nothing else. |
| `Sockets.CloseWorks` | src/socket/socket.cpp:58-64 | The guarded close of a socket that is not registered closes its own connection, once, exactly when its descriptor is not 0, and leaves every other socket's descriptor and registration alone. |
| `Sockets.RemoveCloses` | src/socket/socket_handler.cpp:39-42 | remove frees the object and closes its connection once, exactly when its descriptor is not 0; on descriptor 0 the connection stays open. |
| `Sockets.DestroyWorks` | src/socket/socket.cpp:15-17 | Destroying a cleared socket closes nothing, even if its old number is in use again. |
| `Sockets.AddWorks` | src/socket/socket_handler.cpp:29-32 | Arming a socket that is not registered registers exactly it. |
| `Sockets.DelWorks` | src/socket/socket_handler.cpp:34-37 | Detaching a registered socket removes exactly its registration. |
| `Sockets.OwnersApart` | src/socket/socket_handler.cpp:60-66 | Two live sockets with open connections have different descriptors. |
| `ConnectionSafety.StepKeepsInv` | src/socket/socket_handler.cpp:29-87 | Every step of the event loop, of a worker and of the environment keeps the protocol invariant, and leaves abandoned sockets alone. |
| `ConnectionSafety.RunKeepsInv` | src/socket/socket_handler.cpp:44-87 | So does every run, under every interleaving. |
| `ConnectionProgress.EventDecides` | src/socket/socket_handler.cpp:70-84 | In every state, whatever flags an event carries, its socket is detached, then removed exactly when the peer hung up or there is an error, and queued exactly when there is input and neither. |
| `ConnectionProgress.LoopCanMove` | src/socket/socket_handler.cpp:51-86 | The event loop is never stuck: in every state one of its own steps is possible. |
| `ConnectionProgress.WorkerCanMove` | src/thread/thread_pool.cpp:8-20 | No worker that is awake is ever stuck. |
| `ConnectionSafety.ExactlyOnePlace` | src/socket/socket_handler.cpp:51-86 | In every reachable state a live socket is reachable in exactly one way (armed interest, event of the batch, queue entry, thread at work) or is abandoned and reachable in none; other objects are not reachable. |
| `ConnectionSafety.NoSharedSocket` | src/web/http_task.cpp:10-28 | No two threads work on one socket, and nothing else can reach it meanwhile. |
| `ConnectionSafety.AttachLetsGo` | src/web/http_task.cpp:24-24 | A thread that has attached a socket has no reference to it left, and no other thread has one. |
| `ConnectionSafety.StepFaults` | src/socket/socket_handler.cpp:29-42 | A step adds a fault exactly when it attaches a socket whose accept failed, and then the one of adding descriptor -1. |
| `ConnectionSafety.NoMisuseFromStart` | src/socket/socket_handler.cpp:29-87 | A run misuses no descriptor and no object (no ADD of a registered one, DEL of an absent one, double close, close while registered or of another's descriptor, touch of a dead object) exactly when it attaches no socket whose accept failed; then the one fault is adding descriptor -1; runs whose accepts succeed attach none. |
| `ConnectionSafety.DescriptorsInOrder` | src/socket/socket_handler.cpp:39-42 | Over every run live sockets hold different open descriptors, every connection is closed at most once, and an interest is always in a live socket's own descriptor, although remove closes and the destructor closes again. |
| `ConnectionSafety.WorkingSocketsAreConnected` | src/web/http_task.cpp:10-28 | A socket that is armed, fired, queued or served holds its own open connection. |
| `ConnectionSafety.AbandonedForever` | src/socket/socket_handler.cpp:62-65 | An abandoned socket stays live, keeps its descriptor and is never reached again. |
| `ConnectionSafety.WhatAbandons` | src/socket/socket_handler.cpp:56-84 | A step abandons a socket exactly when the pool is full while the socket's event is left in the batch, its task throws, or its accept failed and it is attached. |
| `ConnectionFates.StepAccounts` | src/socket/socket_handler.cpp:44-87 | Every step keeps each accepted connection open or closed, and leaks a connection exactly at the break for a full pool or when a socket on descriptor 0 is freed. |
| `ConnectionFates.FateOfConnection` | src/socket/socket_handler.cpp:39-87 | Over every run each accepted connection is either closed, once, or open; an open one is carried by one live socket, or by the loop on its way into one, or was leaked by a step of the run of those two kinds. |
| `ConnectionWitnesses.FullPoolLoses` | src/socket/socket_handler.cpp:60-65 | A run from the start in which the break abandons an armed socket and leaks the connection just accepted. |
| `ConnectionWitnesses.ThrowingTaskLoses` | src/include/thread/thread_pool.h:40-53 | A run in which a task that throws abandons its socket. |
| `ConnectionWitnesses.FailedAcceptMisuses` | src/socket/socket_handler.cpp:60-69 | A run in which a failed accept is attached: descriptor -1 is added and the socket abandoned. |
| `ConnectionWitnesses.DescriptorZeroLeaks` | src/socket/socket.cpp:58-64 | A run in which standard input is closed, accept gives descriptor 0, and that connection is never closed although its socket is removed. |
| `HttpTask.Serve` | src/web/http_task.cpp:10-28 | The task parses, dispatches or looks up a file, and then attaches, removes or throws, as its specification over receives, handlers and the look-up says. |
| `HttpTask.EndingDecides` | src/web/http_task.cpp:24-27 | In every state of the protocol a socket whose task ended is armed, being removed by its worker, or abandoned, as the task ended, and no other socket is moved. |
| `ConnectionRemoval.StepUntouches` | src/socket/socket_handler.cpp:29-87 | No step of any thread but the remover's own next one changes the hand, the object or the kernel's records of a socket that is being removed. |
| `ConnectionRemoval.RemovalCompletes` | src/socket/socket_handler.cpp:39-42 | With any steps of other threads between close, clear and delete, the removal frees the object and closes its connection, once, exactly when it is not on descriptor 0. |
| `HttpTask.ShippedTaskLost` | src/web/http_task.cpp:10-28 | On the shipped server a request loses its socket exactly when its head fails to parse by an unfinished escape or a length error, or its path is not bound and the look-up of a static file throws, or its handlers throw an exception that is not a standard one or an HTTP or JSON one whose text cannot be printed. |
| `HttpTask.ShippedTaskKept` | src/web/http_task.cpp:12-27 | On the shipped server the connection is kept exactly for complete requests that are not lost, and the socket is removed exactly when the connection ends before the request does. |
| `HttpTask.UnboundPathEnds` | src/web/server.cpp:79-92 | For a path that is not bound, the socket is lost exactly when there is a static path and looking up the file throws. |
| `HttpTask.CompleteRequestKept` | src/web/http_task.cpp:12-24 | A rendered request with its declared body, for a bound path whose handlers let nothing escape, ends with the socket armed again, however it is cut. |
| `HttpTask.ShortRequestRemoved` | src/web/http_task.cpp:25-27 | When the connection ends before the declared body, or before anything, the socket is removed. |
| `HttpTask.UnfinishedEscapeLost` | src/web/request_maker.cpp:99-109 | Every rendered request whose path has an unfinished escape loses its socket, on every server. |
| `ConnectionSafety.ConnectionLimit` | src/socket/socket_handler.cpp:49-65 | The number of live sockets never exceeds max_connections. |
| `ConnectionSafety.QueuedSocketsAreServed` | src/socket/socket_handler.cpp:80-83 | Queued sockets are taken in order, and none waits while all workers sleep and no notification is due. |
| `Base64.Encode` | src/util/base64.cpp:37-60 | The loop computes the encoding specified by groups of three bytes and a padded last group. |
| `Base64.EncodedIsRfc` | src/util/base64.cpp:37-60 | That encoding is the one of section 4 of RFC 4648: 24-bit quanta cut into six-bit groups, the last one filled up with zero bits and padded. |
| `Vectors.AlphabetIsStandard` | src/util/base64.cpp:11-35 | The symbols are the alphabet of RFC 4648, and the decoder gives each its place. |
| `Vectors.ValueOfOthers` | src/util/base64.cpp:18-35 | Bytes that are neither a symbol nor the padding have no value; the padding counts as 0. |
| `Base64.Decode` | src/util/base64.cpp:62-83 | The loop decodes group by group up to the padding, and gives nothing for a text of another length or with a foreign symbol. |
| `Base64.IndicesAreGroups` | src/util/base64.cpp:40-46 | The four table indices are the six-bit groups of the 24-bit quantity. |
| `Base64Bits.EncoderShifts` | src/util/base64.cpp:40-53 | The encoder's shifts, masks and ors on eight bits are those indices. |
| `Base64Bits.DecoderShifts` | src/util/base64.cpp:72-80 | The decoder's shifts and ors, cut to eight bits, are the bytes of a group. |
| `Base64.DecodedUndoesEncoded` | src/util/base64.cpp:37-83 | Decoding undoes encoding for every byte string. |
| `Base64.EncodedLength` | src/util/base64.cpp:37-60 | An encoded text has 4 * ceil(n / 3) symbols. |
| `Base64.EncodedIsCanonical` | src/util/base64.cpp:37-60 | Encoded texts have alphabet symbols, padding in the last group only, and zero spare bits. |
| `Base64.RoundTripIffCanonical` | src/util/base64.cpp:62-83 | Encoding undoes decoding exactly on canonical texts. |
| `Base64.ForeignByteRejects` | src/util/base64.cpp:71-79 | A byte outside the alphabet, where the decoder looks, makes the whole text decode to nothing, whatever was decoded before. |
| `Base64.PaddingEnds` | src/util/base64.cpp:74-78 | What follows a padded group does not matter. |
| `Base64.OddLengthIsNothing` | src/util/base64.cpp:63-63 | A text whose length is not a multiple of four decodes to nothing. |
| `Base64Bits.SignedIndexInRange` | src/util/base64.cpp:40-53 | With signed `char` the encoder's table indices stay in range exactly for bytes below 128, and then are the unsigned ones. |
| `Base64Bits.DecoderIndexInRange` | src/util/base64.cpp:66-69 | With signed `char` the decoder's table indices are in range exactly for texts of bytes below 128, and then are the unsigned ones. |
| `Base64Bits.CanonicalIsSevenBit` | src/util/base64.cpp:62-83 | Canonical texts have only bytes below 128. |
| `Md5Rounds.ShiftIsCircular` | src/include/util/md5.h:54-56 | `shift` is the 32-bit rotation for every amount in the table. |
| `Md5Vectors.BitLawsOfF` | src/include/util/md5.h:38-40 | F takes the bit of c where b is set and of d elsewhere. |
| `Md5Vectors.BitLawsOfG` | src/include/util/md5.h:42-44 | G takes the bit of b where d is set and of c elsewhere. |
| `Md5Vectors.BitLawsOfH` | src/include/util/md5.h:46-48 | H is the parity of the three bits. |
| `Md5Vectors.BitLawsOfI` | src/include/util/md5.h:50-52 | I is the parity of b and c where d is set and the complement of c elsewhere. |
| `Md5Rounds.SameIndex` | src/util/md5.cpp:63-74 | The word index computed from the step number is the one of the standard, which restarts every round. |
| `Md5Rounds.TurnsAreSteps` | src/util/md5.cpp:60-80 | Renaming the registers every turn gives the 64 operations of section 3.4 of RFC 1321, whose roles rotate. |
| `Md5Rounds.RoundsAreBijective` | src/util/md5.cpp:60-80 | For every block the rounds before the feed-forward are a bijection on the registers: an explicit inverse run undoes them, and they undo it. |
| `Md5.OrExtends` | src/util/md5.cpp:92-94 | Or-ing the next byte into its word extends the little-endian reading by that byte and changes no other word. |
| `Md5.WordsAgreeIff` | src/util/md5.cpp:88-98 | The words the source builds are those of message, marker, zeros and 64-bit length exactly while the message has fewer than 2^29 bytes. |
| `Md5.MarkerBeforeLength` | src/util/md5.cpp:89-96 | The marker never overlaps the words of the length. |
| `Md5.PaddingInjective` | src/util/md5.cpp:88-98 | Different messages have different words. |
| `Md5.BytesMakeWord` | src/util/md5.cpp:100-107 | The four printed bytes, low-order byte first, are the word. |
| `Md5.DigitsInjective` | src/util/md5.cpp:100-113 | The eight digits determine the word. |
| `Md5.MD5.Padding` | src/util/md5.cpp:88-98 | Fills the array with the words above, in place. |
| `Md5.MD5.IterateFunc` | src/util/md5.cpp:60-86 | Updates the registers as section 3.4 processes one block, feed-forward included. |
| `Md5.MD5.Format` | src/util/md5.cpp:100-113 | Prints a word as eight upper-case hexadecimal digits, low-order byte first. |
| `Md5.MD5.Encode` | src/util/md5.cpp:43-58 | Equals the digest of RFC 1321 for every message below 2^29 bytes, and always is 32 hexadecimal digits. |
| `Md5Vectors.DigestOfEmpty` | src/util/md5.cpp:43-58 | The digest of the empty message is the one of section A.5 of RFC 1321, so the sine table, the amounts, the initial registers and the order of the digits are the standard's. |
| `Md5Vectors.DigestOfAbc` | src/util/md5.cpp:43-58 | So is the digest of "abc". |
| `Token.MaskTwice` | src/util/token.cpp:19-22 | Masking twice with one key gives the text back. |
| `Token.XorLaws` | src/util/token.cpp:52-52 | The exclusive or of bytes: zero leaves the other alone, and order and grouping do not matter. |
| `Token.MaskOfZeros` | src/util/token.cpp:47-54 | Masking zeros writes the key, over and over. |
| `Token.MaskTellsKeys` | src/util/token.cpp:47-54 | On a text at least as long as the keys, two keys of one length mask alike exactly when they are the same. |
| `Token.MaskIsPlainIff` | src/util/token.cpp:47-54 | The mask leaves a text as it is exactly when the key bytes used are zero. |
| `Token.Mask` | src/util/token.cpp:49-54 | The loop masks byte i with key byte i modulo the key's length. |
| `Token.TokenRoundTrip` | src/util/token.cpp:15-58 | Opening a token with its key gives user and time back exactly for users without a bar. |
| `Token.BarShortensUser` | src/util/token.cpp:27-31 | A user with a bar comes back cut at the first bar. |
| `Token.AcceptedIff` | src/util/token.cpp:15-38 | A text is accepted with given claims exactly when it decodes to the mask of digest and payload of those claims and the user has no bar. |
| `Token.PayloadHasBar` | src/util/token.cpp:61-64 | The payload is user, a vertical bar, and time. |
| `Token.ReissueIffCanonical` | src/util/token.cpp:47-66 | Making the token of accepted claims again gives the same text exactly for canonical texts. |
| `Token.SevenBitStays` | src/util/token.cpp:47-66 | Bytes below 128 stay below 128 through payload, digest and mask. |
| `Token.Token.Parse` | src/util/token.cpp:15-38 | The parsing constructor accepts exactly the texts that open, and sets user, time and the in-time flag. |
| `Token.Token.Issue` | src/util/token.cpp:40-45 | A token made for a user is useful and holds user and time. |
| `Token.Token.ToString` | src/util/token.cpp:58-66 | Digest and payload of a useful token, nothing otherwise. |
| `Token.Token.Encode` | src/util/token.cpp:47-56 | The token text of user and time, nothing when not useful. |
| `UrlCoding.UrlEncode` | src/web/request_maker.cpp:85-97 | Writes each byte itself or as an escape. |
| `UrlCoding.UrlDecode` | src/web/request_maker.cpp:99-115 | Reads bytes and escapes, or fails on an unfinished escape. |
| `Vectors.ReservedIsTable` | src/web/request_maker.cpp:13-14 | The escaped bytes are those of the table and those of 128 and above. |
| `Vectors.DigitsAreTable` | src/web/request_maker.cpp:13-13 | The digits are 0 to 9 and A to F, and each has its index. |
| `Vectors.PercentVectors` | src/web/request_maker.cpp:85-115 | "a_b" is written as "a%5Fb", and "a%20b" is read as "a b". |
| `UrlCoding.DecodeUndoesEncode` | src/web/request_maker.cpp:85-115 | Decoding undoes encoding for every byte string. |
| `UrlCoding.DecodeFailsIff` | src/web/request_maker.cpp:99-115 | Decoding fails exactly when a percent sign the scan looks at has fewer than two bytes after it. |
| `UrlCoding.RoundTripIffCanonical` | src/web/request_maker.cpp:85-115 | Encoding undoes decoding exactly on texts whose escapes are in upper case and needed. |
| `UrlCoding.EscapeAgreesIff` | src/include/web/request_maker.h:88-92 | On the escapes of RFC 3986 the decoder gives the escaped byte exactly when neither digit is in lower case. |
| `UrlCoding.DecodeAgreesIff` | src/web/request_maker.cpp:99-115 | On every text the decoder agrees with the decoding of RFC 3986, in what it gives and in what it refuses, exactly when an escape is unfinished or every scanned escape has two digits, none in lower case. |
| `UrlCoding.Split` | src/include/web/request_maker.h:57-66 | The loop gives the pieces between separators. |
| `UrlCoding.PiecesOfParts` | src/include/web/request_maker.h:57-66 | A separator ends a piece, and a text without one is a piece. |
| `UrlCoding.JoinPieces` | src/include/web/request_maker.h:57-66 | Joining the pieces gives the text back, less one separator at its end. |
| `UrlCoding.PiecesAreClean` | src/include/web/request_maker.h:57-66 | No piece has the separator in it. |
| `UrlCoding.PieceCount` | src/include/web/request_maker.h:57-66 | There are as many pieces as separators, plus one for what follows the last. |
| `RequestHead.GetNextWord` | src/include/web/request_maker.h:40-47 | Takes the word at the position and the blanks after it; a blank at the position gives a length error, a scan past the bytes an overrun. |
| `RequestHead.GetNextLine` | src/include/web/request_maker.h:49-55 | Takes the line up to the first break, and the break. |
| `RequestHead.PathIsDecodedFront` | src/web/request_maker.cpp:62-63 | The path is the percent-decoded part of the target before the first question mark. |
| `RequestHead.ParseHttpHeader` | src/web/request_maker.cpp:45-79 | Fills the request and gives the offset of the body, or the way the parse fails. |
| `RequestHead.ParseHeaderLines` | src/web/request_maker.cpp:51-60 | Fills the header map up to the empty line; the first value of a name stays. |
| `RequestHead.ParseTarget` | src/web/request_maker.cpp:62-76 | Fills path and parameters from the target. |
| `RequestRoundTrip.HeadRoundTrip` | src/web/request_maker.cpp:45-79 | A rendered head with at least one header parses to its words, decoded target and headers, whatever follows, and the offset is its length. |
| `RequestRoundTrip.EmplaceAllIsFirst` | src/web/request_maker.cpp:58-58 | The header map has exactly the names of the list, each with its first value. |
| `RequestRoundTrip.EmptyHeaderListMisread` | src/web/request_maker.cpp:49-53 | Without headers the parse fails or runs into the body. |
| `RequestRoundTrip.HeadRoundTripIff` | src/web/request_maker.cpp:45-79 | A rendered head is read back exactly when it has a header. |
| `RequestRoundTrip.FieldFailsIff` | src/web/request_maker.cpp:54-57 | A header line fails by its length exactly when it starts with a blank, and runs past its end exactly when it does not and no value follows its first word. |
| `Vectors.RenderedBytes` | src/web/request_maker.cpp:45-60 | A rendered head, byte for byte. |
| `Vectors.BlanksAreThese` | src/include/web/request_maker.h:40-55 | The blanks are space, carriage return, line feed and tab, and lines end with the two in the middle. |
| `Vectors.TargetVectors` | src/web/request_maker.cpp:62-76 | Targets with a parameter, with a second question mark and with none, and what the path and the parameters become. |
| `RequestRoundTrip.HeadIsLocal` | src/web/request_maker.cpp:45-79 | Texts that agree on the bytes of the head parse alike. |
| `RequestRoundTrip.ValueKeepsEquals` | src/web/request_maker.cpp:66-74 | A parameter without escapes keeps the equals sign in its value. |
| `Decimal.ReadPrinted` | src/web/request_maker.cpp:22-22 | A printed size is read back exactly when it fits in a signed 64-bit number. |
| `Decimal.StrtolReads` | src/web/request_maker.cpp:22-22 | Spaces before a number and what follows its digits do not matter, a sign does, and what is too large is kept within 64 bits. |
| `Decimal.StrtolOfOther` | src/web/request_maker.cpp:22-22 | A text that does not start with a number, the empty one of a missing header included, reads as 0. |
| `Decimal.NoLeadingZero` | src/web/response.cpp:67-72 | No number but 0 is printed with a zero in front. |
| `RequestBody.TestPrefix` | src/include/web/request_maker.h:68-86 | The content-type tests are prefix tests. |
| `Vectors.DeclaredInWords` | src/web/request_maker.cpp:22-40 | What a head with "Content-Length" of "5" and "Content-Type" of "application/json" declares. |
| `Vectors.NothingDeclared` | src/web/request_maker.cpp:22-40 | Without these headers no body is expected, and it is neither JSON nor multipart. |
| `RequestBody.Parse` | src/web/request_maker.cpp:16-43 | Fills the request from the receives and issues as many of them as the specification says. |
| `RequestBody.ReadBody` | src/web/request_maker.cpp:28-35 | The body loop, receive by receive. |
| `RequestBody.ChunkingIndependent` | src/web/request_maker.cpp:16-43 | Every split of head and declared body into positive receives whose first piece holds the head gives the same request, and nothing is received after the declared length. |
| `RequestBody.ShortStreamRefused` | src/web/request_maker.cpp:30-33 | A stream that ends early is refused after one more receive. |
| `RequestBody.GatherStopsInTime` | src/web/request_maker.cpp:29-35 | For every script of receives: an accepted body is all that was received after the head, reaches the declared size, and did not before the last receive. |
| `RequestBody.RenderedRequestReceived` | src/web/request_maker.cpp:16-43 | A rendered request that declares its body's length is received whole, however it is cut. |
| `RequestBody.ShortRequestRefused` | src/web/request_maker.cpp:30-33 | A rendered request of which less than the declared body comes is refused. |
| `RequestBody.MultipartKeepsNothing` | src/web/request_maker.cpp:25-26 | A multipart request is accepted with its first receive and an empty body. |
| `Response.DataReader.BufferRead` | src/util/data_reader.cpp:46-67 | Whatever parts the sink takes and the open file gives, nothing at all included but not for ever, begin data and file are delivered once and in order, and the reader can be read again. |
| `Response.DataReader.SpinUnopened` | src/util/data_reader.cpp:56-65 | With a file that could not be opened the loop has sent nothing and goes on after any number of rounds. |
| `Response.ReadTwice` | src/util/data_reader.cpp:66-66 | A second read delivers the same bytes. |
| `Response.DataReader.SetFileStream` | src/util/data_reader.cpp:35-40 | The size is the open file's, and the file is at its start; a file that could not be opened gets the size 2^64 - 1. |
| `Response.Response.SetHeader` | src/web/response.cpp:85-93 | Replaces the first header of the name or appends one. |
| `Response.SetHeaderSeen` | src/web/response.cpp:85-93 | Afterwards the name has the new value and other names are as before. |
| `Response.SetHeaderKeepsUnique` | src/web/response.cpp:85-93 | Names stay unique and in order, and a new name comes last. |
| `Response.Response.MakeHttpHead` | src/web/response.cpp:65-74 | Prints status line, headers, Content-Length and the empty line. |
| `Response.Response.GetDataReader` | src/include/web/response.h:45-50 | The reader delivers the head for body and file, then body and file, as long as their size fits in 64 bits; with a file that could not be opened the head announces one byte less than the body. |
| `Response.BlankLineEndsHead` | src/web/response.cpp:65-74 | For reasons and headers without line breaks the first empty line ends exactly where the body starts. |
| `Response.StatusReadBack` | src/web/response.cpp:67-68 | A client reads the protocol, the code and the reason back from the first line. |
| `Response.ClientReadsFrame` | src/web/response.cpp:65-74 | A client finds the end of the head, reads every header's first value, and in Content-Length the number of bytes after the head, exactly unless a Content-Length set by hand says otherwise. |
| `Dispatch.StartsArePrefix` | src/web/server.cpp:53-77 | For all handler programs, with repeated, nested and late calls and exceptions, the handlers started are a prefix of global then path handlers, in order, once each, and number min(total, calls of next with Handle's own). |
| `Dispatch.ClosedGate` | src/web/server.cpp:62-72 | Behind a handler that does not call next nothing starts, if the handlers before it call next at most once. |
| `Dispatch.NothingBeforeMark` | src/web/server.cpp:62-72 | Nothing behind a gate starts before the gate's mark. |
| `Dispatch.Dispatcher.Next` | src/web/server.cpp:62-72 | The re-entrant closure over the two shared indices does what the specification over one list says. |
| `Dispatch.Dispatcher.Run` | src/web/server.cpp:62-72 | A handler at work, its calls of next included. |
| `Dispatch.Server.Handle` | src/web/server.cpp:53-93 | Dispatches over global and path handlers, with the exception that leaves them; an unbound path starts nothing, and throws what the look-up of a static file throws when there is a static path. |
| `Dispatch.Server.Bind` | src/include/web/server.h:57-59 | Appends a handler to its path and leaves other paths alone. |
| `Dispatch.Server.BindAll` | src/include/web/server.h:61-65 | Appends a list in order; an empty list binds nothing. |
| `Dispatch.Server.ProcessBind` | src/include/web/server.h:67-69 | Appends a global handler. |
| `Routes.Init` | example/app/student_mange_server.cpp:48-58 | After Init every endpoint has its handlers, the guarded ones behind the token check, no other path is bound, and the static path is set. |
| `Routes.AcceptedUserIff` | example/app/app_business.cpp:64-72 | A user is accepted exactly when the token decodes to the masked, sealed payload of that user, without a bar, and a time that is not over; without a token text nobody is. |
| `Routes.IssuedIsAccepted` | example/app/app_business.cpp:93-94 | A token made with the server's key is accepted for its user, if that has no bar, until its time. |
| `Routes.LoginStartsIff` | example/app/student_mange_server.cpp:51-51 | The login handler needs no token: it starts exactly in a POST request whose body is readable or not JSON. |
| `Routes.RejectionThrows` | example/app/app_business.cpp:65-71 | A request without such a token ends in an HTTP exception, or a JSON one when the token is not a text. |
| `Routes.CaughtIsReported` | example/app/app_business.cpp:33-57 | A caught exception that can be reported is reported last, and nothing escapes. |
| `Routes.ReturnIsAnswered` | example/app/app_business.cpp:25-32 | When the handler of an accepted request returns, the good answer comes last. |
| `Routes.TokenBeforeHandler` | example/app/app_business.cpp:63-74 | Whatever the handlers do, one of a guarded route starts only after the token check accepted in that request, and then the token decodes to the masked, sealed payload of a user and a time that is not over. |
| `Routes.HandlerStartsIff` | example/app/app_business.cpp:18-74 | A guarded handler starts exactly in a POST request with a readable JSON body and such a token. |
| `Routes.WhatEscapes` | example/app/app_business.cpp:18-58 | An exception leaves a shipped route exactly when it is not a standard one, or is an HTTP or JSON one whose report cannot be printed. |
| `Routes.RepeatedNextSlipsPast` | src/web/server.cpp:62-72 | A shared handler that calls next again after an exception would start the guarded handler without a token. |
| `Leave.EncodeIsPacked` | example/include/app/student_mange_server.h:40-40 | The packed number is the bitwise or of the shifted parts. |
| `Leave.DecodeUndoesEncode` | example/app/student_mange_server.cpp:129-133 | Unpacking undoes packing for every status. |
| `Leave.EncodeUndoesDecodeIff` | example/app/student_mange_server.cpp:129-133 | Packing undoes unpacking exactly for numbers 0 to 31. |
| `Leave.Database.Apply` | example/app/app_business.cpp:161-165 | A new note is pending, or passed by the mentor for a junior. |
| `Leave.Database.ReleaseNote` | example/app/app_business.cpp:177-183 | Destroys a note that is passed; refuses others and changes nothing. |
| `Leave.Database.Approve` | example/app/app_business.cpp:284-303 | Writes the decision of the instructor, the mentor or both; refuses others and changes nothing. |
| `Leave.ReleaseByNumber` | example/app/app_business.cpp:177-183 | By the stored number: a note is released exactly when it is 5, and becomes 21; an unknown note is not found and any other refused. |
| `Leave.ApprovalByNumber` | example/app/app_business.cpp:284-303 | By the stored number: when an approval is not found, forbidden or refused, and otherwise what it adds to the number. |
| `Leave.AlwaysSound` | example/app/app_business.cpp:280-304 | Under every interleaving of selects and updates no stored field is 3, and a destroyed note was passed by both. |
| `Leave.StepKeepsInv` | example/app/student_mange_server.cpp:105-110 | Every insert, select and update keeps this, for stored rows and for values about to be written. |
| `Leave.UpdateIsAloneIff` | example/app/app_business.cpp:285-303 | An update does what the request would do alone at that moment exactly when the status is still the one it selected. |
| `Leave.UpdateKeepsIff` | example/app/app_business.cpp:285-303 | An update, raced or not, keeps the decisions and the destroyed mark of the row it finds exactly in the cases given field by field. |
| `Leave.NothingLostIff` | example/app/app_business.cpp:173-184 | Over any run, with any races, no step changes a decision or clears destroyed exactly when every update is of those cases. |
| `Leave.DecisionsStand` | example/app/app_business.cpp:291-302 | In runs without races a decision never changes and destroyed is never cleared. |
| `Leave.ReleasedAtMostOnce` | example/app/app_business.cpp:178-183 | In runs without races a note is released exactly as often as it becomes destroyed, at most once. |
| `Leave.ApprovedAtMostOnce` | example/app/app_business.cpp:291-302 | In runs without races every user decides about a note at most once. |
| `Leave.SerialIsIsolated` | example/app/app_business.cpp:173-184 | Requests that run one after another do not race. |
| `Leave.RaceLosesDecision` | example/app/app_business.cpp:285-303 | Two teachers who select before either updates: one decision is lost. |
| `Leave.RaceClearsDestroyed` | example/app/app_business.cpp:285-303 | A late second decision clears the destroyed mark. |
| `Leave.RaceReleasesTwice` | example/app/app_business.cpp:178-183 | Two releases that both select first both succeed. |
| `Paging.SearchLeave` | example/app/app_business.cpp:222-251 | The loop gives the items of the page. |
| `Paging.SmallNumbersAreOne` | example/app/app_business.cpp:222-227 | Page numbers and sizes below 1 are taken as 1. |
| `Paging.SearchLeaveNum` | example/app/app_business.cpp:259-272 | The count is what all pages hold together, whatever their size. |
| `Paging.PagesAreAll` | example/app/app_business.cpp:236-251 | Pages 1 to ceil(n / m) are full but for the last, not empty, and concatenate to the list; later pages are empty. |

## Left out

- Event loop, workers and socket objects are modelled on values, as a transition system, because they run concurrently; the C++ objects' updates in place are the steps of that system.
- Real epoll, socket options, bind, listen, connect and ClientSocket: foreign calls; the model keeps which descriptors are open and registered. A successful accept gives a descriptor that is not open.
- SocketHandler::stop and Server::Stop: they delete the poller while the loop may be using it.
- ObjectPool::AllocateShared: not used anywhere.
- HttpTask.Serve: sending the response is not part of it; in the transition system a task's sends and receives are uses of its socket. A parse that scans past the bytes received has no described outcome, and failures to allocate memory are not modelled.
- Response.DataReader.BufferRead: a sink or an open file that gives nothing for ever, for which the loops do not end; Socket::send itself repeats a failing send and so never returns to the loop while the peer is gone.
- Md5.MD5.Encode: messages of 2^32 bytes and more, for which the source's 32-bit counter never reaches the end; the sine table is data, fixed by the digests of `Md5Vectors`, not derived from sin.
- Base64.Encode: the int loop counter, for inputs of 2^31 bytes and more.
- Token.Token.Parse: texts of 2^32 bytes and more, as for the digest; a key must not be empty, since the source divides by its length.
- Token: writing and reading the calendar time; the text of the time stands for it, and whether it is past is a parameter.
- RequestHead.ParseHttpHeader: starts from a new request, as HttpTask makes one for every call.
- RequestHead.ParseTarget: no law is stated about query parameters with escapes in their names, since the source cuts the value with the length of the decoded name.
- RequestBody.Parse: the multipart branch stores nothing in the source; the peer's address is not kept; the body is not parsed as JSON.
- Routes.Init: what the application handlers do is a parameter, and so is what the look-up of a static file throws; the files themselves and the 404 page are not modelled.
- A handler that keeps next and calls it after Handle has returned, which would use a dead stack frame.
- Leave.Database.Apply: whether the student is a junior is a parameter; the graduation-year test mixes year bases.
- Paging.SearchLeave: overflow of int in page * max_num, the values 1 and 50 a request without a page gets, and a request that gives only one of page and max_num.
- The SQLite wrapper and SQL text; the tables are maps. JSON, the logger, and conversions of JSON numbers.
- Reason phrases and content types: constant tables; SetType looks the type up twice, so its result is not described.
