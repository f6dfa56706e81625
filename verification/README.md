# The connection core of ub-server

ub-server is a small HTTP/1.1 server in C. Each worker thread runs an event loop over epoll. It keeps
its client connections in an array min-heap ordered by `priorityTime`, with a second array that records
the heap slot of every descriptor, and drives each connection through a small state machine: receive the
request, send the headers, send the body, keep alive or close. This project models that core and proves
what it guarantees.

## The files

- `Connections.dfy`: the connection record and the constants of the server.
- `HeapModel.dfy`: the operations of the queue on values (live heap prefix plus index), and what they mean.
- `Layouts.dfy`: queues written out as lists of descriptors and times, and what the operations make of them.
- `QueueRuns.dfy`: whole runs of queue operations under a clock that never goes back.
- `Kernels.dfy`: the operating system, as arbitrary scripts of answers, wake-ups and arrivals, a clock, the
  open descriptors, the epoll interest list, the bytes on the wire, and a log of the calls that matter to
  a client's life: accept, re-arm, close, and each epoll_wait with its timeout, its start and end, and what
  it reported. Every open file has the contents, the media type and the date that the open gave it, and what
  it was opened for: a page, or the compressed copy of the file open before. Only the calls write the log. A precondition of a kernel call (the descriptor is
  open, is registered, is not registered yet) is a fact the server owes, so a verified call shows that the
  matching `die()` or double close is not reached.
- `ConnectionQueue.dfy`: the queue as the program has it, two arrays updated in place, proved equal to
  the functions of `HeapModel`.
- `CStrings.dfy`, `Headers.dfy`: `strstr`, `strcspn`, `strspn`, `strcmp`, `tolower`, and the list of header
  fields.
- `Receive.dfy`, `Request.dfy`, `RequestProofs.dfy`: receiving a request, parsing it, and what parsing means.
- `Response.dfy`, `ResponseHead.dfy`: sending a response, and building it.
- `History.dfy`: what a log says: the queue is a function of it, and the promises about evictions are
  statements about it.
- `Serving.dfy`: one event, that is the do-while over the connection's state, holding a heap slot.
- `Answering.dfy`: what the client of a printed request reads: status, fields and body, and whether it is kept.
- `Evictions.dfy`, `Accepting.dfy`, `Batches.dfy`, `EventLoop.dfy`: timeouts, new clients, the events of one
  wait, and the whole loop of one thread.
- `Lateness.dfy`: the bound on how late an eviction can be.
- `Staging.dfy`, `LatestEviction.dfy`, `HiddenEviction.dfy`: runs of the loop with given clients; one that
  reaches the bound, and one that breaks it.
- `SharedEpoll.dfy`: many threads sharing one epoll instance with EPOLLONESHOT.
- `SharedService.dfy`: whatever the other threads are doing, a thread can serve all that is delivered to it.

Check everything with `dafny verify dfyconfig.toml`.

## Main results

1. Under a clock that never goes back, after any sequence of operations the index array is exactly the
   inverse of heap position and the queue behaves as a finite map, even after heap order has been lost.
2. Heap order itself can be lost: delete by descriptor only shifts down. It keeps the heap if and only if
   the slot is the root or the last one, or the moved record is not below the parent of the slot; a run
   from the empty queue that loses order is given. A variant that also shifts up keeps order in every run.
   Enqueue and update always keep the heap, but leave the index stale exactly for the ancestors that a
   record with an earlier time displaces.
3. Over whole runs of the loop, read off the log of system calls: every close either answers a report of
   its client or comes at least 60 seconds after the client was last re-armed. A wait starts with no
   expired client if and only if, in the queue that the log gives at that point, no expired record lies
   right below one that has not expired. That holds, and the wait lasts for the age of the oldest client,
   if the heap is in order at every check; and the heap is, if every close that answers a report meets the
   guard of delete by descriptor, or the delete is repaired; for one such close the guard is exact. If no
   wait starts with an expired client and the rounds are punctual, no eviction comes later than 177
   seconds. The wake-up timeout is the age of the root and not the time it has left, which is why a
   connection announced `keep-alive: timeout=60` can last that long; a punctual run of thirteen rounds
   reaches the 177 seconds. Without the guard both promises fail for the delete as written: in another
   punctual run of thirteen rounds a close hides an expired client below a live one, a wait of 118 seconds
   starts while that client has been silent for 118 seconds, and it is evicted at the age of 236. Only one
   direction is stated for the guard and for the bound: order lost after a close can be regained before the
   next check, and a client left over by one check is still evicted in time if something wakes the loop
   early enough.
   Punctual means: a wait with a positive timeout ends by then and the next check falls in the second of
   waking; a poll together with its batch, and the batch that ends an endless wait, take at most a second.
   After every round the clients that are not armed are those that already were not, less the evicted ones,
   and those reported without EPOLLIN in the round: nothing but an eviction ends that state. The open
   sockets are those accepted and not closed since, and no descriptor is closed twice unless it has been
   accepted in between.
4. The do-while ends for every finite number of EINTR and EAGAIN answers, always works on the slot of the
   descriptor that received the event, and leaves the connection either closed or with a fresh record and
   armed. If the stream holds a complete request for a file that fits the buffer, the peer is known, and
   the answers consumed neither fail nor end the stream nor open an empty file, then the whole response is
   on the wire, and the connection is kept if and only if the request asks for it. No byte of the stream
   is lost, and every body file opened is closed exactly once. A request that is not for a file gets one
   canned response, the one for its fault, and is closed.
5. However the network splits a request, the server passes on the same first bytes, never before the last
   of them has arrived, and parses the same line; with a field line present, also the same fields. Without
   one, what has arrived behind the request can be taken for its fields: the condition is exact, and met
   whenever printed fields follow. Printing and parsing are inverse up to the
   order and the case of names; a lookup finds the last line whose name is the same letter by letter without
   regard to case.
6. The bytes given to the socket are always a prefix of headers and body; a finished response has been
   sent whole. A client that prints a request with one of the seven methods, HTTP/1.0 or HTTP/1.1, field
   lines, and at most 1024 bytes in front of its body, and splits what it gets at the first blank line, reads
   the status line, every field with its value, and the whole body: the file asked for with 200, or an error
   page with 404 or 500, compressed if and only if the last accept-encoding line mentions gzip, as the
   response then says; length, media type and date of modification are those of that file. The client is
   kept if and only if its last connection line has a value that starts with a small k, and the response
   says which. One thing the code gets wrong: `strcmp(mimeType, "text/") > 0` gives a character set to every
   type that compares above "text/", so `video/mp4` gets one; the condition is exact.
7. With guarded evictions no client is held by two threads, in any interleaving of any number of threads.
   The per-thread queues do not enforce that guard; the eviction that does not meet it is characterised
   exactly, and shown to be reachable. A guarded eviction can still be early: in every reachable state an
   idle thread can evict an unexpired client if and only if its entry is not from the time since when the
   client has been waiting, which another thread's re-arm or a reused number brings about. It can also end
   the program: with guarded evictions registering, re-arming and closing after service never reach a
   die(), and an eviction does if and only if its number is that of a body file or of a socket not yet
   registered, which another thread can bring about whenever the number of a stale entry is free. An
   unguarded eviction of a client in service makes its re-arm end the program. One thread alone does none
   of this. What each step does is stated too: which numbers it takes and frees, whom it arms, who holds a
   client afterwards, and which times the queues remember. And no thread is in the way of another: an idle
   thread can be given any number of armed clients, serve each with a body file and admit a new client before
   each, whatever the others hold.

## Model

| member | source | states |
|---|---|---|
| HeapModel.HeapifyOrders | src/queue_connections.c:204-221 | from a heap valid everywhere except below one slot whose parent fits, heapify restores heap order |
| HeapModel.HeapifyKeeps | src/queue_connections.c:204-221 | heapify keeps the index coherent and the contents unchanged, with or without heap order |
| HeapModel.HeapifyTouchesSubtree | src/queue_connections.c:204-221 | records outside the subtree of the argument stay where they are |
| HeapModel.HeapifyPermutes | src/queue_connections.c:204-221 | heapify only permutes the records |
| HeapModel.HeapifySwapBound | src/queue_connections.c:204-221 | heapify does nothing but one swap for every step of a path down from slot i, and k steps require (i+1)*2^k not above the size |
| HeapModel.ShiftUpAt | src/queue_connections.c:50-53 | the record found in every slot after the shift-up loop: the new one at the stop, the parent's in each displaced slot, the old one elsewhere |
| HeapModel.ShiftUpOrders | src/queue_connections.c:50-53 | shift-up restores heap order and only permutes |
| HeapModel.RoomForAbsent | src/queue_connections.c:39-42 | a coherent queue is never full for a descriptor it does not hold, so creating never reaches the full branch or the die() |
| HeapModel.EnqueueOrders | src/queue_connections.c:38-57 | enqueue always leaves a valid heap holding the old records and the new one |
| HeapModel.EnqueueStale | src/queue_connections.c:38-57 | the index entries stale after enqueue are exactly those of the displaced ancestors |
| HeapModel.EnqueueCoherence | src/queue_connections.c:38-57 | enqueue keeps the index coherent if and only if the parent of the last slot is not later than the new record; then it is a map insertion |
| HeapModel.UpdateOrders | src/queue_connections.c:101-128 | renewing a connection keeps heap order whichever way its time moved |
| HeapModel.UpdateCoherence | src/queue_connections.c:101-128 | renewing keeps the index coherent if and only if nothing moves up; then it is a map update |
| HeapModel.DequeueIsDequeueRoot | src/queue_connections.c:130-157 | popping is deleting the root by its descriptor |
| HeapModel.DequeueByFdRefines | src/queue_connections.c:159-191 | delete by descriptor keeps coherence and removes exactly that descriptor, whatever the heap order |
| HeapModel.DequeueByFdOrder | src/queue_connections.c:159-191 | it leaves a valid heap if and only if the slot is the root or the last, or the moved record is not below the slot's parent |
| HeapModel.DequeueByFdBreaks | src/queue_connections.c:181-190 | otherwise exactly one parent-child edge is violated, the one above the vacated slot |
| HeapModel.DequeueByFdRepairedOrders | src/queue_connections.c:159-191 | with the shift-up added, delete by descriptor always leaves a valid heap |
| HeapModel.DequeueByFdRepairedRefines | src/queue_connections.c:159-191 | with the shift-up added it still keeps coherence and removes exactly that descriptor |
| HeapModel.RootIsMinimal | src/queue_connections.c:193-201 | the root of a valid heap has minimal time |
| QueueRuns.ApplyOrdered | src/queue_connections.c:38-191 | from a valid heap an operation keeps heap order if and only if it meets the delete guard; pops are minimal |
| QueueRuns.RunRefinesMap | src/queue_connections.c:38-221 | after any run under a nondecreasing clock the index is coherent, no time is in the future, and the queue did what a finite map does |
| QueueRuns.GuardedRunOrdered | src/queue_connections.c:38-221 | heap order survives every run whose deletes meet the guard, and every pop takes an entry of minimal time |
| QueueRuns.RepairedRunOrdered | src/queue_connections.c:159-191 | with the repaired delete heap order survives every legal run from an ordered heap, and every pop is minimal |
| QueueRuns.WrittenRemoveLosesOrder | src/queue_connections.c:38-191 | a run of arrivals and renewals from the empty queue to a valid heap from which one delete as written loses heap order and the repaired one does not |
| ConnectionQueue.QueueConnections.constructor | src/queue_connections.c:29-36 | a new queue is empty and coherent |
| ConnectionQueue.QueueConnections.ShiftUpLoop | src/queue_connections.c:50-53 | the in-place loop equals the shift-up function and returns where it stops |
| ConnectionQueue.QueueConnections.HeapifyAt | src/queue_connections.c:204-221 | the in-place recursive heapify equals the function on heap and index |
| ConnectionQueue.QueueConnections.Enqueue | src/queue_connections.c:38-57 | the two arrays after enqueue, full queue included |
| ConnectionQueue.QueueConnections.GetConnectionOrCreateByFd | src/queue_connections.c:61-79 | the slot returned is the recorded slot of the descriptor, created at the current time if absent; the die() is not reached |
| ConnectionQueue.QueueConnections.UpdateQueueConnection | src/queue_connections.c:101-128 | the two arrays after a renewal; the body file of the old record is closed |
| ConnectionQueue.QueueConnections.DequeueConnection | src/queue_connections.c:130-157 | the two arrays after a pop; the body file of the root is closed |
| ConnectionQueue.QueueConnections.DequeueConnectionByFd | src/queue_connections.c:159-191 | the two arrays after a delete by descriptor, as written or repaired; its body file is closed |
| ConnectionQueue.QueueConnections.Peek | src/queue_connections.c:193-201 | the root, which is an entry of minimal time when the heap is ordered, or nothing |
| ConnectionQueue.QueueConnections.FreeConnection | src/queue_connections.c:240-244 | a positive body descriptor is closed, and nothing else |
| History.RenewInFlight | src/accept_client_epoll.c:132-149 | looking a connection up, changing its record and renewing it is renewing it in the queue before the lookup |
| History.CloseInFlight | src/accept_client_epoll.c:150-158 | looking a connection up, changing its record and deleting it is deleting it from the queue before the lookup |
| History.TrackedRearm | src/accept_client_epoll.c:132-149 | a re-arm keeps the queue the one that the log gives, with every client at the time of its last re-arm |
| History.TrackedClose | src/accept_client_epoll.c:150-158 | a close keeps the queue the one that the log gives |
| History.GuardExact | src/accept_client_epoll.c:150-158 | on a log that leaves the heap in order, a close that answers a report keeps it so if and only if it meets the guard or the delete is repaired |
| Kernels.ReportedIsGood | src/accept_client_epoll.c:63-77 | with EPOLLONESHOT a batch holds registered, armed clients, each once |
| Kernels.ClosedOnce | src/accept_client_epoll.c:216-224 | no descriptor is closed twice unless it has been accepted in between |
| Kernels.LoggedAfter | src/accept_client_epoll.c:205-245 | accepting, re-arming and closing keep the open sockets and the interest list what the log says |
| Receive.RecvOnce | src/request.c:25-59 | one answer of recv: bytes appended, and the state and offset that follow |
| Receive.RecvRequest | src/request.c:22-61 | the receive loop equals the fold of its steps over the answers it got; returning unfinished costs a would-block |
| Receive.RecvRunFaithful | src/request.c:14-61 | received and pending bytes always make up the stream; the state tells whether the request is complete |
| Receive.AnyFragmentation | src/request.c:14-61 | for every split with EINTR and EAGAIN anywhere: passed on with the same first bytes, and never before the last of them arrived |
| Receive.ProductiveReceive | src/request.c:22-61 | an answer that is neither an error nor the end of the stream never makes the server give up on a request that fits |
| Receive.DeliveredRequestIsPassedOn | src/request.c:22-61 | once the request has been delivered by a kernel that does not fail, it is passed on if and only if it ends within the first 1024 bytes |
| Receive.SteadyReceive | src/request.c:22-61 | if the first transfer brings a complete request, it is passed on with just those bytes and the rest stays pending |
| CStrings.FindFirst | src/request.c:14-20 | the search used for the end of line and the end of request finds the first match, or there is none |
| CStrings.ToLower | src/helper.c:44-52 | the loop leaves no capital letter, and every other character and every letter where it was |
| CStrings.LowerMatches | src/helper.c:44-52 | lowering one text gives another if and only if that has no capitals and equals it letter by letter without regard to case |
| RequestProofs.FieldIsRead | src/request.c:149-173 | the field read from a printed field line has its name in lower case and its value |
| Request.TokenizeHeaders | src/request.c:140-178 | the strtok loop yields the fields of the text, most recently read first |
| Request.ReadRequest | src/request.c:80-142 | line split, method check, field block and body, with the header-less case |
| Request.ProcessRequest | src/request.c:63-181 | what is stored in the connection, and when the request is bad |
| RequestProofs.ScanSpaced | src/request.c:94-95 | the words of the line, whatever white space is around them; a word that is missing leaves the old contents of its buffer |
| RequestProofs.Verdict | src/request.c:80-104 | malformed if and only if there is no line end; otherwise accepted if and only if the method is one of the seven |
| RequestProofs.UnknownMethod | src/request.c:94-104 | a printed request with another method is refused, with only its path and version stored |
| RequestProofs.NoLine | src/request.c:80-84 | text without a line end is refused and nothing is stored |
| RequestProofs.RealPathIs | src/request.c:106-117 | the query is cut off at the first question mark, and the root is the index |
| RequestProofs.FieldInAnyForm | src/request.c:146-166 | the name ends at the first colon or space and the value starts two characters on, whatever is skipped |
| RequestProofs.FieldWithoutColon | src/request.c:146-166 | a field line without colon or space takes the next line for its value |
| RequestProofs.FieldsRoundTrip | src/request.c:146-178 | parsing printed field lines lists them in reverse with lower-cased names, in front of those already read |
| RequestProofs.EndOfFields | src/request.c:126-131 | the blank line behind printed fields is the first one, so the body starts right behind it |
| RequestProofs.LineRoundTrip | src/request.c:86-101 | a printed request line is split into its three words |
| RequestProofs.RequestRoundTrip | src/request.c:80-178 | printing a request and parsing it gives back line, fields and body |
| RequestProofs.LookupAfterParsing | src/request.c:146-178 | a lookup returns the value of the last line whose name is that one letter by letter without regard to case, or nothing if and only if there is none |
| RequestProofs.ParseAnyPrefix | src/request.c:80-178 | with a field line present, line and fields do not depend on how much has arrived behind the blank line; the body is what has |
| RequestProofs.ParseHeaderless | src/request.c:126-130 | without field lines, later bytes are taken for fields if and only if a further blank line has arrived with something in front of it |
| RequestProofs.HeaderlessDependsOnArrival | src/request.c:126-178 | printed fields behind the blank line of a request without field lines are taken for its fields once they have arrived, and not before |
| RequestProofs.SameLine | src/request.c:80-104 | with or without field lines, the request line and whether the request is accepted do not depend on later bytes |
| RequestProofs.SentRequestIsUnderstood | src/request.c:14-181 | a printed request, cut into pieces at will, is parsed as printed once it is passed on |
| Headers.GetHeader | src/header.c:25-33 | the cursor loop returns the lookup |
| Headers.LookupIsFirstMatch | src/header.c:25-33 | a lookup is the value of the first field of that name, or nothing if and only if there is none |
| Headers.AddHeader | src/header.c:9-23 | a new field goes right behind the first one |
| Response.SendHeadersOnce | src/response.c:148-181 | one answer of send: bytes on the wire, and the state and offset that follow |
| Response.SendResponseHeaders | src/response.c:147-182 | the loop equals the fold of its steps over the answers it got |
| Response.SendFileOnce | src/response.c:191-227 | one answer of sendfile; a body that is done is closed |
| Response.SendResponseFile | src/response.c:184-228 | the loop equals the fold of its steps; without a body file the response is done |
| Response.ResponseStreams | src/response.c:147-228 | for every sequence of answers the bytes sent are a prefix of headers and body, and all of it when done |
| Response.ProductiveKernelFinishes | src/response.c:147-228 | a response with a body is done and sent whole after as many transfers as it has bytes |
| Response.EmptyBody | src/response.c:200-219 | a response with an empty body is done only through EAGAIN; any other answer closes the connection |
| ResponseHead.DecimalRoundTrip | src/response.c:127-128 | the announced number can be read back |
| ResponseHead.HeadText | src/response.c:96-139 | the text of the header block, line by line and in this order |
| ResponseHead.EndOfBlock | src/response.c:136-139 | the first blank line of a response is the end of its header block, whatever the body is |
| ResponseHead.ReplyRoundTrip | src/response.c:96-144 | a client that splits a response at its first blank line gets the status line, the fields, and the whole body |
| ResponseHead.FieldsAreRead | src/response.c:102-139 | the value a client finds for each field: gzip or nothing, keep-alive with its timeout of 60 or close, length, media type, dates, server and cache control |
| ResponseHead.BlockAnnounces | src/response.c:96-144 | the part up to the blank line announces the content length it was made for |
| ResponseHead.CharsetExact | src/response.c:250-255 | a character set is added if and only if the media type is greater than "text/" at the first difference or goes on behind it |
| ResponseHead.WhoGetsCharset | src/response.c:250-255 | text types get a character set, video types do too, image types do not |
| ResponseHead.OpenBody | src/response.c:38-78 | exactly one file is left open: the file asked for, the 404 page if it is missing, the error page if it cannot be opened, or the gzip copy of that one if and only if gzip is asked for; status, length, media type and date follow |
| ResponseHead.MakeResponse | src/response.c:36-145 | the body left open and its fields, the keep-alive decision by the first letter of the connection field, and a header block with that status line, gzip and keep-alive fields as the request accepts, announcing length, media type and date of that body |
| Serving.CheckRequest | src/accept_client_epoll.c:92-119 | passes if and only if the peer is known and the request is parsed, of a supported protocol and not for /hello; otherwise exactly one canned response, for a bad request, that version or the greeting, and the connection is sent to close |
| Serving.OnSendHeaders | src/accept_client_epoll.c:90-126 | parse if there are no fields yet, answer if there is no response yet, send; an answerable request stays on its way to a whole response unless an answer fails |
| Serving.BodiesConserved | src/accept_client_epoll.c:82-160 | while a connection is served, the open body files are exactly those held by queue entries |
| Serving.Turn | src/accept_client_epoll.c:84-131 | a turn never goes back a stage, standing still costs a would-block, and the pointer still denotes the slot of the descriptor |
| Serving.AnswerableBuffer | src/request.c:14-142 | however much of an answerable stream has been received once it is complete, it is accepted |
| Serving.RunStages | src/accept_client_epoll.c:80-160 | the do-while ends, either done with keep-alive or ready to close, still pointing at the slot of its descriptor |
| Serving.KeepAlive | src/accept_client_epoll.c:132-149 | the guard never skips: a fresh record, the body closed, the descriptor armed again at that time; the queue is the one before the lookup with this connection renewed |
| Serving.Close | src/accept_client_epoll.c:150-158 | the guard never skips: out of the queue, out of epoll, closed; the queue is the one before the lookup with this connection deleted |
| Serving.CloseEpollClient | src/accept_client_epoll.c:216-224 | the client leaves the interest list and is closed once |
| Serving.HandleEvent | src/accept_client_epoll.c:75-161 | kept with its whole response sent because the request asked for it, or closed, with one re-arm or one close logged; a canned response only to a request that is not for a file, which is closed; an answerable request that no answer fails is answered whole, and kept if and only if it asks for it |
| Serving.OutcomeOrder | src/accept_client_epoll.c:132-158 | an event keeps heap order if and only if it keeps the connection, or the delete is repaired or meets its guard |
| Answering.SendableIsAnswerable | src/accept_client_epoll.c:82-149 | a printed request for a file with a known method, HTTP/1.0 or HTTP/1.1 and field lines, whose part before the body fits 1024 bytes, is answerable |
| Answering.KeepingIsAsked | src/response.c:109-125 | the server wants to keep a client if and only if the last line called connection, in any case, has a value starting with a small k; not without such a line, and not for close |
| Answering.AnswerIsRead | src/response.c:36-228 | the client of a printed request reads the status line, every field and the whole body of the file or error page, compressed if and only if it asked for that, and is kept if and only if it asked for that |
| Evictions.EvictExpired | src/accept_client_epoll.c:33-59 | ends; evicts and closes the root as long as it has expired, each close logged; queue, clients and interest list follow |
| Evictions.EvictedAreExpired | src/accept_client_epoll.c:39-58 | only expired connections go, each once, the root that is left has not expired, and the others are as before |
| Evictions.EvictedInOrder | src/accept_client_epoll.c:39-58 | from an ordered heap exactly the expired connections go, oldest first, and the heap stays in order |
| Evictions.LeftIsSwept | src/accept_client_epoll.c:39-63 | what is left has nothing expired if and only if no expired record lies right below a live one |
| Evictions.EvictionKeepsPromises | src/accept_client_epoll.c:39-58 | evicting an expired connection is not early, and not late if the check was prompt and all waits were swept |
| EventLoop.WakeUpTimeout | src/accept_client_epoll.c:31-37 | the wake-up timeout is the age of the root, or -1; no connection is older if and only if the root is the oldest |
| Accepting.AcceptEpollConnection | src/accept_client_epoll.c:185-207 | goes on until accept has nobody to give; the clients admitted are those that arrived, registered, armed and in no queue entry, so a reused number starts fresh |
| Batches.HandleBatch | src/accept_client_epoll.c:71-162 | every event takes effect in its turn: a readable client is re-armed or closed, one reported without EPOLLIN stays disarmed and registered, arrivals are all accepted; nobody is left waiting |
| Batches.PrintedAsksToBeKept | src/accept_client_epoll.c:82-149 | a printed request for a file whose last connection line has a value starting with a small k asks to be kept, however much of it and of what follows has been received when it is parsed |
| Batches.EffectOnReports | src/accept_client_epoll.c:71-162 | an event settles its own client and leaves the reports of all others alone |
| Batches.EventIsSound | src/accept_client_epoll.c:132-158 | re-arming or closing a reported client keeps the promises of the log, and heap order if all closes met the guard |
| EventLoop.OneRound | src/accept_client_epoll.c:29-162 | the logged calls of a round: the root is closed as long as it has expired, and all expired connections if the heap is ordered; a wait for the age of what was the root; then the batch. The clients not armed afterwards are those that were not and stayed, and those reported without EPOLLIN; so if all were armed, all are again if and only if every event had EPOLLIN |
| EventLoop.ArmedMeansNotStuck | src/accept_client_epoll.c:71-162 | when nobody waits to be served, the clients that are not armed are those last reported without EPOLLIN |
| EventLoop.TimelyRound | src/accept_client_epoll.c:29-162 | the lateness invariant carried over one round of the log |
| EventLoop.HandleEpoll | src/accept_client_epoll.c:21-172 | over any number of rounds, for the log of system calls: no eviction within 60 seconds of the last re-arm; a wait starts with nothing expired if and only if no expired record is hidden below a live one; none is if the heap is in order at every check, which the guard or the repaired delete ensures; swept and punctual, no eviction after 177 seconds; disarmed clients are exactly those reported without EPOLLIN; open sockets are those accepted and not closed; every body file closed |
| EventLoop.AfterTheWait | src/accept_client_epoll.c:59-70 | a wait keeps the promises of the log, and is swept if and only if no connection of the queue has expired |
| EventLoop.Shutdown | src/accept_client_epoll.c:167-171 | nothing is left open by the queue entries |
| Lateness.RoundKeepsOnTime | src/accept_client_epoll.c:31-63 | at every check all ages are at most 118, or at most 177 and every survivor has age 0 |
| LatestEviction.BoundIsReached | src/accept_client_epoll.c:29-162 | thirteen punctual rounds of the loop, every wait swept, the last of which closes a client 177 seconds after its last re-arm |
| HiddenEviction.PromisesFail | src/accept_client_epoll.c:29-162 | thirteen punctual rounds of the loop with the delete as written, in which a wait starts with an expired client and a client is closed 236 seconds after its last re-arm |
| SharedEpoll.StepKeepsInv | src/accept_client_epoll.c:39-160 | every guarded step of any thread keeps: held clients are registered, disarmed and held once |
| SharedEpoll.NumbersAfter | src/accept_client_epoll.c:174-245 | the numbers in use after every step: accepting and opening take one, closing a client or a body file frees it |
| SharedEpoll.CloseBodyFrees | src/response.c:219-226 | closing a body file frees its number and changes nothing else |
| SharedEpoll.ArmedAfter | src/accept_client_epoll.c:209-245 | registering and re-arming arm a client, delivery disarms it, closing takes it out of the interest list |
| SharedEpoll.HoldersAfter | src/accept_client_epoll.c:71-160 | delivery hands a client to a thread, which lets go of it by re-arming or closing it |
| SharedEpoll.EntriesAfter | src/accept_client_epoll.c:39-158 | the time a thread remembers for a client: its first pickup, then each re-arm, until it closes or evicts it |
| SharedEpoll.BodyNumberIsReused | src/response.c:219-226 | a run in which the number of a body file is given to a new client once the file is closed |
| SharedEpoll.EveryInterleavingExcludes | src/accept_client_thread_epoll.c:40-53 | with guarded evictions, no client is held by two threads in any interleaving |
| SharedEpoll.SingleThreadHolds | src/accept_client_epoll.c:174-183 | with one thread the guard always holds |
| SharedEpoll.EvictionExact | src/accept_client_epoll.c:51-56 | an eviction keeps the invariant if and only if no thread holds the client |
| SharedEpoll.UnguardedEvictionLosesExclusion | src/accept_client_epoll.c:51-56 | any other eviction can be followed by two threads holding the same descriptor |
| SharedEpoll.GuardIsNotEnforced | src/accept_client_thread_epoll.c:40-53 | two threads reach, with guarded evictions only, a state in which one may evict the client the other holds |
| SharedEpoll.EarlyEvictionExact | src/accept_client_epoll.c:39-58 | in every reachable state an idle thread can evict an unexpired client if and only if its entry differs from the time since when the client has been waiting |
| SharedEpoll.GuardedEvictionCanBeEarly | src/accept_client_thread_epoll.c:40-53 | a run of guarded evictions to an eviction one second after another thread re-armed the client |
| SharedEpoll.SingleThreadIsNeverEarly | src/accept_client_epoll.c:174-183 | one thread alone evicts no client before its timeout |
| SharedEpoll.GuardedDeathExact | src/accept_client_epoll.c:216-245 | in any interleaving with guarded evictions a step ends the program if and only if it evicts a number in use and not registered |
| SharedEpoll.StaleEntryKills | src/accept_client_epoll.c:51-56 | a stale entry whose number is free: accepting a client or opening a body file in another thread makes its eviction end the program |
| SharedEpoll.GuardedEvictionCanDie | src/accept_client_thread_epoll.c:40-53 | a run of guarded evictions to an eviction that ends the program |
| SharedEpoll.UnguardedEvictionKillsRearm | src/accept_client_epoll.c:132-149 | evicting a client that another thread is serving makes its re-arm end the program |
| SharedEpoll.UnguardedEvictionKillsFinish | src/accept_client_epoll.c:150-158 | after such an eviction its close ends the program once the number has been given away, and not before |
| SharedEpoll.AddNeverDies | src/accept_client_epoll.c:226-234 | registering a client ends the program in no interleaving, guarded or not |
| SharedEpoll.RearmCanDie | src/accept_client_thread_epoll.c:40-53 | a run from the start to such an eviction |
| SharedEpoll.SingleThreadNeverDies | src/accept_client_epoll.c:174-183 | nothing that one thread does ends the program |
| SharedService.BatchIsServed | src/accept_client_epoll.c:71-162 | from any state an idle thread can take any armed clients, however many, serve each with a body file and admit a new client before each; then all of them are armed and the thread is idle |

## Left out

- Receive.RecvRequest: only the bytes received are scanned for the end of the request; the buffer is not modelled as uninitialised memory, and a request that fills all 1024 bytes leaves no room for the terminating NUL the program writes.
- Request.ProcessRequest: the absolute path is kept as the part below the published directory; the scheme and the peer address are not stored, and the fixed sizes of the method, path and protocol buffers are not modelled; a word missing from the request line leaves the old contents of its buffer, which is a parameter. Strings hold no NUL.
- ResponseHead.MakeResponse: what libmagic and stat say about a file and the text of the current date are arbitrary text without line ends; the 1024-byte limit of the header buffer and the fixed size of the media type are not modelled, and a missing error page or gzip file ends the program, so such runs are not modelled.
- ResponseHead.OpenBody: that the contents of a gzip copy are those of its original, compressed, and that copies are kept in a directory under the time of the last access, is not modelled.
- Serving.CheckRequest: which canned response is sent, and to whom, is recorded, but its text and its sending are one action, because `sendAll` resends from the start of its buffer after a short write; canned responses are absent from the wire of the model, also when part of the headers of a response has already been sent.
- Serving.OnSendHeaders: a request without field lines is parsed again with the same old contents of the word buffers, one parameter for the whole event; in the program they may have changed in between, which matters only if the request line lacks a word.
- Serving.HandleEvent: the bytes a client delivers are one finite stream per connection; memory ownership of strings and of the field list when a header-less request is parsed again is not modelled.
- EventLoop.HandleEpoll: how late an eviction can be when waits start with expired clients is not bounded; that a wait ends by its timeout is an assumption where it is needed, not a fact about the modelled kernel; `sigintReceived` is an arbitrary number of rounds; descriptor numbers accepted from clients are positive and below MAX_EPOLL_EVENTS, otherwise accept is taken to fail; epoll_wait failures count as an empty batch.
- ConnectionQueue.QueueConnections.DequeueConnectionByFd: the repaired delete is not in the program; it is a switch of the model, off for everything said about the code as written.
- Accepting.AcceptEpollConnection: a client that was accepted and has never sent anything is in no queue entry, in the program as in the model, so it is never evicted; no bound on its life is stated.
- SharedEpoll.EveryInterleavingExcludes: steps are atomic and the threads share only the interest list and the descriptors; contents of connections and requests are not in this model. A body file is open only while its thread serves a client, and descriptors of other parts of the program are not modelled.
- Header lists, heap records and file contents are values; the linked list, the pointers inside a record and their release are not modelled.
- `updateConnectionByFd` and `getConnectionByFd` have no callers.
- Sockets, stat, libmagic, zlib, date formatting, the logger, options and signal handling.
- The unused text variants of the accept loop.
