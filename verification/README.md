# Verified model of a byte stream over UDP, a thread pool, and the MySQL client headers

The repository is a school database with a client and a server. Its own library turns UDP into
reliable byte streams; its server hands requests to a thread pool; and it builds on the inline
code of the MySQL 5.7 headers for Windows. This project models that logic in Dafny and proves what
it is there for. `dafny verify dfyconfig.toml` checks everything.

The sources of the transport and of the thread pool (`TcpSocketDll/CTcp*`, `TcpSocketDll/CByteStream.h`,
`SchoolSystemServer/CThreadPool.*`, `SchoolSystemServer/CServer.cpp`) are text in GBK encoding. Only
their comments are not ASCII (`iconv -f gbk -t utf-8` shows them); line numbers are those of the
files.

## What is modelled

**The transport** (`Segments`, `Receiver`, `Network`, `Handshake`, `Delivery`, `Completion`,
`Recovery`, `Replay`, `Hazards`, `Socket`, `ByteStream`, `Selection`). `Network` is a machine of any
number of clients and servers, from the blank start on: clients connect, applications send and
receive, send threads transmit and retransmit at any time, and a network may lose, repeat, delay
and reorder every datagram. `Socket` is the same code as an object with its loops; each method is
tied to the step of the machine it performs. The main results:

- *Order* (`Delivery.StreamIsPrefix`): call a run orderly from x to y if no first-handshake packet
  sets back a counter in use for the bytes from x to y. In every state of every such run, what y's
  application has received from x, followed by what waits for it, is a prefix of what x's
  application sent, whatever befalls other connections and the other direction.
- *When order fails* (`Replay.RequestsBreakIff`, `Replay.AnswersBreakIff`): the code does not keep
  runs orderly, since a late copy of the first handshake packet sets both counters of the server's
  record back. After any run that is orderly in a direction, let such a packet be delivered. Some
  orderly continuation then breaks the order of the client's bytes if and only if the server's
  expected number is above 1, and that of the server's bytes if and only if the number of its next
  packet is above 1: tests that the server could make on its own record and does not.
- *Completeness* (`Completion.ArrivedIff`, `Completion.DeliveredIff`): in every run that is orderly
  from x to y, all that x sent has come out if and only if every packet has arrived at least once
  and none was ever parked while it was already parked. Once nothing is pending at x, every packet
  has arrived: always if x is a client, and for a server if no acknowledgement misfired on what it
  sent to y (erased a packet that y still needed).
- *Never stuck, or stuck for good* (`Recovery.DeliverableIff`, `Recovery.RunDeliverableIff`): from
  any state of a run that is orderly from x to y, some orderly continuation delivers all that x
  sent, if and only if y parks nothing twice and every packet it lacks is pending or was
  transmitted; in terms of the run, if and only if nothing was parked twice and no acknowledgement
  erased an unnoted packet before its transmission. Otherwise no orderly continuation does.
- *Acknowledgements* (`Completion.MisfiresIff`, `Completion.NoStrayNoMisfire`,
  `Recovery.MisfireFatalIff`): acknowledgements are matched by number alone. Only one that hits data
  for another address than its sender's can misfire, a test the receive thread could make and does
  not; with nothing parked twice, a misfire is fatal if and only if the erased packet was never
  transmitted, since a datagram once sent may always still arrive.
- *Handshake* (`Handshake.ConnectEstablishes`, `Handshake.ConnectCanFinish`): in every run, orderly
  or not, the first thing that reaches a connecting client is its server's answer with number 0,
  although the code does not look; and a connecting client can always still be connected.
- *Selection* (`Selection.NoLostRequest`, `Selection.ServedOnce`, `Selection.SelectWorthwhileIff`):
  the status field, changed by `Select` without its lock, neither loses a request nor lets one be
  served twice. But it can announce a request that is not there: if the receive thread is overtaken
  between writing bytes and raising the status, by a server that reads them and gives the connection
  back, `Select` returns a connection with nothing to read, and `Recv` then waits on it. This
  happens if and only if the status is raised on an empty stream, which the receive thread could
  see.
- *Acknowledgement of everything* (`Handshake.PendingCanDrain`): in any state of any run some
  continuation has all pending packets acknowledged.

`Hazards` gives runs from the start for the failures: a late copy of the first handshake packet
makes a byte of the client come out twice, or puts a later answer of the server in the place of an
earlier one; an acknowledgement erases a packet for another client; a packet repeated while an
earlier one is late stalls the stream.

**The thread pool** (`ThreadPool`): one adding thread and any number of workers, step by step. No
interleaving pops an empty queue, loses an accepted task or runs one twice; and there is no deadlock and no
livelock: without new tasks every run ends, however unfair, and where it ends every accepted task
has been executed (`ThreadPool.RunsEnd`, `ThreadPool.QuietMeansDone`). Tasks are dropped exactly when
the semaphore is at its limit, and threads started exactly when none is idle and there is room.

**The lock layer** (`RwLock`, `Mutex`): all interleavings of any number of threads. The unguarded
flag of the reader/writer lock always names the caller's own mode when `unlock` reads it. Both
locks refine abstract ones step by step with the results of the calls: a call is let in only where
the abstract lock is to be had, refused only where it is not, and a release gives up what its
caller holds. For the mutex that means that the recursive section behaves as one that is not.

**The byte format** (`Bits`, `ByteOrder`, `Hosts`), **trailing spaces** (`TrailingSpace`),
**deadlines** (`Deadline`), **SSL options** (`SslOptions`) and **the file cache** (`IoCache`).

Two more places where the code does less than its comments say: `float8store` on a host with
swapped words does not write the machine-independent format unless the two words are equal
(`Hosts.MixedFloat8Iff`; `little_endian.h` is presented as data in little-endian format), and
`MY_ALIGN` yields 0 instead of rounding up when the sum overflows (`Bits.AlignExact`).

`Bytes` and `Counting` hold the shared vocabulary. Steps that the code performs under one lock, or that no other
thread can see between, are single steps of the machines; everything else is a step of its own.

## Model

| member | source | states |
|---|---|---|
| Segments.FragmentsRoundTrip | TcpSocketDll/CTcpSocket.cpp:19-34 | The payloads into which `Send` cuts a buffer join up to the buffer; their number is the rounded-up quotient; none is empty or longer than 1024 and only the last may be short |
| Segments.FragmentAt | TcpSocketDll/CTcpSocket.cpp:24-34 | Payload i is the i-th window of 1024 bytes of the buffer |
| Receiver.ParkAscending | TcpSocketDll/CTcpSocket.cpp:214-225 | Parking keeps the list in order of the packet numbers |
| Receiver.ParkHolds | TcpSocketDll/CTcpSocket.cpp:214-225 | After parking the list holds exactly the old numbers and the new one |
| Receiver.ParkIncreasing | TcpSocketDll/CTcpSocket.cpp:214-225 | The list stays free of repeated numbers if and only if it was and the number is new |
| Receiver.DrainStream | TcpSocketDll/CTcpSocket.cpp:183-211 | Draining the list adds to the stream exactly the payloads between the old and the new expected number |
| Receiver.DrainReceived | TcpSocketDll/CTcpSocket.cpp:183-211 | Draining neither notes nor forgets a packet |
| Receiver.OnDataStream | TcpSocketDll/CTcpSocket.cpp:155-228 | Whatever DATA packet arrives, the bytes delivered so far are the payloads below the expected number, in order |
| Receiver.OnDataStatus | TcpSocketDll/CTcpSocket.cpp:173-199 | Delivered data turns status 0 into 1; status 1 and 2 stay, and a packet that delivers nothing leaves the status as it is |
| Receiver.OnDataReceived | TcpSocketDll/CTcpSocket.cpp:155-228 | A DATA packet is noted, and no other packet is noted or forgotten |
| Receiver.OnDataCleanIff | TcpSocketDll/CTcpSocket.cpp:155-228 | The parking list stays free of repeats and stale packets if and only if it was and the packet is not already parked; once spoiled it stays so |
| Receiver.AllReceived | TcpSocketDll/CTcpSocket.cpp:155-228 | When all packets have been noted, nothing is parked if and only if the list was never spoiled, and then everything was delivered |
| Receiver.ArrivalsDeliverIff | TcpSocketDll/CTcpSocket.cpp:155-228 | Packets arriving in any order, each at least once, come out as the whole stream with nothing parked if and only if none was parked while already parked |
| Receiver.ParkedTwiceStalls | TcpSocketDll/CTcpSocket.cpp:214-225 | Packets 2, 2, 3, 1 arriving in this order leave packet 3 parked, and no further packets of the log ever empty the list |
| Socket.TcpSocket.constructor | TcpSocketDll/CTcpSocket.h:110-115 | A new socket has no connections and nothing pending |
| Socket.TcpSocket.BeginConnect | TcpSocketDll/CTcpClient.cpp:12-30 | Sends and queues the first handshake packet with number 0 and expects to send number 1 next |
| Socket.TcpSocket.FinishConnect | TcpSocketDll/CTcpClient.cpp:34-55 | Takes whatever arrives for the answer, clears the pending list and acknowledges |
| Socket.TcpSocket.Send | TcpSocketDll/CTcpSocket.cpp:15-38 | Queues exactly the payloads of the buffer, numbered consecutively, and nothing else changes; a negative multiple of the packet size queues nothing |
| Socket.TcpSocket.OnDataPacket | TcpSocketDll/CTcpSocket.cpp:155-228 | The two loops compute the receiver step `OnData`, after one acknowledgement |
| Socket.TcpSocket.OnAck | TcpSocketDll/CTcpSocket.cpp:229-245 | The loop erases the first pending packet with the number, if any, and only that |
| Socket.TcpSocket.OnDatagram | TcpSocketDll/CTcpSocket.cpp:121-252 | One round of the receive thread is one step `Handle` of the machine, on record, pending list and reply |
| Socket.TcpSocket.Recv | TcpSocketDll/CTcpSocket.cpp:40-56 | What is returned followed by what remains is what was waiting; at most the buffer's length is returned |
| Socket.TcpSocket.Select | TcpSocketDll/CTcpServer.cpp:36-43 | One pass takes the first connection with status 1, in the order of the map, sets it to 2 and changes no other; it finds none exactly if there is none |
| Socket.TcpSocket.UnSelect | TcpSocketDll/CTcpServer.cpp:48-61 | The status becomes 1 if bytes wait and 0 if none do, and nothing else changes |
| Socket.ParkAt | TcpSocketDll/CTcpSocket.cpp:216-224 | The place found by the search is where the packet belongs |
| Socket.AckedAt | TcpSocketDll/CTcpSocket.cpp:232-240 | Erasing at the place found by the search is what an acknowledgement does |
| Socket.ConnectMatches | TcpSocketDll/CTcpClient.cpp:12-30 | What `BeginConnect` makes of a socket is what the step of the machine makes of it |
| Socket.FinishMatches | TcpSocketDll/CTcpClient.cpp:34-55 | The same for `FinishConnect` |
| Socket.SendMatches | TcpSocketDll/CTcpSocket.cpp:15-38 | The same for `Send` |
| Socket.HandleMatches | TcpSocketDll/CTcpSocket.cpp:121-252 | The same for a round of the receive thread |
| Socket.RecvMatches | TcpSocketDll/CTcpSocket.cpp:40-56 | The same for `Recv` |
| Socket.OthersUntouched | TcpSocketDll/CTcpSocket.cpp:15-256 | A step changes the socket of one address only |
| Handshake.SubmitPeers | TcpSocketDll/CTcpClient.cpp:62-65 | Wherever an application can send, both ends have an open record of the connection |
| Handshake.ReplyExpected | TcpSocketDll/CTcpClient.cpp:34-43 | Everything under way to a connecting client is its own server's answer with number 0 |
| Handshake.HandleWired | TcpSocketDll/CTcpSocket.cpp:121-252 | The receive thread keeps the invariant on who talks to whom |
| Handshake.FinishWired | TcpSocketDll/CTcpClient.cpp:34-57 | The end of `Connect` keeps it |
| Handshake.StepWired | TcpSocketDll/CTcpSocket.cpp:15-256 | Every step of every socket keeps it |
| Handshake.RunWired | TcpSocketDll/CTcpSocket.cpp:15-256 | Every run keeps it, whatever the network does |
| Handshake.ConnectEstablishes | TcpSocketDll/CTcpClient.cpp:4-60 | In every run from the start, what reaches a connecting client leaves both ends with an open connection, the client expecting number 1 |
| Handshake.ConnectCanFinish | TcpSocketDll/CTcpClient.cpp:23-43 | In every run from the start, some continuation brings a connecting client its answer |
| Handshake.AcknowledgeHead | TcpSocketDll/CTcpSocket.cpp:58-104 | The first pending packet of a server or a connected client, of whatever kind, can be transmitted, received and acknowledged, and then it alone is gone |
| Handshake.PendingCanDrain | TcpSocketDll/CTcpSocket.cpp:58-104 | In any state of any run, some continuation has all pending packets of a server or a connected client acknowledged |
| Delivery.SubmitPair | TcpSocketDll/CTcpSocket.cpp:15-38 | `Send`, by anyone to anyone, keeps the relation between what was sent, what is pending and what was delivered from x to y |
| Delivery.HandlePair | TcpSocketDll/CTcpSocket.cpp:121-252 | So does every packet handled by any receive thread that does not set back a counter in use from x to y |
| Delivery.FinishPair | TcpSocketDll/CTcpClient.cpp:34-55 | So does the end of `Connect` |
| Delivery.FetchPair | TcpSocketDll/CTcpSocket.cpp:40-56 | So does `Recv` |
| Delivery.FetchTakes | TcpSocketDll/CTcpSocket.cpp:40-56 | `Recv` hands over the bytes from the front, as many as wait and are wanted, and changes nothing else of the record |
| Delivery.StepSafe | TcpSocketDll/CTcpSocket.cpp:15-256 | So does every step that does not set back a counter in use from x to y |
| Delivery.RunSafe | TcpSocketDll/CTcpSocket.cpp:15-256 | So does every run without one; resets elsewhere do no harm |
| Delivery.StreamIsPrefix | TcpSocketDll/CTcpSocket.cpp:15-256 | In every such run from the start, bytes received plus bytes waiting are a prefix of the bytes sent |
| Delivery.EstablishSafeIff | TcpSocketDll/CTcpSocket.cpp:126-140 | A first handshake packet keeps the relation from x to y if and only if it does not set back a counter in use for it |
| Replay.RunTraced | TcpSocketDll/CTcpSocket.cpp:155-228 | In every orderly run every packet noted was transmitted |
| Replay.DeliverAgain | TcpSocketDll/CTcpSocket.cpp:155-228 | After a reset, each packet delivered once more adds its payload behind what was already put out |
| Replay.AllAgain | TcpSocketDll/CTcpSocket.cpp:155-228 | After a reset, an orderly continuation hands out the whole log once more, more bytes than were sent |
| Replay.ReusedNumber | TcpSocketDll/CTcpSocket.cpp:126-140 | After a reset, the server can give the number its client expects to a packet that belongs further on |
| Replay.RequestsBreakIff | TcpSocketDll/CTcpSocket.cpp:126-140 | After any run orderly from client to server, a first handshake packet delivered now lets some orderly continuation break the order of the client's bytes if and only if the server's expected number is above 1 |
| Replay.AnswersBreakIff | TcpSocketDll/CTcpSocket.cpp:126-140 | After any run orderly from server to client, it lets some orderly continuation break the order of the server's bytes if and only if the number of the server's next packet is above 1 |
| Completion.AckedQueued | TcpSocketDll/CTcpSocket.cpp:229-245 | An acknowledgement adds nothing to the pending list and takes nothing from it but what it hits |
| Completion.AckedOnce | TcpSocketDll/CTcpSocket.cpp:229-245 | Where no packet for y is pending twice, that stays so and the packet hit is gone |
| Completion.StepHonest | TcpSocketDll/CTcpSocket.cpp:15-256 | In every orderly step no packet from x to y comes to be pending twice, and y acknowledges only what it has noted |
| Completion.SubmitKept | TcpSocketDll/CTcpSocket.cpp:15-38 | `Send` leaves every packet from x to y noted by y or pending at x |
| Completion.FinishKept | TcpSocketDll/CTcpClient.cpp:44-47 | Clearing the pending list at the end of `Connect` drops no data |
| Completion.HandleKept | TcpSocketDll/CTcpSocket.cpp:121-252 | The receive thread leaves every packet noted or pending, unless it resets or misfires on this direction |
| Completion.StepKept | TcpSocketDll/CTcpSocket.cpp:15-256 | So does every step |
| Completion.AckKeptIff | TcpSocketDll/CTcpSocket.cpp:229-245 | An acknowledgement leaves every packet from x to y noted or pending if and only if it does not misfire on one |
| Completion.MisfiresIff | TcpSocketDll/CTcpSocket.cpp:229-245 | An acknowledgement misfires exactly when it hits data for another address than its sender's and that addressee has not noted the packet |
| Completion.ClientNeverStrays | TcpSocketDll/CTcpClient.cpp:62-65 | At a client acknowledgements hit no data but their sender's |
| Completion.ClientNoStray | TcpSocketDll/CTcpClient.cpp:62-65 | And so in every run |
| Completion.NoStrayNoMisfire | TcpSocketDll/CTcpSocket.cpp:229-245 | A run in which every acknowledgement to x hits no data but its sender's never misfires on what x sent |
| Completion.NothingLost | TcpSocketDll/CTcpSocket.cpp:15-256 | In every orderly run from the start each packet is noted or pending, always for a client, and for a server if no acknowledgement misfired on what it sent to y |
| Completion.StepClean | TcpSocketDll/CTcpSocket.cpp:15-256 | A step leaves a receiver free of repeats if and only if it was and the step parks nothing twice |
| Completion.RunClean | TcpSocketDll/CTcpSocket.cpp:15-256 | The same over whole runs |
| Completion.ArrivedIff | TcpSocketDll/CTcpSocket.cpp:15-256 | In every orderly run from the start, all that was sent has come out and nothing is parked if and only if every packet has arrived and nothing was ever parked twice |
| Completion.DeliveredIff | TcpSocketDll/CTcpSocket.cpp:15-256 | Once nothing is pending at a client, or at a server none of whose packets to y was misfired on, that is so if and only if nothing was ever parked twice |
| Recovery.StepLost | TcpSocketDll/CTcpSocket.cpp:15-256 | A packet that is neither noted, pending nor ever transmitted stays so at every step but a reset of its direction |
| Recovery.RunLost | TcpSocketDll/CTcpSocket.cpp:15-256 | And over every orderly run |
| Recovery.Supply | TcpSocketDll/CTcpSocket.cpp:58-104 | If the packet a clean receiver waits for was never transmitted, the sender's send thread can do so |
| Recovery.Push | TcpSocketDll/CTcpSocket.cpp:155-228 | Its delivery brings the receiver forward and keeps every invariant |
| Recovery.Finish | TcpSocketDll/CTcpSocket.cpp:15-256 | Where nothing is parked twice and nothing is lost there is an orderly continuation that delivers everything sent |
| Recovery.DeliverableIff | TcpSocketDll/CTcpSocket.cpp:15-256 | From any state of an orderly run, some orderly continuation delivers everything sent if and only if nothing is parked twice and every packet not noted is pending or was transmitted |
| Recovery.AllTaken | TcpSocketDll/CTcpSocket.cpp:40-56 | What has come out can be received by the application to the last byte |
| Recovery.StepExtantIff | TcpSocketDll/CTcpSocket.cpp:15-256 | An orderly step loses a packet if and only if it is an acknowledgement that erases an unnoted packet never transmitted |
| Recovery.RunDeliverableIff | TcpSocketDll/CTcpSocket.cpp:15-256 | After any orderly run from the start, everything can still be delivered by some orderly continuation if and only if the run parked nothing twice and contained no such acknowledgement |
| Recovery.ClientDeliverableIff | TcpSocketDll/CTcpClient.cpp:62-65 | For what a client sent, if and only if the run parked nothing twice |
| Recovery.MisfireFatalIff | TcpSocketDll/CTcpSocket.cpp:229-245 | After a misfire, what was sent to the addressee can still be delivered if and only if the erased packet was transmitted before and nothing is parked twice |
| Hazards.LateHandshakeRepeatsData | TcpSocketDll/CTcpSocket.cpp:126-140 | A run from the start in which a late first handshake packet makes one byte sent come out twice |
| Hazards.LateHandshakeSwapsAnswers | TcpSocketDll/CTcpSocket.cpp:126-140 | A run from the start in which a late first handshake packet puts the server's second answer in the place of its first |
| Hazards.RepeatedPacketStalls | TcpSocketDll/CTcpSocket.cpp:214-225 | A run from the start with a repeated packet, nothing lost, after which no orderly continuation delivers everything |
| Hazards.MisfireLosesPacket | TcpSocketDll/CTcpSocket.cpp:229-245 | A run from the start in which one client's acknowledgement erases another client's packet: not received, not pending, never transmitted, and no orderly continuation delivers what was sent |
| Selection.RunKeepsInv | TcpSocketDll/CTcpServer.cpp:32-61 | Every interleaving of the receive thread, `Select` and `UnSelect` keeps the invariant on status, stream and lock |
| Selection.NoLostRequest | TcpSocketDll/CTcpServer.cpp:32-61 | Unread bytes on a connection not being served mean status 1, and status 0 means no unread bytes, whenever the receive thread is between packets |
| Selection.ServedOnce | TcpSocketDll/CTcpServer.cpp:36-43 | The status is 2 exactly while the connection is being served |
| Selection.SelectWorthwhileIff | TcpSocketDll/CTcpServer.cpp:32-61 | In every state of a run, status 1 means that there are bytes to read, if and only if the receive thread never raises the status of a connection already read empty and given back |
| Selection.StepTightIff | TcpSocketDll/CTcpServer.cpp:32-61 | The same, step by step |
| Selection.LateRaiseHappens | TcpSocketDll/CTcpSocket.cpp:168-178 | A run from the start that ends with status 1 and nothing to read |
| Selection.NeverStuck | TcpSocketDll/CTcpServer.cpp:32-61 | Whoever holds the status lock can go on, whoever wants it can have it when it is free, and the scan finds a connection with unread bytes |
| Selection.OnDataSteps | TcpSocketDll/CTcpSocket.cpp:155-212 | The DATA case of the receive thread, as `OnData` computes it, is a run of the receive steps of this machine |
| Selection.ServeSteps | TcpSocketDll/CTcpServer.cpp:32-61 | `Select` and `UnSelect` are runs of its serving steps |
| ByteStream.Stream.constructor | TcpSocketDll/CByteStream.h:19 | A new stream is empty |
| ByteStream.Stream.Write | TcpSocketDll/CByteStream.cpp:3-9 | The loop appends the bytes given, none for a negative size |
| ByteStream.Stream.Read | TcpSocketDll/CByteStream.cpp:11-17 | Gives the first `size` bytes and erases exactly these |
| ByteStream.Stream.Peek | TcpSocketDll/CByteStream.cpp:19-22 | Gives the first `size` bytes and changes nothing |
| ByteStream.Stream.GetSize | TcpSocketDll/CByteStream.cpp:24-27 | Counts the bytes still buffered |
| ByteStream.BytesConserved | TcpSocketDll/CByteStream.cpp:3-27 | Over every run, all bytes read followed by those still buffered are those buffered at the start followed by all written |
| ByteStream.GivesFront | TcpSocketDll/CByteStream.cpp:11-22 | Every read and peek gives as many bytes as asked for, the first ones buffered |
| ByteStream.FirstInFirstOut | TcpSocketDll/CByteStream.cpp:3-27 | Over every run, the reads give exactly as many bytes as they ask for, the first of all bytes that went in, and the rest remains |
| ByteStream.ChunkingIrrelevant | TcpSocketDll/CByteStream.cpp:3-22 | Two runs with the same reads and peeks and the same bytes written before each give the same results one by one, however the writes are cut |
| ByteStream.ReadsCompose | TcpSocketDll/CByteStream.cpp:11-22 | Two reads are one longer read; a peek foretells the next read and does not disturb it |
| ThreadPool.PopFindsTask | SchoolSystemServer/CThreadPool.cpp:89-92 | A worker about to pop finds a task in the queue |
| ThreadPool.StepKeepsInv | SchoolSystemServer/CThreadPool.cpp:55-99 | Every step of the adder or a worker keeps mutual exclusion, the counts and the accounts of every task |
| ThreadPool.RunKeepsInv | SchoolSystemServer/CThreadPool.cpp:55-99 | So does every interleaving, and none pops an empty queue |
| ThreadPool.PoolSafe | SchoolSystemServer/CThreadPool.cpp:55-99 | Tasks are popped in order of acceptance, each is queued, held by one worker or done, as often as accepted; the limits on threads and semaphore hold, the idle count is never negative, accepted tasks have a thread |
| ThreadPool.ShutdownAccountsForAll | SchoolSystemServer/CThreadPool.cpp:29-46 | When all workers have exited, every accepted task was executed or is left in the queue to be aborted |
| ThreadPool.StepShortens | SchoolSystemServer/CThreadPool.cpp:55-99 | Every step other than a new task or the stop shortens the work left |
| ThreadPool.RunsEnd | SchoolSystemServer/CThreadPool.cpp:55-99 | Without new tasks no schedule keeps the threads busy for ever: every run is at most as long as a bound computed from its first state |
| ThreadPool.QuietMeansDone | SchoolSystemServer/CThreadPool.cpp:29-99 | When no thread can go on, every accepted task has been executed and the queue is empty, or after a stop every worker has exited, so that the destructor's wait ends |
| ThreadPool.RunStops | SchoolSystemServer/CThreadPool.cpp:29-31 | The pool is stopping exactly after a stop |
| ThreadPool.OfferedAccounts | SchoolSystemServer/CThreadPool.cpp:55-63 | Each task is accepted, dropped or in the adder's hands, as often as it was offered; dropped are exactly those that found the semaphore at its limit; none are if no more than the limit were offered |
| ThreadPool.PoolGrows | SchoolSystemServer/CThreadPool.cpp:65-68 | There are as many threads as decisions made with no idle thread and room for more, never more than tasks offered |
| ThreadPool.AdderProceeds | SchoolSystemServer/CThreadPool.cpp:55-71 | The adding thread goes on once inside and comes in when nobody is; a worker inside goes on |
| RwLock.NativeRwLock.constructor | MySQL Server 5.7/include/thr_rwlock.h:59-69 | A new lock is free and its flag is down |
| RwLock.NativeRwLock.RdLock | MySQL Server 5.7/include/thr_rwlock.h:80-88 | Adds a sharer and does not touch the flag |
| RwLock.NativeRwLock.TryRdLock | MySQL Server 5.7/include/thr_rwlock.h:90-99 | EBUSY exactly when the lock cannot be shared, and then nothing changes |
| RwLock.NativeRwLock.WrLock | MySQL Server 5.7/include/thr_rwlock.h:101-110 | Takes the lock exclusively and raises the flag |
| RwLock.NativeRwLock.TryWrLock | MySQL Server 5.7/include/thr_rwlock.h:112-122 | EBUSY exactly when the lock is held, and then nothing changes |
| RwLock.NativeRwLock.Unlock | MySQL Server 5.7/include/thr_rwlock.h:124-138 | With the flag right, exactly the mode held is given up and the flag is down |
| RwLock.StepKeepsInv | MySQL Server 5.7/include/thr_rwlock.h:80-138 | Every step of every thread keeps: the lock counts its holders, the flag is up exactly for a writer past its store, nobody has misread it |
| RwLock.Reachable | MySQL Server 5.7/include/thr_rwlock.h:59-138 | So in every state of every behaviour |
| RwLock.UnlockSeesOwnMode | MySQL Server 5.7/include/thr_rwlock.h:124-138 | In every interleaving a reader in `unlock` has read FALSE and a writer TRUE, and the exclusive release is reached by writers only |
| RwLock.FlagMeansExclusive | MySQL Server 5.7/include/thr_rwlock.h:49-138 | The flag is up only under one exclusive holder and no sharers; with no thread inside a call it is up exactly when the lock is held exclusively |
| RwLock.AvailableIffAdmits | MySQL Server 5.7/include/thr_rwlock.h:80-122 | The primitive can be acquired in a mode exactly when the abstract lock, which knows who holds it, admits that mode |
| RwLock.StepRefines | MySQL Server 5.7/include/thr_rwlock.h:80-138 | Every step is a step of the abstract lock by the same thread with the same result: let in only where admitted, EBUSY only where not, and the mode the code releases is the one its caller holds |
| RwLock.RunRefines | MySQL Server 5.7/include/thr_rwlock.h:59-138 | Every behaviour refines the abstract lock, which starts free, and in every state the primitive can be acquired exactly in the modes admitted |
| RwLock.ProceedsIff | MySQL Server 5.7/include/thr_rwlock.h:80-138 | A thread inside a call can go on if and only if it does not wait for a mode which the abstract lock does not admit |
| RwLock.NoDeadlock | MySQL Server 5.7/include/thr_rwlock.h:80-138 | In every state of every behaviour with a thread inside a call, some thread can go on, or one at rest holds the lock and can give it back |
| Mutex.NativeMutex.constructor | MySQL Server 5.7/include/thr_mutex.h:74-83 | A new mutex is free |
| Mutex.NativeMutex.Lock | MySQL Server 5.7/include/thr_mutex.h:85-93 | Enters the section once more |
| Mutex.NativeMutex.TryLock | MySQL Server 5.7/include/thr_mutex.h:95-111 | Succeeds exactly when nobody owns the section, the caller included, and otherwise leaves it unchanged |
| Mutex.NativeMutex.Unlock | MySQL Server 5.7/include/thr_mutex.h:113-121 | Leaves the section once |
| Mutex.StepKeepsInv | MySQL Server 5.7/include/thr_mutex.h:85-121 | Every step of every thread keeps: the count is the depth of the owner's call, and everyone else is outside |
| Mutex.Reachable | MySQL Server 5.7/include/thr_mutex.h:74-121 | So in every state of every behaviour |
| Mutex.CountAtRest | MySQL Server 5.7/include/thr_mutex.h:85-121 | An owner at rest has entered once; the count is above 1 only inside the owner's trylock; leaving is never undefined |
| Mutex.TryLockExact | MySQL Server 5.7/include/thr_mutex.h:95-111 | trylock returns 0 exactly when nobody owned the mutex at its attempt |
| Mutex.WaitFreesMutex | MySQL Server 5.7/include/thr_cond.h:126-149 | A thread about to sleep on a condition has entered exactly once, so the level it gives up frees the mutex |
| Mutex.RunRefines | MySQL Server 5.7/include/thr_mutex.h:85-121 | Every behaviour refines a mutex that is not recursive, with the results of the calls: lock, trylock returning 0 and the end of a wait, timed out or not, take a free mutex, EBUSY is returned only for an owned one, unlock and the beginning of a wait free it |
| Mutex.ProceedsIff | MySQL Server 5.7/include/thr_mutex.h:85-121 | A thread inside a call can go on if and only if it does not lock or wake while the mutex has an owner |
| Mutex.NoDeadlock | MySQL Server 5.7/include/thr_mutex.h:85-121 | In every state of every behaviour with a thread inside a call, some thread can go on, or the owner is at rest and can give the mutex back |
| Bits.BitByBit | MySQL Server 5.7/include/my_byteorder.h:46-53 | The model of `&` and `|` acts bit by bit |
| Bits.AndHighMask | MySQL Server 5.7/include/my_global.h:462 | Masking with ones above bit k clears the k low bits |
| Bits.OrIsSum | MySQL Server 5.7/include/my_byteorder.h:46-53 | Or of values that share no bits is their sum |
| Bits.RoundUp | MySQL Server 5.7/include/m_string.h:301-302 | The division form gives the least multiple not below the address |
| Bits.AlignExact | MySQL Server 5.7/include/my_global.h:462 | `MY_ALIGN` is the least multiple not below A, and equals the division form, if and only if the sum does not overflow; otherwise it is 0 |
| Bits.AlignIdempotentMonotone | MySQL Server 5.7/include/my_global.h:462 | `MY_ALIGN` is idempotent and monotone where it does not overflow |
| ByteOrder.LeRoundTrip | MySQL Server 5.7/include/byte_order_generic.h:45-104 | Loading what was stored gives the value modulo its width, for every width |
| ByteOrder.ValRoundTrip | MySQL Server 5.7/include/byte_order_generic.h:45-104 | Storing what was loaded reproduces the bytes, for every width |
| ByteOrder.SignedRoundTrip | MySQL Server 5.7/include/byte_order_generic.h:27-43 | Every value in two's complement range is recovered with its sign |
| ByteOrder.Uint2korr | MySQL Server 5.7/include/byte_order_generic.h:45-51 | The value of the two bytes, low byte first, without overflow |
| ByteOrder.Uint3korr | MySQL Server 5.7/include/my_byteorder.h:57-64 | The value of the three bytes |
| ByteOrder.Uint4korr | MySQL Server 5.7/include/byte_order_generic.h:53-61 | The value of the four bytes |
| ByteOrder.Uint5korr | MySQL Server 5.7/include/my_byteorder.h:66-75 | The value of the five bytes |
| ByteOrder.Uint6korr | MySQL Server 5.7/include/my_byteorder.h:77-87 | The value of the six bytes |
| ByteOrder.Uint8korr | MySQL Server 5.7/include/byte_order_generic.h:63-76 | The value of the eight bytes |
| ByteOrder.Sint2korr | MySQL Server 5.7/include/byte_order_generic.h:27-33 | The two's complement reading of the two bytes |
| ByteOrder.Sint4korr | MySQL Server 5.7/include/byte_order_generic.h:35-43 | The two's complement reading of the four bytes |
| ByteOrder.Sint8korr | MySQL Server 5.7/include/byte_order_generic.h:78-81 | The two's complement reading of the eight bytes |
| ByteOrder.Assembled | MySQL Server 5.7/include/my_byteorder.h:43-55 | The assembly with or, and the test of the top bit, equal the additive assembly |
| ByteOrder.Sint3korrIsSigned | MySQL Server 5.7/include/my_byteorder.h:43-64 | The 24-bit load is the two's complement reading of `uint3korr` and lies in its range |
| ByteOrder.Int3RoundTrip | MySQL Server 5.7/include/my_byteorder.h:43-94 | `sint3korr` inverts `int3store` on the whole 24-bit range |
| ByteOrder.Int2store | MySQL Server 5.7/include/byte_order_generic.h:83-88 | Writes the two bytes, low byte first, and no other |
| ByteOrder.Int3store | MySQL Server 5.7/include/my_byteorder.h:89-94 | Writes the three bytes and no other |
| ByteOrder.Int4store | MySQL Server 5.7/include/byte_order_generic.h:90-96 | Writes the four bytes and no other |
| ByteOrder.Int5store | MySQL Server 5.7/include/my_byteorder.h:96-103 | Writes the five bytes and no other |
| ByteOrder.Int6store | MySQL Server 5.7/include/my_byteorder.h:105-113 | Writes the six bytes and no other |
| ByteOrder.Int8store | MySQL Server 5.7/include/byte_order_generic.h:98-104 | Its two halves write the eight bytes of the whole and no other |
| ByteOrder.StoreAllFrame | MySQL Server 5.7/include/my_byteorder.h:89-113 | Storing a list of fields reaches only their own bytes |
| ByteOrder.FieldsRoundTrip | MySQL Server 5.7/include/byte_order_generic.h:45-104 | Any list of fields of mixed widths stored one behind the other is read back unchanged |
| ByteOrder.BufferRoundTrip | MySQL Server 5.7/include/byte_order_generic.h:45-104 | Storing again what was loaded reproduces the buffer |
| Hosts.Float4store | MySQL Server 5.7/include/big_endian.h:28-32 | Writes the bytes of a float in memory, reversed on a big-endian host, and no other |
| Hosts.Float8store | MySQL Server 5.7/include/big_endian.h:42-50 | The same for a double |
| Hosts.Float4HostIndependent | MySQL Server 5.7/include/little_endian.h:36-44 | Every host writes the same bytes for a float, and every host reads what any host wrote |
| Hosts.Float8RoundTrip | MySQL Server 5.7/include/little_endian.h:46-54 | Big- and little-endian hosts read each other's doubles, and every host its own |
| Hosts.MixedFloat8Iff | MySQL Server 5.7/include/little_endian.h:46-60 | With swapped words `float8store` writes the shared format if and only if the two words are equal |
| Hosts.MixedFloat8Differs | MySQL Server 5.7/include/little_endian.h:46-60 | For 1.0 it does not |
| Hosts.Doublestore | MySQL Server 5.7/include/little_endian.h:61-69 | Writes the bytes of a double in memory, its words exchanged where they are swapped, and no other |
| Hosts.DoubleRoundTrip | MySQL Server 5.7/include/little_endian.h:59-87 | The pair is inverse on every host; with swapped words it writes the low byte first |
| Hosts.ShortstoreBig | MySQL Server 5.7/include/big_endian.h:84-87 | Writes a short as it lies in big-endian memory |
| Hosts.LongstoreBig | MySQL Server 5.7/include/big_endian.h:88-92 | Writes a long as it lies in big-endian memory |
| Hosts.ShortstoreLittle | MySQL Server 5.7/include/little_endian.h:93 | Writes a short as it lies in little-endian memory |
| Hosts.LongstoreLittle | MySQL Server 5.7/include/little_endian.h:94 | Writes a long as it lies in little-endian memory |
| Hosts.ShortRoundTrip | MySQL Server 5.7/include/big_endian.h:67-87 | Get inverts store for every short on either host |
| Hosts.LongRoundTrip | MySQL Server 5.7/include/big_endian.h:70-92 | Get inverts store for every long on either host |
| Hosts.X86Agrees | MySQL Server 5.7/include/byte_order_generic_x86.h:34-68 | Native loads and stores agree with the generic ones at every offset, signed and unsigned |
| TrailingSpace.TrimmedUnique | MySQL Server 5.7/include/m_string.h:330-332 | The simple scan stops at the one position with only spaces behind it and no space right before it |
| TrailingSpace.SpaceWord | MySQL Server 5.7/include/m_string.h:326 | A word of four or eight bytes equals the word of spaces exactly when all its bytes are spaces |
| TrailingSpace.SpaceWordBig | MySQL Server 5.7/include/m_string.h:308 | The same for words loaded natively on a big-endian machine |
| TrailingSpace.SkipTrailingSpace | MySQL Server 5.7/include/m_string.h:321-333 | Eight bytes at a time gives the result of the simple scan and reads inside the string only |
| TrailingSpace.SkipTrailingSpaceAligned | MySQL Server 5.7/include/m_string.h:284-314 | The form with aligned words gives the same result at every address, length and word size |
| TrailingSpace.SkipWords | MySQL Server 5.7/include/m_string.h:307-309 | The word loop starts and stays on word boundaries, reads inside the string and drops only spaces |
| Deadline.SetTimespecNsec | MySQL Server 5.7/include/my_global.h:711-721 | Seconds and nanoseconds of the sum, modulo the overflow and up to the cap; the deadline is exact if and only if it meets neither |
| Deadline.SetTimespec | MySQL Server 5.7/include/my_global.h:735-738 | The deadline in seconds is exact if and only if neither the product nor the sum overflows nor the cap is met |
| Deadline.CmpIsOrder | MySQL Server 5.7/include/my_global.h:747-763 | The comparison is the order of the nanoseconds denoted, both ways |
| Deadline.CmpTransitive | MySQL Server 5.7/include/my_global.h:747-763 | It is transitive |
| Deadline.DiffExact | MySQL Server 5.7/include/my_global.h:765-773 | The unsigned difference is the true one modulo 2 to the 64, and equal to it if and only if that is not negative and fits |
| Deadline.GetMilliseconds | MySQL Server 5.7/include/thr_cond.h:92-102 | The timeout is within a millisecond of the time left where that is not negative and fits, its low 32 bits where it does not fit, and 0 when the deadline is past |
| Deadline.GetMillisecondsFile | MySQL Server 5.7/include/thr_cond.h:58-91 | The successive clamps give the time left between 0 and the bounds; no deadline means to wait for ever |
| Deadline.TimeoutBounds | MySQL Server 5.7/include/thr_cond.h:74-91 | However the clock moves, the timeout stays between 0 and the one asked for, equals it while the clock stands, and never grows with a later clock; the last clamp never acts |
| Deadline.TimeoutExact | MySQL Server 5.7/include/thr_cond.h:74-91 | The timeout counts down: until the deadline it is the time left in whole milliseconds up to the bounds, from the deadline on it is 0 |
| Deadline.TimeoutNeverExceedsRequest | MySQL Server 5.7/include/thr_cond.h:74-91 | The bounds hold even if the deadline overflowed |
| SslOptions.ClientOptions.constructor | MySQL Server 5.7/include/sslopt-vars.h:38-49 | The initial mode is PREFERRED, not set explicitly, with no files named |
| SslOptions.ClientOptions.Handle | MySQL Server 5.7/include/sslopt-case.h:29-64 | One option changes the variables as `Apply` says |
| SslOptions.ClientOptions.SetClientSslOptions | MySQL Server 5.7/include/sslopt-vars.h:51-76 | Warns, and passes the certificate authorities on, as `Warned` and `Decide` say |
| SslOptions.StaysRequired | MySQL Server 5.7/include/sslopt-case.h:29-57 | Once REQUIRED or stronger, only `--ssl=0` or `--ssl-mode` can bring the mode below REQUIRED |
| SslOptions.LastModeStands | MySQL Server 5.7/include/sslopt-case.h:29-57 | The last `--ssl-mode` stands wherever the CA options are, if no `--ssl` or `--ssl-verify-server-cert` follows |
| SslOptions.RunFlags | MySQL Server 5.7/include/sslopt-case.h:29-57 | Over every option list, the mode counts as explicit exactly if `--ssl-mode` occurred, and an authority as named exactly if a CA option did |
| SslOptions.RunMode | MySQL Server 5.7/include/sslopt-case.h:34-57 | Without `--ssl-mode` the mode is below VERIFY_CA exactly if the last option with a say was `--ssl=0` or there was none |
| SslOptions.SilentlyWithheldIff | MySQL Server 5.7/include/sslopt-vars.h:51-71 | A named authority is withheld without a warning if and only if there was no `--ssl-mode` and `--ssl=0` had the last say after the CA options |
| SslOptions.FinalMode | MySQL Server 5.7/include/sslopt-case.h:29-57 | The mode over every option list: that of the last option that decides one (`--ssl-mode`, `--ssl=0`, `--ssl-verify-server-cert`, or a CA option before any `--ssl-mode`), raised to REQUIRED by a later `--ssl` and lowered to VERIFY_CA by a later `--ssl-verify-server-cert=0` |
| SslOptions.LastDecisionExists | MySQL Server 5.7/include/sslopt-case.h:29-57 | Every option list has such a last option, or the mode starts from PREFERRED |
| SslOptions.SettingsExact | MySQL Server 5.7/include/sslopt-vars.h:65-75 | Each parameter of `mysql_ssl_set` is the value given last for it, the two for authorities only from VERIFY_CA on, and the mode is passed on |
| IoCache.Cache.constructor | MySQL Server 5.7/include/my_sys.h:363-401 | A cache over a buffer with its first bytes valid |
| IoCache.Cache.Read | MySQL Server 5.7/include/my_sys.h:506-510 | Hits exactly when enough is buffered; then copies exactly the bytes at the read position and advances by them; else changes nothing |
| IoCache.Cache.Get | MySQL Server 5.7/include/my_sys.h:518-521 | Hits exactly when the cache is not empty; then returns the byte at the read position and advances by one |
| IoCache.Cache.Write | MySQL Server 5.7/include/my_sys.h:512-516 | Hits exactly when there is room; then writes exactly the data at the write position, else changes nothing |
| IoCache.HitIff | MySQL Server 5.7/include/my_sys.h:506-537 | A call is a hit exactly when `my_b_bytes_in_cache` is enough for it, and takes that many bytes from it |
| IoCache.OutputIsBuffer | MySQL Server 5.7/include/my_sys.h:506-521 | A run of hits delivers one contiguous piece of the buffer and stays below `read_end` |
| IoCache.RunReadsFile | MySQL Server 5.7/include/my_sys.h:506-537 | A run of hits delivers exactly the slice of the file between the two values of `my_b_tell`, and `my_b_tell` plus `my_b_bytes_in_cache` is always the end of the part cached |
| IoCache.RunAppends | MySQL Server 5.7/include/my_sys.h:512-516 | A run of writes that hit appends exactly their data and leaves every other byte alone |

## Left out

- The clock of `SendThreadProc` (retransmission after 1000 ticks): the machine may transmit any pending packet at any time, which covers every timing. That a packet is eventually transmitted or delivered is not claimed; `Recovery.DeliverableIff` says when delivery stays possible.
- Errors of `socket`, `bind`, `sendto` and `recvfrom`, which end a thread or a call.
- Packet numbers are unbounded; the wrap-around of a 32-bit `int` after 2^31 packets is not modelled.
- Data races on `m_connectMap` and on `m_byteStream.GetSize` outside their locks: a map access and a size query are single steps. The loop of `RecvThreadProc` is one step of `Network`; its two-step update of stream and status is modelled in `Selection`.
- Applications that break the server's own pattern (`CServer.cpp`: send only where `Select` has returned the connection, after data arrived) or connect a client twice; `Network.Enabled` spells the pattern out.
- Socket.TcpSocket.Send: a negative length that is no multiple of 1024 is excluded; the source then passes a negative length to `memcpy`, which is undefined.
- ByteStream.Stream.Read: reads beyond the buffered bytes are undefined in the source and excluded.
- ByteStream.Stream.Peek: as for reads, only in range.
- `DataPacket::m_data` beyond `m_nLen`, and datagrams that are not packets: a datagram is a packet of one of the four types.
- Selection.RunKeepsInv: one connection with the thread that serves it; scanning several connections only repeats it.
- ThreadPool.PoolSafe: one adding thread, as in `CServer`; tasks dropped when the semaphore is full are recorded in `dropped` (the source leaks them).
- The failure of `CreateThread`, and the limits on handles.
- RwLock.NativeRwLock.TryRdLock: SRWLOCK is a primitive with a count; that it may also refuse a try while others wait is not modelled, nor fairness.
- Continuations with a reset of the direction in question are not covered by the negative halves of `Recovery`: after one, order itself can fail, and a stream with repeated bytes may happen to equal what was sent.
- POSIX branches of the lock, condition and thread wrappers, `rw_pr_*` and `safe_mutex_*`: foreign calls or declarations only.
- Waking of condition variables: a sleeper may wake at any time and return 0 or ETIMEDOUT.
- Floating-point values are bit patterns; conversions that round are out.
- Deadline.TimeoutBounds: the variant for a `long` of eight bytes, which does not cap at INT_MAX32, is not part of this model; the clock plus the request is taken to fit 63 bits.
- Deadline.CmpIsOrder: the form with `struct timespec`; the FILETIME forms of `cmp_timespec` and `diff_timespec` compare or subtract one number and are not modelled.
- `--ssl-mode` names that do not exist end the program and are no option here; CRL and TLS options do not touch the mode.
- Slow paths of `IO_CACHE` (`read_function`, `write_function`, `_my_b_get`), whose bodies are not part of the repository.
- IoCache.Cache.Read: a destination that overlaps the cache's own buffer is undefined for `memcpy` and excluded.
- The MFC dialogs, `CServer`'s SQL and the MySQL wrapper: no logic beyond calls.
