# A verified model of ubus

ubus is the message bus of OpenWrt: a daemon, `ubusd`, to which clients connect over a stream socket, and a client
library, `libubus`.  Clients register objects with methods, call the objects of other clients, subscribe to objects
and notify subscribers, and broadcast events by name.  The daemon routes all of this, keeps an access control list,
and lets privileged clients monitor the traffic.

This project models the parts of both sides where state, order or arithmetic is intricate, and proves what they
promise: for every input, over every run, and in every state that can be reached.

| file | models |
|---|---|
| `Ubus.dfy`, `Seqs.dfy` | shared numbers; lists |
| `CStrings.dfy` | `strcmp` order and the common prefix that all pattern scans work with |
| `Acl.dfy`, `Events.dfy`, `Lookup.dfy` | the scans over string trees: access checks, event delivery, object lookups |
| `TxQueue.dfy`, `MsgBufs.dfy` | sending in the daemon: bytes, limits and framing; reference counts, shared storage and descriptors |
| `RxStream.dfy`, `ClientIo.dfy` | the wire format, receiving in the daemon, sending in the client, and both together |
| `Registry.dfy`, `Daemon.dfy` | clients, objects, types, paths, subscriptions and monitors: as a value with its invariant, and as the daemon that changes it in place |
| `System.dfy` | the registry and the event sources together, and the events that announce objects |
| `Replies.dfy`, `Routing.dfy` | which messages a command leads to; calls and answers between clients, whose daemon is proved to act as the handlers do |
| `Requests.dfy`, `ClientLoop.dfy`, `ClientBuffers.dfy`, `AclRefresh.dfy`, `TypeIds.dfy` | the client: requests and notifications, re-entrancy, its receive buffer, the ACL query, the ids of object types |

Code that updates state in place is a class with those fields and methods proved against a specification; its whole
runs are a method `Run`.  Protocols between several parties, and a library that is re-entered from its own callbacks,
are steps of a state machine; their whole runs are lemmas.  The kernel, the random source, memory, access decisions
where they are not the point, and what an application does in a callback are parameters, and are universally
quantified in every statement.

Trees are sorted sequences, lists are sequences (`list_add` puts an element at the head, `list_add_tail` at the end),
and a blob is a record or a sequence of bytes whose length stands in the low 24 bits of its head.

## Where a promise does not hold

The code is modelled as it is.  Where it does not keep what its comments or its purpose suggest, there is a run that
shows it and the condition under which it does.

- Framing: `ubus_msg_send` tests `eof` once and then writes the copies for the monitors.  A client that monitors itself
  can get a part of a copy and then the message itself, contrary to the comment above the test: for every message of at
  least 1048525 bytes (`TxQueue.TornCopy`).  `TxQueue.SpliceExactly` says exactly for which sends the kernel can bring
  this about, with and without enough memory.
- Events: the stamp that keeps an event from reaching an object twice repeats after 2^32 - 1 events
  (`Events.MissedEvent`).  `Events.Bus.SendEvent` says exactly when an object misses an event.
- Descriptors: the comment in `ubus_proto_send_msg_from_blob` says that the caller clears its own copy of the
  descriptor.  `ubusd_reply_query` does not.  `MsgBufs.Pool.HandleQuery` says exactly when that matters.
- Answers: a client id or a sequence number that is used again can lead an answer to another request
  (`Routing.AnotherCaller`, `Routing.AnotherCall`).  `Routing.AstrayExactly` and `Routing.SettlesExactly` say exactly
  when.
- Types: a type id that is handed out again can leave a client with the id of a dropped type (`TypeIds.StaleId`).
  `TypeIds.StaleExactly` says exactly when; `TypeIds.NeverStale` holds where none is handed out again.
- Pending messages: a context in the event loop whose connection is restored in the callback that reports its loss can
  leave `ubus_handle_data` with a message pending (`ClientLoop.PendingAfterReconnect`).  `ClientLoop.ForgottenExactly`
  says exactly when.

## Model

| member | source | states |
|---|---|---|
| `CStrings.StrMatchLen` | ubus_common.h:22-29 | returns the length of the longest common prefix of two strings and whether they are equal, for all strings |
| `CStrings.LcpMonotone` | ubusd_event.c:166-170 | below a name, keys closer to it in `strcmp` order share at least as long a prefix with it: the fact the scans' comment appeals to |
| `CStrings.NoMatchAfterShrink` | ubusd_event.c:171-179 | once the shared prefix shrinks along a sorted walk, no later key, plain or wildcard, matches the name: the early exit is sound |
| `CStrings.MatchByLength` | ubusd_event.c:181-187 | the test on the shared length says exactly that the key equals the name or is a wildcard prefix of it |
| `CStrings.Key` | ubusd_event.c:95-99 | a pattern is its key, with a star behind it exactly if it is a wildcard |
| `Acl.MatchCred` | ubusd_acl.c:81-99 | 0 exactly when the user, the main group or an extra group of the client is the one the entry names |
| `Acl.ListsMethod` | ubusd_acl.c:166-172 | a method list grants a method exactly when it holds its name or a star as a string |
| `Acl.GrantsAccess` | ubusd_acl.c:139-175 | grants exactly what the flags and the method list of the entry say, for each kind of access |
| `Acl.Table.Check` | ubusd_acl.c:101-179 | for every table in key order, with duplicates, the early-exit scan allows exactly when the plain rule does: no client, root, no object name, or some matching entry with matching credentials and the permission |
| `Acl.Table.ReplyAdd` | ubusd_acl.c:589-639 | the query reply lists exactly the matching entries that carry private data, in tree order, although entries without such data are skipped before their prefix is looked at |
| `Acl.Table.AllocObj` | ubusd_acl.c:306-336 | one entry is added, in front of exactly the entries with greater keys; it matches what the pattern text means and grants nothing yet; an empty text adds nothing |
| `Acl.NothingMatchesFrom` | ubusd_acl.c:122-134 | past the entry where the scan stops nothing matches |
| `Acl.GrantsEndAtShrink` | ubusd_acl.c:604-616 | stopping the query scan there loses no record |
| `Events.NextStamp` | ubusd_event.c:161-163 | the 32-bit counter that skips zero takes the stamp of event n to that of event n + 1 |
| `Events.StampsRepeat` | ubusd_event.c:161-163 | two events carry the same stamp exactly when they are a multiple of 2^32 - 1 apart |
| `Events.Bus.AllocEventPattern` | ubusd_event.c:60-116 | succeeds exactly for an own, unreserved, live object and a permitted non-empty pattern, and otherwise returns the status of the first test that fails; then tree and list gain one source, behind those with the same key, which matches what the pattern text means |
| `Events.Bus.CleanupObject` | ubusd_event.c:40-47 | the sources of the object, and only those, leave the tree, and the others keep their order |
| `Events.Bus.RemoveObject` | ubusd_obj.c:204-214 | after an object is freed no source refers to it, and tree and lists still agree |
| `Events.Bus.SendEventMsg` | ubusd_event.c:118-148 | skips the sender's objects and those stamped already, and otherwise stamps, numbers and sends |
| `Events.Bus.SendEvent` | ubusd_event.c:150-198 | sends the event exactly once to each object that is due and whose stamp is not a whole number of periods old, and to no other, and enters this in the bus's history |
| `Events.RecipientsEndAtShrink` | ubusd_event.c:171-179 | stopping the scan where the shared prefix shrinks loses no recipient |
| `Events.EarlyDelivered` | ubusd_event.c:161-163 | in a history whose stale objects were stamped a whole number of periods before, each of the first 2^32 - 1 events went to exactly the due objects, once each |
| `Events.NumberMore` | ubusd_event.c:145 | the messages of all events so far, in order, are numbered 1, 2, ... modulo 2^16, whichever event and object they are for |
| `Events.Bus.Perform` | ubusd_event.c:33-198 | one operation changes the objects and the wishes registered as a plain set of wishes says, an allowed event adds one round with exactly the objects due by those wishes, and the status is that of the plain rule |
| `Events.Run` | ubusd_event.c:33-198 | for every list of operations the tree and lists of the bus stand for the plain wishes after them, its history is that of exactly the allowed events with the objects due at each, and each of the first 2^32 - 1 events that could be built reached every due object exactly once and no other |
| `Events.MissedEvent` | ubusd_event.c:128-132 | the bound is sharp: a bus whose history has 2^32 events, the last of which is due at an object and was sent to nobody |
| `Lookup.FindGe` | ubusd_proto.c:234-242 | finds the first path not below the key |
| `Lookup.ByPattern` | ubusd_proto.c:268-300 | a wildcard lookup visits exactly the objects whose path has the prefix, in order, and a plain one the object of that name; NOT_FOUND exactly when there is none, INVALID_ARGUMENT exactly for an empty pattern |
| `Lookup.WalkIsFilter` | ubusd_proto.c:284-297 | seeking and walking while the prefix matches equals filtering the whole tree |
| `Lookup.PrefixConvex` | ubusd_proto.c:284-297 | what lies between the prefix and a path that has it has it too |
| `Lookup.ListRound` | ubusd_proto.c:234-265 | one round of a full list sends objects from the resume key on until the client's queue fills, and keeps the first path not sent |
| `Lookup.List` | ubusd_proto.c:302-334 | a list request from its receipt through any number of resumptions sends exactly the objects of all its rounds, and is done exactly when one reaches the end of its tree |
| `Lookup.ListAscends` | ubusd_proto.c:234-265 | over any interruptions and any changes of the tree in between, the paths come in strictly ascending order |
| `Lookup.ListComplete` | ubusd_proto.c:314-334 | an object that is in the tree in every round is listed once the list completes |
| `Lookup.ListedExactlyOnce` | ubusd_proto.c:224-265 | so it is listed exactly once |
| `TxQueue.GatherList` | ubusd.c:118-133 | at every offset the gather list holds exactly the rest of the message |
| `TxQueue.LimitDoesNotWrap` | ubusd.c:153 | the comparison of a possibly negative int with unsigned lengths compares the true sum, in the states that occur |
| `TxQueue.Client.Enqueue` | ubusd.c:149-170 | queues exactly when memory and the limit permit |
| `TxQueue.Client.WriteDirect` | ubusd.c:192-218 | what the kernel does not take of a direct write is queued, or dropped with the client flagged if a part is out |
| `TxQueue.Client.Transmit` | ubusd.c:192-218 | keeps the bytes written equal to whole accepted messages plus the first `txq_ofs` bytes of the queue's head, and does to them what offering the message to a plain queue with a limit does, unless it writes behind half a message |
| `TxQueue.Client.Send` | ubusd.c:172-219 | keeps the stream framed; after a half message has been dropped it writes nothing while `eof` stays set; the exception, told exactly with the bytes it writes, is a copy to a client that monitors itself, which is computed from the message |
| `TxQueue.Client.WriteHead` | ubusd_main.c:108-129 | one write of the drain keeps the stream framed and frees a message with its last byte |
| `TxQueue.Client.Drain` | ubusd_main.c:103-130 | the drain accepts and loses nothing, writes exactly what the kernel takes, and disconnects exactly on an error other than would-block |
| `TxQueue.WrittenMore` | ubusd_main.c:108-129 | each further write takes at most the rest of the message it is at, and the drain fails exactly if it fails with something left |
| `TxQueue.WrittenStops` | ubusd_main.c:108-129 | after a write that is refused or fails nothing more goes out |
| `TxQueue.Client.Stream` | ubusd.c:108-147 | what has been written is the start of the messages taken on, followed by the part of a message that was dropped, and what is left of them is the length of the queue |
| `TxQueue.CopySize` | ubusd_monitor.c:85-96 | the copy of a message for a monitor is at least two bytes over the queue limit exactly when the message has at least 1048525 bytes of data |
| `TxQueue.SpliceExactly` | ubusd.c:172-219 | some behaviour of the kernel breaks the framing exactly when the client is not flagged, has nothing queued and monitors itself, and the message has at least 1048525 bytes; where memory may run out, exactly when the client is not flagged, has nothing queued and monitors itself, whatever the size |
| `TxQueue.Run` | ubusd.c:149-219 | for every list of sends of which those to a self-monitoring client are below that size and their copies find memory, of drains and closes, with every short write: the messages taken on, the bytes out and the flag are those of a plain queue that is offered the same messages, the stream is the start of those messages and the dropped part, and nothing follows half a message |
| `TxQueue.TornCopy` | ubusd.c:172-219 | the bound is sharp: every message of at least that size, on every unflagged self-monitoring client with nothing queued, can leave one byte of the copy followed by the whole message on the stream |
| `MsgBufs.Pool.New` | ubusd.c:45-71 | a new buffer, owned or on shared storage, has one holder and disturbs no queued message |
| `MsgBufs.Pool.Copy` | ubusd.c:26-38 | a buffer on shared storage is copied as it is now, and its descriptor moves to the copy |
| `MsgBufs.Pool.Retain` | ubusd.c:41-42 | one more reference; the count stays the number of holders |
| `MsgBufs.Pool.Free` | ubusd.c:73-87 | the last reference closes the descriptor and frees the buffer, any other only counts down |
| `MsgBufs.Pool.Enqueue` | ubusd.c:149-170 | the queue gains the message as it is now, in storage that is rewritten by nobody |
| `MsgBufs.Pool.ListFree` | ubusd.c:142-147 | a message leaves the queue and all others stay what they were |
| `MsgBufs.Pool.PatchBlob` | ubusd_event.c:142-143 | rewriting shared storage changes no queued message |
| `MsgBufs.Pool.PatchHeader` | ubusd_proto.c:554-555 | rewriting the header of a buffer that is not queued changes no queued message |
| `MsgBufs.Undisturbed` | ubusd.c:23-43 | whatever happens to shared storage and to other buffers, queued messages are what they were |
| `MsgBufs.Pool.SendEvent` | ubusd_event.c:134-147 | one buffer patched per recipient: each queued copy carries its own object id and number |
| `MsgBufs.Pool.SendCopies` | ubusd_monitor.c:94-104 | one buffer renumbered per monitor: each queued copy carries its own number |
| `MsgBufs.Pool.SendStatus` | ubusd_proto.c:547-581 | the shared status message is rewritten and sent; statuses queued before keep their numbers and code |
| `MsgBufs.Pool.CloseFd` | ubusd_proto.c:43-50 | closes the descriptor of a message once and clears it |
| `MsgBufs.Pool.SendReply` | ubusd_proto.c:77-100 | the descriptor handed to a reply is with the queued copy, or closed |
| `MsgBufs.Pool.ReplyQueued` | ubusd_proto.c:77-100 | a queued reply holds the descriptor, and the queue gains the reply as it is now |
| `MsgBufs.Pool.ReplyUnqueued` | ubusd_proto.c:77-100 | a reply that is not queued closes the descriptor once and leaves no buffer |
| `MsgBufs.Pool.CloseStale` | ubusd_proto.c:84-93 | without memory for the reply the descriptor is closed, and the caller's field is a leftover |
| `MsgBufs.Pool.ForwardInvoke` | ubusd_proto.c:336-385 | a forwarded call carries the caller's id and number, and its descriptor is either with the queued call or closed once |
| `MsgBufs.Pool.SendOn` | ubusd_proto.c:464-466 | a response goes out under its new header with its own bytes and keeps its descriptor |
| `MsgBufs.Pool.Handle` | ubusd_proto.c:547-581 | whichever way a message goes, exactly what is forwarded or sent on joins the queue, with the descriptor only if the message is a status or a call; otherwise the descriptor is closed at once, and the buffer is released by its holder |
| `MsgBufs.Pool.HandleQuery` | ubusd_acl.c:641-668 | for a call of the built-in ACL object the reply joins the queue and the call's buffer is freed; descriptors are closed exactly once if and only if none came with the call |
| `MsgBufs.Pool.Perform` | ubusd.c:23-170 | a step of a run, be it a message, a status, an event, monitor copies or a message written out, does to the queue what it does to a queue of messages that cannot change |
| `MsgBufs.Run` | ubusd.c:23-170 | over every run of messages handled, statuses, events, monitor copies and queued messages written out in any order, every message goes out as it was when it was queued, with the descriptor that came with it and no other, although the storage it was built on is rewritten; and once the queues are empty no buffer is left and each received descriptor has been closed exactly once |
| `RxStream.HeaderRoundTrip` | ubusmsg.h:31-36 | reading a written header gives it back |
| `RxStream.HeaderBytesOf` | ubusd_main.c:177-181 | and writing a read one gives its bytes back |
| `RxStream.HeaderPlaces` | ubusmsg.h:31-36 | version and type are the first two bytes of a header; number and peer are big-endian in the next two and the last four |
| `RxStream.RawLenPlaces` | ubusd_main.c:168-170 | the length is the low 24 bits of the big-endian word in front of the data |
| `RxStream.DecodeMore` | ubusd_main.c:142-218 | reading a stream in two parts is reading the unfinished rest with the second part |
| `RxStream.RoundTrip` | libubus-io.c:125-164 | decoding the encoding of any messages that can be sent gives exactly those, with nothing left |
| `RxStream.ReadInOrder` | libubus-io.c:125-164 | from every prefix of it, the first of them |
| `RxStream.Receiver.StartBody` | ubusd_main.c:168-181 | refuses exactly the bad lengths, gives up exactly without memory, and otherwise allocates the data at its announced length |
| `RxStream.ReadsAll` | ubusd_main.c:142-225 | if the reads return all that is asked for and memory lasts, one wake-up reads everything that has arrived, or meets a bad length exactly if there is one |
| `RxStream.ReadsOn` | ubusd_main.c:142-225 | while memory lasts and nothing flags the client, a wake-up ends with the connection kept or at a bad length, whatever the reads return |
| `RxStream.Receiver.ReceiveBody` | ubusd_main.c:184-215 | a read stays inside the allocation, and a complete message is handed on as the stream has it |
| `RxStream.Receiver.OnReadable` | ubusd_main.c:142-225 | a wake-up reads exactly as many bytes as the plain rule says, given what each read returns: it goes on until a read falls short; the messages accepted are the decoding of the bytes taken however the reads are split, and the client is disconnected exactly on a bad length, for want of memory, or when it is flagged and nothing is left to be sent |
| `RxStream.SplitIndependent` | ubusd_main.c:142-218 | two connections that carried the same bytes accepted the same messages and wait for the same rest |
| `ClientIo.WritevRetry` | libubus-io.c:60-123 | succeeds exactly if the kernel's results up to the first failure cover all bytes; what is out is always that prefix; the descriptor goes out once, with the first bytes |
| `ClientIo.SkipBuffers` | libubus-io.c:108-114 | after a partial write, buffers and offset stand exactly for the rest |
| `ClientIo.SendMsg` | libubus-io.c:125-164 | an oversized message writes nothing; otherwise exactly what the kernel takes of the encoding is out, success means all of it, and failure flags the connection |
| `ClientIo.SendAll` | libubus-io.c:125-164 | the stream of a client is the encoding of its sendable messages, cut off exactly at the first one that the kernel does not take whole |
| `ClientIo.Received` | ubusd_main.c:142-218 | whatever part of a stream of encoded messages has arrived reads as the first of them, never as a bad length, and all of it as all of them |
| `ClientIo.Transfer` | libubus-io.c:60-164 | end to end, from `ubus_send_msg` under every partial write through any number of wake-ups of the daemon under every split read: the daemon accepts the first of the messages that can be sent, in order, and all of them once all bytes are in; sending fails exactly if some message is not taken whole; while memory lasts the connection is kept; and a last wake-up to which everything has arrived and all that it asks for is given accepts all of them |
| `Registry.DropSubsConsistent` | ubusd_obj.c:192-202 | taking any set of subscriptions out keeps the registry consistent |
| `Registry.AddSubConsistent` | ubusd_obj.c:172-190 | a subscription between live objects of different clients keeps it consistent |
| `Registry.StartedConsistent` | ubusd_obj.c:229-237 | the registry that holds just the three built-in objects is consistent |
| `Registry.TypeDropped` | ubusd_obj.c:21-35 | freeing an object deletes its type exactly when it was the type's only use |
| `Registry.LeftOfFree` | ubusd_obj.c:204-227 | after a free exactly the other objects and the subscriptions that do not touch the freed ones are left |
| `Registry.LogStep` | ubusd_obj.c:172-202 | a note is due exactly when an object starts or stops having subscribers, and then the notes about it alternate |
| `Daemon.AllocId` | ubusd_id.c:75-91 | returns the first id offered by the random source that is neither reserved nor in use, and none exactly if it offers none |
| `Daemon.Daemon.Subscribe` | ubusd_obj.c:172-190 | a new record at the head of both lists, and a note exactly if it is the target's first |
| `Daemon.Daemon.Unsubscribe` | ubusd_obj.c:192-202 | the record leaves both lists, and a note exactly if it was the target's last |
| `Daemon.Daemon.NotifyUnsubscribe` | ubusd_proto.c:674-690 | the record goes and its subscriber's owner is told once |
| `Daemon.Daemon.DropTargets` | ubusd_obj.c:208-209 | the object's own subscriptions all end, silently for the subscribers |
| `Daemon.Daemon.DropSubscribers` | ubusd_obj.c:210-213 | one UNSUBSCRIBE per subscription record, in list order |
| `Daemon.Daemon.UnrefType` | ubusd_obj.c:21-35 | a type loses one use, and goes with the last |
| `Daemon.Daemon.FreeObject` | ubusd_obj.c:204-227 | the loops over the two lists take out exactly the records that touch the object, each subscriber is told once per record, and the registry stays consistent |
| `Daemon.FreeOrder` | ubusd_obj.c:208-213 | the two loops one after the other are the same as taking out all records at once |
| `Daemon.Daemon.MonitorDisconnect` | ubusd_monitor.c:64-74 | the client's one monitor goes |
| `Daemon.Daemon.MonitorConnect` | ubusd_monitor.c:32-47 | afterwards the client has exactly one monitor |
| `Daemon.Daemon.MonitorRecv` | ubusd_monitor.c:106-127 | the status is that of the first test that fails; only root may add or remove, and the list of monitors is exactly the old one without the client, or with it at the end |
| `Daemon.Daemon.Disconnect` | ubusd_main.c:25-50 | freeing from the head of a shrinking list leaves a consistent registry in which nothing refers to the client, its objects or their subscriptions, and everything else is left; the notices sent are exactly those for the subscriptions to its objects |
| `Daemon.EndedExactly` | ubusd_obj.c:204-214 | these are exactly the records whose target was the client's, each once |
| `Daemon.Daemon.GetType` | ubusd_obj.c:89-101 | a known type is held, an unknown one refused |
| `Daemon.Daemon.CreateType` | ubusd_obj.c:53-87 | a new type has the first free id offered and one use; a malformed signature leaves nothing behind |
| `Daemon.Daemon.CreateInternal` | ubusd_obj.c:103-127 | the new object has a new id and uses its type |
| `Daemon.Daemon.NewTypedObject` | ubusd_obj.c:129-143 | the type is the one named if it exists, or else a new one if there is a well-formed signature; holding and letting go of it leaves exactly the object's use; a failure leaves nothing |
| `Daemon.Daemon.CreateObject` | ubusd_obj.c:129-170 | fails exactly without a free id or with a refused or taken path, and then nothing has changed; otherwise the registry gains exactly the object, with its client, path and type, that type has one more use and all others as many as before |
| `Daemon.FreeNew` | ubusd_obj.c:165-169 | freeing a new object undoes its creation |
| `Daemon.RefOneMore` | ubusd_obj.c:103-127 | a use of a type adds one to its count and leaves all other counts |
| `Daemon.Daemon.HandleAddObject` | ubusd_proto.c:151-166 | refused exactly without a free id or with a refused or taken path, and then nothing has changed; otherwise the registry gains exactly the object, and the reply names its id, and its type exactly if the request had a signature |
| `Daemon.Daemon.HandleRemoveObject` | ubusd_proto.c:124-149 | only the owner may, and otherwise the status is that of the first test that fails; the registry loses exactly the object, and the reply names the type exactly when this removal deletes it |
| `Daemon.Daemon.HandleAddWatch` | ubusd_proto.c:471-504 | accepted exactly from the subscriber's owner for another client's object that has a path and permits it, or has none and belongs to the same user or group; otherwise the status of the first test that fails, and nothing changes |
| `Daemon.Daemon.HandleRemoveWatch` | ubusd_proto.c:506-532 | the first subscription of that pair in the list ends; the status is that of the first test that fails, NOT_FOUND if there is none |
| `Daemon.MovesClients` | ubusd_main.c:25-58 | from what commands do to the registry: who is known and who monitors after each |
| `Daemon.Run` | ubusd_obj.c:129-227 | for every list of commands the registry goes from one to the next exactly as the commands say, from that of a daemon that has just started; it stays consistent, the built-in objects stay without owner and all others have one, exactly the clients that connected and did not leave are known and exactly those of them that asked to are monitors, and for every target the activity notes alternate true, false, ..., the last one saying whether it has subscribers |
| `System.Bus.AddObject` | ubusd_obj.c:129-170 | the object is entered in the registry and then, with its path announced by `ubus.object.add` first, among the listeners; a failure changes nothing and announces nothing |
| `System.Bus.RemoveObject` | ubusd_obj.c:204-227 | the object leaves the registry, then its sources go, and then `ubus.object.remove` is sent exactly if it had a path; afterwards neither the registry nor the tree of patterns refers to it |
| `System.Bus.Forget` | ubusd_obj.c:214-222 | the sources of an object go, and then its path is announced to be gone |
| `System.Bus.Disconnect` | ubusd_main.c:25-50 | the client's objects go in the order of its list, each announced if it had a path; afterwards no object, subscription, monitor or event source refers to the client or to one of its objects |
| `System.Bus.Send` | ubusd_event.c:227-251 | an event without a name or data, or with a reserved name, is refused and reaches nobody; any other is sent for the client, with the status of that |
| `System.NoneForged` | ubusd_event.c:241-248 | over every run, every event whose name begins with `ubus.` was sent by the daemon itself |
| `System.Run` | ubusd_obj.c:129-227 | for every list of commands, registrations and events, the registry goes from one to the next as the commands say, and patterns and events are exactly those of the operations the commands lead to, announcements included; each of the first 2^32 - 1 events that could be built reached every due object exactly once; no client has sent a reserved event; every source is in the list of a live object, every subscription joins live objects, and every object but the built-in ones belongs to a client that connected and did not leave |
| `Replies.Server.HandleResponse` | ubusd_proto.c:445-469 | a response is passed on exactly if it comes from the owner of the object it names and its peer is a client |
| `Replies.Server.HandleInvoke` | ubusd_proto.c:353-385 | a call is passed to the owner of the object, with the caller as peer and the call's own number, exactly if the object is known, not built in, and access is granted; a call of a built-in object is answered here, with the code and data of that object's method; otherwise the status of the first test that fails is left to be sent |
| `Replies.Server.HandleObject` | ubusd_proto.c:124-166 | ADD_OBJECT and REMOVE_OBJECT change the registry and return the status that the registry as it was calls for, and on success one DATA message carries the object and type that it calls for |
| `Replies.Server.HandleWatch` | ubusd_proto.c:471-532 | so do SUBSCRIBE and UNSUBSCRIBE, without data |
| `Replies.Server.ForwardToSubscribers` | ubusd_proto.c:424-429 | one call per subscription, to the subscriber's owner, in list order |
| `Replies.Server.HandleNotify` | ubusd_proto.c:387-432 | an accepted notification sends its own status at once, unless none is wanted, and then one call per subscription; otherwise only the status of the first test that fails is left to be sent |
| `Replies.Server.HandleLookup` | ubusd_proto.c:302-312 | queued exactly if data is waiting or the walk fills the queue, after exactly the data that the walk sends; otherwise the walk's status is left to be sent |
| `Replies.Server.Handle` | ubusd_proto.c:534-545 | for every type of command: exactly the data and the status it is due, given the registry, exactly the messages it asks to be passed on, exactly what it does to the registry, and no status left to the dispatcher exactly for a response, a call that is passed on, and an accepted notification |
| `Replies.Server.Receive` | ubusd_proto.c:547-581 | a command is queued exactly if it is a lookup that finds data waiting or fills the queue, silent exactly if it is a response, a call that is passed on or an accepted notification that wants no reply, and answered otherwise; what it caused is kept in the account |
| `Replies.Server.Finish` | ubusd_proto.c:569-581 | the status sent carries the command's own number and peer and the handler's code |
| `Replies.Server.ResumeHead` | ubusd_proto.c:314-334 | a resumed lookup sends exactly the data of its walk, and with its end exactly one status with its own number and peer, although the shared status message has served other commands meanwhile |
| `Replies.Server.ProcessQueue` | ubusd_main.c:60-73 | queued lookups end in order up to the first that fills the queue again; exactly what they send is sent, and exactly those are released |
| `Replies.Server.Disconnect` | ubusd_main.c:25-50 | a disconnect empties the client's queue, releases each of those commands once, and changes the registry as it should |
| `Replies.Server.Step` | ubusd_proto.c:547-581 | one event of a run changes the registry and the command queues as its kind says, and a command enters the account with the registry as it was when it came |
| `Replies.Run` | ubusd_proto.c:547-581 | for every list of events, the registries and the command queues follow one another as the events say, from those of a daemon that has just started; the commands received are exactly those sent by connected clients, each judged by the registry at its own time; each is queued on a connection that is alive, answered by exactly the data it is due and then exactly one STATUS with its own number and peer and the code it is due, silent because it is a response, a call passed on or an accepted notification that wants no reply, or dropped because its connection has ended; exactly the messages it asks for, by that registry, have been passed on, to the owners that it names; and its buffer has been released exactly once unless it is queued |
| `Routing.StepInv` | ubusd_proto.c:353-469 | every step of clients and daemon, with calls, notifications and other commands under way on the same counters, and requests that leave the list and come back at any time, keeps requests, jobs and answers tied together |
| `Routing.PassAllInv` | ubusd_proto.c:422-429 | so does the loop that passes a notification to every subscriber |
| `Routing.PassAnswerInv` | ubusd_proto.c:445-469 | an accepted answer goes to the caller, or to a client that has the id of a caller that is gone |
| `Routing.Addressed` | ubusd_proto.c:336-469 | every message under way to a connection carries that connection's client id as its recipient |
| `Routing.PassesToOwner` | ubusd_proto.c:353-385 | a call goes to the connection that owns the object, under the caller's id and number, if there is one and access is granted, and otherwise a status with the call's number and peer and the code of the test that failed goes back to the caller |
| `Routing.MirrorsKept` | ubusd_proto.c:547-581 | the registry of the handlers and this machine stay in step: clients and objects come and go on both sides alike, and all other steps touch neither |
| `Routing.AlwaysMirrors` | ubusd_proto.c:547-581 | so it is in every joint run from the start |
| `Routing.CallsAgree` | ubusd_proto.c:353-385 | on such a registry the step that handles a call is what the handler does: the same message to the client that owns the object, or the same status back |
| `Routing.AnswersAgree` | ubusd_proto.c:445-469 | an answer is passed on exactly if the handler passes it on, as the same message to the same client, and dropped otherwise |
| `Routing.NotificationsAgree` | ubusd_proto.c:387-432 | a notification is accepted exactly if the handler accepts it, and then the notifier gets the status and each connection exactly the calls that the handler passes to its objects, in the order of the subscriptions |
| `Routing.TakesAwaited` | libubus-req.c:401-443 | an entry for a notification takes exactly the answers that the account of the notification waits for |
| `Routing.TickedStands` | libubus-req.c:445-481 | an answer that is taken ends the entry exactly if by that account it is the last one, and otherwise leaves an entry for what is waited for then |
| `Routing.EntryEnds` | libubus-req.c:445-481 | so whatever answers come in, the entry is gone exactly when the daemon and all that it listed have answered |
| `Routing.ReachesCaller` | ubusd_proto.c:445-469 | in every run an answer comes from the daemon or from a connection that the request was passed to, carries the request's number and its peer or, for a notification, an object it was passed to, and goes to the caller, unless that one is gone and its id is in use again |
| `Routing.ReachesExactly` | ubusd_proto.c:434-469 | in every run an answer under way to a live client is one of its own if and only if the client that made the request is still there |
| `Routing.PassesExactly` | ubusd_proto.c:434-469 | when the daemon passes an answer on, it goes to the client that made the request if and only if that one is still there |
| `Routing.AstrayExactly` | ubusd_proto.c:434-469 | over every run, at every point each answer passed on is with the client it is for if and only if the daemon never passes one on after that client is gone |
| `Routing.NewIdsNeverLate` | ubusd_id.c:75-91 | where no id is handed out a second time it never does |
| `Routing.FindsTheCall` | libubus-req.c:418-443 | so within 65536 requests of whatever kind an answer is taken by exactly the request it is for, and by a notification exactly while it waits for that peer |
| `Routing.NeverAstray` | ubusd_proto.c:434-469 | so where no client id is handed out twice, no answer reaches another connection |
| `Routing.TakesExactly` | libubus-req.c:418-443 | in every run an entry of the list takes an answer if and only if it was started a whole number of turns of the 16-bit counter away from the request the answer is for, and waits for its peer |
| `Routing.SettlesFound` | libubus-req.c:418-500 | a status changes the first entry that takes it and no other |
| `Routing.SettlesExactly` | libubus-req.c:418-443 | the search finds the request an answer is for if and only if no other with the same number and peer is in front of it in the list |
| `Routing.AnotherCaller` | ubusd_proto.c:434-443 | where one is, it can: a run in which a client takes the answer to a call of its predecessor for its own |
| `Routing.AnotherCall` | libubus-req.c:418-443 | beyond 65536 it can go wrong: a run in which 65535 commands lie between two calls of the same object, and the answer to the first settles the second while the first goes on waiting |
| `Routing.NeverStuck` | ubusd_proto.c:353-469 | the daemon can handle every message that occurs |
| `Requests.MaskDone` | libubus-req.c:479-480 | the mask is zero exactly when no id is waited for |
| `Requests.WaitingClear` | libubus-req.c:456 | clearing a slot takes its id away once, even if the id is listed repeatedly |
| `Requests.Notification.FindNotifyId` | libubus-req.c:401-416 | finds the first slot that waits for the id, and never leaves the table |
| `Requests.Notification.EnterList` | libubus-req.c:458-473 | the slots stand for the first 16 well-formed entries of the daemon's list, repeated ids included |
| `Requests.Notification.BeginStatus` | libubus-req.c:445-481 | before the daemon's status nothing counts; then each status ticks off one waiting entry, in any order, also when it arrives inside the status callback of another; the request goes the way of the plain course of a notification, which says when it ends and with which code |
| `Requests.Notification.EndStatus` | libubus-req.c:474-481 | the test after the status callback keeps to that course although the callback may have completed the request |
| `Requests.Notification.SetStatus` | libubus-req.c:118-128 | the request leaves the list and completes unless a data callback is running |
| `Requests.Notification.Complete` | libubus-req.c:106-116 | the callback runs at most once |
| `Requests.Notification.EndData` | libubus-req.c:373-389 | a status that came during a data callback completes the request right after it |
| `Requests.Notification.GiveUp` | libubus-req.c:148-156 | a lost connection or the end of the time ends a request that is still in the list, whatever callbacks are running |
| `Requests.Notification.Abort` | libubus-req.c:88-96 | an aborted request leaves the list without a callback, and hears nothing more |
| `Requests.Notification.OverExactly` | libubus-req.c:445-481 | a notification is over only when the daemon has answered and each listed entry has been answered as often as it is listed, and then it is over as soon as no status callback is running; it has completed exactly once as soon as no data callback is running either |
| `Requests.Notification.AnsweredExactly` | libubus-req.c:445-481 | no slot waits exactly when the daemon has answered and each listed entry has been answered as often as it is listed |
| `Requests.RunNotification` | libubus-req.c:86-481 | for every run of messages, callbacks nested in any way, losses of the connection and aborts: state and completions are those of the plain course; it completes at most once, with 0 only when the daemon and all listed entries have answered and with the code of a timeout only after a loss; and, unless the connection was lost first, it has completed exactly when the answers before an abort cover the list, as soon as no callback is running |
| `Requests.FindRequest` | libubus-req.c:418-443 | returns the first request in the list that takes the answer, or none |
| `Requests.FindsTheRequest` | libubus-req.c:418-443 | within one turn of the 16-bit counter at most one request takes an answer, and the search finds it |
| `Requests.FindsTheOther` | libubus-req.c:418-443 | beyond it, of two calls of the same object one turn apart both take the answer to the older, and the search finds the newer |
| `ClientLoop.StepInv` | libubus.c:81-150 | every step of the library, and of the application in its callbacks, reconnecting included, keeps the nesting right |
| `ClientLoop.OneHandler` | libubus.c:118-134 | on a well-nested stack at most one object handler is running |
| `ClientLoop.HandlersInOrder` | libubus.c:81-150 | over every run, object handlers never run inside one another and start in the order of arrival, each message once; the rest is pending, in order |
| `ClientLoop.StartsAtOnce` | libubus.c:108-122 | outside all counted calls nothing is pending and an object message starts its handler at once; inside one it waits behind those that wait already |
| `ClientLoop.AllServed` | libubus.c:81-150 | from every point of every run all calls can return, none is ever stuck, and then every message that has arrived has had its handler: none is lost for good |
| `ClientLoop.WakesUp` | libubus-req.c:160-192 | a status that ends a synchronous request takes the loop that received it out of `ubus_handle_data`, whatever is done in its callback, further synchronous requests included |
| `ClientLoop.NothingPending` | libubus-io.c:328-360 | when `ubus_handle_data` returns at depth zero on a live connection nothing is pending |
| `ClientLoop.StepSafe` | libubus-req.c:201-202 | a step leads to a state from which plain returns leave a message pending if and only if it is the end of a synchronous request, in a callback that reports a lost connection, with the context in the event loop and messages pending |
| `ClientLoop.ForgetsExactly` | libubus-io.c:328-360 | plain returns lead `ubus_handle_data` to return at depth zero with a message pending if and only if the state is such a one |
| `ClientLoop.StrandsForgets` | libubus-req.c:201-202 | every such request can be continued to a return with a message pending |
| `ClientLoop.ForgottenExactly` | libubus-io.c:328-360 | over every run of every context, in the event loop or not: no message is ever left behind in this way if and only if no such request occurs, and then nothing is pending at any return at depth zero |
| `ClientLoop.NothingPendingEver` | libubus-io.c:328-360 | so in a context outside the event loop nothing is pending on any return at depth zero, also after the connection was lost and restored in the callback that reports it |
| `ClientLoop.PendingAfterReconnect` | libubus-io.c:356-359 | in a context in the event loop something can be: a run in which the connection is restored in that callback and a message then waits for the timer |
| `ClientBuffers.Context.AllocMsgBuf` | libubus-io.c:248-277 | success leaves room for the message, failure leaves everything as it was, and sizes and counter become exactly those of the plain rule |
| `ClientBuffers.Context.BeginHandler` | libubus-obj.c:166-169 | a handler keeps its block while the context has none |
| `ClientBuffers.Context.EndHandler` | libubus-obj.c:173-178 | afterwards the context has exactly one block, and the other, if any, has been freed once |
| `ClientBuffers.RoomFor` | libubus-io.c:248-277 | while memory lasts there is room for every message, and a new block exceeds it by less than a chunk |
| `ClientBuffers.Shrinks` | libubus-io.c:261-265 | a block that is too large is kept for the rest of the interval of 16 such messages and replaced by one that fits with the next |
| `ClientBuffers.CounterBound` | libubus-io.c:261-265 | over every run the counter never passes the interval |
| `ClientBuffers.Run` | libubus-io.c:248-277 | for every nesting of handlers and receptions the messages that found room are exactly those for which the plain rule has room, and after shutdown exactly the blocks it has made have been allocated, and each has been freed exactly once |
| `AclRefresh.AclClient.Query` | libubus-acl.c:147-166 | the static request is started only when it is in no list; otherwise the query is deferred |
| `AclRefresh.AclClient.OnEvent` | libubus-acl.c:168-174 | after an event, active, deferred and sent queries are exactly those that the events so far call for |
| `AclRefresh.AclClient.OnComplete` | libubus-acl.c:135-145 | a deferred query starts when the active one completes |
| `AclRefresh.AclClient.Flush` | libubus-req.c:148-156 | flushing ends although completing may start the request again, and sends what was deferred |
| `AclRefresh.AclClient.Step` | libubus-acl.c:133-174 | so they are after every completion and every loss of the connection |
| `AclRefresh.NoneLost` | libubus-acl.c:133-174 | for every list of events the last trigger has been followed by a query started no earlier, or another query will start as soon as the one under way ends |
| `AclRefresh.NoneTwice` | libubus-acl.c:133-174 | no trigger leads to more than one query |
| `AclRefresh.OwnTrigger` | libubus-acl.c:133-174 | every query but the first has a trigger of its own, which has come since the query before was started |
| `AclRefresh.Run` | libubus-acl.c:133-174 | for every list of events the queries sent are as many as the events call for, no trigger is lost, every query but the first has a trigger of its own, and after a lost connection none is left |
| `TypeIds.DropReply` | ubusd_proto.c:124-149 | the reply to a removal names a type exactly if the removal drops it |
| `TypeIds.DropExactly` | ubusd_proto.c:124-149 | a removal leaves a dropped id behind exactly if it drops a type whose id the client has, or is about to get, for another of its types as well |
| `TypeIds.StepInv` | libubus-obj.c:187-310 | every step keeps: once all replies under way have come, no dropped id is remembered |
| `TypeIds.NeverStale` | libubus-obj.c:187-310 | in every run in which no id is handed out twice, a client whose types only it uses never keeps a type id that the daemon has dropped once the replies have come, and the count of a type is the number of its objects |
| `TypeIds.StaleExactly` | libubus-obj.c:187-310 | in every run, whatever ids are handed out, no dropped id is ever kept if and only if the daemon never handles such a removal |
| `TypeIds.NewIdsNotShared` | ubusd_id.c:75-91 | it never does where no id is handed out twice |
| `TypeIds.StaleId` | libubus-obj.c:270-284 | where a type id is handed out again, it can: a run, with ids the daemon does hand out, that ends with a remembered id of no type |

## Left out

- libubox: the AVL trees, the encoding of blobs beyond their length, lists and the event loop; in particular what the event loop does to `sock.eof`.
- Reading the ACL files, credentials, sockets, signals and directories; the command line tool, the Lua binding, examples and tests.
- Termination of `ubus_alloc_id`, `writev_retry` and the polling loops, which depends on the random source and the kernel.
- The client's blocking receive (`recv_retry`, `get_next_msg`), and the order in which DATA that arrives during a data callback is handed on.
- The client's table of access rules (`acl_add`, `acl_cmp`, `acl_for_each`).
- The contents of notifications, and where a monitor's numbers start.
- Memory that runs out is modelled where messages are sent and received, and not where objects, types and subscriptions are made.
- The re-entrant client and the connections of several clients are machines on values, since a method cannot be entered again from a callback it makes; update in place is not captured there.
- Acl.Table.AllocObj: the entry's place in the list of its ACL file, from which it is freed when the files are read again, is not modelled.
- TxQueue.Run: sends that can break the framing, and copies that find no memory, are not among its operations; `TxQueue.Client.Send` covers them.
- MsgBufs.Pool.Enqueue: whether the message is queued is a parameter here; the limit and memory decide it in `TxQueue.Client.Enqueue`.
- MsgBufs.Pool.Retain: the count is not modelled beyond 2^32 - 2 references, which would need as many queued entries for one message.
- MsgBufs.Pool.Handle: a notification to several subscribers is not one of the ways a message goes.
- MsgBufs.Run: has one status message for all clients and one queue for all of theirs; lookups that stay in the command queue, which hold no descriptor, are not among its steps.
- RxStream.Receiver.OnReadable: the descriptor received along with a header is not modelled here; `MsgBufs` accounts for it from then on.
- Replies.Server.HandleInvoke: how a built-in object comes to its answer is not said here but in `Events`, `Acl` and `Daemon.Daemon.MonitorRecv`; the code of the event object is a parameter.
- Replies.Server.HandleLookup: which objects a lookup sends is not said here but in `Lookup`; how far it gets before the queue fills is a parameter.
- Replies.Server.ResumeHead: the same goes for a lookup that is resumed.
- Requests.RunNotification: a request that is put into the list again after an abort, and the replacement of the completion callback by a synchronous wait, are not among its events.
- Requests.Notification.BeginStatus: a descriptor callback that enters the library again before the slot is cleared is not modelled.
- Routing.StepInv: calls of built-in objects count as commands for the daemon; notifications that want no reply are not steps; and which objects subscribe is a parameter of the step.
