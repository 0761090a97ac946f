# A verified model of the social-network server and its client

The repository is a small social network: a Java server built on the reactor pattern and a two-threaded C++
client, talking over a byte protocol. This Dafny project models its behaviour and proves what it keeps, over
every interleaving, every chunking of the input, every scan order of a hash map and every run of requests.

How the parts fit together:

- **Scheduler.** `ActorPool` is a step machine of `ActorThreadPool`: every lock, every concurrent-set and queue
  operation and every hand-over is one step of one thread, and `pendingRunnablesOf` is split at its two locks.
  `PoolInvariant`, `PoolRuns` and `PoolDrain` prove what all runs keep and where they end, `PoolRefinement` that
  the machine refines the atomic specification `ActorSpec`, and the class in `ActorThreadPool` implements that
  specification in the source's own imperative form.
- **Write side.** `ReactorWrites` is the machine of `send`, `continueWrite`, the selector loop, interest sets and
  wakeups; `WriteInvariant` and `WriteRuns` prove that no write and no wakeup is lost, `WriteDrain` exactly when all
  queues can be emptied, and `WriteLoss` shows the run in which a send to a closed connection ends the selector loop;
  `WriteRounds` says which channels one round may write and when `continueWrite` returns.
  `NonBlockingConnectionHandler` and `Reactor` hold the same code as classes.
- **Whole reactor.** `ReactorEngine` composes scheduler, write side, pooled buffers and per-connection decoders.
  `EngineInvariant`, `EngineWorkers`, `EngineTasks` and `EngineRuns` prove the end-to-end claim and buffer ownership,
  `EngineSettles` that every reachable state can be settled; `EngineLoss` shows a run in which an exception loses
  a message, which is why the claim carries a condition. `EngineCloses` proves when a connection closes and that it is
  silent from then on.
- **Social network.** `Social` says what one call of `process` does. `SocialRequests`, with `SocialScans` and
  `SocialTags`, states the effect of each whole request on the users and on what is sent, and `RequestText` what the
  splitting of a request comes to. `SocialInvariant` and `SocialRuns` prove what
  every run keeps; `SocialThrows` says exactly when a request throws, `SocialAnswers` and `SocialLogout` who is
  answered, `SocialEffects`, `SocialPosts`, `SocialPrivate` and `SocialReplay` what the commands achieve,
  `SocialRecords` when LOGSTAT sends a record. The classes in `UserObjects`, `Connections` and `BidiProtocol`
  carry the source's fields and loops and are proved to do exactly that.
- **Wire.** `MessageEncoderDecoder` is the server's decoder with its growing array, `ClientEncoder`,
  `ClientDecoder`, `ClientStream` and the class in `ConnectionHandler` are the client's codec, `SocialWire` and
  `EndToEnd` join both ends. `LogoutHandshake` is the machine of the client's two threads and their shared flags.
  `ObjectFraming`, `ObjectEncoderDecoder` and `StatCodec` are the two binary codecs; `RecordWire` follows a LOGSTAT
  record from its text to its bytes.
- **Whole server.** `Server` runs the social protocol on the reactor's workers: a decoded message is handled, its
  sends are made one by one, and the call returns or throws as `process` does. `ServerInvariant` and `ServerRuns`
  keep the books over all runs, `ServerDrops` says exactly when a connection loses bytes, `ServerOrder` (with
  `SocialOrder`) in which order answers are queued, `ServerCalls` that every call ends, and `ServerScreens` states
  the result from typed lines to what the clients show; `Calls` holds the bags of messages.

Assumptions: shared memory is sequentially consistent; what one call of `process` does to the users and maps is
one atomic step, although the server takes no lock across connections (its sends are separate steps in `Server`);
the executor may run queued wrappers in any order, which includes the order of a thread pool; text is ASCII, one
character per byte. The order in which a hash map yields its entries, the year, the size of every read and write,
and which keys are ready are up to the environment. In `ReactorEngine` the messages sent and the exceptions are
too; in `Server` they are those of `process`.

Where the code does not do what one might expect, the model follows the code and the exact condition is proved:

- An exception in `process` drops the rest of its chunk (`ServerDrops.AllProcessedIff`); five guards say which
  requests throw (`SocialThrows.ThrowsIff`).
- A PM whose text is shorter than the name found throws after the counter was incremented
  (`SocialThrows.CounterExactIff`, `SocialThrows.ShortPmMiscounts`).
- A record of LOGSTAT is followed by the rest of a 65536-byte array, on which the client fails
  (`ClientStream.StatsBreak`, `SocialWire.ClientInStepIff`); STAT throws as soon as anyone is active.
- A message sent to a closed connection ends the selector loop (`WriteDrain.DrainsIff`, `WriteLoss.SendToClosedKills`).
- Name lookups match substrings (`SocialAnswers.FoundInEveryOrderIff`), and the scans of PM keep the last user
  they saw (`SocialAnswers.PmAddressee`).
- Two logins on one connection leave its owner to the scan order (`SocialEffects.LoginOwnerIff`), and a blocked
  user's messages still reach a connection the blocker shares (`SocialPrivate.BlockedConnectionIff`).
- The login replay runs the authors' names together (`SocialReplay.ReplayedAuthorsRightIff`).
- LOGOUT leaves the entry in the active map (`SocialEffects.LogoutKeepsOwner`).
- A FOLLOW on a connection without a logged-in owner gets no reply (`SocialAnswers.OneReplyIff`).
- A tagged post reaches users who have blocked its author (`SocialPosts.MentionedIsReached`).
- Connection ids come round after 2^32 connections (`Reactor.IdIsNewIff`).
- The keyboard thread waits only for the bare word LOGOUT (`LogoutHandshake.SloppyLineBreaksIt`).
- An object with an empty serial form stops the length-prefixed decoder (`ObjectFraming.LengthDecides`).

`dafny verify dfyconfig.toml` checks the whole project.

## Model

| member | source | states |
|---|---|---|
| `PoolInvariant.StepInv` | Server/src/main/java/bgu/spl/net/srv/ActorThreadPool.java:28-76 | every step of every thread (lock, set, map, queue, executor) keeps the scheduler invariant: one wrapper per playing actor, monitors, tickets, task accounting |
| `PoolRuns.OneWrapperPerActor` | Server/src/main/java/bgu/spl/net/srv/ActorThreadPool.java:28-37 | over every run: an actor is in `playingNow` if and only if one wrapper for it is queued, running or completing, and it is the only one |
| `PoolRuns.NoOverlap` | Server/src/main/java/bgu/spl/net/srv/ActorThreadPool.java:57-65 | two workers never run tasks of one actor at the same time |
| `PoolRuns.SerialAndInOrder` | Server/src/main/java/bgu/spl/net/srv/ActorThreadPool.java:28-76 | over every run: submitted = finished ++ in flight ++ pending in submission order, at most one in flight, and an idle actor has finished everything, also when tasks throw |
| `PoolRuns.SubmittedInCallOrder` | Server/src/main/java/bgu/spl/net/srv/ActorThreadPool.java:28-37 | with one submitting thread, the submitted tasks are those passed to submit, in call order, up to the call still inside |
| `PoolRuns.QueueNeverReplaced` | Server/src/main/java/bgu/spl/net/srv/ActorThreadPool.java:43-55 | the create-if-absent split over two locks never replaces an existing queue; a weak entry disappears only for an idle actor with nothing pending |
| `PoolDrain.StepWorks` | Server/src/main/java/bgu/spl/net/srv/ActorThreadPool.java:57-76 | every step but a new call of submit decreases the measure over pending, queued and running work |
| `PoolDrain.Progress` | Server/src/main/java/bgu/spl/net/srv/ActorThreadPool.java:28-76 | while a thread is inside the pool or a wrapper waits, some thread can take a step: no deadlock on the monitors |
| `PoolDrain.Drain` | Server/src/main/java/bgu/spl/net/srv/ActorThreadPool.java:57-76 | from any reachable state, runs without submissions are bounded, and the only terminal state has every task finished and `playingNow` empty |
| `PoolRefinement.Refines` | Server/src/main/java/bgu/spl/net/srv/ActorThreadPool.java:28-76 | each fine-grained step has for every actor exactly the effect of one atomic submit, finish or complete, or none |
| `PoolRefinement.EffectIsAllowed` | Server/src/main/java/bgu/spl/net/srv/ActorThreadPool.java:67-76 | complete happens only when the running task has finished, and the atomic view stays sound |
| `ActorThreadPool.ActorThreadPool.constructor` | Server/src/main/java/bgu/spl/net/srv/ActorThreadPool.java:21-26 | a new pool has no queue, wrapper or playing actor |
| `ActorThreadPool.ActorThreadPool.PendingRunnablesOf` | Server/src/main/java/bgu/spl/net/srv/ActorThreadPool.java:43-55 | returns the actor's queue object; creates and stores an empty one only if there was none |
| `ActorThreadPool.ActorThreadPool.AddPending` | Server/src/main/java/bgu/spl/net/srv/ActorThreadPool.java:34-34 | the task goes to the end of its own actor's queue and to no other |
| `ActorThreadPool.ActorThreadPool.Submit` | Server/src/main/java/bgu/spl/net/srv/ActorThreadPool.java:28-37 | in place: the actor's view becomes the atomic submit; a wrapper is handed over exactly when the actor was idle |
| `ActorThreadPool.ActorThreadPool.Execute` | Server/src/main/java/bgu/spl/net/srv/ActorThreadPool.java:57-65 | hands exactly one wrapper for the task to the executor |
| `ActorThreadPool.ActorThreadPool.Complete` | Server/src/main/java/bgu/spl/net/srv/ActorThreadPool.java:67-76 | an empty queue lets the actor go; otherwise exactly its first task is handed over |
| `ActorThreadPool.ActorThreadPool.RunWrapper` | Server/src/main/java/bgu/spl/net/srv/ActorThreadPool.java:57-76 | the task run is the first unfinished one of its actor, and running a wrapper to its end is an atomic finish and complete |
| `Framing.FramesPartition` | Server/src/main/java/bgu/spl/net/api/MessageEncoderDecoderImpl.java:10-23 | splitting a stream at the delimiter is a decomposition: frames and rest put together are the stream, all free of the delimiter |
| `Framing.FramesUnique` | Server/src/main/java/bgu/spl/net/api/MessageEncoderDecoderImpl.java:10-23 | round trip: the frames of a framed list of delimiter-free messages are that list, and the decomposition is the only one |
| `Framing.FramesGrow` | Server/src/main/java/bgu/spl/net/api/MessageEncoderDecoderImpl.java:10-23 | more bytes never take a frame back |
| `MessageEncoderDecoder.MessageEncoderDecoderImpl.constructor` | Server/src/main/java/bgu/spl/net/api/MessageEncoderDecoderImpl.java:7-8 | a new decoder holds nothing |
| `MessageEncoderDecoder.MessageEncoderDecoderImpl.DecodeNextByte` | Server/src/main/java/bgu/spl/net/api/MessageEncoderDecoderImpl.java:9-16 | across any array growth the messages returned are the frames of all bytes fed so far, one byte at a time |
| `MessageEncoderDecoder.MessageEncoderDecoderImpl.PushByte` | Server/src/main/java/bgu/spl/net/api/MessageEncoderDecoderImpl.java:18-23 | appends the byte; the array doubles exactly when it is full and keeps its contents |
| `MessageEncoderDecoder.MessageEncoderDecoderImpl.PopString` | Server/src/main/java/bgu/spl/net/api/MessageEncoderDecoderImpl.java:65-69 | returns the bytes held and empties the buffer |
| `WriteQueue.NothingLost` | Server/src/main/java/bgu/spl/net/srv/NonBlockingConnectionHandler.java:79-93 | bytes written ++ unwritten bytes = concatenation of all messages in enqueue order |
| `WriteInvariant.StepInv` | Server/src/main/java/bgu/spl/net/srv/NonBlockingConnectionHandler.java:79-118 | every step of selector and senders keeps: queue contents, promised write interest, pending wakeup |
| `WriteRuns.NoLostWrite` | Server/src/main/java/bgu/spl/net/srv/NonBlockingConnectionHandler.java:79-118 | over every run: an open channel with a non-empty queue has write interest, or an interest task queued, or a sender about to queue one |
| `WriteRuns.NoLostWakeup` | Server/src/main/java/bgu/spl/net/srv/Reactor.java:53-95 | the selector is never parked over a queued task unless a wakeup is pending or a worker is about to issue it |
| `WriteRuns.ParkedSelectorWatchesAll` | Server/src/main/java/bgu/spl/net/srv/Reactor.java:53-95 | when the selector is parked and no sender is active, it watches every open channel that has something to write |
| `WriteRuns.WritesInOrder` | Server/src/main/java/bgu/spl/net/srv/NonBlockingConnectionHandler.java:79-99 | over every run and partial write: written ++ unwritten = all messages in order; all written when the queue is empty |
| `WriteRuns.StepAppends` | Server/src/main/java/bgu/spl/net/srv/NonBlockingConnectionHandler.java:115-118 | messages are appended only by `writeQueue.add`, and written bytes never change |
| `WriteRuns.RemoveTakesThePeeked` | Server/src/main/java/bgu/spl/net/srv/NonBlockingConnectionHandler.java:82-88 | `remove` removes the buffer that was peeked, after all of its bytes were written, whatever senders add meanwhile |
| `WriteRuns.IdsAreNeverReused` | Server/src/main/java/bgu/spl/net/srv/Reactor.java:98-110 | with unbounded ids, as in the step machine: accepting a connection never touches an existing one (for the 32-bit counter see IdIsNewIff) |
| `WriteRuns.SelectorNeverStuck` | Server/src/main/java/bgu/spl/net/srv/Reactor.java:53-72 | while no exception has ended it, the selector loop can always take its next step, and select returns once a task is queued and the senders are done |
| `WriteLoss.SendToClosedKills` | Server/src/main/java/bgu/spl/net/srv/Reactor.java:85-95 | concrete run for every message: a client comes and goes, and the message sent to its connection ends the selector loop |
| `WriteDrain.DrainsIff` | Server/src/main/java/bgu/spl/net/srv/NonBlockingConnectionHandler.java:79-118 | from a reachable state some run without further sends writes every message of every open channel, those in the senders' hands included, and comes to rest (in select, no wakeup, no task, no open channel watched for writing), if and only if the loop has not ended and no interest task for a closed channel is queued or on its way |
| `WriteDrain.NeverRestsAgain` | Server/src/main/java/bgu/spl/net/srv/Reactor.java:85-95 | otherwise it never rests again, whatever is sent, closed or selected afterwards: such a task stays on its way until it has ended the loop |
| `WriteRounds.EntersIff` | Server/src/main/java/bgu/spl/net/srv/Reactor.java:112-127 | `continueWrite` is entered exactly at the end of the read part, for a key that is ready for writing and whose channel is open |
| `WriteRounds.ReturnsIff` | Server/src/main/java/bgu/spl/net/srv/NonBlockingConnectionHandler.java:79-99 | it returns exactly after a partial write, when a message came after the queue was found empty, or after dropping the write interest |
| `WriteRounds.OnlySelectedAreWritten` | Server/src/main/java/bgu/spl/net/srv/Reactor.java:58-71 | from one select to the next, a channel that was not selected for writing takes no byte and keeps its interest, whatever the senders do |
| `WriteRounds.TasksInOrder` | Server/src/main/java/bgu/spl/net/srv/Reactor.java:85-132 | over every run: interest tasks run in the order in which they were queued, each once |
| `NonBlockingConnectionHandler.BufferPool.LeaseBuffer` | Server/src/main/java/bgu/spl/net/srv/NonBlockingConnectionHandler.java:101-109 | hands out a cleared buffer that has left the pool, a fresh one exactly when the pool is empty |
| `NonBlockingConnectionHandler.BufferPool.ReleaseBuffer` | Server/src/main/java/bgu/spl/net/srv/NonBlockingConnectionHandler.java:111-113 | a buffer comes back to the pool once |
| `NonBlockingConnectionHandler.ConnectionHandler.Send` | Server/src/main/java/bgu/spl/net/srv/NonBlockingConnectionHandler.java:114-118 | in place: the message is enqueued behind all others and write interest is asked for |
| `NonBlockingConnectionHandler.ConnectionHandler.WriteTop` | Server/src/main/java/bgu/spl/net/srv/NonBlockingConnectionHandler.java:82-83 | the channel takes some bytes from the front, and conservation holds |
| `NonBlockingConnectionHandler.ConnectionHandler.WriteOne` | Server/src/main/java/bgu/spl/net/srv/NonBlockingConnectionHandler.java:82-88 | one round of the loop removes the first buffer exactly when all of it was taken |
| `NonBlockingConnectionHandler.ConnectionHandler.ContinueWrite` | Server/src/main/java/bgu/spl/net/srv/NonBlockingConnectionHandler.java:79-99 | under any partial writes nothing is lost or reordered, the loop ends, and write interest is dropped exactly when everything was written |
| `NonBlockingConnectionHandler.ConnectionHandler.RunTask` | Server/src/main/java/bgu/spl/net/srv/NonBlockingConnectionHandler.java:47-58 | decodes exactly the remaining bytes of the buffer, yields exactly the new frames, and gives the buffer back |
| `NonBlockingConnectionHandler.ConnectionHandler.ContinueRead` | Server/src/main/java/bgu/spl/net/srv/NonBlockingConnectionHandler.java:35-63 | what is read goes to the task in a leased buffer; at the end of the stream the buffer is back in the pool, the channel closed, and there is no task |
| `Reactor.Reactor.UpdateInterestedOps` | Server/src/main/java/bgu/spl/net/srv/Reactor.java:85-95 | the requested operations become the intended ones of the key, at once or as the last queued task with a wakeup |
| `Reactor.Reactor.RunSelectionThreadTasks` | Server/src/main/java/bgu/spl/net/srv/Reactor.java:128-132 | runs all queued tasks oldest first; the interest sets become the intended ones |
| `Reactor.Reactor.HandleAccept` | Server/src/main/java/bgu/spl/net/srv/Reactor.java:98-110 | the new handler is registered under the next id; the id is unused if and only if fewer than 2^32 connections came before |
| `Reactor.IdIsNewIff` | Server/src/main/java/bgu/spl/net/srv/Reactor.java:106-108 | with a 32-bit counter the id of the k-th connection differs from all earlier ones exactly for k < 2^32 |
| `EngineWorkers.StepInv` | Server/src/main/java/bgu/spl/net/srv/NonBlockingConnectionHandler.java:35-65 | every step of selector and workers keeps buffer ownership, chunk contents and decoder state of every connection |
| `EngineRuns.ConsumedIsRead` | Server/src/main/java/bgu/spl/net/srv/NonBlockingConnectionHandler.java:35-63 | the bytes consumed by the tasks of a connection are a prefix of the bytes read |
| `EngineRuns.ProcessedIsPrefix` | Server/src/main/java/bgu/spl/net/srv/NonBlockingConnectionHandler.java:35-63 | for every interleaving and chunking, the messages given to process are a prefix, in order, of the frames of the bytes read |
| `EngineRuns.ProcessedIsAll` | Server/src/main/java/bgu/spl/net/srv/NonBlockingConnectionHandler.java:35-63 | ... and exactly all complete frames once no task of the connection is outstanding |
| `EngineSettles.CanSettle` | Server/src/main/java/bgu/spl/net/srv/NonBlockingConnectionHandler.java:35-63 | from every reachable state a run that reads no more bytes settles every connection, and then each one that lost nothing has processed exactly the frames of the bytes it had read |
| `EngineRuns.ProcessedIsFed` | Server/src/main/java/bgu/spl/net/srv/NonBlockingConnectionHandler.java:48-57 | whatever throws, process only ever sees frames of the bytes that were decoded |
| `EngineLoss.ExceptionLosesAMessage` | Server/src/main/java/bgu/spl/net/srv/NonBlockingConnectionHandler.java:48-57 | concrete run: the first of two requests in one chunk throws and the second is never processed |
| `EngineRuns.OneOwner` | Server/src/main/java/bgu/spl/net/srv/NonBlockingConnectionHandler.java:101-113 | every allocated buffer is in exactly one place: pool, selector, or one outstanding task |
| `EngineRuns.ChunkUntouched` | Server/src/main/java/bgu/spl/net/srv/NonBlockingConnectionHandler.java:35-58 | the bytes of a chunk are unchanged from the read to the end of its task |
| `EngineRuns.ReleasedOnce` | Server/src/main/java/bgu/spl/net/srv/NonBlockingConnectionHandler.java:55-63 | a buffer is released once per lease, never while it is in the pool |
| `EngineRuns.NoWriteForgotten` | Server/src/main/java/bgu/spl/net/srv/Reactor.java:53-95 | the two write-side guarantees hold in every reachable state of the whole reactor |
| `EngineCloses.EofCloses` | Server/src/main/java/bgu/spl/net/srv/NonBlockingConnectionHandler.java:59-71 | in every reachable state, reading the end of the stream takes the open channel of its key to closed, changes no other channel, and gives the leased buffer back once |
| `EngineCloses.EofEnabled` | Server/src/main/java/bgu/spl/net/srv/NonBlockingConnectionHandler.java:38-43 | every read may report the end of the stream |
| `EngineCloses.StepCloses` | Server/src/main/java/bgu/spl/net/srv/NonBlockingConnectionHandler.java:59-71 | one step takes a channel from open to closed exactly if it reads the end of its own stream; connections start open |
| `EngineCloses.ClosedIff` | Server/src/main/java/bgu/spl/net/srv/NonBlockingConnectionHandler.java:59-71 | over every run, a connection is closed if and only if the end of its stream was read |
| `EngineCloses.ClosedIsSilent` | Server/src/main/java/bgu/spl/net/srv/Reactor.java:58-127 | over every later run a closed connection stays closed, and not one byte is read from it or written to it |
| `UserObjects.User.constructor` | Server/src/main/java/bgu/spl/net/api/User.java:17-23 | a new user has the given account and is otherwise empty, inactive and without connection |
| `UserObjects.User.Activate` | Server/src/main/java/bgu/spl/net/api/User.java:41-44 | sets only the session flag |
| `UserObjects.User.DeActivate` | Server/src/main/java/bgu/spl/net/api/User.java:46-49 | clears only the session flag |
| `UserObjects.User.SetConnId` | Server/src/main/java/bgu/spl/net/api/User.java:55-57 | sets only the connection |
| `UserObjects.User.AddFollower` | Server/src/main/java/bgu/spl/net/api/User.java:74-76 | appends the object to the queue |
| `UserObjects.User.RemoveFollower` | Server/src/main/java/bgu/spl/net/api/User.java:78-80 | removes the first occurrence of the same object |
| `UserObjects.User.IncrementFollowing` | Server/src/main/java/bgu/spl/net/api/User.java:67-69 | 16-bit increment |
| `UserObjects.User.DecreaseFollowing` | Server/src/main/java/bgu/spl/net/api/User.java:70-72 | 16-bit decrement |
| `Connections.ConnectionsImpl.Connect` | Server/src/main/java/bgu/spl/net/srv/Reactor.java:106-106 | a connection gets its handler, and nothing else changes |
| `Connections.ConnectionsImpl.Send` | Server/src/main/java/bgu/spl/net/api/ConnectionsImpl.java:22-35 | the text reaches the handler of the connection if there is one; handlers have exactly the messages sent to them |
| `Connections.ConnectionsImpl.IncrementPostIPost` | Server/src/main/java/bgu/spl/net/api/ConnectionsImpl.java:59-61 | 32-bit increment of the counter |
| `Connections.ConnectionsImpl.PutUser` | Server/src/main/java/bgu/spl/net/api/BidiMessagingProtocolImpl.java:42-42 | the account is added to the users map |
| `Connections.ConnectionsImpl.PutActive` | Server/src/main/java/bgu/spl/net/api/BidiMessagingProtocolImpl.java:65-65 | the entry is added to or replaced in the active map |
| `BidiProtocol.BidiMessagingProtocolImpl.FindOwner` | Server/src/main/java/bgu/spl/net/api/BidiMessagingProtocolImpl.java:157-168 | the scan by connection: the first match, or the last user seen when there is none |
| `BidiProtocol.BidiMessagingProtocolImpl.FindNamed` | Server/src/main/java/bgu/spl/net/api/BidiMessagingProtocolImpl.java:243-251 | the scan for a name inside the message: the first match, or the last user seen |
| `BidiProtocol.BidiMessagingProtocolImpl.FindMatching` | Server/src/main/java/bgu/spl/net/api/BidiMessagingProtocolImpl.java:55-62 | the scan for a user whose name contains the given one |
| `BidiProtocol.BidiMessagingProtocolImpl.IsTaken` | Server/src/main/java/bgu/spl/net/api/BidiMessagingProtocolImpl.java:34-40 | the scan of REGISTER that goes on after a match |
| `BidiProtocol.BidiMessagingProtocolImpl.Register` | Server/src/main/java/bgu/spl/net/api/BidiMessagingProtocolImpl.java:28-46 | in place, does what the REGISTER specification says |
| `BidiProtocol.BidiMessagingProtocolImpl.TakeSender` | Server/src/main/java/bgu/spl/net/api/BidiMessagingProtocolImpl.java:73-80 | takes the author off a waiting post, adding it to the name collected so far |
| `BidiProtocol.BidiMessagingProtocolImpl.ReplayOne` | Server/src/main/java/bgu/spl/net/api/BidiMessagingProtocolImpl.java:70-83 | one waiting post: the author behind the names before, and the text behind the space |
| `BidiProtocol.BidiMessagingProtocolImpl.Replay` | Server/src/main/java/bgu/spl/net/api/BidiMessagingProtocolImpl.java:69-84 | replays every waiting post in order, with the names running together, and drains none |
| `BidiProtocol.BidiMessagingProtocolImpl.Login` | Server/src/main/java/bgu/spl/net/api/BidiMessagingProtocolImpl.java:47-88 | in place, does what the LOGIN specification says; never indexes outside a waiting post |
| `BidiProtocol.BidiMessagingProtocolImpl.Logout` | Server/src/main/java/bgu/spl/net/api/BidiMessagingProtocolImpl.java:90-115 | in place, does what the LOGOUT specification says |
| `BidiProtocol.BidiMessagingProtocolImpl.ChangeEdge` | Server/src/main/java/bgu/spl/net/api/BidiMessagingProtocolImpl.java:137-146 | adds, removes or refuses the follow edge |
| `BidiProtocol.BidiMessagingProtocolImpl.Follow` | Server/src/main/java/bgu/spl/net/api/BidiMessagingProtocolImpl.java:116-153 | in place, does what the FOLLOW specification says |
| `BidiProtocol.BidiMessagingProtocolImpl.TakeTag` | Server/src/main/java/bgu/spl/net/api/BidiMessagingProtocolImpl.java:172-188 | the tag that starts at a position, and its end |
| `BidiProtocol.BidiMessagingProtocolImpl.CollectTagged` | Server/src/main/java/bgu/spl/net/api/BidiMessagingProtocolImpl.java:170-190 | the nested scan finds exactly the users matched by the tags of the text, in order; it terminates |
| `BidiProtocol.BidiMessagingProtocolImpl.DropFollowers` | Server/src/main/java/bgu/spl/net/api/BidiMessagingProtocolImpl.java:191-195 | removing while iterating leaves exactly the tagged users that do not follow the author |
| `BidiProtocol.BidiMessagingProtocolImpl.DeliverTo` | Server/src/main/java/bgu/spl/net/api/BidiMessagingProtocolImpl.java:200-208 | one delivery: sent or queued, and counted |
| `BidiProtocol.BidiMessagingProtocolImpl.ServeFollowers` | Server/src/main/java/bgu/spl/net/api/BidiMessagingProtocolImpl.java:196-209 | delivers to exactly the followers, in scan order |
| `BidiProtocol.BidiMessagingProtocolImpl.ServeTagged` | Server/src/main/java/bgu/spl/net/api/BidiMessagingProtocolImpl.java:218-226 | delivers to the tagged users that are left, in order |
| `BidiProtocol.BidiMessagingProtocolImpl.Post` | Server/src/main/java/bgu/spl/net/api/BidiMessagingProtocolImpl.java:154-231 | in place, does what the POST specification says |
| `BidiProtocol.BidiMessagingProtocolImpl.SendPm` | Server/src/main/java/bgu/spl/net/api/BidiMessagingProtocolImpl.java:254-266 | counts, then throws or sends the text behind the name and the acknowledgement |
| `BidiProtocol.BidiMessagingProtocolImpl.Pm` | Server/src/main/java/bgu/spl/net/api/BidiMessagingProtocolImpl.java:232-267 | in place, does what the PM specification says |
| `BidiProtocol.BidiMessagingProtocolImpl.MakeRecord` | Server/src/main/java/bgu/spl/net/api/BidiMessagingProtocolImpl.java:290-303 | the record of one user, the refusal, or the exception: birthday without a year, or a number that is no 16-bit value |
| `BidiProtocol.BidiMessagingProtocolImpl.SendRecord` | Server/src/main/java/bgu/spl/net/api/BidiMessagingProtocolImpl.java:285-325 | the answer about one active user: record, refusal, or exception without a message |
| `BidiProtocol.BidiMessagingProtocolImpl.SendRecords` | Server/src/main/java/bgu/spl/net/api/BidiMessagingProtocolImpl.java:285-325 | one answer per active entry in scan order, up to the first record that cannot be made |
| `BidiProtocol.BidiMessagingProtocolImpl.Logstat` | Server/src/main/java/bgu/spl/net/api/BidiMessagingProtocolImpl.java:269-327 | in place, does what the LOGSTAT specification says |
| `BidiProtocol.BidiMessagingProtocolImpl.Stat` | Server/src/main/java/bgu/spl/net/api/BidiMessagingProtocolImpl.java:328-359 | an error when nobody is active, otherwise the cast of a name to a user throws |
| `BidiProtocol.BidiMessagingProtocolImpl.CutEdge` | Server/src/main/java/bgu/spl/net/api/BidiMessagingProtocolImpl.java:389-394 | cuts an edge if there is one, without touching the counter |
| `BidiProtocol.BidiMessagingProtocolImpl.Block` | Server/src/main/java/bgu/spl/net/api/BidiMessagingProtocolImpl.java:360-404 | in place, does what the BLOCK specification says |
| `BidiProtocol.BidiMessagingProtocolImpl.Process` | Server/src/main/java/bgu/spl/net/api/BidiMessagingProtocolImpl.java:24-405 | one request over the shared objects, LOGSTAT and STAT included: new state, messages and exception are those of the specification, in every map order |
| `SocialInvariant.ProcessKeeps` | Server/src/main/java/bgu/spl/net/api/BidiMessagingProtocolImpl.java:24-405 | every request from every connection in every scan order keeps accounts, lists, blocks and counters sound |
| `SocialInvariant.RegisterIsNew` | Server/src/main/java/bgu/spl/net/api/BidiMessagingProtocolImpl.java:37-42 | a registration that succeeds finds its name unused, since `contains` is reflexive |
| `SocialThrows.ThrowsIff` | Server/src/main/java/bgu/spl/net/api/BidiMessagingProtocolImpl.java:24-405 | a request throws if and only if one of five guards holds before it: no opcode, a PM shorter than the name found, a bare BLOCK that would succeed, a LOGSTAT with a broken record before its end, a STAT with anyone active |
| `SocialThrows.LostIff` | Server/src/main/java/bgu/spl/net/api/BidiMessagingProtocolImpl.java:252-266 | a notification is counted but not issued exactly when the guard of the short PM holds |
| `SocialThrows.PostsAreCounted` | Server/src/main/java/bgu/spl/net/api/BidiMessagingProtocolImpl.java:198-264 | conservation over every run: the counter is live notifications plus waiting posts plus the events that met the guard of the short PM, in 32 bits |
| `SocialThrows.CounterExactIff` | Server/src/main/java/bgu/spl/net/api/ConnectionsImpl.java:59-61 | the counter equals live plus waiting if and only if no event of the run met that guard in its state (below 2^31) |
| `SocialThrows.ShortPmMiscounts` | Server/src/main/java/bgu/spl/net/api/BidiMessagingProtocolImpl.java:252-266 | concrete run for every account: register, log in, follow, and a PM that is only a name; the counter is one too high |
| `Text.ContainsIff` | Server/src/main/java/bgu/spl/net/api/BidiMessagingProtocolImpl.java:34-40 | the name test is true exactly when the text stands at some position, as in `String.contains` |
| `Text.ParseDecimal` | Server/src/main/java/bgu/spl/net/api/BidiMessagingProtocolImpl.java:293-294 | the decimal text of every 32-bit number is read back as that number |
| `RequestText.SplitIs` | Server/src/main/java/bgu/spl/net/api/BidiMessagingProtocolImpl.java:29-29 | for every list of separator-free texts: splitting them joined gives them back without the empty ones at the end |
| `RequestText.PiecesJoined` | Server/src/main/java/bgu/spl/net/api/BidiMessagingProtocolImpl.java:29-29 | ... and every text is joined of such texts, so this is all of `split` |
| `RequestText.UnparsableIff` | Server/src/main/java/bgu/spl/net/api/BidiMessagingProtocolImpl.java:26-51 | which requests cannot be taken apart: no opcode, fewer than three fields, or an empty body where a character is cut off |
| `RequestText.FieldsAre` | Server/src/main/java/bgu/spl/net/api/BidiMessagingProtocolImpl.java:29-51 | the fields of REGISTER and LOGIN are the first three of the split, whatever follows |
| `RequestText.TextIs` | Server/src/main/java/bgu/spl/net/api/BidiMessagingProtocolImpl.java:154-155 | the text of a POST or PM is the body without its last character |
| `RequestText.NumberOf` | Server/src/main/java/bgu/spl/net/api/BidiMessagingProtocolImpl.java:294-294 | an optional sign and digits are read as their number exactly if it fits 32 bits |
| `RequestText.NumberText` | Server/src/main/java/bgu/spl/net/api/BidiMessagingProtocolImpl.java:294-294 | nothing else is read as a number |
| `SocialScans.OwnerIs` | Server/src/main/java/bgu/spl/net/api/BidiMessagingProtocolImpl.java:94-101 | the owner of a connection is the user of the first active entry, in scan order, that has it |
| `SocialScans.NamedIs` | Server/src/main/java/bgu/spl/net/api/BidiMessagingProtocolImpl.java:121-129 | the user a request names is the first one, in scan order, whose name stands somewhere in its text |
| `SocialScans.MatchingIs` | Server/src/main/java/bgu/spl/net/api/BidiMessagingProtocolImpl.java:55-62 | the user LOGIN finds is the first one, in scan order, in whose name the given text stands |
| `SocialRequests.RegisterDoes` | Server/src/main/java/bgu/spl/net/api/BidiMessagingProtocolImpl.java:26-46 | the whole request: refused if and only if the name stands in a registered name; otherwise one account with the given fields, and nothing else changes |
| `SocialRequests.LoginDoes` | Server/src/main/java/bgu/spl/net/api/BidiMessagingProtocolImpl.java:47-88 | the whole request: session, connection and active entry of the user found, first the acknowledgement and then one message per waiting post to him; or only an error |
| `SocialRequests.LogoutDoes` | Server/src/main/java/bgu/spl/net/api/BidiMessagingProtocolImpl.java:90-115 | the whole request: the owner loses the session flag and 1003 is sent; without an owner only 1103 |
| `SocialRequests.FollowDoes` | Server/src/main/java/bgu/spl/net/api/BidiMessagingProtocolImpl.java:116-153 | the whole request: only the owner's list and counter change, by the named user, with the acknowledgement that quotes the request; the error cases; silence without a logged-in owner |
| `SocialRequests.FollowsAfterIff` | Server/src/main/java/bgu/spl/net/api/BidiMessagingProtocolImpl.java:137-147 | who follows whom after a FOLLOW, for every action and every pair of users, as an if-and-only-if |
| `SocialRequests.PostDoes` | Server/src/main/java/bgu/spl/net/api/BidiMessagingProtocolImpl.java:154-231 | the whole request: 1105 alone without an owner; otherwise public notifications with the owner's name and the text, in the order of the recipients, waiting entries for the others, and 1005 last |
| `SocialRequests.PostIsReceived` | Server/src/main/java/bgu/spl/net/api/BidiMessagingProtocolImpl.java:191-226 | every user gets the post exactly once if he follows the author, else once per tag that stands in his name |
| `SocialTags.TagsAre` | Server/src/main/java/bgu/spl/net/api/BidiMessagingProtocolImpl.java:170-190 | the tags of a text from left to right: each stands behind an at-sign and ends at the next space or the last character, none overlap, and every at-sign starts one or stands inside one |
| `SocialTags.FollowersAre` | Server/src/main/java/bgu/spl/net/api/BidiMessagingProtocolImpl.java:196-226 | the followers are served in scan order, and they are exactly the users that follow the author |
| `SocialTags.UsersWithAre` | Server/src/main/java/bgu/spl/net/api/BidiMessagingProtocolImpl.java:175-182 | a tag finds, in scan order, exactly the users in whose name it stands |
| `SocialTags.FollowersFirst` | Server/src/main/java/bgu/spl/net/api/BidiMessagingProtocolImpl.java:196-226 | all followers are served before all others |
| `SocialTags.DeliveredInOrder` | Server/src/main/java/bgu/spl/net/api/BidiMessagingProtocolImpl.java:196-226 | the notifications sent at once are addressed to the recipients that are logged in, one each and in their order |
| `SocialRequests.PmDoes` | Server/src/main/java/bgu/spl/net/api/BidiMessagingProtocolImpl.java:232-267 | the whole request, for the sender and addressee the scans end on: error, counted and lost, or the text behind the name under the sender's name and then 1006 |
| `SocialRequests.BlockDoes` | Server/src/main/java/bgu/spl/net/api/BidiMessagingProtocolImpl.java:360-404 | the whole request: the named user is put on the owner's block list and both edges end, all other lists stay, 1012; a bare request throws there; 1112 in every other case |
| `SocialRequests.BlockEndsIt` | Server/src/main/java/bgu/spl/net/api/BidiMessagingProtocolImpl.java:383-395 | from the BLOCK request on, over every later run: the blocked user does not follow the owner and no PM of his is addressed to the owner |
| `SocialRequests.LogstatDoes` | Server/src/main/java/bgu/spl/net/api/BidiMessagingProtocolImpl.java:269-327 | the whole request: one answer per active entry in scan order, from the first on: 1107 for one who has blocked the asker, else age, followed users, counter and waiting posts |
| `SocialRequests.YearIs` | Server/src/main/java/bgu/spl/net/api/BidiMessagingProtocolImpl.java:293-297 | a birthday of six characters and a year has that year, from which the age is computed |
| `SocialRequests.BrokenIff` | Server/src/main/java/bgu/spl/net/api/BidiMessagingProtocolImpl.java:292-303 | a record cannot be made if and only if the asker is not blocked and there is no year or a number that does not fit 16 bits |
| `SocialRequests.OthersDo` | Server/src/main/java/bgu/spl/net/api/BidiMessagingProtocolImpl.java:328-359 | STAT is an error exactly when nobody is active; it, unknown opcodes and requests that cannot be taken apart change nothing |
| `SocialRuns.FollowAccounting` | Server/src/main/java/bgu/spl/net/api/BidiMessagingProtocolImpl.java:137-143 | in every reachable state lists have no duplicates and `following` = list size + edges cut by BLOCK, in 16 bits |
| `SocialRuns.ProcessGrows` | Server/src/main/java/bgu/spl/net/api/BidiMessagingProtocolImpl.java:24-405 | no request takes an account, block, waiting post or sent message away; only PM sends private messages |
| `SocialRuns.AccountsStay` | Server/src/main/java/bgu/spl/net/api/BidiMessagingProtocolImpl.java:37-42 | over every run accounts are never overwritten, renamed or renumbered |
| `SocialRuns.PmNeedsFollow` | Server/src/main/java/bgu/spl/net/api/BidiMessagingProtocolImpl.java:252-266 | a private message goes only to a user the sender follows and who has not blocked him |
| `SocialRuns.BlockedForGood` | Server/src/main/java/bgu/spl/net/api/BidiMessagingProtocolImpl.java:383-395 | once A has blocked B, over every later run B does not follow A and no PM of B is addressed to A |
| `SocialPrivate.PrivateIff` | Server/src/main/java/bgu/spl/net/api/BidiMessagingProtocolImpl.java:252-266 | a private message of a user is sent on a connection exactly when a PM of his passes follow edge, block and length and its addressee has that connection |
| `SocialPrivate.ArrivesIffLeaks` | Server/src/main/java/bgu/spl/net/api/BidiMessagingProtocolImpl.java:252-266 | a private message of a blocked user arrives on the blocker's connection if and only if it is for another user with the same connection |
| `SocialPrivate.BlockedConnectionIff` | Server/src/main/java/bgu/spl/net/api/BidiMessagingProtocolImpl.java:252-266 | the same over every later run: it ever arrives if and only if the two ever share a connection at such a PM |
| `SocialEffects.TakenForGood` | Server/src/main/java/bgu/spl/net/api/BidiMessagingProtocolImpl.java:34-46 | once a name is registered, registering it or any text that stands in it is refused after every run in every scan order |
| `SocialEffects.RegisteredIsFound` | Server/src/main/java/bgu/spl/net/api/BidiMessagingProtocolImpl.java:37-62 | an acknowledged REGISTER adds one account, and a LOGIN scan in any order finds exactly it |
| `SocialEffects.LoginIff` | Server/src/main/java/bgu/spl/net/api/BidiMessagingProtocolImpl.java:64-88 | LOGIN succeeds exactly under its four conditions, changes exactly the session and connection of the user found, and then the connection has an owner in every scan order |
| `SocialEffects.LoginOwnerIff` | Server/src/main/java/bgu/spl/net/api/BidiMessagingProtocolImpl.java:64-88 | after a LOGIN the connection belongs to the user who logged in, in every scan order, if and only if no other active entry had that connection |
| `SocialEffects.LogoutKeepsOwner` | Server/src/main/java/bgu/spl/net/api/BidiMessagingProtocolImpl.java:94-103 | LOGOUT clears only the session flag; the entry in the active map stays and the connection keeps its owner |
| `SocialEffects.UnfollowUndoesFollow` | Server/src/main/java/bgu/spl/net/api/BidiMessagingProtocolImpl.java:137-144 | follow and unfollow together restore every user, the counter included |
| `SocialEffects.FollowIff` | Server/src/main/java/bgu/spl/net/api/BidiMessagingProtocolImpl.java:137-146 | a FOLLOW is acknowledged exactly when it changes the set of followed users, and changes nobody else |
| `SocialEffects.PmCarriesText` | Server/src/main/java/bgu/spl/net/api/BidiMessagingProtocolImpl.java:252-265 | a PM carries exactly the text behind the name, and is sent exactly when the edge exists and there is no block |
| `SocialEffects.BlockCuts` | Server/src/main/java/bgu/spl/net/api/BidiMessagingProtocolImpl.java:383-403 | BLOCK cuts exactly the two edges between the users, and a second BLOCK is refused |
| `SocialPosts.TagCollected` | Server/src/main/java/bgu/spl/net/api/BidiMessagingProtocolImpl.java:170-190 | a tag after an at-sign at the start or after a space is always collected |
| `SocialPosts.MentionIsTagged` | Server/src/main/java/bgu/spl/net/api/BidiMessagingProtocolImpl.java:170-190 | a mentioned full name is matched by a collected tag, although a tag at the end loses its last character |
| `SocialPosts.PostReaches` | Server/src/main/java/bgu/spl/net/api/BidiMessagingProtocolImpl.java:191-226 | a POST reaches each follower exactly once even if tagged, and others once per tag that stands in their name |
| `SocialPosts.MentionedIsReached` | Server/src/main/java/bgu/spl/net/api/BidiMessagingProtocolImpl.java:170-226 | every user whose full name is mentioned gets the post at least once, even one who has blocked the author |
| `SocialPosts.DeliverAllFaithful` | Server/src/main/java/bgu/spl/net/api/BidiMessagingProtocolImpl.java:200-226 | every delivery carries the author's name and the text to the connection or queue of its user, and changes nothing else |
| `SocialAnswers.OneReplyIff` | Server/src/main/java/bgu/spl/net/api/BidiMessagingProtocolImpl.java:24-405 | a request other than LOGSTAT gets exactly one reply if none of the guards of an exception holds and it is not silent, and none otherwise; guards and silence mention only state, scan order and request |
| `SocialAnswers.LogstatReplies` | Server/src/main/java/bgu/spl/net/api/BidiMessagingProtocolImpl.java:269-327 | LOGSTAT gets one reply per active entry up to the first broken record, and all of them if and only if it does not throw |
| `SocialAnswers.FoundInMapIff` | Server/src/main/java/bgu/spl/net/api/BidiMessagingProtocolImpl.java:94-101 | a scan of a map, the active map included, finds a user in every order if and only if he is the only one in it that passes |
| `SocialAnswers.FoundInEveryOrderIff` | Server/src/main/java/bgu/spl/net/api/BidiMessagingProtocolImpl.java:121-129 | a substring scan finds a user in every map order if and only if he is the only one that matches |
| `SocialAnswers.ExactNameIsFound` | Server/src/main/java/bgu/spl/net/api/BidiMessagingProtocolImpl.java:125-128 | a full name finds exactly its user when no other name is a substring of it |
| `SocialAnswers.PmAddressee` | Server/src/main/java/bgu/spl/net/api/BidiMessagingProtocolImpl.java:236-251 | whom and in whose name a PM is sent, also when a scan finds nobody |
| `SocialReplay.RunAuthored` | Server/src/main/java/bgu/spl/net/api/BidiMessagingProtocolImpl.java:198-226 | over every run that registers only words, each waiting post is the name of a registered user, a space and a text |
| `SocialReplay.ReplayIs` | Server/src/main/java/bgu/spl/net/api/BidiMessagingProtocolImpl.java:70-83 | the k-th replayed post has its own text under the names of the first k + 1 authors run together |
| `SocialReplay.LoginReplays` | Server/src/main/java/bgu/spl/net/api/BidiMessagingProtocolImpl.java:69-84 | in the log of a LOGIN: notification k carries the text of waiting post k under the first k + 1 authors' names |
| `SocialReplay.ReplayedAuthorsRightIff` | Server/src/main/java/bgu/spl/net/api/BidiMessagingProtocolImpl.java:69-84 | after every such run: all notifications replayed by a LOGIN carry their own author's name if and only if at most one post was waiting |
| `SocialLogout.LogoutAnsweredOnce` | Server/src/main/java/bgu/spl/net/api/BidiMessagingProtocolImpl.java:90-115 | each LOGOUT, and no other request, is answered by exactly one message about 03, on its own connection; only LOGSTAT sends records |
| `SocialWire.RunPlain` | Server/src/main/java/bgu/spl/net/api/BidiMessagingProtocolImpl.java:24-405 | runs of typed commands store and send nothing the client's decoder would misread, records of LOGSTAT apart |
| `SocialRecords.RecordSentIff` | Server/src/main/java/bgu/spl/net/api/BidiMessagingProtocolImpl.java:269-327 | a request puts a record on a connection if and only if it is a LOGSTAT of that connection whose first active user that has not blocked the asker has a record that can be made |
| `SocialRecords.RecordEverSentIff` | Server/src/main/java/bgu/spl/net/api/BidiMessagingProtocolImpl.java:269-327 | over every run: a record was put on a connection if and only if one of its LOGSTATs met that condition |
| `SocialWire.ClientInStepIff` | client/src/connectionHandler.cpp:233-387 | for every run of typed commands: the client reads exactly what was sent and uses up all bytes if and only if none of its LOGSTATs got a record |
| `SocialWire.NoLogstatNoRecord` | Server/src/main/java/bgu/spl/net/api/BidiMessagingProtocolImpl.java:269-327 | a connection without LOGSTATs never gets a record, so its client stays in step |
| `SocialWire.ClientShowsWhatWasSent` | client/src/connectionHandler.cpp:233-387 | for every run of typed commands, a connection whose LOGSTATs got no record, and any part of its output: the client has shown exactly the complete messages in order |
| `ClientEncoder.EncodeIsFrame` | client/src/connectionHandler.cpp:114-231 | the encoder writes the frame of a well-formed command; unknown commands contribute no bytes |
| `ClientEncoder.NulledAt` | client/src/connectionHandler.cpp:128-137 | in the body of REGISTER and LOGIN exactly the spaces become NUL |
| `ClientEncoder.UnspacedAppend` | client/src/connectionHandler.cpp:167-175 | from the body of FOLLOW exactly the spaces are dropped |
| `ClientEncoder.ParseIsMeaning` | Server/src/main/java/bgu/spl/net/api/BidiMessagingProtocolImpl.java:26-51 | the server's splitting recovers the opcode and the fields of every command |
| `ClientEncoder.CommandsAreFramed` | Server/src/main/java/bgu/spl/net/api/MessageEncoderDecoderImpl.java:10-23 | the server's decoder yields one frame per command and nothing is left |
| `ClientEncoder.CommandRoundTrip` | client/src/connectionHandler.cpp:114-231 | round trip for every list of well-formed commands, encoder to field splitting |
| `ConnectionHandler.Handler.FirstWord` | client/src/connectionHandler.cpp:115-122 | the loop that takes the first word |
| `ConnectionHandler.Handler.PushNulled` | client/src/connectionHandler.cpp:128-137 | the loop that turns spaces into NUL |
| `ConnectionHandler.Handler.PushUnspaced` | client/src/connectionHandler.cpp:167-175 | the loop that drops spaces |
| `ConnectionHandler.Handler.PushRest` | client/src/connectionHandler.cpp:182-185 | the loop that copies the rest of the line |
| `ConnectionHandler.Handler.Encoder` | client/src/connectionHandler.cpp:114-231 | in place: exactly the specified bytes, and the flag is set exactly for a first word LOGOUT |
| `ConnectionHandler.Handler.GetBytes` | client/src/connectionHandler.cpp:34-48 | takes exactly n bytes, or waits |
| `ConnectionHandler.Handler.GetFrameAscii` | client/src/connectionHandler.cpp:74-88 | reads up to and including the first delimiter |
| `ConnectionHandler.Handler.NotificationDecoder` | client/src/connectionHandler.cpp:270-297 | takes the fields of a notification up to the last delimiter |
| `ConnectionHandler.Handler.AckDecoder` | client/src/connectionHandler.cpp:299-364 | takes the fields of an acknowledgement and sets `terminate` exactly on 03 |
| `ConnectionHandler.Handler.ErrorDecoder` | client/src/connectionHandler.cpp:366-387 | takes the fields of an error and sets `logoutFailed` exactly on 03 |
| `ConnectionHandler.Handler.Decoder` | client/src/connectionHandler.cpp:233-268 | one call consumes exactly what the decoding specification says; the flags follow the first four bytes |
| `ConnectionHandler.Handler.ResetLogout` | client/src/connectionHandler.cpp:406-411 | clears both logout flags |
| `ClientDecoder.OneMessage` | client/src/connectionHandler.cpp:233-387 | the decoder reads back exactly one message of the server's encoder and leaves exactly the bytes after it |
| `ClientStream.DecodeMore` | client/src/connectionHandler.cpp:233-387 | a decision of the decoder never depends on bytes behind the message, on any bytes at all |
| `ClientStream.PartOfMessage` | client/src/connectionHandler.cpp:34-48 | on part of a message the decoder waits |
| `ClientStream.CompleteIff` | Server/src/main/java/bgu/spl/net/api/MessageEncoderDecoderImpl.java:58-61 | which messages are complete in a prefix of the stream, as an if-and-only-if over offsets |
| `ClientStream.ShowsWhatIsComplete` | client/src/connectionHandler.cpp:233-387 | however much has arrived, exactly the complete messages are shown and exactly the bytes after them are held |
| `ClientStream.InStep` | client/src/connectionHandler.cpp:233-387 | client and server stay in step: exactly the sent list is read and all bytes are used, the double NUL of the follow acknowledgement included |
| `ClientStream.ChunksDoNotMatter` | client/src/connectionHandler.cpp:34-48 | on any byte stream, reading in chunks equals reading at once |
| `ClientStream.SafeIff` | client/src/connectionHandler.cpp:233-387 | for every message the server can send: the client reads it back and uses exactly its bytes if and only if it is safe; the acknowledgement of FOLLOW needs a name whose only NUL is its last character |
| `ClientStream.StatsBreak` | Server/src/main/java/bgu/spl/net/api/MessageEncoderDecoderImpl.java:25-57 | a record comes with the rest of its 65536 bytes: the client shows the record and fails on the zeros behind it, whatever follows |
| `ClientStream.InStepIff` | client/src/connectionHandler.cpp:233-387 | over every stream of messages the server can send: in step to the end if and only if no record is among them, and otherwise the client fails |
| `RecordWire.RecordText` | Server/src/main/java/bgu/spl/net/api/BidiMessagingProtocolImpl.java:303-303 | the text of a record is four words between spaces, which parse as its age, followed users, counter and waiting posts |
| `RecordWire.RecordOnTheWire` | Server/src/main/java/bgu/spl/net/api/MessageEncoderDecoderImpl.java:25-57 | the bytes of a record: 1007, the same four numbers in this order as the client's `bytesToShort` reads them, the delimiter, zeros to the end |
| `EndToEnd.CommandsArrive` | Server/src/main/java/bgu/spl/net/srv/NonBlockingConnectionHandler.java:35-63 | through the whole reactor: process sees a prefix of the typed commands' meanings, and all of them once settled |
| `EndToEnd.RepliesArrive` | Server/src/main/java/bgu/spl/net/srv/NonBlockingConnectionHandler.java:79-99 | through partial writes: the client has shown exactly the replies written completely, and all once the queue is empty |
| `ServerInvariant.StepInv` | Server/src/main/java/bgu/spl/net/srv/NonBlockingConnectionHandler.java:47-118 | every step of the whole server, process included, keeps: requests handled = messages decoded, queued messages = encodings of what process sent, nothing lost or made up |
| `ServerRuns.ReachableInv` | Server/src/main/java/bgu/spl/net/srv/NonBlockingConnectionHandler.java:35-118 | the runs of the whole server keep that invariant and are runs of the reactor |
| `ServerRuns.EventsAsGiven` | Server/src/main/java/bgu/spl/net/srv/NonBlockingConnectionHandler.java:47-58 | each request is handled with the scan orders and the year of its own step, in the order of the steps |
| `ServerDrops.ActionLoses` | Server/src/main/java/bgu/spl/net/srv/NonBlockingConnectionHandler.java:48-57 | a step makes a connection lose bytes, at once or when its call throws, exactly if it completes a request of that connection that meets the guard of an exception while its chunk has bytes behind the delimiter |
| `ServerDrops.AllProcessedIff` | Server/src/main/java/bgu/spl/net/srv/NonBlockingConnectionHandler.java:48-57 | over every run: a settled connection has processed exactly the frames of the bytes read, and holds exactly the rest, if and only if none of its own requests met such a guard with bytes of its chunk left |
| `SocialOrder.RequestHome` | Server/src/main/java/bgu/spl/net/api/BidiMessagingProtocolImpl.java:24-405 | every message of a request that is not a notification goes to the connection that asked |
| `ServerOrder.StepOrdered` | Server/src/main/java/bgu/spl/net/srv/NonBlockingConnectionHandler.java:47-118 | every step of the whole server keeps: answers queued ++ answers its running call still has to send = answers of process, for every connection |
| `ServerOrder.AnswersInOrder` | Server/src/main/java/bgu/spl/net/srv/NonBlockingConnectionHandler.java:47-118 | over every run, each connection's answers are queued in the order in which its requests were handled, none missing or twice; all of them once none of its tasks is outstanding |
| `ServerScreens.LinesArrive` | Server/src/main/java/bgu/spl/net/srv/NonBlockingConnectionHandler.java:35-63 | typed lines to requests, per connection: if none of its own requests makes it lose bytes, the requests handled are a prefix of its lines' meanings, all of them when settled, whatever other connections send and throw |
| `ServerScreens.LinesToScreens` | Server/src/main/java/bgu/spl/net/srv/NonBlockingConnectionHandler.java:35-118 | typed lines to screens, for every interleaving, chunking, scan order and partial write, when no connection loses bytes: a client whose LOGSTATs got no record has shown exactly its queued messages as far as written (all when the queue is empty), and the answers among them are those to its requests, in order |
| `ServerRuns.NoMessageLost` | Server/src/main/java/bgu/spl/net/api/ConnectionsImpl.java:22-35 | whatever throws: the messages queued for a connection, those workers still have to send and those without a receiver are together exactly what process sent to it, as bags; the order of the answers is AnswersInOrder |
| `ServerCalls.CallEnds` | Server/src/main/java/bgu/spl/net/srv/NonBlockingConnectionHandler.java:47-58 | every call of process can be brought to its end: each send is made or has no receiver, then process returns or throws |
| `LogoutHandshake.StepInv` | client/src/readFromKeyboardThread.cpp:9-26 | every step of both client threads and the server keeps the handshake invariant |
| `LogoutHandshake.WaitsIff` | client/src/readFromKeyboardThread.cpp:19-19 | the comparison with the first seven characters accepts exactly the bare word |
| `LogoutHandshake.AtMostOne` | client/src/readFromKeyboardThread.cpp:9-26 | LOGOUTs awaiting an answer plus the set flags never exceed one |
| `LogoutHandshake.SilentWhileAwaiting` | client/src/readFromKeyboardThread.cpp:19-22 | the keyboard thread neither reads nor sends between a LOGOUT and its answer |
| `LogoutHandshake.NoStaleFlag` | client/src/connectionHandler.cpp:406-411 | no flag is left over for a later LOGOUT, and the wait ends only after the answer |
| `LogoutHandshake.AckStepsDescend` | client/src/readFromSocketThread.cpp:9-25 | after the ACK every client step comes closer to the end of its loop |
| `LogoutHandshake.AckEndsBothLoops` | client/src/readFromSocketThread.cpp:9-25 | after the ACK each thread can always step until its loop has exited |
| `LogoutHandshake.WaitIsAnswered` | client/src/readFromKeyboardThread.cpp:19-22 | while the keyboard waits the answer is on its way and can be read |
| `LogoutHandshake.FailureReturnsToTyping` | client/src/readFromKeyboardThread.cpp:20-23 | after a failure the keyboard returns to typing with all flags clear |
| `LogoutHandshake.SloppyLineBreaksIt` | client/src/readFromKeyboardThread.cpp:19-19 | any line that starts with the word LOGOUT and goes on lets a second LOGOUT out before the first is answered |
| `LogoutHandshake.FlagsIff` | client/src/connectionHandler.cpp:396-411 | each shared flag is set and cleared by exactly one kind of step: a typed LOGOUT, a decoded answer, a reset |
| `LogoutHandshake.LeavesOnlyAcked` | client/src/readFromKeyboardThread.cpp:10-24 | whatever is typed, over every run: a thread that has left its loop has an acknowledgement of LOGOUT decoded before it |
| `ObjectFraming.ObjectsRoundTrip` | Server/src/main/java/bgu/spl/net/impl/rci/ObjectEncoderDecoder.java:20-39 | for every list of objects, byte-by-byte decoding of the encodings gives them in order, null elsewhere, and an empty length buffer |
| `ObjectFraming.LengthRoundTrip` | Server/src/main/java/bgu/spl/net/impl/rci/ObjectEncoderDecoder.java:56-73 | the four length bytes read back as the length below 2^31 |
| `ObjectFraming.LengthDecides` | Server/src/main/java/bgu/spl/net/impl/rci/ObjectEncoderDecoder.java:22-28 | after a length the decoder goes on if and only if it is positive; only a negative one throws at once |
| `ObjectFraming.StuckForever` | Server/src/main/java/bgu/spl/net/impl/rci/ObjectEncoderDecoder.java:20-39 | after a bad length or object every later byte throws |
| `ObjectFraming.BadFrameSticks` | Server/src/main/java/bgu/spl/net/impl/rci/ObjectEncoderDecoder.java:29-36 | a frame whose content is no object throws at its last byte, and so does every byte after it |
| `ObjectFraming.LengthIs` | Server/src/main/java/bgu/spl/net/impl/rci/ObjectEncoderDecoder.java:24-24 | the length is the four bytes as a number, the first counting most, in 32-bit two's complement |
| `ObjectEncoderDecoder.ObjectEncoderDecoder.constructor` | Server/src/main/java/bgu/spl/net/impl/rci/ObjectEncoderDecoder.java:15-17 | a new decoder is at the start of a length |
| `ObjectEncoderDecoder.ObjectEncoderDecoder.PutLength` | Server/src/main/java/bgu/spl/net/impl/rci/ObjectEncoderDecoder.java:22-22 | puts one byte, or overflows |
| `ObjectEncoderDecoder.ObjectEncoderDecoder.TakeLength` | Server/src/main/java/bgu/spl/net/impl/rci/ObjectEncoderDecoder.java:23-28 | flip, getInt, allocate, clear; or the state a negative length leaves |
| `ObjectEncoderDecoder.ObjectEncoderDecoder.DecodeNextByte` | Server/src/main/java/bgu/spl/net/impl/rci/ObjectEncoderDecoder.java:20-39 | in place, one byte of the framing specification, exceptions included |
| `ObjectEncoderDecoder.ObjectEncoderDecoder.DecodeAll` | Server/src/main/java/bgu/spl/net/impl/rci/ObjectEncoderDecoder.java:20-39 | any stretch of bytes, one at a time |
| `ObjectEncoderDecoder.ObjectEncoderDecoder.EncodeObject` | Server/src/main/java/bgu/spl/net/impl/rci/ObjectEncoderDecoder.java:56-73 | placeholder, object, then the size written over the placeholder |
| `StatCodec.ShortRoundTrip` | client/src/connectionHandler.cpp:389-393 | the high byte comes first, and every 16-bit value survives shortToBytes and bytesToShort, negatives included |
| `StatCodec.PutRecord` | Server/src/main/java/bgu/spl/net/api/MessageEncoderDecoderImpl.java:47-54 | one record fills exactly its eight bytes |
| `StatCodec.EncodeStats` | Server/src/main/java/bgu/spl/net/api/MessageEncoderDecoderImpl.java:25-63 | succeeds exactly for 1 to 8191 records; the array then holds opcodes, records, the delimiter at 4 + 8k, zeros |
| `StatCodec.StatsAreRead` | client/src/connectionHandler.cpp:389-394 | `bytesToShort` on each byte pair of a packed array returns the value that was packed there |

## Left out

- `encode` of a reply with several records, which `process` never builds: only its layout is modelled, in `StatCodec.EncodeStats`.
- Sockets, selectors, Boost.Asio, console input and output and thread start-up: replaced by nondeterministic sizes and an abstract select and wakeup.
- Channel errors (the exception branch of `continueWrite` would loop for ever), interrupts and `shutdownNow`.
- UTF-8 conversion, calendar dates other than the year of a birthday, and the client's display strings: the parsed fields are modelled instead.
- The word filter of PM: its word list is filled only by the constructor of `BaseServer` (from line 30 on), which the reactor never calls, so the loop rewrites nothing there.
- The line codec, the echo programs, the remote-command client, the thread-per-client server, interfaces and mains.
- `shouldTerminate` of the server's protocol, which never becomes true.
- NonBlockingConnectionHandler.ConnectionHandler.ContinueWrite: the class runs one thread at a time; interleaving with senders is proved on the step machine of `ReactorWrites`.
- ActorThreadPool.ActorThreadPool.Submit: the class runs one thread at a time; interleaving is proved on the step machine of `ActorPool`, and the garbage collection of weak entries only there.
- BidiProtocol.BidiMessagingProtocolImpl.DropFollowers: the source removes from the queue while its weakly consistent iterator walks it; the loop is over the elements the queue started with, which that iterator visits.
- LogoutHandshake.AckEndsBothLoops: fairness of the operating system's scheduler is not modelled; the lemmas say that every step descends and that a next step always exists.
- EngineSettles.CanSettle: without fairness it says that such a run exists, as `WriteDrain.DrainsIff` and `ServerCalls.CallEnds` do.
- ServerScreens.LinesToScreens: the order is proved for answers; notifications to a client come from the calls of several connections, whose workers may interleave, so they are shown in the order in which they were queued.
- WriteRuns.IdsAreNeverReused: ids are unbounded numbers in the step machine; the 32-bit counter is in `Reactor.Reactor.HandleAccept`.
- ObjectFraming.ObjectsRoundTrip: Java serialisation is an abstract invertible map to non-empty bytes shorter than 2^31.
- Refusal to allocate a very large object in the length-prefixed decoder.
