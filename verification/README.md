# Verification of the concurrent echo servers

This project models three server loops of the repository and proves their properties.
The kernel and the clients are an environment that may do anything the system calls
allow: reads and writes may be short, any call may return EAGAIN or fail hard, clients
may send or shut down at any point, and workers interleave freely between system calls.

## Layout

- `Sockets`: one connection as the kernel sees it, and the answers read() and write() may give.
- `EchoConnection`: the value of a `ConnectionData` object; `Advance`, which is
  `handleConnectionEvent` cut at its system calls; the sequential automaton `Solo` of one
  connection handled by one worker at a time; its invariant.
- `Echo`: what the automaton gives a client: fidelity, interest, progress, call bounds,
  and the two ways in which an echo stays incomplete.
- `Workers`: the interleaved machine. An action is one system call or one manager
  operation of one worker with the kernel's answer. `Config` has both layouts of `start`.
- `Ownership`, `Conservation`, `Preservation`: the one-shot token discipline as an
  invariant, and its preservation by every action.
- `Serialisation`: the view of one connection in the machine, and its refinement of `Solo`.
- `EchoServer`: the theorems about all runs of the multi-worker server.
- `Progress`: from every reachable state the echo of a connection can be completed.
- `SharedSetRace`: the run that breaks them, and exactly when it exists.
- `MultiWorkerServer`: the classes `ConnectionData`, `ConnectionDataManager` and `Worker`
  as imperative code. The kernel and the manager write every call into a `History`; what
  the methods promise is stated about that record, and the handler's calls are proved to
  be a run of the same automaton.
- `SelectServer`, `EdgeTriggered`: the select() server and the edge-triggered loop as
  imperative code against a `Kernel` whose `World` fixes beforehand what select() will find
  and what read() and write() will be answered on each connection.

## Hypotheses

- A hard error is a failure with an errno other than EAGAIN or EWOULDBLOCK.
- `Echo.Fits`: the bytes received since the start, or since the last `reset()`, number at
  most 1024. Completing an echo does not rewind the cursors, so the buffer holds the
  whole conversation.
- `Echo.Responsive`: reported entries are ready, EAGAIN means empty, MOD succeeds, the
  socket is writable, no error bits. It is used by the progress theorems only.
- `Echo.Willing`: EAGAIN on reading means nothing is unread, a write of some bytes takes
  some, MOD succeeds and nothing fails hard. It is used for the echo of one handling only.
- `EchoServer.Allowed`: hard read errors do not meet a shared epoll set.
- accept4 returns a descriptor that is not open. EPOLL_CTL_MOD re-evaluates readiness,
  so an armed entry may be reported at once; a disarmed entry reports nothing.

## What the code does that a reader may not expect

- After a hard read error `handleConnectionEvent` rearms the connection before it resets
  the object. With a shared epoll set another worker may serve, and destroy, the object
  in between (`SharedSetRaces`, `SafeExactlyWhenPrivate`).
- The read request is one byte longer than the room in the buffer. Byte 1025 makes the
  next read return 0, and the connection is parked with its last bytes unsent, for ever
  (`CompletesExactlyWhenItFits`, `OverlongIsParked`, `OverlongInput`, `ParkedForEver`).
- A client that shuts down its sending side loses what was not yet being written
  (`ShutdownCompletesExactly`, `ShutdownLosesTheEcho`).
- A write of zero bytes leaves errno alone; the loop then reads the EAGAIN of the read
  phase and asks for write interest (`WriteInterestWithoutBacklog`, `WriteInterestExactly`).
- The select server drops what a short write leaves (`EchoedExactlyWhenWhole`, `ShortWriteDrops`).
- The repository's comments call the multi-worker listener edge-triggered where it is
  registered level-triggered (lines 80-86); the model follows the registration.

## Model

| member | source | states |
|---|---|---|
| `EchoServer.Serialised` | src/servers/multi_worker_nonblocking_io_multiplexing_server.h:207-381 | On every run of any number of workers, the projection of the actions onto a live connection (client bytes and shutdown, its registration, deliveries, dispatches and the calls of its handlers, in their order on the run) is a run of the sequential automaton from a newborn connection to its present state, so event handlings never overlap. Runs with hard read errors are included when each worker has its own epoll set; otherwise runs without them |
| `Serialisation.Simulates` | src/servers/multi_worker_nonblocking_io_multiplexing_server.h:207-381 | One action of any worker, kernel or client, seen through one connection that survives it, is that action's event of the connection (`EventOf`) in the sequential automaton, or leaves the view unchanged when it has none |
| `EchoServer.WorkersExclude` | src/servers/multi_worker_nonblocking_io_multiplexing_server.h:207-381 | In every reachable state at most one worker has a given connection in its batch or in its hands |
| `SharedSetRace.SafeExactlyWhenPrivate` | src/servers/multi_worker_nonblocking_io_multiplexing_server.h:66-131 | All runs, hard read errors included, keep workers apart and never let a worker use a destroyed object, if and only if no two workers share an epoll set |
| `SharedSetRace.SharedSetRaces` | src/servers/multi_worker_nonblocking_io_multiplexing_server.h:319-322 | The failing family: for every configuration with two or more workers on a shared set, a run in which a second worker gets a connection between rearm and reset() and destroys the object the first is about to reset |
| `EchoServer.TokenConservation` | src/servers/multi_worker_nonblocking_io_multiplexing_server.h:207-243 | For every registered connection, armed entry plus unreleased occurrences in all batches and hands is 1, or 0 exactly when it is parked |
| `EchoServer.TokenIsLost` | src/servers/multi_worker_nonblocking_io_multiplexing_server.h:234-236 | A registered connection with its one token has none after an action exactly when the action is a zero-length read that ends the read phase, a failed rearm, or a hangup event that is skipped; every other action passes the one token on |
| `EchoServer.TakeRoutes` | src/servers/multi_worker_nonblocking_io_multiplexing_server.h:222-239 | The event at the head of a batch, bit by bit: the listener's starts accepting; EPOLLERR or EPOLLRDHUP, whatever else is set, starts closing; EPOLLHUP alone is skipped, and only that parks the connection; with none of the three it is handled |
| `EchoServer.ServerParks` | src/servers/multi_worker_nonblocking_io_multiplexing_server.h:309-310 | A parked connection is live, disarmed and claimed by nobody; parked at end of file means the client shut down or the buffer and the cell after it are full |
| `EchoServer.ParkedForEver` | src/servers/multi_worker_nonblocking_io_multiplexing_server.h:309-310 | However the run goes on, a parked connection stays parked: it keeps its object and its open descriptor, is never armed again and never given to a worker |
| `EchoServer.LivePointers` | src/servers/multi_worker_nonblocking_io_multiplexing_server.h:218-239 | Every pointer armed in an epoll set, waiting in a batch, or in use denotes a live object; armed entries name the descriptor in their object, and the descriptor in use is open |
| `EchoServer.MapAndDescriptorAgreement` | src/servers/multi_worker_nonblocking_io_multiplexing_server.h:171-193 | Map and heap are inverse, every key is an open descriptor or a listener, an object knows its key; insert() after accept4 always finds its key unused and never yields null |
| `EchoServer.ServerEchoes` | src/servers/multi_worker_nonblocking_io_multiplexing_server.h:296-359 | On every connection ever accepted, open or closed, the output since the last rewind is a prefix of the input since then; without hard read errors all output is a prefix of all input |
| `EchoServer.ServerInterestMatchesBacklog` | src/servers/multi_worker_nonblocking_io_multiplexing_server.h:339-355 | A live connection armed for read has nothing unsent (no hard write error); with nothing unread, output equals input (no hard read error) |
| `EchoServer.ServerCursors` | src/servers/multi_worker_nonblocking_io_multiplexing_server.h:148-169 | On every run 0 <= write_index_ <= read_index_ <= 1025, at most 1024 when the input fits; ready_for_write_ only while a handler writes after EAGAIN |
| `EchoServer.ServerEffort` | src/servers/multi_worker_nonblocking_io_multiplexing_server.h:300-357 | All workers together make at most two successful calls per byte received |
| `EchoServer.NeverForgotten` | src/servers/multi_worker_nonblocking_io_multiplexing_server.h:207-243 | A registered connection that is not parked always has a worker of its epoll set with an enabled step, and that worker holds it unless it is armed |
| `Progress.ServerProgress` | src/servers/multi_worker_nonblocking_io_multiplexing_server.h:300-370 | A connection in service with unread or unsent bytes has a worker of its epoll set with an enabled step. If any worker can be told of it, or the worker handles it or has its readiness event at the head, the step is the connection's and lowers 6 * (2 * unread + unsent) + distance to the next call; otherwise the step takes the connection's own event, or leaves its view alone and brings the worker strictly nearer |
| `Progress.ServerCompletes` | src/servers/multi_worker_nonblocking_io_multiplexing_server.h:207-370 | From every reachable state in which a connection in service has unread or unsent bytes, fits, and has no error event queued, the run can be continued until its output is everything it had received, whatever other connections the workers are busy with |
| `Progress.ServerCompletesExactlyWhenCalm` | src/servers/multi_worker_nonblocking_io_multiplexing_server.h:226-236 | The exact obstacle: such a continuation exists if and only if no event of the connection with error bits is queued |
| `EchoServer.WorkerHasStep` | src/servers/multi_worker_nonblocking_io_multiplexing_server.h:207-243 | A worker outside epoll_wait always has an enabled step, whatever the others did to map, descriptors and epoll set |
| `EchoServer.RunKeepsInv` | src/servers/multi_worker_nonblocking_io_multiplexing_server.h:66-131 | The ownership invariant holds on all runs from both layouts, and nobody changes the workers' sets or the listeners |
| `Preservation.StepKeepsInv` | src/servers/multi_worker_nonblocking_io_multiplexing_server.h:207-381 | Every action keeps map, heap, descriptors, entries, batches and the one token per connection consistent |
| `EchoServer.InitialInv` | src/servers/multi_worker_nonblocking_io_multiplexing_server.h:66-131 | Both start layouts establish the invariant; one set per worker makes the sets private |
| `EchoServer.ListenersAreServed` | src/servers/multi_worker_nonblocking_io_multiplexing_server.h:71-131 | On every run worker i waits for listener i on its own set with SO_REUSEPORT, else for the one listener on the one set, so every listener has a worker |
| `EchoServer.Births` | src/servers/multi_worker_nonblocking_io_multiplexing_server.h:179-183 | Only insert() brings an object to life, always at an unused address |
| `EchoServer.InsertIsBirth` | src/servers/multi_worker_nonblocking_io_multiplexing_server.h:286-287 | The inserted object is a newborn connection of the automaton: empty cursors, no registration, untouched socket |
| `Workers.ListenerData` | src/servers/multi_worker_nonblocking_io_multiplexing_server.h:84-84 | After start has inserted the listeners in order, the map's keys are exactly the listeners and each yields its own object |
| `EchoConnection.StepInv` | src/servers/multi_worker_nonblocking_io_multiplexing_server.h:296-381 | Cursors, streams, phase flag, token and interest are kept by every event of a connection: client bytes, shutdown, delivery, dispatch, each system call with each result, reset |
| `EchoConnection.RunInv` | src/servers/multi_worker_nonblocking_io_multiplexing_server.h:296-381 | The same over whole runs |
| `Echo.EchoFidelity` | src/servers/multi_worker_nonblocking_io_multiplexing_server.h:296-359 | In every state of every run buffer_[..read_index_] is the input consumed since the last rewind and the output since then is exactly its first write_index_ bytes; without hard read errors, of the whole stream |
| `Echo.CursorsAndPhase` | src/servers/multi_worker_nonblocking_io_multiplexing_server.h:297-358 | Request lengths are never negative, read_index_ stays within 1024 exactly while the conversation does, the phase flag is clear outside handlers, the write phase is entered only after EAGAIN on reading |
| `Echo.InterestMatchesBacklog` | src/servers/multi_worker_nonblocking_io_multiplexing_server.h:339-355 | Unsent bytes come with write interest, a holder or a parked connection; armed for read with nothing unread means a complete echo |
| `Echo.WriteInterestWithoutBacklog` | src/servers/multi_worker_nonblocking_io_multiplexing_server.h:344-350 | A failing input for "write interest means unsent bytes": after a spurious event write() of zero bytes returns 0, the stale EAGAIN is read, and write interest is asked for with nothing to send |
| `Echo.WriteInterestExactly` | src/servers/multi_worker_nonblocking_io_multiplexing_server.h:333-355 | When any handling ends with write interest, nothing is unsent if and only if nothing was unsent when it began and it read nothing |
| `Echo.SuccessesAreBounded` | src/servers/multi_worker_nonblocking_io_multiplexing_server.h:300-357 | On all runs successful calls plus 2 * unread + unsent never exceed its first value plus twice the bytes that arrive |
| `Echo.ServiceStep` | src/servers/multi_worker_nonblocking_io_multiplexing_server.h:300-370 | For a connection in service that fits, each responsive step keeps it in service and lowers the measure |
| `Echo.ServiceIsEnabled` | src/servers/multi_worker_nonblocking_io_multiplexing_server.h:300-370 | While anything is unread or unsent a responsive step is enabled |
| `Echo.ServiceIsBounded` | src/servers/multi_worker_nonblocking_io_multiplexing_server.h:300-370 | A responsive run is no longer than the measure and makes at most 2 * unread + unsent successful calls |
| `Echo.MaximalServiceCompletes` | src/servers/multi_worker_nonblocking_io_multiplexing_server.h:300-370 | Every responsive run that cannot be prolonged has echoed everything, within 2 * unread + unsent successful calls |
| `Echo.CompletesExactlyWhenItFits` | src/servers/multi_worker_nonblocking_io_multiplexing_server.h:303-310 | A connection in service can have its echo completed if and only if the conversation fits the 1024-byte buffer |
| `Echo.OverlongIsParked` | src/servers/multi_worker_nonblocking_io_multiplexing_server.h:303-310 | With a longer conversation every responsive run is bounded by the measure, and when it cannot be prolonged cell 1025 is full, read() has returned 0, the connection is parked and bytes are unsent |
| `Echo.OverlongInput` | src/servers/multi_worker_nonblocking_io_multiplexing_server.h:303-310 | A failing input: 1025 bytes sent to a newly accepted connection are never all echoed |
| `Echo.NothingIsEchoedAfterShutdown` | src/servers/multi_worker_nonblocking_io_multiplexing_server.h:309-310 | After the client's shutdown, unless a write phase is under way, no byte is ever sent again |
| `Echo.ShutdownCompletesExactly` | src/servers/multi_worker_nonblocking_io_multiplexing_server.h:309-330 | After the client's shutdown the full echo is still reachable if and only if nothing is unread and either nothing is unsent or the write phase is under way |
| `Echo.ShutdownLosesTheEcho` | src/servers/multi_worker_nonblocking_io_multiplexing_server.h:309-330 | A failing input: a byte sent to a newly accepted connection just before its client shuts down is never echoed on any continuation |
| `Echo.HandlingIsBounded` | src/servers/multi_worker_nonblocking_io_multiplexing_server.h:296-370 | Any one handling, interleaved with its client, makes at most (1025 - read_index_) + 1 reads and at most (read_index_ - write_index_) + 1 writes; when over it has read at least once and rearmed once, or not at all exactly when reading ended at zero bytes |
| `Echo.WillingHandlingEchoes` | src/servers/multi_worker_nonblocking_io_multiplexing_server.h:296-370 | One handling against a kernel whose EAGAIN means empty, whose writes take something and whose MOD succeeds, with a client that stays and fits, echoes everything that had arrived when it began and all it has read since the last rewind, and ends armed for read, or for write exactly when there was nothing to do |
| `MultiWorkerServer.ConnectionData.ResetIndices` | src/servers/multi_worker_nonblocking_io_multiplexing_server.h:158-162 | reset() rewinds both cursors and the flag and keeps descriptor and bytes |
| `MultiWorkerServer.ConnectionDataManager.Insert` | src/servers/multi_worker_nonblocking_io_multiplexing_server.h:179-183 | A taken key yields null and leaves the map alone; a free key gets a new zeroed object |
| `MultiWorkerServer.ConnectionDataManager.Remove` | src/servers/multi_worker_nonblocking_io_multiplexing_server.h:185-188 | Exactly the key's entry goes |
| `MultiWorkerServer.Worker.ReadAll` | src/servers/multi_worker_nonblocking_io_multiplexing_server.h:300-326 | The calls that the kernel has written down during the read loop are hops of the automaton to the end of its read phase, each read() asking for exactly the room that is left |
| `MultiWorkerServer.Worker.WriteAll` | src/servers/multi_worker_nonblocking_io_multiplexing_server.h:333-356 | The calls written down during the write loop are hops of the automaton to its rearm with the matching interest, each write() offering exactly the unsent bytes |
| `MultiWorkerServer.Worker.HandleConnectionEvent` | src/servers/multi_worker_nonblocking_io_multiplexing_server.h:296-359 | For every choice of kernel and client the calls that the kernel has written down, each with the arguments the automaton asks for, are one handling of it from Queued to Free; both call bounds, one rearm or none exactly when reading ended at zero bytes; against a willing kernel and a client that stays and fits, everything received before and everything read is echoed and the connection is armed for read if anything was pending; no other connection is touched |
| `MultiWorkerServer.Worker.RearmEpoll` | src/servers/multi_worker_nonblocking_io_multiplexing_server.h:361-370 | One MOD with the chosen interest is made, and the entry is armed exactly if the kernel's answer is success |
| `MultiWorkerServer.Worker.AcceptConnections` | src/servers/multi_worker_nonblocking_io_multiplexing_server.h:255-294 | The calls written down are rounds of accept4, insert and ADD until accept4 fails or a registration does; unless either fails hard nobody is left waiting; every accepted descriptor gets its own new object, is never refused by the map and is armed for read; after a failed registration the last one is open, mapped and unregistered |
| `MultiWorkerServer.Worker.CloseConnection` | src/servers/multi_worker_nonblocking_io_multiplexing_server.h:372-381 | Exactly remove, DEL and close are made, in that order, and the tables agree after each; a negative descriptor is left alone |
| `MultiWorkerServer.Worker.HandleEvent` | src/servers/multi_worker_nonblocking_io_multiplexing_server.h:218-239 | One event, in its bits: the listener's drains the waiting connections as above; EPOLLERR or EPOLLRDHUP makes exactly remove, DEL and close of this connection; EPOLLHUP without them makes no call; with none of the three the calls are one handling of the automaton |
| `SelectServer.Server.Round` | src/servers/nonblocking_io_multiplexing_select_server.cpp:72-149 | With `ready` what select() will find of the watched descriptors: the kernel has been read or accepted from on exactly these, once each, in ascending order, as the connections they denoted when select() returned; each ready client has had its whole loop on its own answers and is closed exactly if they give it up; every other client is unchanged; a ready listener leaves nobody waiting and all new connections open; max_sfd is again the maximum. When accept4 fails hard this holds up to the listener, when select() fails nothing has happened, and it throws exactly then |
| `SelectServer.Server.Scan` | src/servers/nonblocking_io_multiplexing_select_server.cpp:81-149 | Wherever the scan stops, sfd_ready_no is the number of ready descriptors from there on, none unless accept4 failed, and everything ready below has been served in order, so neither the early exit nor the moving bound skips one |
| `SelectServer.Server.Visit` | src/servers/nonblocking_io_multiplexing_select_server.cpp:82-149 | At scan position i the countdown goes from the number of ready descriptors at or above i to the number above it, and what is ready there is served: accepted from until nobody waits, or read, echoed and closed as its answers say; the remaining ones still denote their connections |
| `SelectServer.Server.HandleReady` | src/servers/nonblocking_io_multiplexing_select_server.cpp:86-148 | The listener takes all waiting connections unless accept4 fails hard; a client has its answers consumed up to the first that stops the loop, gets the bytes its writes took, and is closed exactly if the answers give it up; max_sfd drops only when i was the maximum |
| `SelectServer.Server.AcceptAll` | src/servers/nonblocking_io_multiplexing_select_server.cpp:86-103 | Waiting connections are accepted in order under fresh descriptors and watched, all of them unless accept4 fails hard; max_sfd stays the maximum |
| `SelectServer.Server.EchoAll` | src/servers/nonblocking_io_multiplexing_select_server.cpp:105-136 | For answers fixed beforehand, exactly those up to the first that stops the loop are consumed and exactly the bytes their writes took are sent on; the client is given up exactly if that answer says so |
| `SelectServer.MadeMeans` | src/servers/nonblocking_io_multiplexing_select_server.cpp:108-136 | In terms of the answers: the loop goes on exactly while data is read and the write neither fails nor returns EAGAIN, and gives the client up exactly at end of file, a hard read error or a hard write error |
| `SelectServer.EchoedInFull` | src/servers/nonblocking_io_multiplexing_select_server.cpp:110-134 | The loop has sent its client exactly what it read if and only if every write it made took its whole chunk |
| `SelectServer.EchoedExactlyWhenWhole` | src/servers/nonblocking_io_multiplexing_select_server.cpp:110-134 | Over any exchanges, bytes sent equal bytes consumed if and only if every exchange with data wrote its whole chunk; short writes, zero writes and EAGAIN drop the rest |
| `SelectServer.ShortWriteDrops` | src/servers/nonblocking_io_multiplexing_select_server.cpp:128-134 | A failing input: two bytes read, one written, the loop goes on and the other byte is lost |
| `SelectServer.Server.CloseClient` | src/servers/nonblocking_io_multiplexing_select_server.cpp:138-147 | After a close max_sfd is exactly the new maximum: the walk down stops at a member, at or above the listener |
| `SelectServer.Server.Run` | src/servers/nonblocking_io_multiplexing_select_server.cpp:71-149 | Any number of rounds keeps backup set, descriptor table and max_sfd in agreement, with one select() each |
| `SelectServer.BelowIsTheSet` | src/servers/nonblocking_io_multiplexing_select_server.cpp:82-83 | The order of the scan lists exactly the members of the snapshot, each once, ascending |
| `EdgeTriggered.EventLoop.Turn` | src/utilities/server_utility.cpp:128-195 | For the batch that epoll_wait has reported: every client event is settled against the connection it was reported for, closed on EPOLLRDHUP, else read until there is no more data and armed again exactly if that ended in EAGAIN, else left disarmed; every other client is left alone; new connections are open and armed; calls are made for acted events only, in batch order; a waiting connection always has an edge, an undelivered listener event or a running drain. It throws exactly when a call has failed, and then this holds of all events but the one at hand |
| `EdgeTriggered.EventLoop.HandleEvent` | src/utilities/server_utility.cpp:134-233 | Only the event's own descriptor can be closed, exactly on EPOLLRDHUP; a readable client has its answers consumed up to the first without data and is armed exactly if that is EAGAIN; every other connection, entry and answer stays |
| `EdgeTriggered.EventLoop.AcceptAll` | src/utilities/server_utility.cpp:167-194 | Without a failing call the drain ends on an EAGAIN with the accept queue empty; arrivals between any two calls are not lost, every accepted client is open and armed, and no other client changes |
| `EdgeTriggered.EventLoop.ReadAll` | src/utilities/server_utility.cpp:195-230 | For answers fixed beforehand, the first without data decides: EAGAIN rearms the client, end of file and hard errors leave it disarmed; exactly the answers up to it are consumed, and nothing else changes |
| `EdgeTriggered.DrainedMeans` | src/utilities/server_utility.cpp:200-226 | In terms of the answers: data goes on, and the first answer that is not data ends the drain and leaves the later ones |
| `EdgeTriggered.EventLoop.Wait` | src/utilities/server_utility.cpp:129-132 | Batch descriptors are distinct, client events come from armed entries and disarm them, nothing else changes, and consuming the listener's edge leaves its readable event in the batch |
| `EdgeTriggered.EventLoop.Run` | src/utilities/server_utility.cpp:128-134 | After any number of turns, one epoll_wait each, a non-empty accept queue still has its edge pending |

## Left out

- Logging, address set-up, process naming, thread and process creation: no effect on the modelled state.
- The shared mutex: each operation of `ConnectionDataManager` is one atomic step.
- Worker::start's own loop over batches is modelled by the steps of `Workers`, one event by `MultiWorkerServer.Worker.HandleEvent`; it has no method of its own, because it never returns.
- epoll_wait collects its batch one event per step while the other workers run; this allows more interleavings than the kernel does.
- The EPOLLIN and EPOLLOUT bits of an event: the multi-worker server does not branch on them.
- In the SO_REUSEPORT layout the threads read `server_sfd_` by reference while `start` reassigns it; here each worker has the listener it was created for.
- `closeConnection` takes the descriptor by reference from the object it destroys; here it is taken by value.
- The 1025th cell of the buffer lies outside the vector; here it is a cell like the others that is read into and never sent, so runs that reach it are those of the arithmetic, not of memory.
- A descriptor is in at most one epoll set, and object addresses are never used again.
- MultiWorkerServer.Worker.AcceptConnections: finitely many connections are waiting when it runs, so that the loop ends; in the other two servers one drain likewise meets finitely many connections, and each connection has finitely many answers before EAGAIN.
- MultiWorkerServer.ConnectionDataManager.Get: the lookup itself is all it promises; the server never calls it.
- The write sets of the select server are copied and cleared but never watched, so they have no counterpart; FD_SETSIZE is not modelled.
- The `file_descriptor` class is not part of this model: its definition is not in the repository, and a descriptor is an integer whose `set_fd` succeeds exactly on a non-negative value.
- EdgeTriggered.EventLoop.Turn: the listener is registered without EPOLLRDHUP, so it is never closed; client data is not modelled, the loop only discards it.
- Kernel fairness and timing: progress is stated as enabled steps, bounds on responsive runs and the existence of a completing continuation.
- The blocking, forking and SO_REUSEPORT single-worker servers and the clients: straight-line input and output, or the same loops again.
