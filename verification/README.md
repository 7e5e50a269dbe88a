# Rooms, log store and cluster listing of the page-spy API, modelled and proved

A page-spy node relays messages between WebSocket sessions that join *rooms*, stores uploaded logs, and
answers list queries for a whole cluster. This project models the three stateful cores and proves what
they keep.

**Rooms and events.** `Messages` and `Nodes` describe rooms (`localRoom`), sessions (`remoteRoom`), bounded
inboxes, the listener table and `roomsMap` as values, with one function for each operation. `RoomObjects`
has the emitter, the two room classes and the manager as classes; every method is proved to do to the
objects exactly what the function of the same operation says. `Cluster` is the transition system over the
same functions: creating, joining, leaving, lost leave calls, session ends, broadcast, unicast, a room's
consumer taking a message and handing it out one receiver at a time, sweeps, clock ticks, unreachable
machines. A *run* is any sequence of such steps from the empty cluster. `Invariant` and `Preservation` hold
the invariant of all runs, `History` what no run takes back, `Creation` what a room keeps of its creation,
`Verdicts` which rooms a judgement spares, `Told` what every step tells every listener, `Provenance` where
the messages in an inbox come from, and `Ordering`, `Membership` and `Reaping` the theorems. In some runs a
room is made under the id of a connection, and order and membership fail: `Aliasing` has those runs,
`Intrusion` counts the broadcasts that reach a session past its room, `Stray` follows the close messages
that end up in a room that stays open. `Interleaving` treats loops other code may interrupt, and `Capacity`
the room limit when `CreateRoom` is split into check, look-up and insertion.

**Log store and retention.** `Tables` has the soft-deleting tables, their ordered queries and sums;
`Queries` the list query with its time window and tag joins; `LogStore` the store of one node with a fault
for each storage and database call; `Retention` the cleaning passes; `Agreement`, `Downloads` and `Groups`
runs of whole operations, `Races` runs in which the storage and database calls of uploads and deletions
interleave; `Records` what one upload, download or deletion does to records and files. `StoreObjects` has
`FileApi`, `Data` and `CoreApi` as classes proved against those functions.

**Listing and addressing.** `Pages` has the merged page as a class, the cluster call and the deduplication
key; `Merging` its independence of answer order and sorting of ties; `Paging` paging over several nodes;
`Ties` what becomes of it when every page query may order rows of one time anew;
`Addressing` machine numbering, address text and routing; `Routing` the way from a file id back to the
machine that stored the file. `Sorting` and `Bags` are shared helpers.

Points where a reader may expect otherwise:

- `localRoom.Join` sets the status to Running without looking at it. Only the check in the manager keeps a
  closed room closed, so each manager operation is one step of the transition system.
- A failed join leaves its listener registered (room/rpc_remote_manager.go:242-250), so a member has a
  listener but a listener need not have a member.
- The duplicate test of `addListener` (event/local_event.go:35) compares addresses of its own variables and
  never fires; listeners are unique because their objects are new.
- docs/ARCHITECTURE.md:272 says log lists are deduplicated by file ID. The key is the primary key and the
  creation second, and the primary key is not sent between nodes (data/logs.go:67), so the second alone
  decides: `Merging.NotByFile`. The code is followed.
- docs/ARCHITECTURE.md lists a 20 second limit for remote rooms; nothing ever enters that manager's map, so
  no such step exists.
- Some properties hold only under a condition, and are stated with it and with the failing input:
  - A join with `forceCreate` asks for any room id with one dot (serve/socket/socket.go:350-383), so a room can
    be made under the id of a live connection and is then registered under the key of that connection's
    session. Order: a session holds exactly what its room handed it, in order, exactly when no broadcast to its
    own connection reached it (`Intrusion.OrderOverRuns`), which takes a Create step that named the connection
    (`Ordering.UnnamedIff`) and a served connection whose room has its id (`Aliasing.OrderSafeIff`).
    Membership: a member of an open room listens exactly until it ends or the room hands it a close message
    (`Membership.ListensIff`); a room that stays open gets one exactly when another room closes, by a sweep,
    after a leave or on request, with that room's address among the members that stay, or when one is handed on
    to its address (`Stray.StrayCloseIff`). The failing runs are `Aliasing.ForcedJoinBreaksOrder`,
    `Stray.ForcedJoinStrands` and `Stray.BothFail`, the last by a sweep.
  - Requests to the log service are not locked against each other or against cleaning. Live rows keep their files
    throughout a run exactly when no row is inserted for a file that a deletion has removed since it was stored
    and no deletion is given up half way (`Races.RunCoversIff`, `Races.ApartCovers`, failing run
    `Races.RacedUpload`); files keep a row, and group sizes stay the sums of all uploads, under conditions of the
    same kind (`Races.RunOrphansIff`, `Races.RunBalancedIff`, failing run `Races.LostSize`).
  - The size pass deletes no more than needed exactly when, while the sizes of the answer leave something
    owed, the bytes freed with them do too (`Retention.NoMoreThanNeededIff`). Files with one live row
    satisfy that (`Retention.OldestFirst`); a group holding a file twice does not
    (`Agreement.SharedOverdeletes`, a run without failures).
  - An upload downloads as itself exactly when no other contents were stored under its id before
    (`Downloads.UploadReads`, failing run `Downloads.TornUpload`).
  - Every page is a query of its own, ordered by creation time alone, so rows of one time may come in another
    order each time. Pages show every row once, however ties come, exactly when no boundary between two pages
    cuts a tie on any node (`Ties.EveryRowOnceIff`); a list that goes through `GetFileList` needs in addition
    that no merged page has two rows of one second (`Ties.ListedOnceIff`).
  - The tag joins of a list query give a row once for every choice of matching tags, so the page and its
    total repeat rows unless no tag of the query matches two tags of a row (`Queries.RepeatsIff`).
  - The configured room limit holds in all runs exactly when creations do not overlap
    (`Capacity.LimitHoldsIffAlone`), and machine maps agree exactly when keys identify machines
    (`Addressing.AgreementIff`).

`dafny verify dfyconfig.toml` checks the whole project.

## Model

| member | source | states |
|---|---|---|
| `Ordering.TotalOrder` | room/local_room.go:81-94 | in every run, the broadcasts a session ever got are an in-order, duplicate-free subsequence of the messages its room took from its inbox, unless a room has the id of its connection |
| `Ordering.MembersAgree` | room/local_room.go:188-212 | two sessions of one room never see two broadcasts of it in opposite orders; the broadcasts they hold are those, unless a room has the id of one of their connections |
| `Ordering.UnnamedIff` | room/local_manager.go:87-113 | a room has the id of a connection at the end of a run exactly when a Create step of the run made one under it |
| `Ordering.ExactDelivery` | room/remote_room.go:156-184 | with no full inbox and no unreachable machine on the way, and no room under its connection's id, a session got exactly the broadcasts taken while it was a member, minus its own that exclude it and the one still being handed out |
| `Provenance.Authentic` | room/remote_room.go:65-110 | in every run, aliased or not, every broadcast and unicast in a session's inbox was sent in the run by the connection it names, with that text and flag, and a unicast to that session's own connection |
| `Provenance.UnicastReaches` | room/remote_room.go:65-82 | a unicast reaches, under the sender's name, each session of its addressee that is open, can be reached and has space, and no session of another connection |
| `Provenance.BroadcastQueued` | room/remote_room.go:95-110 | a broadcast is queued, under the sender's name, by the room that serves the sender while it is open, can be reached and has space, and by no open room of another address |
| `Provenance.ReceiversAre` | room/local_room.go:188-258 | taking a message, a room fixes exactly these receivers, each once: all members for a broadcast, less its sender unless included; the addressee for a unicast, if a member; all members for what the room says of itself; nobody for a ping |
| `Aliasing.OrderSafeIff` | room/local_room.go:75-98 | no broadcast of anyone can put a listening session out of order exactly when no served connection's room has that session's connection as its id |
| `Intrusion.BroadcastCount` | room/local_room.go:188-212 | in every run a session holds one broadcast for each its room handed it and one for each broadcast to its own connection that reached it, and none else |
| `Intrusion.OrderOverRuns` | room/local_room.go:75-98 | in every run a session holds exactly what its room handed it, in order, exactly when no broadcast to its own connection reached it |
| `Aliasing.ForcedJoinBreaksOrder` | room/rpc_remote_manager.go:209-229 | from every run, after a forced join has made a room under the connection of a listening session, one broadcast to that room puts the session out of order |
| `Stray.ForcedJoinStrands` | serve/socket/socket.go:350-383 | from every run, after a forced join under the id of a reachable member of another room, the closing of that room by a sweep or on request leaves the newcomer served and listed in an open room with its session closed, no leave call lost |
| `Stray.StrayCloseIff` | room/basic_manager.go:98-116 | for every step: a room that stays open gets a close message exactly when the step closes another room, by a sweep, after a leave or on request, that has its address among the members that stay, or hands one on to its address; and it is reachable with inbox space |
| `Stray.BothFail` | room/basic_manager.go:98-116 | both failures happen in runs, the second by a sweep, with no removal on request and no lost leave call |
| `Membership.MemberReachable` | serve/socket/socket.go:183-189 | in every run, each connection listed in an open room whose address is no connection's is still served, or its leave call was lost; its session listens exactly until it has ended |
| `Membership.ListensIff` | room/remote_room.go:171-178 | in every run and every open room, aliased or not: a listed connection is served or lost its leave call, and its session listens exactly until it has ended or the room has handed it a close message |
| `Membership.MemberImpliesListener` | room/rpc_remote_manager.go:231-253 | without lost leave calls every connection listed in such a room is served and has an open listener under its address |
| `Membership.LostLeaveStrands` | serve/socket/socket.go:183-189 | from any run, losing the leave call of a served member leaves it listed in the open room after its session is gone |
| `Membership.RegistryAgreement` | room/local_manager.go:101-113 | in every run an id is mapped to a room exactly when that room is open with that address, which is exactly when it is registered as a listener there |
| `Membership.LifecycleSafety` | room/basic_room.go:23-31 | across any part of any run status moves only Init to Running to Closed or Init to Closed, Init rooms have no members, Closed is absorbing, the done channel is closed exactly once |
| `Membership.CloseCascade` | room/local_room.go:280-298 | closing a room closes exactly the reachable members with inbox space, each hears the close message last and is no longer registered |
| `Membership.StepCloses` | room/local_manager.go:161-184 | each of the three ways a room closes closes the remaining members that can hear and places the farewell last in their inboxes |
| `Membership.CloseIsFinal` | room/remote_room.go:171-178 | over runs, however a room closes (on request, by a sweep, by the verdict after a leave), it and each remaining member that could hear stay closed and unregistered whatever follows, and the farewell stays the last thing ever placed in those inboxes |
| `Membership.ClosedSessionStays` | room/remote_room.go:132-145 | nothing is ever placed in a closed session's inbox and it is never registered again |
| `RoomEffects.CloseAgain` | room/local_room.go:280-283 | a second Close changes nothing |
| `RoomEffects.CloseEffect` | room/local_room.go:280-298 | what Close does to every room and every session of the node |
| `RoomEffects.JoinEffect` | room/local_room.go:125-143 | what an accepted join does to every room and every session of the node |
| `RoomEffects.LeaveEffect` | room/local_room.go:145-158 | what a leave does to every room and every session of the node |
| `RoomEffects.SendEffect` | room/local_room.go:244-261 | a message a room handles is heard once by each open, reachable session it is for, and by nobody else |
| `RoomEffects.CreateEffect` | room/local_manager.go:87-113 | a created room is mapped, registered and empty, everything else is as before |
| `Creation.CreatedRoom` | room/local_manager.go:87-113 | in every run a Create step makes its room exactly when the manager is not full, the id is new and a required secret is given: with the secret asked for, both clocks new, nobody in it and nothing queued; no other room changes, and a refused one changes nothing |
| `Creation.SecretDecides` | room/local_room.go:125-143 | from its creation on, as long as the id leads to the room: a join is accepted exactly when no secret was asked for at the creation or it is the one given then; who is accepted is listed and served, who is refused changes no room |
| `Creation.StartedSession` | room/remote_room.go:55-63 | a session starts open, empty and registered under its own connection, for the room the connection asked for |
| `Preservation.RunInv` | room/basic_manager.go:92-116 | the cluster invariant (table, registry, members, sessions, message order) holds after every run |
| `Preservation.SweepEffect` | room/basic_manager.go:98-116 | a sweep judges each mapped room once, in whatever order, and closes exactly those with a verdict |
| `Verdicts.SweepSparesIff` | room/local_room.go:300-326 | in every run, over the clocks and members alone: a sweep leaves a mapped room mapped, open and with its members exactly when it is at most an hour old, a running one active within five minutes, an empty running one within one, an empty new one made within one; any other is unmapped and closed for the limit it exceeded |
| `Verdicts.SweepTellsWhy` | room/local_room.go:282-298 | the members of a room a sweep closes that can hear it are told, last, that it was idle for five minutes, or else that it was an hour old |
| `Verdicts.LeaveSparesIff` | room/local_manager.go:161-184 | the judgement after a leave, whose activity clock the leave has just refreshed: the room stays, with the other members, exactly when it is at most an hour old and, if nobody has joined it, at most a minute |
| `Verdicts.LeaveTellsWhy` | room/local_manager.go:161-184 | the members that stay and can hear it are told of the leave and then of the age limit |
| `Told.StepTold` | event/local_event.go:90-105 | for every step but a session's own reading and ending: each session and each room that stays open is as after hearing, in order, what the step says to its address |
| `History.RunKept` | state/status_machine.go:24-30 | from any state of a run to any later one no room or session is lost, no inbox entry is taken back, no closed object reopens |
| `Reaping.ReapingBound` | room/local_room.go:300-326 | at any time of any run, with gap the time since the last sweep: a mapped room is at most 1 h + gap old, an empty one idle at most 1 min + gap, a running one at most 5 min + gap |
| `Reaping.GraceAfterLeave` | room/local_manager.go:161-184 | a running room at most 1 h old that a leave empties survives that call and every sweep of the next minute, still mapped, running and joinable, unless removed explicitly |
| `Emission.EmitSession` | event/local_event.go:90-105 | an emission reaches each open session of the list exactly once and no other, even when hearing it makes the session remove itself |
| `Emission.EmitRoom` | event/local_event.go:90-105 | the same for room listeners |
| `Emission.EmitTable` | event/local_event.go:44-60 | exactly the listeners found closed, or closed by the message itself, leave the table |
| `Interleaving.LateListeners` | event/local_event.go:62-75 | listeners registered while the loop runs hear nothing, change nothing for the others, and end up registered behind them in order |
| `Interleaving.ConsumeIsBeginDeliver` | room/local_room.go:81-94 | a consumer's take step and its hand-over steps without interruption equal one SendMessage, which links the classes to the transition system |
| `RoomObjects.LocalEventEmitter.AddListener` | event/local_event.go:27-42 | the listener is appended to its address |
| `RoomObjects.LocalEventEmitter.RemoveListener` | event/local_event.go:44-60 | every occurrence is removed, the others keep their order |
| `RoomObjects.LocalEventEmitter.EmitLocal` | event/local_event.go:90-105 | the loop over the list as it was read has the effect of `Nodes.Emit`; it fails exactly on an empty list |
| `RoomObjects.RemoteRoom.Listen` | room/remote_room.go:156-184 | queue if there is space, and a close message makes the session close itself |
| `RoomObjects.RemoteRoom.Close` | room/remote_room.go:132-145 | marked closed once, then out of the table |
| `RoomObjects.RemoteRoom.Start` | room/remote_room.go:55-63 | registered under its connection |
| `RoomObjects.LocalRoom.Listen` | room/local_room.go:333-355 | queue if there is space |
| `RoomObjects.LocalRoom.SendMessage` | room/local_room.go:244-261 | refresh the clock, then hand the message to the members its type is for |
| `RoomObjects.LocalRoom.EmitToOthers` | room/local_room.go:188-212 | a broadcast goes to the members in order, the sender only if included |
| `RoomObjects.LocalRoom.EmitToOne` | room/local_room.go:214-242 | a unicast goes to the member it names |
| `RoomObjects.LocalRoom.EmitToAll` | room/local_room.go:169-186 | other messages go to all members |
| `RoomObjects.LocalRoom.Start` | room/local_room.go:75-98 | registered, and the start message sent |
| `RoomObjects.LocalRoom.Join` | room/local_room.go:125-143 | address and secret checked, member added, announced, status Running |
| `RoomObjects.LocalRoom.Leave` | room/local_room.go:145-158 | member removed, announced |
| `RoomObjects.LocalRoom.Close` | room/local_room.go:280-298 | no effect on a closed room, else closed, unregistered, announced |
| `RoomObjects.LocalRoom.ShouldRemove` | room/local_room.go:300-326 | the verdict of the four time limits, recorded in the room |
| `RoomObjects.LocalRoom.Consume` | room/local_room.go:81-94 | take the oldest message and send it |
| `RoomObjects.LocalRoomManager.CreateRoom` | room/local_manager.go:87-113 | full manager and empty required secret refuse, a known id returns its room, else a new started room is mapped |
| `RoomObjects.LocalRoomManager.RemoveRoom` | room/local_manager.go:124-132 | unmapped and closed |
| `RoomObjects.LocalRoomManager.JoinRoom` | room/local_manager.go:143-159 | unknown and closed rooms refuse, else the room decides |
| `RoomObjects.LocalRoomManager.LeaveRoom` | room/local_manager.go:161-184 | leave, then the same judgement a sweep makes |
| `RoomObjects.LocalRoomManager.Loop` | room/basic_manager.go:98-116 | a sweep in any order equals `Nodes.Sweep` over the rooms mapped when it began |
| `Capacity.NeverAbove` | room/local_manager.go:68-71 | with at most k creations in flight, mapped rooms plus creations past the check never exceed max + k - 1 |
| `Capacity.LimitHoldsIffAlone` | room/local_manager.go:87-113 | the limit itself holds in all runs exactly for k = 1, and max + k - 1 is reached |
| `Tables.AnswerOrdered` | data/db.go:423-433 | the answer query holds each wanted live row once, sorted by creation time |
| `Tables.PaidOff` | data/db.go:453-463 | rows gone no longer count: the total plus their sizes is at most the total before |
| `LogStore.DeleteCovers` | serve/route/core.go:238-245 | a deletion keeps every live row's file exactly unless the database fails between the file and a live row of it |
| `Retention.SizeHonest` | serve/route/core.go:270-304 | whatever rows share files and whatever fails, the Saved total is at most the limit plus what is still owed; so a pass that stops owing nothing is within the limit |
| `Retention.SizesDecide` | serve/route/core.go:287-301 | which rows a failure-free pass deletes is decided by the sizes of its answer alone, whatever else goes with them |
| `Retention.NoMoreThanNeededIff` | serve/route/core.go:287-301 | every deletion of the pass happens above the limit exactly when the bytes held by the files of the first rows stay below what is owed as long as their sizes do |
| `Retention.OldestFirst` | serve/route/core.go:287-301 | with unshared files and no failure the pass deletes the shortest oldest-first run: every deletion happens above the limit, and no survivor is older than a victim |
| `Agreement.SharedOverdeletes` | serve/route/core.go:270-304 | a failure-free run: a group that holds a file twice, and a pass that deletes another file although one deletion had brought the total within the limit |
| `Retention.PassProgress` | serve/route/core.go:270-304 | a failure-free pass above the limit loses a row |
| `Retention.SizeConverges` | serve/route/core.go:270-304 | as many failure-free passes as live rows bring the total within the limit |
| `Retention.TimeRemoves` | serve/route/core.go:247-268 | whatever fails, the age pass deletes only rows of a file with a timed-out row |
| `Retention.TimePass` | data/db.go:423-427 | after a failure-free pass a batch fewer rows are timed out, none if one batch held them all |
| `Retention.TimeConverges` | serve/route/core.go:247-268 | at a fixed cutoff one pass for each batch clears all timed-out rows, and the total never grows |
| `Retention.CleanFileKeepsBound` | serve/route/core.go:306-317 | the age pass keeps the bound the size pass established |
| `Agreement.StoreAgreement` | serve/route/core.go:63-95 | in every run of whole operations, one after the other, in which only uploads and storage calls fail no live row lacks its file; in failure-free runs the files are exactly those of the live rows |
| `Agreement.StepAgrees` | data/db.go:255-268 | each operation keeps both |
| `Downloads.RoundTrip` | serve/route/core.go:220-236 | a successful upload downloads as the same bytes after any operations whose loops do not reach its file, cleaning passes included, whatever else failed short of a torn write |
| `Downloads.ListedDownloads` | serve/route/core.go:220-236 | in every run of whole operations without torn writes and without a database failure inside a deletion, an upload downloads with its own bytes exactly as long as a live row of its file is left |
| `Downloads.NeverWrong` | storage/file.go:65-82 | without torn writes a download has the uploaded bytes or fails |
| `Downloads.UploadReads` | storage/file.go:14-36 | a successful upload reads back as itself exactly when nothing else was stored under its id |
| `Downloads.TornUpload` | storage/file.go:24-33 | after a write that stops half way, uploading again succeeds and serves the torn contents |
| `Groups.GroupAccounting` | serve/route/core.go:97-156 | in every run of whole operations, whatever fails, a group's size is the sum of all uploads into it, so at least that of its live rows |
| `Groups.DeleteGroupClears` | serve/route/core.go:158-176 | a successful group deletion leaves no live row and no file of any listed log, shared or not, and no live row without its file |
| `Races.UploadSteps` | serve/route/core.go:63-95 | the store, look-up and insert steps of an upload without interruption are one CreateFile |
| `Races.GroupUploadSteps` | serve/route/core.go:97-156 | the same for an upload into a group |
| `Races.DeletionSteps` | serve/route/core.go:238-245 | the remove and forget steps of a deletion without interruption are one DeleteFile |
| `Races.StepCoversIff` | serve/route/core.go:63-95 | a step keeps every live row's file, deletions under way aside, exactly unless it inserts a row for a file that is gone or gives up a deletion half way |
| `Races.RunCoversIff` | serve/route/core.go:63-95 | over interleaved runs: coverage holds throughout exactly when no step does that |
| `Races.ApartCovers` | serve/route/core.go:238-245 | when no deletion of a file comes between the store and insert steps of an upload of it and none is given up, coverage holds throughout |
| `Races.RacedUpload` | serve/route/core.go:63-95 | from every quiet state: an upload and a deletion of one file interleave, both succeed, and a live row has no file |
| `Races.RunOrphansIff` | serve/route/core.go:238-245 | every stored file has a row or an upload under way throughout exactly when no step tears a new file, forgets the rows of a file stored again, or gives up the only upload of a file |
| `Races.StepTwinsIff` | serve/route/core.go:125-144 | an id keeps one live group exactly unless a group is created for an id that got one since it was looked up |
| `Races.RunBalancedIff` | serve/route/core.go:146-149 | group sizes are the sums of all uploads throughout exactly when no step writes a size read before another upload into the group, or adds to a group deleted since |
| `Races.LostSize` | serve/route/core.go:146-149 | two uploads that both read the group first lose the size of one |
| `Races.RacedDownloads` | serve/route/core.go:220-236 | in interleaved runs without torn writes in which no step bares a row, an upload downloads with its own bytes exactly as long as a live row of its file is left, no deletion of it being under way |
| `StoreObjects.FileApi.SaveLog` | storage/file.go:14-36 | write-once storage with its error cases |
| `StoreObjects.FileApi.GetLog` | storage/file.go:65-82 | the stored bytes, or an error for an empty or unknown id |
| `StoreObjects.FileApi.RemoveLog` | storage/file.go:122-139 | removing a missing file succeeds |
| `StoreObjects.Data.CreateLog` | data/db.go:255-268 | no second row for a file with a live Saved row |
| `StoreObjects.Data.DeleteLogByFileId` | data/db.go:408-411 | every row of the file is soft-deleted |
| `StoreObjects.Data.FindOldestLogs` | data/db.go:429-433 | the first rows of some order of the live rows, each once, oldest first |
| `StoreObjects.Data.FindTimeoutLogs` | data/db.go:423-427 | the first rows of some order of the live rows created before the cutoff, each once, newest first |
| `StoreObjects.Data.FindLogs` | data/db.go:375-401 | an error exactly for a size or page that is not positive; else the file ids and creation times on that page of an arrangement, newest first, that holds exactly the live rows created strictly inside the window with a matching tag for every tag asked, each as often as its tags can be chosen to match; the total is its length |
| `Queries.RepeatsIff` | data/db.go:330-353 | the answer, and so the total, has no row twice exactly when no row that matches all tags asked for matches one of them with two of its own |
| `StoreObjects.CoreApi.CreateFile` | serve/route/core.go:63-95 | file first, then row |
| `StoreObjects.CoreApi.CreateLogGroupFile` | serve/route/core.go:97-156 | file, then a row in a new or grown group |
| `StoreObjects.CoreApi.GetFile` | serve/route/core.go:220-236 | name of the row, bytes of the file, or an error |
| `StoreObjects.CoreApi.FindLogs` | serve/route/core.go:178-180 | the node's part of a list; while no live row lacks its file, every file it lists downloads |
| `StoreObjects.CoreApi.DeleteFile` | serve/route/core.go:238-245 | file first, then rows |
| `StoreObjects.CoreApi.DeleteLogGroup` | serve/route/core.go:158-176 | the loop stops at the first error; on success nothing listed is left |
| `StoreObjects.CoreApi.CleanFileBySize` | serve/route/core.go:270-304 | the loop refines the size pass; stopping with nothing owed means within the limit |
| `StoreObjects.CoreApi.CleanFileByTime` | serve/route/core.go:247-268 | the loop refines the age pass and goes on after failures |
| `StoreObjects.CoreApi.CleanFile` | serve/route/core.go:306-317 | both passes, a failure of one does not stop the other |
| `Records.UploadOutcome` | serve/route/core.go:63-95 | when an upload succeeds, the record it leaves (the client's name, size and tags, its time, Saved, no group) or that it leaves none for a listed file, the download it then gives, and that no other file, row or group changes |
| `Records.GroupUploadOutcome` | serve/route/core.go:97-156 | the same into a group: always a record, in the first live group of the id, which grows by the upload, or in a new one of its size |
| `Records.DownloadOutcome` | serve/route/core.go:220-236 | a download succeeds exactly when the file is stored and a live row lists it, with the stored bytes and the name of the first such row |
| `Records.DeletionOutcome` | serve/route/core.go:238-245 | a deletion succeeds exactly when nothing fails on a named file, and then its file and rows are gone; no other file, row or group changes |
| `Records.GroupDeletionOutcome` | serve/route/core.go:158-176 | a group deletion succeeds without effect for an unknown id, else exactly when nothing fails, and then that one group is gone with its rows; files it did not list and other groups are kept |
| `Records.TotalCounts` | data/db.go:453-463 | the counted total is the sum of the sizes of the live Saved rows |
| `Pages.KeyInjective` | data/logs.go:77-79 | the printed key identifies primary key and creation second and nothing else |
| `Pages.Page.Merge` | data/logs.go:31-40 | data appended, totals added |
| `Pages.Page.Desc` | data/logs.go:42-46 | some newest-first arrangement of the same entries |
| `Pages.Page.UniqData` | data/logs.go:48-60 | the first entry of every key |
| `Pages.CallAllClient` | rpc/util.go:13-32 | succeeds exactly when there are clients and all answer; merges all answers in some order |
| `Pages.GetFileList` | serve/route/core.go:207-218 | call, sort, deduplicate |
| `Merging.ListIndependent` | serve/route/core.go:207-218 | for every order of clients and every sorting of ties: same seconds in the same places, same keys, newest first, no key twice, same total |
| `Merging.KeepsAllIff` | data/logs.go:48-60 | nothing is dropped exactly when keys differ; after transport, exactly when creation seconds differ |
| `Merging.UniqFirst` | data/logs.go:48-60 | deduplication leaves, in order, the entries at exactly the places that are the first with their primary key and second |
| `Merging.NotByFile` | data/logs.go:66-71 | after transport two files of one second become one entry, and one file with two seconds stays twice |
| `Paging.OnePage` | data/db.go:275-277 | a row is on exactly one page, and at its place there |
| `Ties.ShownFirst` | data/db.go:217-243 | when no page boundary cuts a tie, merged pages 1 to p of a list that is not deduplicated (log groups) show the first p * size rows of every node, each as often as it occurs, however ties come |
| `Ties.EveryRowOnceIff` | serve/route/core.go:186-196 | for all orders the page queries may give ties, enough pages of such a list show every row of the cluster once exactly when no boundary between two pages cuts a tie on any node |
| `Ties.ListedOnceIff` | serve/route/core.go:207-218 | for all such orders, deduplicated pages show every row of the cluster once exactly when in addition no merged page has two rows of one creation second |
| `Paging.TotalIsSum` | data/logs.go:37-38 | the merged total is the number of rows on all nodes |
| `Ties.NewestFirst` | serve/route/core.go:186-196 | however ties come, pages 1 to p sorted begin with the same p * size times as the whole cluster sorted |
| `Addressing.NewAddressManager` | rpc/address.go:48-120 | the single-node case; else with a configured own address the call succeeds exactly when the numbering holds it, and the own id is the last one that names it; without one the same for the first listed machine with the local IP, and the call fails when there is none |
| `Addressing.InfoNumbered` | rpc/address.go:97-107 | the machines are numbered A0, A1 and so on in the order of their keys, each key as often as it is listed, naming the machine listed last under it |
| `Addressing.ClusterAgreement` | rpc/address.go:87-117 | nodes with permutations of one machine list number them alike, each finds an id that names it, and ids agree exactly for equal addresses |
| `Addressing.AgreementIff` | rpc/address.go:91-107 | all listings of the machines build one map exactly when keys identify machines |
| `Addressing.PlainPorts` | rpc/address.go:91-95 | ports without colons are enough for that |
| `Addressing.SortedUnique` | rpc/address.go:97-97 | sorting the keys has one result however they were listed |
| `Addressing.ParseExactly` | api/event/event.go:32-43 | parsing succeeds exactly on one dot, and printing the parts gives the text back |
| `Addressing.PrintParse` | rpc/address.go:19-21 | a printed address parses back exactly when its parts have no dot |
| `Addressing.RoutesBack` | rpc/rpc.go:36-38 | an address generated on one node, printed and parsed on any other, routes back to the generator and is local exactly there |
| `Addressing.NewRpcManager` | rpc/rpc.go:19-34 | one client for each numbered machine |
| `Routing.FileRoutesBack` | serve/route/core.go:35-49 | the id an upload gets leads every node to the machine that stores the file, which knows itself by it and no other does |
| `Routing.StoredRoutesBack` | serve/route/core.go:63-95 | in every run, whatever fails, the same holds of the id of every stored file and every row; and while no database failure comes inside a deletion that machine serves the file of every live row |

## Left out

- HTTP routing, WebSocket framing, JSON bytes, RPC transport, S3, metrics, logging, configuration loading: a call runs once or fails before it runs, and a message survives transport as a value.
- Deadlines: a send that times out is modelled as a drop on a full inbox. A room's consumer sends without a deadline (room/local_room.go:84), so on the same machine a full member inbox makes it wait and drops nothing; the drop over-approximates this. Real scheduling is not modelled.
- Clocks are an argument; time only moves forward. UUIDs are new object and connection ids: a new connection's id is not yet a room's, but a room may later be made under it. MD5 is a parameter, collision-free or without dots where a property needs it.
- Each manager operation is atomic in `Cluster`; only the capacity check is interleaved, in `Capacity`. `Cluster` has all rooms and listeners of the cluster in one table; which machine a listener is on matters only through the set of unreachable addresses.
- `RoomObjects` holds the objects of one node that reaches all its listeners; the remote branch of `Emit` is in `Cluster` only. The goroutines become the method `Consume` and the steps of `Cluster`.
- The secret check of a join and the listener it leaves behind are modelled; `ForceJoinRoom` is a Create step, if its first join found no room, followed by the joining steps; the id may be a connection's.
- `ListRooms`, tags, `UpdateRoomOption` and room groups: field masking and filters that change no state proved about here.
- `remoteRoom.ShouldRemove` and the remote manager's own sweep: nothing enters its map.
- The close reason text and the close code of a room are one value.
- Requests without a room address, which the source refuses, cannot be written in the model.
- SQL's `LIKE` is a parameter; `Paging` works on whatever rows a query gives. `CountLogsGroup`, `UpdateLogStatus` (never called) and the database snapshot are not modelled.
- Sizes and totals are unbounded integers; 64-bit overflow of a total is not modelled, and `float64` order values are the whole seconds they hold.
- `Agreement`, `Downloads` and `Groups` take each store operation as one step; `Races` splits uploads and deletions at their storage and database calls, each of which is one step. Deleting a group, cleaning and the look inside SaveLog are not split further: the deletions they make are Remove and Forget steps.
- The store is one node with local storage; deletion of file bodies shared between nodes is not modelled.
