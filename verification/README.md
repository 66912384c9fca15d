# Verification of the board history, its viewers and the WebAssembly glue

A board's history is two ordered lists of edits, `current` and `undone`. The server never stores them directly: they are
spread over a table of rows, a cache of its last read and a bounded log of operations, and the log is compacted into
batches that reach the table in no fixed order. Viewers rebuild the lists from broadcasts, and draw them. This project
models that machinery and proves that none of it can be seen from outside, and where exactly that stops being true. It
also covers the handle slab and the string passing of the generated WebAssembly glue.

`dafny verify dfyconfig.toml` checks everything.

## How it is laid out

| files | subject |
|---|---|
| `Wrappers`, `Edits`, `Histories` | optional values; edits and their checks; the plain two-list history and the replay of a log |
| `EditTables`, `EditStores`, `Batches` | the table, its statements and grouped read; batches of one and of many boards |
| `Compaction`, `Flushes`, `DbQueues` | the fold of a log into four batches; their delivery orders; the database loop |
| `WriteThrough`, `Transparency` | the log executed on the table as the reference for a flush; flush transparency under guards |
| `Exactness`, `LogTransparency` | which guards a flush needs; the exact condition for whole logs without a guard on commands |
| `Pulls`, `BoardMachine`, `Boards`, `Sharing` | the diff of a pull; the board refining the plain history; the board object; boards sharing a table |
| `RoomMachine`, `Viewers`, `ViewerSettings`, `RoomLaws` | the room's messages as a state machine; replicas, unloading and reloading; title and size; what each message does and what ends the loop |
| `Rooms`, `SharedRooms` | the room object; rooms whose boards share a table |
| `ClientHistory`, `Canvases`, `EditManagers` | the reducers; canvases; the edit manager |
| `ViewerCanvases`, `CanvasRuns`, `EditorRuns` | the message handlers of a viewer; what viewers draw over runs of a room; one editor and its viewers |
| `Limits`, `Stacking` | the numeric limits over runs; the order of the shapes on the layer |
| `Slabs`, `Utf8Strings` | handles of values passed to WebAssembly; strings passed to WebAssembly |

Objects that the source updates in place are classes (`EditStore`, `DbQueue`, `Board`, `BoardTable`, `Room`,
`HistoryStore`, `EditManager`, `HeapSlab`, `StringPasser`), and each method is proved against a function of the old
state. The theorems are about those functions.

The chain of the main results: `Compaction.GetSyncData` turns a log into four maps' values; `WriteThrough.WritesExecute`
shows that writing them in any order is executing the log on the table; `Transparency.FlushTransparent` that a read
afterwards is the replay of the log over the read before; `BoardMachine.RunRefines` that every run of calls answers as a
pair of lists would, and `Sharing.JointRefines` that many boards on one table each do so;
`Viewers.ViewerAgreement` that over every run of a room a viewer's replica is those lists;
`CanvasRuns.ViewerDrawsServer` that what the client's handlers draw is their fold; and `EditorRuns.ViewerDrawsEditor`
that one editor's canvas is what every viewer sees. That canvas is a map from id to shape; `Stacking.LateViewerIff` says
exactly when the order of the shapes is the same too.

Three guards stand in the statements about boards. Pushes are fresh: their id is in no row and no earlier operation.
Times increase and are above the stamps of the board's rows. Commands do not name an edit that is already where the
command would put it. `exec_command` has a comment that promises an error for such commands
(`server/src/libs/state.rs:351-353`); the code never returns one, and the model follows the code. Without the third
guard flush transparency fails (`Exactness.UndoneTwiceConflicts` reads an edit back from the wrong list), and
`LogTransparency.LogTransparentIff` says for every log exactly when it holds. When no command repeats on an edit of the
same log the condition is about the log alone: in both lists of the replay, the last positions at which the log names
the edits do not decrease (`LogTransparency.EffectiveLogTransparentIff`).

## Model

| member | source | states |
|---|---|---|
| Histories.LastIndex | server/src/libs/state.rs:180-184 | The position a replay removes at is the last occurrence of the id, and exists exactly when the id is in the list. |
| Histories.PositionFromEnd | server/src/libs/state.rs:181-186 | Searching from the end finds an id exactly when it is there, and counting back from the length hits its last occurrence, in bounds. |
| Histories.ReplayLog | server/src/libs/state.rs:171-201 | The loop over the log ends with the two lists of the one-operation-at-a-time replay. |
| Histories.ReplayConserves | server/src/libs/state.rs:171-201 | For every log the multiset of both lists together is the old one plus the pushed edits: nothing is lost or duplicated. |
| Histories.ReplayKeepsDistinct | server/src/libs/state.rs:171-201 | With fresh pushes no id is ever twice in a list or in both lists, and the ids are the old ones and the pushed ones. |
| EditTables.ReadUnique | server/src/entities/edit.rs:290-299 | When the stamps of a board differ, ordering by `changed_at` leaves one possible read. |
| EditTables.ReadBoard | server/src/entities/edit.rs:282-342 | A table with matching keys and distinct stamps has a read, and only that one. |
| EditStores.EditStore.Create | server/src/entities/edit.rs:197-280 | The rows become those of inserting every item of every chunk in turn. |
| EditStores.EditStore.SetStatus | server/src/entities/edit.rs:344-386 | The rows become those of updating every id of every chunk in turn; unknown ids add no row. |
| EditStores.EditStore.DeleteBulk | server/src/entities/edit.rs:388-424 | The rows become those without the rows of each chunk's board and status. |
| EditStores.EditStore.Query | server/src/entities/edit.rs:290-299 | The selected rows are those of the asked boards, each once, in stamp order. |
| EditStores.EditStore.Group | server/src/entities/edit.rs:299-330 | The grouping loop gives every board, asked or not, exactly its own rows split by status and in row order, empty lists when it has none. |
| EditStores.QueryGivesRead | server/src/entities/edit.rs:282-330 | What grouping leaves for an asked board is a read of that board, however many boards share the query. |
| EditStores.EditStore.HandOut | server/src/entities/edit.rs:332-339 | The entry of a board goes to its first requester; later requesters of the board get empty lists. |
| EditStores.EditStore.Read | server/src/entities/edit.rs:282-342 | A batched read gives each first requester what a separate read gives. A repeated requester is answered rightly if and only if the board has no rows. |
| Batches.BatchLocal | server/src/entities/edit.rs:197-241 | What a create or status batch does to an id depends on the table at that id only. |
| Batches.NonInterference | server/src/libs/db_queue.rs:159-181 | With ids owned by boards, any interleaving of batches of many rooms leaves a board the rows its own batches alone would leave. |
| Batches.NonInterferenceOfReads | server/src/libs/db_queue.rs:159-181 | The same for what the board reads back, although a status update selects by edit id alone. |
| Batches.ForeignRowsSparedIff | server/src/entities/edit.rs:344-386 | Without ownership: a status batch spares the rows of other boards if and only if it names none of them. |
| Compaction.CompactWellKeyed | server/src/entities/edit.rs:75-117 | For every log each map entry is under its own id and no id is in both set-status maps. |
| Compaction.CompactBound | server/src/entities/edit.rs:75-117 | For every log, without any guard, the four maps together have at most as many entries as the log has operations. |
| Compaction.GetSyncData | server/src/entities/edit.rs:75-117 | The loop and the four collections give the values of the four maps in some order, within the bound, and no id in both set-status lists. |
| Flushes.SentCount | server/src/entities/edit.rs:119-185 | Exactly the non-empty ones of the four batches are sent, each once. |
| Flushes.FlushedByAnyOrder | server/src/entities/edit.rs:119-185 | When no id is both created and updated, every delivery order of the batches ends in one and the same table, given row by row. |
| WriteThrough.CompactMirrorsReplay | server/src/entities/edit.rs:75-117 | The two created maps hold exactly the pushed ids that a replay has in its two lists. |
| WriteThrough.NoConflictIff | server/src/entities/edit.rs:86-101 | The create and the status maps are disjoint if and only if the log repeats no command on an edit it pushed itself. |
| WriteThrough.FlushExecutes | server/src/entities/edit.rs:75-185 | The table after a flush is the table after executing the log on it one operation at a time. |
| WriteThrough.WritesExecute | server/src/entities/edit.rs:119-185 | The same for the batches, in every order of the maps' values and every delivery order. |
| Transparency.ExecuteKeepsRead | server/src/libs/state.rs:175-200 | Executing one operation with something to do on the table does to the board's ordered read what a replay step does to the lists. |
| Transparency.FlushTransparent | server/src/entities/edit.rs:75-185 | Flush transparency: for every table, every guarded log, every order of map values and batches, a result is a read of the written table if and only if it is the replay of the log over the old read. |
| Exactness.StatusAgreement | server/src/entities/edit.rs:75-185 | With fresh pushes and effective commands on the log's own edits, any repeats on stored or unknown ids still leave every id the status the replay gives it. |
| Exactness.UndoneTwiceConflicts | server/src/entities/edit.rs:86-101 | Push, undo, undo, redo of one edit: the edit is in the current creates and in the undone status updates, and with the creates written first it reads back as undone although the replay has it current. |
| Exactness.ConflictShows | server/src/entities/edit.rs:119-185 | When an id is both created and updated, two delivery orders end in different tables. |
| Exactness.BatchOrderIrrelevantIff | server/src/entities/edit.rs:119-185 | For fresh pushes and increasing times, all delivery orders end in the same table if and only if no command repeats on an edit of the same log. |
| Exactness.IdleCommand | server/src/libs/state.rs:180-199 | A command with nothing to do changes no replay, and leaves the table's read alone if and only if it names the edit already last in the list it would go to. |
| Exactness.CommandTransparentIff | server/src/libs/state.rs:354-387 | One unguarded command after a guarded log leaves every order of the flush invisible if and only if it has something to do, names an edit in neither list, or names the edit already last where it would go. |
| LogTransparency.StatusesIff | server/src/entities/edit.rs:86-101 | For any log of new edits, with the creates written first every id gets the status of the replay if and only if no id is created with one status and updated to the other. |
| LogTransparency.LogTransparentIff | server/src/entities/edit.rs:75-185 | For every table and every log of new edits with increasing times, its commands being anything: every order of the flush reads back as the replay if and only if the log is settled, that is, ids both created and updated agree in status and both lists are in the order of the maps' times. |
| LogTransparency.EffectiveLogTransparentIff | server/src/libs/state.rs:171-201 | When no command repeats on an edit of the same log: every order of the flush reads back as the replay if and only if, in each list, the last positions at which the log names the edits do not decrease. |
| Pulls.Diff | server/src/libs/state.rs:202-264 | The computed diff lists exactly the missing edits in server order and exactly the extra ids, each once. |
| Pulls.DiffConverges | server/src/libs/state.rs:202-264 | For any client list, removing the deletions and appending the creations leaves exactly the server's ids. |
| Pulls.SecondDiffIsEmpty | server/src/libs/state.rs:202-264 | A second pull after applying the first asks for nothing. |
| Pulls.DiffOrderIff | server/src/libs/state.rs:249-263 | With distinct server ids the updated list is the server's list in order if and only if the kept ids are a prefix of it. |
| Pulls.FirstPull | server/src/libs/state.rs:202-264 | A client without edits receives the two lists themselves. |
| BoardMachine.FlushMeaning | server/src/libs/state.rs:275-286 | A flush keeps the invariant and the lists the board stands for, and moves them all into the table. |
| BoardMachine.EnqueueMeaning | server/src/libs/state.rs:275-289 | Adding an operation, with a flush or without, keeps cache coherence and the log bound and adds one step to the lists. |
| BoardMachine.ClearMeaning | server/src/libs/state.rs:389-431 | Emptying one status empties that list only. |
| BoardMachine.PullMeaning | server/src/libs/state.rs:151-170 | With a coherent cache, a pull through cache or table reads the same, and filling the cache keeps it coherent. |
| BoardMachine.StepRefines | server/src/libs/state.rs:127-431 | Every call leaves the board standing for what a plain two-list history would hold and answers as that history answers. |
| BoardMachine.RunRefines | server/src/libs/state.rs:127-431 | Over every run of calls: all answers are those of the plain history, the cache is empty or a current read, the log never exceeds its size. |
| BoardMachine.LoadedRepresents | server/src/libs/state.rs:110-125 | A board just loaded stands for what its rows read as: the start of every run is met. |
| BoardMachine.RunFromNothing | server/src/libs/state.rs:127-431 | From an empty table on, every run of calls answers as two lists that start empty. |
| BoardMachine.SizesDoNotShow | server/src/libs/state.rs:275-289 | Two boards with different `OPERATION_QUEUE_SIZE` or cache lifetime, standing for the same history, give the same answers to the same run. |
| BoardMachine.PullAnswers | server/src/libs/state.rs:249-264 | A pull answers with the diff of the two lists the board stands for: for each list what the caller lacks, in order, and what it has besides. |
| BoardMachine.PlainFirstPull | server/src/libs/state.rs:249-264 | Asked with no ids, the plain history answers with its current edits as current and its undone edits as undone, and deletes nothing. |
| BoardMachine.PullFills | server/src/libs/state.rs:151-170 | A pull leaves the cache holding what the table reads as, with the time of the pull; table and log stay. |
| BoardMachine.WriteBehind | server/src/libs/state.rs:275-289 | In every run of calls whose operations the log has room for and that empties no list, the table is the one the run started with and the log gains exactly the operations in order. |
| BoardMachine.Overflow | server/src/libs/state.rs:278-288 | An operation that finds the log full executes the whole log on the table, drops the cache and starts a log of its own. |
| Edits.ValidEditIff | server/src/libs/state.rs:291-347 | An edit is valid if and only if every shape it lists, in all its lists, has no dimension above 10000 and no url above 65534 bytes, and an Add has a shape. |
| Boards.Board.Sync | server/src/libs/state.rs:278-286 | Draining the log through the database loop, in whatever order it writes, keeps the invariant and the board's history. |
| Boards.Board.PushEdit | server/src/libs/state.rs:275-347 | Passes if and only if no listed shape has a dimension above 10000 or a url above 65534 bytes and an Add has a shape; otherwise nothing changes. A passed edit becomes last of `current`; it joins the log, table and cache staying, while the log is below its size, and else the log is executed on the table and the edit is alone in the new log. |
| Boards.Board.ExecCommand | server/src/libs/state.rs:354-387 | An undo or redo adds one step to the history; it joins the log, table and cache staying, while the log is below its size, and else the log is executed on the table, the cache dropped and the operation alone in the new log. |
| Boards.Board.Pull | server/src/libs/state.rs:146-265 | The answer is the diff against the history the board stands for, the history is unchanged, and the cache is kept, or filled with what the table reads as. |
| Boards.Board.Empty | server/src/libs/state.rs:389-431 | The named list is emptied, the other one kept, whatever was still in the log. |
| Boards.Board.ClearDbCache | server/src/libs/state.rs:127-139 | The cache goes when it is older than the interval or the clock went backwards; the history is unchanged. |
| Boards.Board.SetTitle | server/src/libs/state.rs:433-444 | Titles of at most 36 bytes are taken, others rejected without a change. |
| Boards.Board.SetSize | server/src/libs/state.rs:446-459 | Sizes up to 10000 by 10000 are taken, others rejected without a change. |
| Boards.Board.Load | server/src/libs/state.rs:110-125 | A loaded board stands for what its rows read as. |
| Limits.ServerWithinLimits | server/src/libs/state.rs:291-347 | Over every run of a room from a history within the limits, every edit of both lists has no dimension above 10000, no url above 65534 bytes and, for an Add, a shape; so has every shape of the fold of the current edits. |
| Limits.ViewerWithinLimits | server/src/libs/state.rs:291-347 | Over every run a viewer sent drawable messages has no shape on its canvas outside those limits. |
| Sharing.OthersKeepView | server/src/libs/db_queue.rs:159-181 | Batches of other boards, written between two calls, leave a board's cache, log and rows as they were. |
| Sharing.FourOwned | server/src/entities/edit.rs:75-117 | The batches of a log that names ids of its own board name no others. |
| Sharing.SharedFlush | server/src/entities/edit.rs:119-185 | A flush whose batches are written among those of other boards leaves the board the view of its flush alone. |
| Sharing.SharedClear | server/src/libs/state.rs:389-431 | The same for emptying a list. |
| Sharing.SharedRepresents | server/src/libs/state.rs:127-431 | Writes of other boards do not disturb what a board stands for, its cache or its pending log. |
| Sharing.SharedRefines | server/src/libs/state.rs:127-431 | Whatever other boards write before, during and after its calls, a board answers every run as the plain history and ends standing for it. |
| Sharing.JointRefines | server/src/libs/db_queue.rs:159-181 | Many boards on one table: in every interleaving of their calls each board answers as its own two lists would, as if the others were not there. |
| SharedRooms.SharedViewerAgreement | server/src/libs/room.rs:106-482 | While other rooms write to the same table at any time, a room's board stands for the plain history of its messages and a viewer that has pulled holds its two lists. |
| DbQueues.DbQueue.Drain | server/src/libs/db_queue.rs:159-181 | Serving any ready channel with any number of its chunks, from the front and at most the item size at a time, writes exactly the waiting batches, each once, in some order. |
| DbQueues.DbQueue.Send | server/src/entities/edit.rs:126-182 | After the concurrent sends the channels hold what they held and exactly the non-empty batches of the flush. |
| DbQueues.DbQueue.SyncWithQueue | server/src/entities/edit.rs:119-185 | Whatever other rooms have waiting, the table becomes that of their batches and the flush's, each once, in some order, and nothing is left waiting. |
| ClientHistory.HistoryStore.AddCurrent | client/src/renderer/features/history.ts:20-22 | The edit becomes last of `current`. |
| ClientHistory.HistoryStore.Undo | client/src/renderer/features/history.ts:48-54 | The last current edit with the id, or the last one without an id, moves to the end of `undone`; otherwise nothing changes. |
| ClientHistory.HistoryStore.Redo | client/src/renderer/features/history.ts:55-61 | The last undone edit with the id, or the last one without an id, moves to the end of `current`; otherwise nothing changes. |
| ClientHistory.HistoryStore.RemoveCurrent | client/src/renderer/features/history.ts:26-31 | The reducer does nothing for the first edit, and removes the last one when the id is not found. |
| ClientHistory.HistoryStore.RemoveUndone | client/src/renderer/features/history.ts:32-37 | The reducer removes from `undone` at the index it finds in `current`. |
| ClientHistory.RemoveCurrentIff | client/src/renderer/features/history.ts:26-31 | It removes the edit with the id, and nothing else, if and only if that is not the first of the list, or the list is empty. |
| ClientHistory.RemoveUndoneIff | client/src/renderer/features/history.ts:32-37 | It removes the edit with the id, and nothing else, if and only if: an undone edit is the last of its list; a current edit is the first of its list or further on than `undone` is long; for any other id, nothing is undone. |
| ClientHistory.RemoveCurrentFails | client/src/renderer/features/history.ts:26-31 | A failing input: the only current edit stays. |
| ClientHistory.RemoveUndoneFails | client/src/renderer/features/history.ts:32-37 | A failing input: of two undone edits the first is to go, and the second goes. |
| RoomMachine.ValidCount | server/src/libs/room.rs:240-258 | A push message is taken up to its first invalid edit. |
| Viewers.PullSyncs | server/src/libs/room.rs:406-416 | A pull that lists what the replica holds makes the replica the server's lists, or keeps it so. |
| Viewers.BroadcastSyncs | server/src/libs/room.rs:213-333 | Each broadcast, folded with the reducers, does to a synchronised replica what its message did to the server's lists. |
| Viewers.NextSyncs | server/src/libs/room.rs:114-481 | One message keeps the board a picture of the plain history, every viewer's replica equal to it, and takes no replica away from a connected viewer. |
| Viewers.RoomRefines | server/src/libs/room.rs:106-482 | Over every run of the message loop the board stands for the plain history of its messages. |
| Viewers.ViewerAgreement | server/src/libs/room.rs:106-482 | Over every run, after every message, a viewer that has pulled holds exactly the two lists of the server, whatever was flushed or expired between. |
| Viewers.PushSyncsIff | server/src/libs/room.rs:213-269 | The guard on pushes is exact: a push keeps a viewer in step if and only if it is broadcast and valid throughout, or its first edit is already invalid. |
| Viewers.RunKeepsSize | server/src/libs/room.rs:334-376 | Every reachable size passes `validate_size`. |
| Viewers.SmallIntRoundTrip | server/src/entities/board.rs:106-128 | A new size is read back from the SMALLINT columns if and only if it fits them. |
| Viewers.UnloadReload | server/src/libs/room.rs:417-439 | A room stopped after any run and loaded again has the same lists, title and size and goes on standing for the same history. |
| ViewerSettings.NextTellsIff | server/src/libs/room.rs:148-376 | One message leaves a connected user with the room's title and size as the last ones received if and only if it is not the user's own valid change of them. |
| ViewerSettings.RunTells | server/src/libs/room.rs:106-482 | Over every run a user that changes neither was last sent the room's title and size, from its first message on. |
| RoomLaws.EndsIff | server/src/libs/room.rs:114-481 | After any message the loop goes on if and only if it is neither an expiry nor a question for users in a room without any. |
| RoomLaws.RunEndsIff | server/src/libs/room.rs:106-482 | A run of the loop has ended if and only if one of its messages ends it, and that can only be the last. |
| RoomLaws.EndWrites | server/src/libs/room.rs:417-475 | At the message that ends it, title and size are in the record if they fit its columns, the log is empty, the table reads as the plain history, and users, title and size are as before. |
| RoomLaws.HasUsersLaw | server/src/libs/room.rs:417-439 | Asked for users, a room with users is left exactly as it was and a room without any stops. |
| RoomLaws.JoinLaw | server/src/libs/room.rs:148-168 | A user that joins has a channel holding exactly size and title; the other channels, the board and the settings stay. |
| RoomLaws.QuitLaw | server/src/libs/room.rs:169-171 | A user that quits has no channel any more; everybody else keeps theirs, and all else stays. |
| RoomLaws.TitleLaw | server/src/libs/room.rs:173-212 | A title of at most 36 bytes becomes the title, goes to the record and to every channel but the sender's; a longer one changes nothing and only the sender is told. |
| RoomLaws.SizeLaw | server/src/libs/room.rs:334-376 | A size of at most 10000 by 10000 becomes the size and goes to every channel but the sender's, not yet to the record; any other changes nothing and only the sender is told. |
| RoomLaws.BroadcastLaw | server/src/libs/room.rs:270-333 | Commands and emptied lists go on to every channel but the sender's, and to no other place. |
| RoomLaws.PushLaw | server/src/libs/room.rs:213-269 | Pushes go on to the others in full when all are valid and not silent, to nobody when silent; with an invalid one only the sender is told. |
| RoomLaws.PullLaw | server/src/libs/room.rs:406-416 | Only the sender is sent one answer, the diff against the plain history; table and log stay and the cache is filled. |
| RoomLaws.ExpireCacheLaw | server/src/libs/room.rs:477-479 | Nothing but the cache can change, and it goes if and only if it was last used in the future or more whole seconds ago than its lifetime. |
| RoomLaws.EndReload | server/src/libs/room.rs:106-482 | However a run ended, the room spawned from the two tables has no users, the title and size it ended with, and stands for the plain history of all its messages. |
| RoomLaws.LoadDefaults | server/src/entities/board.rs:106-128 | A negative column is read as 900 for the height and 1720 for the width; others are read as they are. |
| Rooms.BoardTable.Update | server/src/entities/board.rs:74-104 | The row of the board takes title and size, or stays when a column would overflow; no row is added. |
| Rooms.Room.SendToEveryone | server/src/libs/room.rs:484-497 | Every channel but the excepted one gets the message appended; none is added or dropped. |
| Rooms.Room.SendById | server/src/libs/room.rs:499-505 | Only the named user's channel gets the message, and only if it exists. |
| Rooms.Room.PushAll | server/src/libs/room.rs:240-258 | The pushes of a message reach the board one by one up to the first invalid edit, which is reported. |
| Rooms.Room.HandlePush | server/src/libs/room.rs:213-269 | The state after a push message is a step of the room machine; silent and partly invalid pushes are not broadcast. |
| Rooms.Room.Stop | server/src/libs/room.rs:417-437 | Title, size and log are written to their tables and the loop ends. |
| Rooms.Room.HandleHasUsers | server/src/libs/room.rs:417-439 | The answer says whether there are users; with users nothing changes, without the room stops. |
| Rooms.Room.Handle | server/src/libs/room.rs:114-481 | Each modelled message takes the room through one step of the room machine and keeps the board standing for its plain history; the loop goes on unless the room expires or is found without users. |
| Rooms.Room.Task | server/src/libs/room.rs:106-482 | The loop handles messages in the order received until the first that expires the room or finds it without users, and all of them when there is none; its states form a run of the room machine. |
| Canvases.CancelUndoesApply | client/src/renderer/lib/EditManager.ts:89-179 | Cancelling a fitting edit takes the canvas back to what it was. |
| Canvases.ApplyUndoesCancel | client/src/renderer/lib/EditManager.ts:89-179 | Applying a cancelled edit again gives the canvas back. |
| Canvases.ChangesExactly | client/src/renderer/lib/EditManager.ts:89-132 | A fitting edit leaves a shape different if and only if it is one the edit changes. |
| Canvases.CancelInside | client/src/renderer/lib/EditManager.ts:134-179 | Cancelling an undoable edit gives the fold of the history without it, and the rest still fits. |
| Canvases.UndoableIf | client/src/renderer/lib/EditManager.ts:134-179 | Conversely, an edit that can be left out and would fit again at the end is undoable. |
| EditManagers.ApplyShows | client/src/renderer/lib/EditManager.ts:89-132 | On the layer's list of shapes a fitting edit is applied without an exception and shows the applied canvas. |
| EditManagers.CancelShows | client/src/renderer/lib/EditManager.ts:134-179 | Cancelling an applied edit on the layer raises no exception and shows the cancelled canvas. |
| EditManagers.ApplyThrowsIff | client/src/renderer/lib/EditManager.ts:89-132 | On a layer without doubled shapes, applying throws if and only if an Add has no shape, or a shape to be removed is missing or listed twice, or a shape to be modified is missing. |
| EditManagers.CancelThrowsIff | client/src/renderer/lib/EditManager.ts:134-179 | Cancelling throws if and only if an Add has no shape or its shape is missing, or a shape to be changed back is missing; never for a Remove. |
| EditManagers.SetAllStops | client/src/renderer/lib/EditManager.ts:112-130 | When a modification throws, the shapes before the first missing one are changed and no others. |
| EditManagers.DestroyAllStops | client/src/renderer/lib/EditManager.ts:104-110 | When a removal throws, the shapes before the first missing one are gone and no others. |
| EditManagers.UndoLastSound | client/src/renderer/lib/EditManager.ts:61-73 | Undoing without an id keeps the canvas the fold of `current`, and moves what the reducer moves. |
| EditManagers.RedoLastSound | client/src/renderer/lib/EditManager.ts:75-87 | Redoing without an id keeps the canvas the fold of `current`, and moves what the reducer moves. |
| EditManagers.UndoByIdIff | client/src/renderer/lib/EditManager.ts:61-73 | The whole state: undoing by id moves the named edit, keeps the canvas the fold and leaves all other edits, undone ones too, fitting, if and only if there is no such edit, or the canvas shows its shapes as it left them and no later edit concerns a shape it changed. |
| Canvases.CancelInsideIff | client/src/renderer/lib/EditManager.ts:134-179 | Cancelling any edit gives the fold of the history without it if and only if each of its shapes that a later edit concerns is shown as it was before the edit. |
| EditManagers.CancelCleanIff | client/src/renderer/lib/EditManager.ts:134-179 | On the layer, cancelling raises no exception and doubles no shape if and only if the shapes it looks for are there and those it adds are not. |
| EditManagers.UndoByIdDrawsIff | client/src/renderer/lib/EditManager.ts:61-73 | The canvas alone: undoing by id moves the edit, raises no exception, doubles no shape and leaves the canvas the fold of `current` if and only if there is no such edit, or no later edit concerns its shapes, or it is a modification and those shapes that later edits concern are shown as before it. |
| EditManagers.UndoByIdDrawsOnly | client/src/renderer/lib/EditManager.ts:61-73 | An input that separates the two: a shape is changed and changed back, and the first change is undone by id; the canvas is right, the second change no longer fits. |
| EditManagers.UndoByIdDiverges | client/src/renderer/lib/EditManager.ts:61-73 | A failing input for the canvas: a shape is added and modified, and the adding edit is undone by id; the canvas is empty, the fold is not. |
| Canvases.ConsistentIff | client/src/renderer/board/canvas/native/runCommand.ts:106-107 | Undone edits still fit after one more edit if and only if that edit changes no shape that one of them concerns. |
| EditManagers.NewEditIff | client/src/renderer/board/canvas/native/runCommand.ts:106-107 | A new edit that fits is drawn and recorded, and the state stays sound, undone edits redoable, if and only if none of the undone edits concerns a shape that it changes. |
| EditManagers.DeleteThenRedoThrows | client/src/renderer/board/canvas/native/runCommand.ts:91-118 | A failing input: deleting a shape does not drop an undone modification of it, and the redo finds no shape and throws, leaving both lists as they were. |
| EditManagers.EmptyCurrentIff | client/src/renderer/board/canvas/share/handleMessage.ts:45-50 | The handler of emptied current edits leaves the canvas as it is: right if and only if those edits fold to an empty canvas. |
| EditManagers.EmptyCurrentDiverges | client/src/renderer/board/canvas/share/handleMessage.ts:45-50 | A failing input: one added shape stays on the canvas. |
| EditManagers.CanvasIsFold | client/src/renderer/lib/EditManager.ts:57-179 | Over every run of dropping undone edits, new edits that fit and change no shape of an undone edit, undos and redos, and undos by id of undoable edits, the canvas is the fold of `current`. |
| EditManagers.UndoRedoRestores | client/src/renderer/lib/EditManager.ts:61-87 | n undos and then n redos, n at most the length of `current`, restore both lists and the canvas. |
| EditManagers.RedoByIdIff | client/src/renderer/lib/EditManager.ts:75-87 | Redoing by id records the named edit if and only if it was undone last, or there is none to move. |
| EditManagers.RedoByIdDiverges | client/src/renderer/lib/EditManager.ts:84-84 | A concrete state in which redoing by id draws one edit and records another, so the canvas is no longer the fold. |
| EditManagers.EditManager.ApplyEdit | client/src/renderer/lib/EditManager.ts:89-132 | The in-place changes of the layer, up to the first missing shape, are those of the specification. |
| EditManagers.EditManager.CancelEdit | client/src/renderer/lib/EditManager.ts:134-179 | The in-place changes of the layer, up to the first missing shape, are those of the specification. |
| EditManagers.EditManager.Rebase | client/src/renderer/lib/EditManager.ts:57-59 | The undone edits go, the layer stays. |
| EditManagers.EditManager.NewEdit | client/src/renderer/board/canvas/native/runCommand.ts:106-107 | A new edit is applied to the layer and becomes last of `current`; when applying throws, both lists stay. |
| EditManagers.EditManager.Undo | client/src/renderer/lib/EditManager.ts:61-73 | Layer and store change as the specification of an undo says, by id or without; when cancelling throws, both lists stay. |
| EditManagers.EditManager.Redo | client/src/renderer/lib/EditManager.ts:75-87 | Layer and store change as the specification of a redo says; the store is never given the id, and when applying throws, both lists stay. |
| Stacking.CancelStacksIff | client/src/renderer/lib/EditManager.ts:134-179 | Order of the shapes: cancelling an undoable edit leaves the layer that drawing the other edits afresh gives, shape for shape and in order, if and only if the edit is no removal, or what it removed lies on top of that layer in the listed order. |
| Stacking.UndoStacksIff | client/src/renderer/lib/EditManager.ts:61-73 | The same for an undo, by id or without. |
| Stacking.ActStacksIff | client/src/renderer/lib/EditManager.ts:57-87 | One permitted action of the manager (as in `CanvasIsFold`) keeps its layer the freshly drawn one if and only if it is no such undo of a removal from below. |
| Stacking.LayerIsStack | client/src/renderer/lib/EditManager.ts:57-179 | Over every run without such an undo the layer is the freshly drawn one, order included. |
| Stacking.LateViewerIff | client/src/renderer/board/canvas/share/handlePull.ts:12-21 | A viewer that joins and pulls the manager's lists has its layer, shapes and order, if and only if that layer is the freshly drawn one. |
| Stacking.LateViewerDiverges | client/src/renderer/lib/EditManager.ts:148-156 | A failing input: two shapes, the lower one is removed and the removal undone; it now lies on top for the editor and below for a viewer that joins. |
| Stacking.ViewerStays | client/src/renderer/board/canvas/share/handleMessage.ts:31-50 | A viewer that has the editor's layer, order included, still has it after each message of the editor. |
| ViewerCanvases.HandlePush | client/src/renderer/board/canvas/share/handlePush.ts:6-16 | Each pushed edit is recorded and drawn in order, up to the first that cannot be drawn. |
| ViewerCanvases.HandlePull | client/src/renderer/board/canvas/share/handlePull.ts:12-29 | Created edits are recorded and drawn, undone ones recorded, then the deletions are dispatched and cancelled, all as the handlers and reducers do it, up to the first exception. |
| ViewerCanvases.PushThrows | client/src/renderer/board/canvas/share/handlePush.ts:6-16 | The edit whose drawing throws is recorded already, and none after it is recorded or drawn. |
| ViewerCanvases.PullDeletesIff | client/src/renderer/board/canvas/share/handlePull.ts:22-29 | From a sound state, a pull that deletes one current edit removes it alone, without an exception and with the canvas the fold of the rest, if and only if it is not the first of the list and meets the condition of `EditManagers.UndoByIdDrawsIff`: no later edit concerns its shapes, or it is a modification and those that later edits concern are shown as before it. |
| ViewerCanvases.PullDeletesMissing | client/src/renderer/board/canvas/share/handlePull.ts:22-29 | A pull that deletes an edit the client does not have removes the last current edit from the list and then throws. |
| ViewerCanvases.ShowFollows | client/src/renderer/board/canvas/share/handleMessage.ts:31-50 | One drawable message raises no exception, keeps the manager's lists equal to the replica and the canvas the fold of its current edits. |
| CanvasRuns.NextTracks | server/src/libs/room.rs:114-481 | One message of the room, drawable for a viewer in step, keeps what the viewer has drawn equal to its replica and its fold; the answer to an honest pull deletes nothing. |
| CanvasRuns.ViewerDrawsServer | server/src/libs/room.rs:106-482 | Over every run of a room in which a viewer joins, pulls honestly and is sent drawable messages: what its handlers have drawn since its first pull is the fold of the edits the server holds as current. |
| EditorRuns.EditorFollows | client/src/renderer/lib/EditManager.ts:44-87 | What an editor sends for a new edit, an undo, a redo or dropped undone edits does to the server's lists what the editor did to its own, and viewers can draw it. |
| EditorRuns.ViewerDrawsEditor | server/src/libs/room.rs:106-482 | One editor acting through its manager, any number of viewers and any other messages: after every run each viewer that has pulled shows the editor's canvas, and both are the fold of the edits the server holds as current. |
| Slabs.AddHolds | client/src/renderer/lib/protocol/protocol_bg.js:116-123 | An add returns a handle that was not live, changes nothing under live handles and keeps the free list a chain. |
| Slabs.DropHolds | client/src/renderer/lib/protocol/protocol_bg.js:15-19 | Dropping a live handle keeps the free list a chain over exactly the slots that are not live. |
| Slabs.DropIff | client/src/renderer/lib/protocol/protocol_bg.js:15-19 | A drop of a slot at or above 132 keeps the slab well formed, for any live map and free list, if and only if the handle is live. |
| Slabs.SecondDropCycles | client/src/renderer/lib/protocol/protocol_bg.js:15-19 | After a second drop the chain can only go round to the slot again, so no end is reached. |
| Slabs.StepHolds | client/src/renderer/lib/protocol/protocol_bg.js:7-25 | One add, drop or take does to a finite map what its name says, and a take returns the value last added under the handle. |
| Slabs.RunHolds | client/src/renderer/lib/protocol/protocol_bg.js:7-25 | In every reachable state the chain visits distinct slots at or above 132 and ends at the heap's length, and every other slot there is live. |
| Slabs.HeapSlab.constructor | client/src/renderer/lib/protocol/protocol_bg.js:7-13 | The heap starts with 132 slots, 128 undefined and then undefined, null, true and false, and the next handle is 132. |
| Slabs.AddAllHolds | client/src/renderer/lib/protocol/protocol_bg.js:228-236 | Adding a list gives distinct new handles, each with its value. |
| Slabs.PassAndGetBack | client/src/renderer/lib/protocol/protocol_bg.js:217-236 | Passing a list of values and getting it back returns the same list and leaves the same handles live with the same values. |
| Slabs.HeapSlab.AddHeapObject | client/src/renderer/lib/protocol/protocol_bg.js:116-123 | The variables change in place so that the live map gains the new handle. |
| Slabs.HeapSlab.TakeObject | client/src/renderer/lib/protocol/protocol_bg.js:7-25 | Below 132 the constant is returned: undefined up to 128, null at 129, true at 130, false at 131; above, the live value is returned and the handle is live no longer. |
| Slabs.HeapSlab.PassArrayJsValueToWasm0 | client/src/renderer/lib/protocol/protocol_bg.js:228-236 | The written words are distinct new handles of the listed values, no other word changes, and the vector length is the list's. |
| Slabs.HeapSlab.GetArrayJsValueFromWasm0 | client/src/renderer/lib/protocol/protocol_bg.js:217-226 | The result is the list of values under the words, and exactly those handles are live no longer. |
| Utf8Strings.EncodeFits | client/src/renderer/lib/protocol/protocol_bg.js:100-106 | Three bytes for each remaining code unit are always enough room. |
| Utf8Strings.RoomIsTight | client/src/renderer/lib/protocol/protocol_bg.js:104-104 | For every length some string fills that room, so no smaller factor would do. |
| Utf8Strings.AsciiPrefix | client/src/renderer/lib/protocol/protocol_bg.js:94-98 | Code units up to 0x7F are their own encoding, whatever follows. |
| Utf8Strings.LoneSurrogate | client/src/renderer/lib/protocol/protocol_bg.js:60-75 | A surrogate without its partner is encoded as EF BF BD wherever it stands, and the rest of the string as by itself. |
| Utf8Strings.KnownEncoding | client/src/renderer/lib/protocol/protocol_bg.js:60-75 | The first example of section 7 of RFC 3629, with one, two and three bytes for a code unit. |
| Utf8Strings.KnownPair | client/src/renderer/lib/protocol/protocol_bg.js:60-75 | The last example of that section, with four bytes for a surrogate pair. |
| Utf8Strings.DecodeOfEncoded | client/src/renderer/lib/protocol/protocol_bg.js:60-75 | Reading the encoding of any scalar values (section 4 of RFC 3629) gives them back. |
| Utf8Strings.EncodeOfDecoded | client/src/renderer/lib/protocol/protocol_bg.js:60-75 | Bytes that can be read are the one encoding of what is read. |
| Utf8Strings.ReadBackIff | client/src/renderer/lib/protocol/protocol_bg.js:77-114 | The receiver reads the string's scalar values, lone surrogates as U+FFFD, and gets the string itself if and only if no surrogate is alone. |
| Utf8Strings.EncodeInto | client/src/renderer/lib/protocol/protocol_bg.js:64-67 | Whole scalar values are written while they fit; what is written and what is left make up the whole encoding; no byte outside changes. |
| Utf8Strings.StringPasser.EncodeString | client/src/renderer/lib/protocol/protocol_bg.js:64-75 | With enough room both platform variants write the whole encoding; without, the copying one throws and writes nothing. |
| Utf8Strings.StringPasser.PassStringToWasm0 | client/src/renderer/lib/protocol/protocol_bg.js:77-114 | By either path the block handed over is exactly the encoding of the whole string and the vector length is its length. |

## Left out

- Boards.Board.PushEdit: assumes a fresh id and a later time for a valid edit, because the ids are UUIDs and the model has a logical clock.
- Boards.Board.ExecCommand: assumes the command has something to do, because the claim fails otherwise; `LogTransparency.LogTransparentIff` gives the exact condition for whole logs.
- EditStores.EditStore.Create: a row per edit id, so a second `COPY` of a stored id, which adds a second row, is not modelled; with fresh pushes there is none.
- DbQueues.DbQueue.SyncWithQueue: also waits for what other rooms have waiting; the source waits for its own batches only.
- Boards.Board.Sync: the board object starts from empty channels; writes of other rooms before, between and after its own are in `Sharing` and `SharedRooms`, on states.
- Boards.Board.Empty: the same.
- Boards.Board.Load: the same.
- ViewerCanvases.ShowFollows: pulls with deletions are not drawable, because the reducers for them remove the wrong edit except as `ClientHistory.RemoveCurrentIff` and `ClientHistory.RemoveUndoneIff` say; a viewer in step receives none. `ViewerCanvases.PullDeletesIff` says what one deletion does. `Pulls.ApplyDiff` is a specification of what a pull is for.
- Viewers.ViewerAgreement: the replica redoes by the message's id, while the handler (`handleMessage.ts:42`) calls `EditManager.redo`, which drops it (`EditManager.ts:84`); the two agree exactly as `EditManagers.RedoByIdIff` says, and `CanvasRuns.ViewerDrawsServer` is about the handler.
- Utf8Strings.StringPasser.PassStringToWasm0: a block of memory is an array of its own; addresses, alignment and the caching of memory views are not modelled.
- Slabs.HeapSlab.PassArrayJsValueToWasm0: the address comes from the caller, as `malloc` would give it, and the heap stays below 2^32 slots.
- SQL text, CSV files, Postgres, its failures and time-outs: statements on a map that succeed, except that a size too large for its column fails the update.
- WebSockets, HTTP routes, tokens and cookies: the messages for authentication, co-editor tokens and room deletion are not part of this model.
- Parsing of UUIDs and edits that carry no variant: an id is only compared.
- NaN and the rounding of attributes: sizes of shapes are real numbers and other attributes one opaque value.
- Titles: bytes, without the quoting of the SQL statement.
- Clock ties, and the single stamp that all edits of a newly created room share: the order of such a read is not determined.
- Several concurrent editors: a sender is excluded from its own broadcasts, so one editor and its viewers are covered; nor are broadcasts that cross a pull in flight.
- Silent and partly invalid pushes in runs of viewers: `Viewers.PushSyncsIff` says exactly when one keeps a viewer in step.
- EditManagers.EditManager.NewEdit: draws the edit itself, as deleting and inserting do; drawing with a tool and transforming change the layer through the canvas library first and record the edit when the mouse is released (`mouseUpLeave.ts:79-92`, `shapeChange.ts:71-82`).
- Caching of shapes and the renaming of attributes. The order of shapes is on the layer and in `Stacking`; the canvas of the other results is a map from shape id to shape.
- Shutting down and loading one board twice at the same time: one live room for each board.
- The operation mode without persistence, pagination, localization, files and export.
- Generated getters and setters and text decoding in the glue.
