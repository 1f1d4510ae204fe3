# Cold Crayon room hub, modelled in Dafny

This project models `WebSocketHandler`, the WebSocket hub of the Cold Crayon
drawing-game back end. Players connect to `/…/<roomId>`. The handler does five things:

- It keeps a registry from room id to the room's sessions.
- It seeds one process-wide room-information map on the first connection it ever sees.
- It dispatches each inbound JSON envelope on its `type` field: join, chat, draw,
  capacity and admin changes, game settings, game start, round timing and game over.
- Most branches answer by looping over the room's sessions and sending to the open ones;
  `roundTime`, `timeStart` and an unrecognised `type` send nothing.
- It ranks players for the game-over message with a stable sort by score, highest first.

The room, game and auth services are oracles: a `Services` value holds total
functions from request to reply. Which sessions are open is an input of every
event (`open: set<Session>`). Every send is appended to one outbox log of
`Delivery(session, message)`.

An event that throws in the source (a null `type`, a number that does not
parse, a `put` of a null value, a close by a session that never joined)
returns `ok == false`. The state is then as it stood when the source threw.

| file | module | models |
|---|---|---|
| room_path.dfy | RoomPath | `extractRoomId` and `String.lastIndexOf` |
| java_numbers.dfy | JavaNumbers | `Integer.parseInt`, `Long.valueOf`, `String.valueOf(int)` |
| registry.dfy | Registry | `sessionsMap`: register and unregister, the open-session filter, the registry invariant |
| protocol.dfy | Protocol | envelopes, the `type` routing table, outbound messages, the outbox and per-session inboxes |
| round_timer.dfy | RoundTimer | the countdown `Runnable` and its scheduler, one tick at a time and as a whole run |
| leaderboard.dfy | Leaderboard | the `gameOver` comparator, stable sort and key projection |
| handler.dfy | Handler | the handler class: fields, invariant, the connect and close callbacks and every dispatcher branch |

The model follows the code as written:

- The join tag is `userIn` and the capacity tag is `changeMax`.
- `changeGameType` stores its value under the key `changeGameType`; the seeded `gameCategory` key keeps its value.
- `gameTurn` writes the key `gameTurn`, while initialisation seeds `roomTurn`.
- Room information is seeded once per handler, by whichever room connects first.
  Every room then shares that one map (`Handler.ConnectTwoRooms`).
- Malformed numeric fields are the exception path the code takes (`ok == false`), not a precondition.

## Model

| member | source | states |
|---|---|---|
| RoomPath.LastIndexOf | back-end/coldcrayon/src/main/java/com/sevenight/coldcrayon/config/WebSocketHandler.java:673 | `String.lastIndexOf(char)`: an index of the string or -1; `LastIndexOfIsLast` states that it is the last occurrence, and -1 exactly when there is none |
| RoomPath.LastIndexOfIsLast | back-end/coldcrayon/src/main/java/com/sevenight/coldcrayon/config/WebSocketHandler.java:673 | `lastIndexOf` returns an index holding the character with none after it, and -1 exactly when the character is absent |
| RoomPath.ExtractRoomIdIsLastSegment | back-end/coldcrayon/src/main/java/com/sevenight/coldcrayon/config/WebSocketHandler.java:671-674 | the room id is a suffix of the path with no '/', the whole path when it has no '/', and otherwise preceded by '/' |
| RoomPath.ExtractRoomId | back-end/coldcrayon/src/main/java/com/sevenight/coldcrayon/config/WebSocketHandler.java:671-674 | `extractRoomId`: the text after the path's last '/'; `ExtractRoomIdIsLastSegment` and `ExtractRoomIdOfJoinedPath` state what that is |
| RoomPath.ExtractRoomIdOfJoinedPath | back-end/coldcrayon/src/main/java/com/sevenight/coldcrayon/config/WebSocketHandler.java:671-674 | a path `prefix/id` with no '/' in `id` addresses room `id` whatever the prefix |
| JavaNumbers.ParseSigned | back-end/coldcrayon/src/main/java/com/sevenight/coldcrayon/config/WebSocketHandler.java:210 | a parsed value lies in the type's range and the text ends in a digit, so an empty text or a lone sign takes the exception path |
| JavaNumbers.ParseInt | back-end/coldcrayon/src/main/java/com/sevenight/coldcrayon/config/WebSocketHandler.java:369 | `Integer.parseInt` succeeds only on a non-null text and yields a 32-bit value |
| JavaNumbers.ParseLong | back-end/coldcrayon/src/main/java/com/sevenight/coldcrayon/config/WebSocketHandler.java:486 | `Long.valueOf` succeeds only on a non-null text and yields a 64-bit value |
| JavaNumbers.NatDigits | back-end/coldcrayon/src/main/java/com/sevenight/coldcrayon/config/WebSocketHandler.java:441 | the digits of a natural number are non-empty decimal digits with no leading zero that read back as the number |
| JavaNumbers.DecimalString | back-end/coldcrayon/src/main/java/com/sevenight/coldcrayon/config/WebSocketHandler.java:441 | `String.valueOf` starts with a digit exactly for non-negative values |
| JavaNumbers.ParseDecimalString | back-end/coldcrayon/src/main/java/com/sevenight/coldcrayon/config/WebSocketHandler.java:441 | parsing the tick text `String.valueOf(n)` gives `n` back for every value in range |
| Registry.Lookup | back-end/coldcrayon/src/main/java/com/sevenight/coldcrayon/config/WebSocketHandler.java:107 | `sessionsMap.getOrDefault(roomId, emptyList)`: a room's sessions, empty for a room without a key; `Register`, `Unregister` and `UnregisterUndoesRegister` state how connecting and closing change it |
| Registry.Register | back-end/coldcrayon/src/main/java/com/sevenight/coldcrayon/config/WebSocketHandler.java:88-90 | connecting appends the session to the end of its room's list, creating the room if absent, and leaves every other room's list as it was |
| Registry.FirstIndex | back-end/coldcrayon/src/main/java/com/sevenight/coldcrayon/config/WebSocketHandler.java:645 | the index `List.remove` searches for is the first occurrence of the session, or the length when it is absent |
| Registry.SpliceMultiset | back-end/coldcrayon/src/main/java/com/sevenight/coldcrayon/config/WebSocketHandler.java:645 | cutting one element out of a list removes one copy of it and nothing else |
| Registry.RemoveFirst | back-end/coldcrayon/src/main/java/com/sevenight/coldcrayon/config/WebSocketHandler.java:645 | `List.remove` splices out the first occurrence, keeping the order of the rest, and leaves the list unchanged when the session is absent |
| Registry.DistinctTail | back-end/coldcrayon/src/main/java/com/sevenight/coldcrayon/config/WebSocketHandler.java:645 | a duplicate-free list does not repeat its head, and its tail is duplicate-free |
| Registry.Unregister | back-end/coldcrayon/src/main/java/com/sevenight/coldcrayon/config/WebSocketHandler.java:643-649 | closing removes the session from its room's list, the room's key goes exactly when the list becomes empty, and other rooms are untouched |
| Registry.RemoveFirstDistinct | back-end/coldcrayon/src/main/java/com/sevenight/coldcrayon/config/WebSocketHandler.java:645 | removing a session from a duplicate-free list leaves it absent and the list duplicate-free |
| Registry.UnregisterUndoesRegister | back-end/coldcrayon/src/main/java/com/sevenight/coldcrayon/config/WebSocketHandler.java:643-649 | closing a session right after connecting it restores the registry exactly |
| Registry.RemoveLast | back-end/coldcrayon/src/main/java/com/sevenight/coldcrayon/config/WebSocketHandler.java:645 | removing a session just appended to a list that lacked it gives the list back |
| Registry.OpenSessions | back-end/coldcrayon/src/main/java/com/sevenight/coldcrayon/config/WebSocketHandler.java:188-191 | the sessions a broadcast reaches are at most the room's sessions |
| Registry.OpenSessionsMembers | back-end/coldcrayon/src/main/java/com/sevenight/coldcrayon/config/WebSocketHandler.java:188-191 | a broadcast reaches exactly the room's open sessions and skips exactly the closed ones |
| Registry.OpenSessionsAppend | back-end/coldcrayon/src/main/java/com/sevenight/coldcrayon/config/WebSocketHandler.java:188-191 | the broadcast loop keeps list order: filtering distributes over concatenation |
| Registry.OpenSessionsSnoc | back-end/coldcrayon/src/main/java/com/sevenight/coldcrayon/config/WebSocketHandler.java:188-191 | one more session at the end of the list is reached exactly when it is open |
| Registry.OpenSessionsExtremes | back-end/coldcrayon/src/main/java/com/sevenight/coldcrayon/config/WebSocketHandler.java:188-191 | with every session open the broadcast reaches the whole list in order, with none open it reaches nobody |
| Registry.OpenSessionsCount | back-end/coldcrayon/src/main/java/com/sevenight/coldcrayon/config/WebSocketHandler.java:188-191 | with K open sessions among K + M, the loop sends K messages and skips M |
| Registry.ClosedSessions | back-end/coldcrayon/src/main/java/com/sevenight/coldcrayon/config/WebSocketHandler.java:188-191 | the skipped sessions are at most the room's sessions |
| Registry.LastSessionLeaves | back-end/coldcrayon/src/main/java/com/sevenight/coldcrayon/config/WebSocketHandler.java:643-649 | when a room's only session closes, the room is gone and later broadcasts to it reach nobody |
| Registry.RegisterKeepsWellKeyed | back-end/coldcrayon/src/main/java/com/sevenight/coldcrayon/config/WebSocketHandler.java:88-90 | connecting a session not yet in its room keeps every listed room non-empty, duplicate-free and holding only its own sessions |
| Registry.RemoveFirstKeepsRoom | back-end/coldcrayon/src/main/java/com/sevenight/coldcrayon/config/WebSocketHandler.java:645 | what remains of a room's list after a removal is still a valid list for that room |
| Registry.UnregisterKeepsWellKeyed | back-end/coldcrayon/src/main/java/com/sevenight/coldcrayon/config/WebSocketHandler.java:643-649 | closing keeps the registry invariant |
| Protocol.Field | back-end/coldcrayon/src/main/java/com/sevenight/coldcrayon/config/WebSocketHandler.java:114 | a field lookup gives the value exactly when the key is present, null otherwise |
| Protocol.Route | back-end/coldcrayon/src/main/java/com/sevenight/coldcrayon/config/WebSocketHandler.java:165-559 | the `type` chain selects the branch whose tag has that name, and no branch when no tag has it |
| Protocol.RouteTagName | back-end/coldcrayon/src/main/java/com/sevenight/coldcrayon/config/WebSocketHandler.java:165-559 | every tag routes to its own branch, so no two branches share a name |
| Protocol.TypeTag | back-end/coldcrayon/src/main/java/com/sevenight/coldcrayon/config/WebSocketHandler.java:114 | the branch the `type` field selects: none for a missing field, and otherwise `Route` of its text, so the tag named by that text or none; `DispatchWithoutType` and `DispatchUnknownType` state what the two kinds of none do |
| Protocol.Deliveries | back-end/coldcrayon/src/main/java/com/sevenight/coldcrayon/config/WebSocketHandler.java:188-191 | sending to a list of targets makes one delivery per target, in order |
| Protocol.DeliveriesAppend | back-end/coldcrayon/src/main/java/com/sevenight/coldcrayon/config/WebSocketHandler.java:188-191 | sending to two lists in turn is sending to their concatenation |
| Protocol.DeliveriesSnoc | back-end/coldcrayon/src/main/java/com/sevenight/coldcrayon/config/WebSocketHandler.java:188-191 | sending to one more target appends one delivery |
| Protocol.Inbox | back-end/coldcrayon/src/main/java/com/sevenight/coldcrayon/config/WebSocketHandler.java:188-191 | a session's inbox holds at most the messages of the log |
| Protocol.InboxAppend | back-end/coldcrayon/src/main/java/com/sevenight/coldcrayon/config/WebSocketHandler.java:188-191 | a session's inbox of two logs in turn is the concatenation of its inboxes |
| Protocol.BroadcastInbox | back-end/coldcrayon/src/main/java/com/sevenight/coldcrayon/config/WebSocketHandler.java:188-191 | in a duplicate-free room a broadcast gives each open member exactly one copy and every other session nothing |
| RoundTimer.Descending | back-end/coldcrayon/src/main/java/com/sevenight/coldcrayon/config/WebSocketHandler.java:433-458 | a countdown from n emits max(n, 0) values, the i-th being n - i |
| RoundTimer.DescendingShape | back-end/coldcrayon/src/main/java/com/sevenight/coldcrayon/config/WebSocketHandler.java:433-458 | every emitted value is positive and at most n, and the values strictly decrease |
| RoundTimer.DescendingSplit | back-end/coldcrayon/src/main/java/com/sevenight/coldcrayon/config/WebSocketHandler.java:433-458 | the emitted values split at any tick k into those before k, k itself, and a countdown from k - 1 |
| RoundTimer.Countdown.constructor | back-end/coldcrayon/src/main/java/com/sevenight/coldcrayon/config/WebSocketHandler.java:434 | the task starts running with `time` equal to the room's round time |
| RoundTimer.Countdown.Fire | back-end/coldcrayon/src/main/java/com/sevenight/coldcrayon/config/WebSocketHandler.java:437-458 | a run with time left emits `time` and decrements it; a run at zero or below shuts down; after shutdown nothing runs |
| RoundTimer.RunCountdown | back-end/coldcrayon/src/main/java/com/sevenight/coldcrayon/config/WebSocketHandler.java:433-462 | running the task until the scheduler shuts down emits exactly `Descending(roundTime)` |
| Leaderboard.CompareInts | back-end/coldcrayon/src/main/java/com/sevenight/coldcrayon/config/WebSocketHandler.java:527 | `Integer.compareTo` is -1, 0 or 1 with the sign of the difference |
| Leaderboard.CompareByScoreDesc | back-end/coldcrayon/src/main/java/com/sevenight/coldcrayon/config/WebSocketHandler.java:526-528 | the comparator puts the higher score first and ties at zero |
| Leaderboard.ComparatorContract | back-end/coldcrayon/src/main/java/com/sevenight/coldcrayon/config/WebSocketHandler.java:526-528 | the comparator is antisymmetric, transitive and consistent on ties, as `Collections.sort` requires |
| Leaderboard.WithScoreMembers | back-end/coldcrayon/src/main/java/com/sevenight/coldcrayon/config/WebSocketHandler.java:523-529 | the entries of one score are exactly the list's entries with that score |
| Leaderboard.WithScoreAppend | back-end/coldcrayon/src/main/java/com/sevenight/coldcrayon/config/WebSocketHandler.java:523-529 | selecting one score distributes over concatenation |
| Leaderboard.WithScoreCons | back-end/coldcrayon/src/main/java/com/sevenight/coldcrayon/config/WebSocketHandler.java:523-529 | selecting one score from a list with a new head keeps that head exactly when it has the score |
| Leaderboard.Insert | back-end/coldcrayon/src/main/java/com/sevenight/coldcrayon/config/WebSocketHandler.java:523-529 | one insertion step of the sort adds exactly one entry |
| Leaderboard.InsertPermutes | back-end/coldcrayon/src/main/java/com/sevenight/coldcrayon/config/WebSocketHandler.java:523-529 | an insertion adds the entry and loses nothing |
| Leaderboard.InsertSorted | back-end/coldcrayon/src/main/java/com/sevenight/coldcrayon/config/WebSocketHandler.java:523-529 | inserting into a list with non-increasing scores keeps the scores non-increasing |
| Leaderboard.InsertWithScore | back-end/coldcrayon/src/main/java/com/sevenight/coldcrayon/config/WebSocketHandler.java:523-529 | the inserted entry goes after every entry of equal score and disturbs no other score |
| Leaderboard.SortedTail | back-end/coldcrayon/src/main/java/com/sevenight/coldcrayon/config/WebSocketHandler.java:523-529 | the tail of a sorted list is sorted |
| Leaderboard.NoneWithScore | back-end/coldcrayon/src/main/java/com/sevenight/coldcrayon/config/WebSocketHandler.java:523-529 | a sorted list headed by a score below v holds no entry of score v |
| Leaderboard.SortedHeadIsHighest | back-end/coldcrayon/src/main/java/com/sevenight/coldcrayon/config/WebSocketHandler.java:523-529 | the head of a sorted list has the highest score |
| Leaderboard.HeadHasClass | back-end/coldcrayon/src/main/java/com/sevenight/coldcrayon/config/WebSocketHandler.java:523-529 | a non-empty list has an entry with its head's score |
| Leaderboard.SortedSameClassesEqual | back-end/coldcrayon/src/main/java/com/sevenight/coldcrayon/config/WebSocketHandler.java:523-529 | two sorted lists with the same entries of every score, in the same order, are equal |
| Leaderboard.SortByScore | back-end/coldcrayon/src/main/java/com/sevenight/coldcrayon/config/WebSocketHandler.java:523-529 | the sorted entries are a permutation of the index's entries with scores non-increasing |
| Leaderboard.SortByScoreStable | back-end/coldcrayon/src/main/java/com/sevenight/coldcrayon/config/WebSocketHandler.java:523-529 | the sort is stable: entries of equal score keep their original relative order |
| Leaderboard.StableSortUnique | back-end/coldcrayon/src/main/java/com/sevenight/coldcrayon/config/WebSocketHandler.java:523-529 | any sorted list that keeps each score's entries in their original order is the sort's result |
| Leaderboard.UserIds | back-end/coldcrayon/src/main/java/com/sevenight/coldcrayon/config/WebSocketHandler.java:531-534 | the projected ids are the sorted entries' keys, one per entry, in the same order |
| Leaderboard.SortedUserIds | back-end/coldcrayon/src/main/java/com/sevenight/coldcrayon/config/WebSocketHandler.java:531-534 | the projection loop produces exactly `UserIds` of the sorted entries |
| Leaderboard.RankingExampleFirstThree | back-end/coldcrayon/src/main/java/com/sevenight/coldcrayon/config/WebSocketHandler.java:523-534 | users 1, 2, 3 scoring 30, 90, 90 rank 2, 3, 1: the tie keeps arrival order |
| Leaderboard.RankingExample | back-end/coldcrayon/src/main/java/com/sevenight/coldcrayon/config/WebSocketHandler.java:523-534 | users 1, 2, 3, 4 scoring 30, 90, 90, 10 rank 2, 3, 1, 4 |
| Handler.KeyNameInjective | back-end/coldcrayon/src/main/java/com/sevenight/coldcrayon/config/WebSocketHandler.java:72-84 | the room-information keys have pairwise distinct names, so naming them by an enumeration loses nothing |
| Handler.SeedRoomInfo | back-end/coldcrayon/src/main/java/com/sevenight/coldcrayon/config/WebSocketHandler.java:72-84 | initialisation puts exactly ten keys, with `roundTime` = 100, `roomTurn` = 0, the id and the room service's values, and keeps every other key |
| Handler.SendToOpen | back-end/coldcrayon/src/main/java/com/sevenight/coldcrayon/config/WebSocketHandler.java:188-191 | the send loop delivers to exactly the open sessions of the list, in order |
| Handler.ConnectTwoRooms | back-end/coldcrayon/src/main/java/com/sevenight/coldcrayon/config/WebSocketHandler.java:93-101 | after two connections, even to two rooms, the shared room information is the first room's |
| Handler.Dispatch | back-end/coldcrayon/src/main/java/com/sevenight/coldcrayon/config/WebSocketHandler.java:105-560 | one inbound envelope's completion, participant records, room information, reply and countdown; `HandleTextMessage` is proved equal to it, and the `Dispatch` lemmas below state what it does branch by branch |
| Handler.Step | back-end/coldcrayon/src/main/java/com/sevenight/coldcrayon/config/WebSocketHandler.java:165-559 | the branch for a recognised tag; each branch method of the handler is proved equal to its tag's step, and `StepGameOver` states the `gameOver` one |
| Handler.Sent | back-end/coldcrayon/src/main/java/com/sevenight/coldcrayon/config/WebSocketHandler.java:188-191 | an outcome without a reply delivers nothing; one with a reply delivers it once to each session of the audience, in order |
| Handler.DispatchWithoutType | back-end/coldcrayon/src/main/java/com/sevenight/coldcrayon/config/WebSocketHandler.java:114 | an envelope without `type` throws at `type.equals` with no change, no message and no countdown |
| Handler.DispatchUnknownType | back-end/coldcrayon/src/main/java/com/sevenight/coldcrayon/config/WebSocketHandler.java:165-559 | a `type` that no branch tests for falls through the chain: it completes, changes nothing and sends nothing |
| Handler.DispatchFootprint | back-end/coldcrayon/src/main/java/com/sevenight/coldcrayon/config/WebSocketHandler.java:105-560 | only `userIn` writes a participant record; `chat`, `draw`, `changeMax`, `playerCnt`, `gameMode`, `gameTime`, `nextRound` and `roundOver` leave the room information alone; a countdown starts exactly on `timeStart`, from the stored round time, with nothing else changed or sent |
| Handler.DispatchThrowSendsNothing | back-end/coldcrayon/src/main/java/com/sevenight/coldcrayon/config/WebSocketHandler.java:105-560 | an exception sends nothing, starts no countdown and leaves the participant records and room information as they were, except the admin id `changeAdmin` stores before `Long.valueOf` throws |
| Handler.DispatchKeepsRoomInfoReady | back-end/coldcrayon/src/main/java/com/sevenight/coldcrayon/config/WebSocketHandler.java:105-560 | no branch removes the keys later branches read, and `roundTime` stays an integer |
| Handler.DispatchUserIn | back-end/coldcrayon/src/main/java/com/sevenight/coldcrayon/config/WebSocketHandler.java:165-192 | `userIn` adds or rewrites only the sender's record, with score 0 and the member's id, and leaves the room information alone |
| Handler.DispatchChangeAdmin | back-end/coldcrayon/src/main/java/com/sevenight/coldcrayon/config/WebSocketHandler.java:244-269 | `changeAdmin` completes exactly when the id parses as a `Long`, and stores the id text whether or not it parses |
| Handler.DispatchChangeGameType | back-end/coldcrayon/src/main/java/com/sevenight/coldcrayon/config/WebSocketHandler.java:271-291 | `changeGameType` completes exactly when the value is present, then writes only `changeGameType`, keeps `gameCategory` and announces the value |
| Handler.DispatchGameTurn | back-end/coldcrayon/src/main/java/com/sevenight/coldcrayon/config/WebSocketHandler.java:346-363 | `gameTurn` stores the current round under `gameTurn`, leaves `roomTurn` as seeded, and announces the round |
| Handler.DispatchRoundOver | back-end/coldcrayon/src/main/java/com/sevenight/coldcrayon/config/WebSocketHandler.java:485-511 | `roundOver` completes exactly when the winner id parses and the round summary lists no user, and then sends the summary typed `gameDto`; otherwise it sends nothing |
| Handler.StepGameOver | back-end/coldcrayon/src/main/java/com/sevenight/coldcrayon/config/WebSocketHandler.java:514-559 | `gameOver` marks the room Ready, sends the user ids ranked by score, and changes nothing else |
| Handler.RankingIdsDistinct | back-end/coldcrayon/src/main/java/com/sevenight/coldcrayon/config/WebSocketHandler.java:523-534 | `userScoreMap` is a map (line 49), so it holds no user id twice; then the sorted entries and the ranking `gameOver` sends name every user once |
| Handler.RoundTimeThenTimeStart | back-end/coldcrayon/src/main/java/com/sevenight/coldcrayon/config/WebSocketHandler.java:366-370 | a `roundTime` of n, sent as the text of n, is what the next `timeStart` counts down from |
| Handler.GameStartThenGameOver | back-end/coldcrayon/src/main/java/com/sevenight/coldcrayon/config/WebSocketHandler.java:373-399 | `gameStart` marks the room Playing and a later `gameOver` marks it Ready again, sending the ranking |
| Handler.WebSocketHandler.constructor | back-end/coldcrayon/src/main/java/com/sevenight/coldcrayon/config/WebSocketHandler.java:41-69 | a new handler has no sessions, users, room information or scores, and `flag` is false |
| Handler.WebSocketHandler.Broadcast | back-end/coldcrayon/src/main/java/com/sevenight/coldcrayon/config/WebSocketHandler.java:188-192 | a broadcast appends one delivery per open session of the room, in list order |
| Handler.WebSocketHandler.InitializeRoomInfo | back-end/coldcrayon/src/main/java/com/sevenight/coldcrayon/config/WebSocketHandler.java:72-84 | the ten puts leave the map as `SeedRoomInfo` of the old map |
| Handler.WebSocketHandler.AfterConnectionEstablished | back-end/coldcrayon/src/main/java/com/sevenight/coldcrayon/config/WebSocketHandler.java:87-101 | the session is registered; room information is seeded only while `flag` is false, `flag` is then true, and a later connection leaves the room information unchanged |
| Handler.WebSocketHandler.AfterConnectionClosed | back-end/coldcrayon/src/main/java/com/sevenight/coldcrayon/config/WebSocketHandler.java:563-666 | a session with no participant record throws before any change; otherwise it is unregistered, the room is dropped once empty, and the remaining open sessions get the departure notice |
| Handler.WebSocketHandler.HandleTextMessage | back-end/coldcrayon/src/main/java/com/sevenight/coldcrayon/config/WebSocketHandler.java:105-560 | every envelope's completion, participant records, room information, deliveries and countdown are exactly those of `Dispatch` on the state before it; the lemmas below state what that is branch by branch |
| Handler.WebSocketHandler.UserIn | back-end/coldcrayon/src/main/java/com/sevenight/coldcrayon/config/WebSocketHandler.java:165-192 | the session's participant record is rewritten with the member's nickname and id, score 0 and the raw token, and the join reply is broadcast |
| Handler.WebSocketHandler.Relay | back-end/coldcrayon/src/main/java/com/sevenight/coldcrayon/config/WebSocketHandler.java:194-205 | `chat` and `draw` send the inbound text unchanged to the open sessions of the room |
| Handler.WebSocketHandler.ChangeMax | back-end/coldcrayon/src/main/java/com/sevenight/coldcrayon/config/WebSocketHandler.java:208-242 | a capacity that does not parse throws before any effect; otherwise a "fail" verdict sends status and message, and any other verdict sends the updated room |
| Handler.WebSocketHandler.ChangeAdmin | back-end/coldcrayon/src/main/java/com/sevenight/coldcrayon/config/WebSocketHandler.java:244-269 | the admin id text is stored before it is parsed, so a bad id still changes the map; a null id throws with no change; a "fail" verdict sends the requester's nickname |
| Handler.WebSocketHandler.ChangeGameType | back-end/coldcrayon/src/main/java/com/sevenight/coldcrayon/config/WebSocketHandler.java:271-291 | the value is stored under `changeGameType` and announced; a null value throws with no change |
| Handler.WebSocketHandler.PlayerCnt | back-end/coldcrayon/src/main/java/com/sevenight/coldcrayon/config/WebSocketHandler.java:294-310 | the room service's occupancy is announced |
| Handler.WebSocketHandler.GameMode | back-end/coldcrayon/src/main/java/com/sevenight/coldcrayon/config/WebSocketHandler.java:312-327 | the room service's game category is announced |
| Handler.WebSocketHandler.GameTime | back-end/coldcrayon/src/main/java/com/sevenight/coldcrayon/config/WebSocketHandler.java:329-344 | the stored `roundTime` is announced |
| Handler.WebSocketHandler.GameTurn | back-end/coldcrayon/src/main/java/com/sevenight/coldcrayon/config/WebSocketHandler.java:346-363 | the room service's current round is stored under `gameTurn` and announced |
| Handler.WebSocketHandler.SetRoundTime | back-end/coldcrayon/src/main/java/com/sevenight/coldcrayon/config/WebSocketHandler.java:366-370 | `roundTime` becomes the parsed value, nothing is sent, and a value that does not parse throws with no change |
| Handler.WebSocketHandler.GameStart | back-end/coldcrayon/src/main/java/com/sevenight/coldcrayon/config/WebSocketHandler.java:373-399 | the status becomes Playing and the game service's reply to the stored category and round count is broadcast |
| Handler.WebSocketHandler.TimeStart | back-end/coldcrayon/src/main/java/com/sevenight/coldcrayon/config/WebSocketHandler.java:421-434 | a new running countdown starts from the stored `roundTime` for the sender's room |
| Handler.WebSocketHandler.NextRound | back-end/coldcrayon/src/main/java/com/sevenight/coldcrayon/config/WebSocketHandler.java:467-482 | the game service's next-round reply is broadcast |
| Handler.WebSocketHandler.RoundOver | back-end/coldcrayon/src/main/java/com/sevenight/coldcrayon/config/WebSocketHandler.java:485-511 | a winner id that does not parse throws before any effect; a round summary that lists a user throws in the score copy before the broadcast; otherwise the summary, typed `gameDto`, is broadcast |
| Handler.WebSocketHandler.GameOver | back-end/coldcrayon/src/main/java/com/sevenight/coldcrayon/config/WebSocketHandler.java:514-559 | the status becomes Ready and the user ids ranked by score, highest first with ties stable, are broadcast |
| Handler.WebSocketHandler.TimerFires | back-end/coldcrayon/src/main/java/com/sevenight/coldcrayon/config/WebSocketHandler.java:437-458 | a run with time left sends the remaining seconds as text to the room's open sessions and counts down; otherwise nothing is sent |

## Left out

- JSON encoding and decoding, and `TextMessage`. An envelope is its raw text plus the string map it parses to, and each outbound JSON shape is a `Message` variant. A payload that is not a JSON object of strings (an `ObjectMapper` failure) is not modelled.
- Socket I/O. `sendMessage` appends to the outbox. Its `IOException` is not modelled, and neither is the tick task's catch of it.
- What the services do. `joinRoom`, `changeMaxUser`, `changeAdminUser`, `startGame`, `nextRound`, `endRound`, `getRoom`, `selectOneMember` composed with `HeaderUtil.getAccessTokenString`, `findUser`, `outRoom`, `getUserList` and `webSocketCustomService.changeGameType` are foreign code. The model treats them as total functions that never throw or return null. Calls whose results the handler never uses (`outRoom`, `getUserList`, `changeGameType`) are dropped. So is the `findUser` call on close: its result only feeds `outRoom`, and the whole `findUser`-then-`outRoom` chain (lines 632-635) is left out.
- Logging.
- Threads and wall-clock time: the scheduler's one-second period, and the overlap of countdowns started by repeated `timeStart`. `Handler.WebSocketHandler.TimerFires` is one period of one countdown, called by whoever drives time.
- Thread safety of `ConcurrentHashMap` and `CopyOnWriteArrayList`. The model is sequential.
- Handler.WebSocketHandler.TimerFires: it sends to the room's current list in the registry. The source's task keeps the list object it saw at `timeStart`. The two differ only if that room's list is dropped and re-created while the countdown runs, or if the room had no list when the countdown started. In that last case the source's task sends to nobody.
- Handler.WebSocketHandler.GameOver: it broadcasts the ranked user ids. The source resolves each id through `userInfoMap` with a `Long` key (lines 542-543). That map is keyed by session-id strings, so the lookup finds nothing. The model does not follow that resolution, nor the null dereference it leads to.
- Handler.WebSocketHandler.RoundOver: the copy of the round's scores back into `userInfoMap` (lines 498-503) uses the same `Long`-keyed lookup, so it throws at the first listed user. The model takes that exception and does not model a copy that would succeed.
- The `userScoreMap.put` at line 178 stores a `UserInfo` in a `Map<Long, Integer>` and does not type-check. No modelled event writes `userScoreMap`. `gameOver` ranks whatever entries the index holds, in its iteration order.
- The commented-out code inside `handleTextMessage` and `afterConnectionClosed`: an earlier countdown and some logging.
- JavaNumbers.ParseSigned: accepts only ASCII digits. Java's parsers also accept other Unicode decimal digits.
- Handler.WebSocketHandler.HandleTextMessage: requires `flag`. Every envelope arrives on a session whose connection already set it, so this excludes no reachable call.
- Handler.WebSocketHandler.AfterConnectionEstablished: requires the session not yet listed in its room. Spring calls `afterConnectionEstablished` once per new session, so this excludes no real call.
- The branch methods (`Handler.WebSocketHandler.UserIn` to `Handler.WebSocketHandler.GameOver`): require the handler invariant and `flag`. They are reached only through `HandleTextMessage`, after a connection has set `flag`.
- Handler.WebSocketHandler.Relay: requires the envelope's `type` to be `chat` or `draw`, the only tags that reach it.
