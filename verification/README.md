# Verified model of the chess game server

The server keeps the users who are online and the games in progress in two hand-written linked lists,
mirrors part of them in a database, and changes both in message handlers run by worker threads. This
project models that state and its handlers in Dafny and proves what every run of them keeps.

`dafny verify dfyconfig.toml` checks all of it.

## How the model is built

- `Elo.dfy`: the rating arithmetic of `src/user/user.c` over exact reals, with C's truncation towards zero.
  `pow(10, r/400)` enters as any positive, strictly increasing weight, so all statements hold for it.
- `Entries.dfy`: keyed lists as values, and the proof that they behave as finite maps.
- `ServerSpec.dfy`: the server as a value (both lists, the user and room tables, claimed pairs, a journal of
  the rating transactions), one atomic `Step` per handler, and `Exec` for whole runs.
- `Effects.dfy`: what each message leaves, entry by entry and row by row, stated on the lists and tables themselves.
- `Accounts.dfy`, `Histories.dfy`: from registration to login, and from an invitation or a match to the histories.
- `Consistency.dfy`, `Reports.dfy`, `Ratings.dfy`, `Matchmaking.dfy`, `Seats.dfy`: theorems about all runs.
- `Soundness.dfy`: the weaker invariant that holds while a report sleeps.
- `SplitHandlers.dfy`: the handlers the source does not run as one piece, cut into parts that interleave freely, with
  the exact condition under which each part does no harm. `SlowReports.dfy`: what happens around the sleep of a report.
  `SplitRooms.dfy`, `SplitRuns.dfy`, `SplitRatings.dfy`: rooms, atomicity and the sum of ratings over runs of parts.
- `Claims.dfy`: the claim of a search cut into parts, with the exact condition for runs of them.
- `LinkedList.dfy` and `Server.dfy`: the linked lists and the handlers on the heap. Each handler walks and
  updates nodes in place and is proved equal to one `Step`; the matchmaking handler is proved to be a run of
  steps with arbitrary events of other threads during each `sleep(1)`, and the end-of-game handler to be the two
  parts of a report with any sound parts of other threads during its `sleep(1)`.
- `LinkedQueue.dfy`, `WorkerPool.dfy`, `Workers.dfy`: the FIFO queues with their stale tail, the
  condition-variable hand-off as a state machine, and its locked sections on the linked queue.
- `ConnectionPool.dfy`: the bounded stack of database connections.
- `Interleavings.dfy`: runs from the start on which the properties fail.

## What the statements assume

- In the theorems about `Step` and `Exec` a handler is one atomic step, except `handle_finding_match`, which is split
  into raising the flag, one scan with its claim, opening the room and giving up. These places of the source are less
  atomic than that, and for each the model says exactly when it matters:
  - `handle_login` checks the name, reads the row, and adds the user later, without one lock over the three. The add is
    safe exactly when the name is not online and the rating that was read is still the stored one
    (`SplitHandlers.LoginAddedIff`); it is, until a rating transaction names the user (`SlowReports.ReadStaysCurrent`).
  - `handle_register` checks the name and inserts the row without a lock, and the table has no UNIQUE constraint. The
    insert is safe exactly when the name is not taken at that moment (`SplitHandlers.RegisteredIff`).
  - `add_room` is given a list head that was read before its lock. Listing the room keeps every room accounted for
    exactly when a head read as null meets no listed room that awaits its first report, and any other head is still
    listed (`SplitHandlers.LinkedIff`, over runs `SplitRooms.RoomsRunIff`). Otherwise a room is lost for good
    (`Interleavings.LostRoom`). A walk that starts at a freed head is taken to lose the new room.
  - `handle_end_game` writes the cache, sleeps a second inside `end_game_and_update_elo`, and then writes the tables. Its
    mutex holds off other reports, but no login, exit or search. The report ends consistent exactly when neither player
    is online through a login during the sleep with another rating than the one it stores (`SlowReports.SlowReportIff`).
  - The scan of `handle_finding_match`, its test and its claim are not under one lock. Over all interleavings, nobody is
    matched more often than asked exactly when every claim finds the flag still up or an earlier request to spare
    (`Claims.ClaimRunIff`).
- `SplitHandlers.SplitRunIff` puts the first four together: over any interleaving of all parts, a login that spans the
  sleep of a report or its transaction included, the invariant holds after every part if and only if each part meets
  its condition when it happens. Runs in which no rating is outdated by a report that sleeps are runs of the
  atomic handlers, but for playing marks (`SplitRuns.TimelyRunIsAtomic`).
- Assumed atomic beyond that: each walk or update of the online list, although `src/game/game.c` guards that list with
  `user_mutex`, `src/user/user.c` with `online_list_mutex`, and `elo_calculation` with none; the two writes of a claim;
  `elo_calculation` with the two reads of the new ratings; the transaction of a report with the end of
  `handle_end_game`; the insert of a room's row with its listing; and every other handler.
- Database statements are atomic, and ids are 1, 2, ... in order of insertion (AUTOINCREMENT, no deletes).
- The event of a message carries the socket it came on. A password is the stored (hashed) one.
- `create_room` leaves the two sockets uninitialised; the create event carries arbitrary values for them.
- A statement that needs more says so in a premise a caller could check step by step: `Fair` (the two players
  of a rated game are distinct, online and in a rating range), `SearchStep`, `PairsStay` (requests carry the
  cached rating, searchers are not rated meanwhile) and `WellFormed` (messages carry the sender's id and
  socket, seats are filled once, players stay online until their room is gone).

## Where the code and its comments differ

The model follows the code.

- `src/game/game.h:13` describes room statuses 1, 2 and 3; the handlers use 0 and 1.
- `src/message/room.h:37` gives an END_GAME status for a loss (0) and a draw (2); the first report is scored as a
  draw for every status but 1, a loss included. `Reports.ReportOrderIff` states exactly when the order of the two
  reports matters, and `Seats.FirstReportHistories` what the players then read.
- A search that outlives its user's connection can still claim an opponent: a user can be matched more often than
  asked (`Interleavings.OfflineSearcherMatchedTwice`). `Matchmaking.ClaimUsesRequestIff` gives the exact condition.
- `src/database/database.c` lends only open connections, but `create_room_db` (`src/game/game.c:110-126`) returns whatever it
  was lent without testing for NULL. After a failed open a slot then holds NULL, and the next caller is lent it without
  a new attempt to open (`ConnectionPool.NullIsLentNext`). `ConnectionPool.CloseConservesIff` gives the exact condition.

## Model

| member | source | states |
|---|---|---|
| Elo.ExpectedScores | src/user/user.c:677-691 | the two expected scores lie strictly between 0 and 1, add up to 1, swap with the players, and are one half for equal ratings |
| Elo.ExpectedMonotone | src/user/user.c:677-683 | the expected score grows with the own rating and falls with the opponent's |
| Elo.GameInFloors | src/user/user.c:809-825 | from 50 up, the two truncated updates of a game move each player by twice the floor of one swing |
| Elo.DecisiveGame | src/user/user.c:814-819 | a win pays an even amount in [0, 2K-2], a loss costs an even amount in [2, 2K] |
| Elo.WinnerGainMonotone | src/user/user.c:692-716 | across K bands, a stronger winner or a weaker opponent never raises the gain |
| Elo.WinInNumbers | src/user/user.c:692-717 | from 50 up, a win moves each rating by twice the floor of 25, 20, 15 or 10 times the loser's expected score, by band, with the bounds in numbers |
| Elo.DrawInNumbers | src/user/user.c:692-717 | from 50 up, a draw moves each rating by twice the floor of 25, 20, 15 or 10 times one half less the own expected score |
| Elo.EqualRatings | src/user/user.c:809-825 | between equal ratings from 50 up a win moves (+24, -26), (+20, -20), (+14, -16) or (+10, -10) by band, and a draw nothing |
| Elo.AnyGameInNumbers | src/user/user.c:809-825 | for all ratings and results, each rating gets the same change twice and loses its fraction, towards zero, each time |
| Elo.DrawSymmetric | src/user/user.c:820-825 | for all ratings, a draw gives the same two ratings whoever is passed as winner |
| Elo.DrawDirection | src/user/user.c:820-825 | for all ratings, a draw keeps equal ratings, never lowers the lower one, never raises the higher one, and lowers it when it is positive |
| Elo.SameBandDrift | src/user/user.c:712-716 | in one K band from 50 up, a game loses 0 or 2 points in total, and 0 exactly when the swing is whole |
| Elo.MixedBandDrift | src/user/user.c:692-716 | from 50 up, across bands, a game moves the sum evenly by more than -34 and less than 30 |
| Elo.AnyDrift | src/user/user.c:712-716 | for all ratings, a game moves the sum by at most 2 in one band and by less than 34 otherwise |
| Entries.OpRefinesMap | src/user/user.c:43-80 | a push, append, unlink or overwrite on a list with unique ids is the same operation on its map |
| Entries.ListRefinesMap | src/game/game.c:58-109 | every sequence of such operations acts as the same sequence on a finite map and keeps ids unique |
| Entries.OrderKept | src/game/game.c:79-109 | no operation reorders the entries it does not name |
| LinkedList.List.AddFirst | src/user/user.c:43-54 | the chain gains one new node at its head; all others keep their place |
| LinkedList.List.AddLast | src/game/game.c:58-74 | the walk ends at the last node, and the chain gains one new node behind it |
| LinkedList.List.Lookup | src/game/game.c:450-465 | null exactly when no entry has the id, otherwise the node of the first one |
| LinkedList.List.Overwrite | src/user/user.c:777-790 | one node's fields change and the chain does not |
| LinkedList.List.RemoveAfter | src/game/game.c:79-109 | the first node with the id leaves the chain, at the head or in the middle; all others keep their order |
| LinkedList.List.RemoveBehind | src/user/user.c:56-80 | the same for the walk with a previous pointer |
| ServerSpec.FirstMatch | src/game/game.c:238-253 | the scan answers the first entry in list order that is another searching user within the threshold, and -1 when there is none |
| ServerSpec.LoginRow | src/user/user.c:95-151 | a row with exactly this name and password, or none when no row has them |
| Effects.RegisterEffect | src/user/user.c:246-287 | a taken name changes nothing; otherwise one row with rating 1000 under the next id, and no other row changes |
| Effects.LoginEffect | src/user/user.c:211-244 | a name online or wrong credentials change nothing; otherwise the user joins at the head with the stored rating, the message's socket and both marks down |
| Effects.ExitEffect | src/user/user.c:56-80 | the user's entry leaves, the others stay in order |
| Effects.CreateRoomEffect | src/game/game.c:127-173 | one room at the end with the creator white, seat -1 black, the requested total and status 0, and its row, not started |
| Effects.AnswerEffect | src/game/game.c:466-530 | accepted, the message's user is white and the invited user black, whoever created the room, with the sockets of their entries; total, status and all else stay; declined or unlisted, nothing changes |
| Effects.StartGameEffect | src/game/game.c:567-599 | the row is started with the room's players and total, its winner and all other rows stay, exactly the two players are marked |
| Effects.UnlistedReportEffect | src/game/game.c:786-795 | a report of an unlisted room changes nothing |
| Effects.FirstReportEffect | src/game/game.c:796-824 | the opponent by socket, the score by status, the two new ratings from the cached ones (0 if offline), the reporter's mark, the room's status 1, the winner column, and nothing else |
| Effects.FirstReportStores | src/game/game.c:742-764 | the two rows of the elo column get the ratings now cached, -1 for a user who is not online, and no other row changes |
| Effects.SecondReportEffect | src/game/game.c:813-824 | the room leaves the list, the reporter's mark goes down, and nothing else changes |
| Effects.RaiseFlagEffect | src/game/game.c:216-233 | exactly the user's flag goes up |
| Effects.GiveUpEffect | src/game/game.c:394-401 | exactly the user's flag goes down |
| Effects.ScanEffect | src/game/game.c:337-345 | the first other searching user within 100 is claimed and exactly the two flags go down; with nobody, or the own flag down, nothing changes |
| Effects.OpenRoomEffect | src/game/game.c:287-303 | the searcher is white if its request was rated below the opponent, else black; total 600, status 0, both sockets, a started row without a winner |
| Accounts.RegisteredLogsIn | src/user/user.c:211-287 | after any run since the registration, the registered user logs in with that password and no other, under that id and with the stored rating |
| Consistency.RateKeepsUsers | src/game/game.c:742-764 | after the rating transaction, each online user's cached rating is the stored one, offline opponents included |
| Consistency.ReportKeepsRooms | src/game/game.c:800-824 | a report keeps every room unrated with status 0, or rated exactly once |
| Consistency.StepKeeps | src/server.c:81-181 | every step on every message keeps unique ids and names, cache agreement, flags in {0, 1} and rating at most once |
| Consistency.CacheAgreement | src/user/user.c:211-244 | after any run of atomic steps, cached ratings equal stored ones, and online ids and names are pairwise distinct |
| Soundness.ConsistentIff | src/game/game.c:713-716 | consistency is soundness, which survives the sleep of a report, together with agreement of cached and stored ratings |
| Soundness.SoundStep | src/server.c:81-181 | every step on every message keeps soundness, and consistency where it held |
| SplitHandlers.LoginAddedIff | src/user/user.c:224-235 | adding a user whose row was read earlier keeps consistency if and only if the name is not online and the rating read is the stored one, both at the add |
| SplitHandlers.RegisteredIff | src/user/user.c:264-274 | inserting a user keeps consistency if and only if the name is not taken at that moment |
| SplitHandlers.LinkedIff | src/game/game.c:58-78 | listing a room through a head read earlier keeps every room accounted for if and only if a null head meets no room awaiting its first report, and another head is still listed |
| SplitHandlers.PartsMakeReport | src/game/game.c:800-824 | the two parts of a report with nothing in between are the atomic report |
| SplitHandlers.SoundPartIff | src/user/user.c:211-287 | unique ids and names, and every room accounted for, survive a part if and only if it is sound: free name, good head |
| SplitHandlers.SafePartIff | src/game/game.c:713-772 | the same with agreement of cached and stored ratings, apart from the two players of a sleeping report: if and only if, besides, a rating read is still stored and a transaction finds its online players with the ratings it stores |
| SplitHandlers.SplitRunIff | src/user/user.c:211-287 | over any interleaving of split logins, registrations, room listings, sleeping reports and other steps: steady after every part if and only if every part is safe |
| SplitHandlers.CacheAgreementSplit | src/user/user.c:777-826 | after every safe interleaving online ids and names are distinct, and cached ratings equal stored ones but for the players of a report that sleeps |
| SlowReports.QuietRun | src/game/game.c:713-716 | during the sleep stored ratings stay, and a user online after it has the rating of the last login during it, or else the one from before |
| SlowReports.SlowReportIff | src/game/game.c:713-772 | a report that sleeps among safe parts of other threads ends consistent if and only if neither player is online through a login during it with another rating than the one it stores |
| SlowReports.SlowReportCases | src/game/game.c:713-772 | with no outdated row in a thread's hands: consistent if and only if no player whose rating it changes logged in meanwhile and is still online |
| SlowReports.ReadStaysCurrent | src/user/user.c:95-137 | a row read for a login carries the stored rating until a rating transaction names the user |
| SplitRuns.TimelyRunIsAtomic | src/game/game.c:773-827 | a run of parts in which no step depends on what a sleeping report has yet to store leaves, but for playing marks, what the run of atomic handlers leaves |
| SplitRooms.RoomsRunIff | src/game/game.c:58-78 | over any interleaving, unsafe logins included: every room stays listed and unrated or rated once if and only if every head is good |
| SplitRooms.RatedOnceSplit | src/game/game.c:800-824 | with good heads a room that is no longer listed has been rated exactly once |
| SplitRooms.RatedAtMostOnceSplit | src/game/game.c:800-824 | over every interleaving, lost rooms included, each room id is rated at most once |
| SplitRooms.LostForGood | src/game/game.c:58-78 | a lost room is never listed and never rated in any further run |
| SplitRatings.BalanceOverParts | src/game/game.c:713-772 | over any safe interleaving the total of the elo column moves by the drifts of the games, and by nothing that happens while a report sleeps |
| SplitRatings.RatingsConservedSplit | src/user/user.c:28 | with sleeping reports and all games in [50, 1600), the total is 1000 per user minus an even amount of at most 2 per game |
| SplitRatings.RatingsBoundedSplit | src/user/user.c:791-826 | with sleeping reports, the bounds for ratings from 50 up and for any ratings |
| Reports.StageStep | src/game/game.c:786-824 | only a report of this room moves its stage, by one, up to two |
| Reports.TwoReports | src/game/game.c:773-827 | any run with n reports of a room leaves it unrated (0), rated once with status 1 (1), or rated once and unlinked (2 or more), and later reports change nothing |
| Reports.RatedAtMostOnce | src/game/game.c:800-812 | in every run of the server each room id has at most one rating transaction |
| Reports.FirstReportDecides | src/game/game.c:731-735 | the first report fixes the winner column for good: the reporter on status 1, else 0 |
| Reports.BothReportsClear | src/game/game.c:813-824 | after two reports of a room, with any events between and after, the room is gone and neither reporter is marked as playing unless a later start seats that reporter |
| Reports.PlayingStep | src/game/game.c:551-566 | the mark of every user after every event: gone on exit, 0 on login, 1 on a start in a seat, 0 on the own report, otherwise unchanged |
| Reports.PlayingUntilReport | src/game/game.c:594-596 | through any run, a started player stays marked until the own report, which clears the mark until the next start; the opponent's report does not |
| Reports.DrawsConfluent | src/game/game.c:796-824 | if neither player reports a win, both orders of the two reports give the same lists and tables |
| Reports.ReportOrderIff | src/game/game.c:796-824 | both orders agree if and only if neither player reports a win |
| Ratings.RatedBalance | src/game/game.c:802-811 | one rated game between online players moves the total of the elo column by exactly its drift |
| Ratings.BalanceOverRun | src/user/user.c:791-826 | over any run the total moves by an amount its games can make, each within the drift of its rating range |
| Ratings.RatingsConserved | src/user/user.c:28 | with all games in [50, 1600), the total is 1000 per user minus an even amount of at most 2 per game |
| Ratings.RatingsMixedBands | src/user/user.c:692-716 | from 50 up, the total differs from 1000 per user by an even amount between -32 and 28 per game |
| Ratings.RatingsBounded | src/user/user.c:791-826 | with any ratings, the total stays within 33 per game of 1000 per user, and within 2 below 1600 |
| Ratings.ReportedGame | src/game/game.c:800-812 | a first report, end to end: both ratings in numbers by band, in cache and table alike, and nobody else moves |
| Matchmaking.FoundMatches | src/game/game.c:238-253 | a scan finds a flagged other user within 100, and -1 means every other flagged user is further away |
| Matchmaking.ClaimLowersTwo | src/game/game.c:337-345 | a claim takes two distinct flagged users within 100, lowers exactly their flags and no rating |
| Matchmaking.FlagStep | src/game/game.c:216-233 | which events raise or lower whose flag, for every event |
| Matchmaking.WaitingPool | src/game/game.c:330-419 | after any run, two users still flagged after a failed scan are more than 100 apart |
| Matchmaking.WaitingCapacity | src/game/game.c:20 | with ratings in [lo, hi], at most (hi - lo) / 101 + 1 users can be waiting |
| Matchmaking.MatchedAtMostOncePerRequest | src/game/game.c:330-345 | while searchers stay online, no user is matched more often than that user sent requests |
| Matchmaking.ClaimUsesRequestIff | src/game/game.c:340-345 | a claim uses up one of the searcher's requests if and only if the searcher is online |
| Matchmaking.ClaimedWhileSearching | src/game/game.c:337-345 | in every run each claimed pair comes from a scan just before which both users were searching |
| Matchmaking.PairingQuality | src/game/game.c:287-303 | every room matchmaking opens seats two distinct online users at most 100 apart, white rated at most black, with their own sockets, and both were searching at the claim |
| Claims.PartEffect | src/game/game.c:337-345 | a found pair is passed on exactly when neither flag is 0, and its claim lowers both flags that are there |
| Claims.PartsMakeClaim | src/game/game.c:337-345 | finding, testing and lowering in one piece is the scan that claims |
| Claims.RequestsConserved | src/game/game.c:330-345 | over any interleaving of searches each request is matched, still raised, or spare, as told by the flags alone |
| Claims.ClaimRunIff | src/game/game.c:340-345 | over any interleaving of searches a user is at no time matched more often than asked if and only if each claim naming the user finds the flag up or a spare request |
| Claims.RetestedClaimKeepsCovered | src/game/game.c:340-345 | with both flags tested again in one piece with the writes, a late claim of online users keeps everyone covered |
| Claims.DoubleClaimIff | src/game/game.c:340-345 | when two tests pass before either write, the third user is matched twice, covered only with two requests left |
| Interleavings.SplitLoginBreaksCache | src/user/user.c:211-244 | two interleaved logins, then the END_GAME message of an opponent who won: the user is listed twice and one entry disagrees with the table |
| Interleavings.RejoinBreaksCache | src/game/game.c:713-772 | a loser who leaves and logs in while the report sleeps is online with the old rating, above the stored one |
| Interleavings.StaleReadBreaksCache | src/user/user.c:224-235 | a loser whose row is read before the transaction and who is added after it is online with the old rating, above the stored one |
| Interleavings.SplitLoginFromStart | src/user/user.c:211-244 | a run from the start to the doubled login |
| Interleavings.RejoinFromStart | src/game/game.c:713-772 | a run from the start to the login during the sleep |
| Interleavings.StaleReadFromStart | src/user/user.c:224-235 | a run from the start to the outdated row |
| Interleavings.LostRoom | src/game/game.c:58-67 | two rooms created on an empty list: the first is neither listed nor rated, now and after every further run |
| Interleavings.OfflineSearcherMatchedTwice | src/game/game.c:337-345 | a run in which a user with one request is matched twice after leaving |
| Seats.SeatingStep | src/game/game.c:466-530 | every well-formed step keeps sockets distinct, both seats of a filled room online with their sockets, and started rows in line with their rooms |
| Seats.RoutingAgrees | src/game/game.c:644-651 | after any well-formed run the stored sockets and the lookups name the same receiver, and the opponent of the opponent is the sender |
| Histories.HistoryIff | src/game/game.c:25-34 | a line is in a user's history if and only if the row is started and ended, the user has one seat and the line's opponent, registered under that name, the other, and the result is 1, 2 or 0 by the winner column |
| Histories.HistoryInOrder | src/game/game.c:959-985 | at most one line a room, in the order of room ids |
| Histories.InvitedGameIsRecalled | src/game/game.c:466-599 | an accepted invitation, a start and a report, with any other well-formed events in between: the game is in both players' histories with the result of the first report |
| Histories.MatchedGameIsRecalled | src/game/game.c:347-386 | the same for a game opened by matchmaking |
| Seats.HistoriesComplement | src/game/game.c:959-985 | both players of a started and ended room see it, with results (1,0), (0,1) or (2,2) |
| Seats.FirstReportHistories | src/game/game.c:796-812 | a first report of 1 gives the reporter 1 and the other 0 for good; any other first report gives both 2 |
| Server.FindMatch | src/game/game.c:238-253 | the walk over the nodes finds what `FindingMatch` names |
| Server.CachedRatings | src/user/user.c:794-808 | the one-pass walk collects both ratings, 0 for a user who is not online |
| Server.EloCalculation | src/user/user.c:791-826 | the cache after the call is the one `Rated` gives, and the chain is untouched |
| Server.IsUserAlreadyLoggedIn | src/user/user.c:161-176 | true exactly when some online entry has the name |
| Server.ChessServer.HandleRegister | src/user/user.c:246-287 | one `Register` step, soundness kept, and consistency where it held |
| Server.ChessServer.HandleLogin | src/user/user.c:211-244 | one `Login` step, soundness kept, and consistency where it held |
| Server.ChessServer.RemoveOnlineUser | src/user/user.c:56-80 | one `Exit` step, soundness kept, and consistency where it held |
| Server.ChessServer.HandleCreateRoom | src/game/game.c:127-173 | one `CreateRoom` step, soundness kept, and consistency where it held |
| Server.ChessServer.GetListRoom | src/game/game.c:75-78 | the head a thread reads is the first listed room, none exactly on an empty list |
| Server.ChessServer.HandleAcceptOrDeclineInvitation | src/game/game.c:466-530 | one `Answer` step, soundness kept, and consistency where it held |
| Server.ChessServer.HandleStartGame | src/game/game.c:567-599 | one `StartGame` step, soundness kept, and consistency where it held |
| Server.ChessServer.SleepInReport | src/game/game.c:715 | other threads carry out any sound parts but this transaction, so the room nodes stay linked under their ids |
| Server.ChessServer.HandleEndGame | src/game/game.c:773-827 | the two parts of a report with a second's sleep and the parts of other threads in it, or one step without a sleep; sound always, and among safe parts consistent exactly when no player came back with another rating |
| Server.ChessServer.HandleMove | src/game/game.c:629-651 | the move goes to the stored socket of the other seat, to nobody for an unknown room |
| Server.ChessServer.HandleRelay | src/game/game.c:829-851 | the message goes to the looked-up socket of the opponent, to nobody for an unknown room |
| Server.ChessServer.HandleGetHistory | src/game/game.c:932-988 | the lines sent are the history of the user |
| Server.ChessServer.Scan | src/game/game.c:337-345 | one `Scan` step, and whether it claimed a pair |
| Server.ChessServer.OpenClaimed | src/game/game.c:347-386 | one `OpenRoom` step for the pair claimed last |
| Server.ChessServer.TryMatch | src/game/game.c:337-386 | nobody found changes nothing; somebody found opens the next room for the two as `Matched`, or ends as `Withdrawn` if the own flag is down |
| Server.ChessServer.Expire | src/game/game.c:393-416 | an expired search ends as `TimedOut` and lowers the flag, or as `Withdrawn` if it is down already |
| Server.ChessServer.OneTurn | src/game/game.c:335-419 | one scan, then by what it found and whether 10 seconds have passed: a match, the end, or a sleep of at least a second |
| Server.ChessServer.HandleFindingMatch | src/game/game.c:330-419 | the call is a run of atomic steps with any other events while it sleeps: at most 11 passes, a second or more apart, each decided by what its scan finds; a search whose last scan found nobody has lasted 10 seconds; the caller's flag is down on every way out |
| LinkedQueue.Queue.Enqueue | src/task_queue/queue.c:14-27 | the contents grow at the end, through no freed node |
| LinkedQueue.Queue.Dequeue | src/task_queue/queue.c:30-44 | the first item leaves; None exactly on an empty queue; tail is left as it was |
| LinkedQueue.ClientsInOrder | src/server.c:341-352 | over any interleaving of accepts and dequeues -1 is never queued, so it is answered exactly on an empty queue, and sockets are served in order of arrival |
| LinkedQueue.ClientQueue.HandleAccepted | src/server.c:341-352 | an error of accept is skipped, a socket is enqueued, and -1 stays out of the queue |
| LinkedQueue.ClientQueue.DequeueSocket | src/task_queue/queue.c:30-44 | the first socket leaves, and -1 is answered exactly on an empty queue |
| LinkedQueue.DrainThenEnqueue | src/task_queue/queue.c:63-91 | draining a queue of any length frees all its nodes and leaves tail on one, and the next enqueue still starts a proper chain |
| WorkerPool.ActionEffect | src/server.c:255-272 | each action moves at most one worker and changes the queue only at its ends |
| WorkerPool.AttendedKept | src/server.c:255-267 | every action, spurious wakeups and barging workers included, keeps a woken worker per queued item while any worker sleeps |
| WorkerPool.NoLostWakeup | src/server.c:255-272 | in every run, a sleeping worker means at most as many queued items as woken workers, and a non-empty queue has a worker awake |
| WorkerPool.EachItemOnce | src/server.c:349-356 | items leave in order, and each accepted one is queued, in hand or handled exactly once |
| WorkerPool.QueueDrains | src/server.c:70-80 | without new arrivals and spurious wakeups at most 2 steps per item and worker remain, and when none is left the queue is empty |
| Workers.ThreadPool.Accept | src/server.c:349-356 | the locked section of the producer is one `Arrive` action on the linked queue |
| Workers.ThreadPool.TryDequeue | src/server.c:262-267 | one test of the worker's loop is one `Dequeue` action on the linked queue |
| Workers.ThreadPool.Done | src/server.c:268-271 | the return from the handler is one `Finish` action |
| ConnectionPool.Connections.Get | src/database/database.c:13-47 | the last idle handle, a new one, or 0 when opening fails, with the pool left behind |
| ConnectionPool.Connections.Close | src/database/database.c:49-63 | the handle goes to the next slot, or is closed when all 10 are taken |
| ConnectionPool.PoolConserved | src/database/database.c:13-63 | if callers return what they hold once, every opened handle is idle, held or closed, exactly one of them, and the counts add up |
| ConnectionPool.NeverLentTwice | src/database/database.c:16-22 | in every such run a get never lends a handle that is held or closed, and at most 10 are idle |
| ConnectionPool.StackOfTen | src/database/database.c:13-63 | a handle returned to fewer than ten is the next one lent, an eleventh is closed, an empty pool opens the next or lends NULL |
| ConnectionPool.CloseKeepsDistinctIff | src/database/database.c:53-56 | closing keeps the slots distinct if and only if the pool is full or the handle is not in a slot |
| ConnectionPool.CloseConservesIff | src/database/database.c:49-63 | closing keeps every handle in exactly one place if and only if the caller holds it |
| ConnectionPool.NullIsLentNext | src/game/game.c:110-126 | returning the NULL of a failed open breaks conservation, and the next get lends it without opening |

## Left out

- Elo.Trunc: rounding of `double` and `float` is not modelled; reals are exact.
- ServerSpec.Step: 32-bit wrap-around of ids, ratings and statuses is not modelled; integers are unbounded.
- ServerSpec.State: times are not modelled, only whether start and end time are set.
- ServerSpec.LoginRow: SHA-256 is not modelled; the event carries the stored form of the password.
- WorkerPool.Act: the endless loops of the threads are modelled as actions of a state machine, and the mutex as the atomicity of each action.
- Server.ChessServer.Sleep: other threads act only at the sleeps of a method, during a search in whole handlers; claims pending between a scan and the opening of a room, late claims and split handlers are covered on values, in `Matchmaking`, `Seats`, `Claims` and `SplitHandlers`.
- Server.ChessServer.SleepInReport: other threads' parts that break soundness are left to `SplitHandlers.SoundPartIff`, on values.
- Server.ChessServer.HandleLogin: nothing happens between the check, the read and the add; `SplitHandlers` covers the split on values.
- Server.ChessServer.HandleRegister: nothing happens between the check and the insert; `SplitHandlers` covers the split on values.
- SplitRuns.TimelyRunIsAtomic: playing marks are left out, because a start that seats the reporter during the sleep marks a player the report then unmarks.
- SplitHandlers.LinkedIff: what a walk from a freed node does is undefined in the source; the model loses the new room.
- LinkedList.List.RemoveAfter: freed nodes are unlinked, not deallocated; the use of a freed online node in the listener loop of `src/server.c` is not modelled.
- Sockets, `select`, sending, logging, allocation failures, prepared-statement errors and the menu client.
- Replay invitations, which create a table row without a listed room.
- The move log: only the receiver of a move is modelled.
- Ratings of a user who goes offline before the report are covered by cache agreement only; the sum over a run assumes both players online when the game is rated.
- Friend lists, chat and the top-player query: plain lookups.
- Double unlocks and responses used uninitialised in the source.
