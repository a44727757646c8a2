# IoT dashboard backend: verified model

A Dafny model of the parts of the backend that have logic of their own, one module per
source component:

- `WsSession`, `WsServer`, `WsHistory`: the WebSocket fan-out as a concurrent machine. Every locked
  section and every callback is one atomic action; an event that is not enabled changes
  nothing, so every event sequence is a run. Messages are observed when they are handed to
  async_write.
- `Bits`, `Base64`, `Jwt`, `PasswordHasher`, `Auth`: both Base64 codecs against the bit-level text
  of RFC 4648, tokens, stored password strings, and the authentication service over runs.
- `Sqlite`, `Migration`, `SensorQuery`, `Sensor`: a connection with at most one open transaction, the
  migration runner under failures and crashes, readings and the query builder.
- `Heartbeat`: the monitor's records, scans and sliced sleep.
- `Mqtt`, `Devices`, `DeviceCalls`: subscription tracking, topics, the device manager, and
  its calls among each other.
- `Rules`: rule store, conditions and engine.

Objects that the source updates in place are classes; their methods are proved against
functions on values, and the lemmas are about those functions and the runs they generate.

Assumptions, all visible as parameters or preconditions: HMAC is some function of the
signing input (`Jwt.Library.hmac`); parsing a dumped JSON object of texts and numbers gives
it back (`Jwt.Faithful`); PBKDF2 is some function that fills its buffer
(`PasswordHasher.FillsBuffer`); a presented token with a valid signature was issued by the
service (`Auth.Presented`); a mutex makes its critical section atomic; SQLite executes
statements as documented. Clock readings, random salts, library return codes and faults are
parameters.

Where code and comments differ, the model follows the code: a token is still accepted at
the very second of its expiry (section 4.1.4 of RFC 7519 asks for strictly before); SQL
errors of single inserts are never reported; the migration runner's "in version order"
depends on the caller's registration order; the public methods of the device manager do not
hold its mutex (against src/devices/device_manager.hpp:48), so that its calls overlap.

What is false of the code, a witness, and the exact condition under which it holds:

- a fresh token validates: `Auth.ReloginInSameSecondIsRefused`,
  `Auth.RefreshInSameSecondIsRefused`; `Auth.LoginTokenValidatesIff`,
  `Auth.RenewedTokenValidatesIff`
- the version record matches the schema: `Migration.LostInsertAppliesTwice`,
  `Migration.FailedReadAppliesTwice`; `Migration.PrefixIffIntact`, and over runs
  `Migration.CrashSafe`
- success means committed: `Migration.StaleTransactionHidesFailure`;
  `Migration.SuccessIsCommittedIff`, and over runs `Migration.SuccessAfterRunsIff`
- every registered migration is applied: `Migration.DescendingIsSkipped`;
  `Migration.CompletesIffAscending`
- enabling a rule is atomic: `Rules.UpdateInBetweenIsLost`, `Rules.ReAddedRuleIsLost`;
  `Rules.ToggleIsAtomicIff`, and `Rules.ToggleIsAtomic` without updates and removals in
  between
- subscriptions stay coherent: `DeviceCalls.ClashBreaksCoherence`;
  `DeviceCalls.EveryInterleavingIff` for overlapping calls while connected,
  `Devices.RegisterKeepsCoherenceIff` and `Devices.UnregisterKeepsCoherenceIff` for single
  calls in any state of the connection
- a message changes no more than liveness: `DeviceCalls.StaleRowOverwritesNew`;
  `DeviceCalls.CompletedMessage`
- a reported insert of a device is stored: `Sensor.SharedBatchIff`

Automatic induction is switched off in every lemma, so that all inductive steps are in the
bodies. Run `dafny verify dfyconfig.toml` to check everything.

## Model

| member | source | states |
|---|---|---|
| `WsSession.SingleWriter` | src/network/websocket/ws_session.cpp:89-139 | After every interleaving of sends and writer actions: everything sent is what was handed over, then what was taken, then the queue; m_writing is set iff exactly one activation, write or failure holds the right to write; a non-empty queue always has such a holder; DoWrite never finds the queue empty |
| `WsSession.FailedIsSilent` | src/network/websocket/ws_session.cpp:119-126 | After a failed write nothing more is handed over in any continuation; m_writing stays set and sent messages only queue up |
| `WsSession.WriterDrains` | src/network/websocket/ws_session.cpp:101-139 | With no further Send and no error, every reachable unfailed session becomes idle with all messages handed over after exactly 3 actions per queued, 2 per taken and 1 per in-flight message, whatever the schedule, which is never stuck before; one write per waiting message |
| `WsSession.ScheduleCountsDown` | src/network/websocket/ws_session.cpp:101-139 | Each writer action lowers the measure by one, a positive measure leaves an action enabled, and handed-over messages count the hand-offs |
| `WsSession.ExecKeepsInv` | src/network/websocket/ws_session.cpp:89-139 | The single-writer invariant is kept along every run from any state that meets it |
| `WsSession.StateFollowsEvents` | src/network/websocket/ws_session.cpp:89-139 | By the events alone: sent is what Send was called with; a write is in flight until it completes, with or without error; the session has failed iff a write completed with one |
| `WsSession.Session.Send` | src/network/websocket/ws_session.cpp:89-99 | The object changes as the Send action does, under one lock |
| `WsSession.Session.TakeFront` | src/network/websocket/ws_session.cpp:101-113 | The locked section of DoWrite: takes the front message, or clears m_writing and returns |
| `WsSession.Session.OnWrite` | src/network/websocket/ws_session.cpp:119-139 | Completion: reports a disconnect on error, else stops on an empty queue or goes on, as the matching action |
| `WsServer.HandedFollowsLog` | src/network/websocket/ws_server.cpp:131-167 | In every interleaving of all server operations and writers, what a connection has been handed is a prefix of the one enqueue log projected onto it |
| `WsServer.TotalOrder` | src/network/websocket/ws_server.cpp:131-167 | Two connections that both got the later of two shared broadcasts got the earlier one before it |
| `WsServer.DeliveredInFull` | src/network/websocket/ws_server.cpp:131-167 | End to end: once no loop owes a connection anything and its session has not failed, any complete schedule of its writer has handed over exactly its part of the log |
| `WsServer.TopicsRefineRelation` | src/network/websocket/ws_server.cpp:150-189 | Subscribe, Unsubscribe and the disconnect clean-up act on m_topics as on a plain (topic, id) relation, empty sets and dead ids notwithstanding; a topic lookup yields the live ids related to it |
| `WsServer.TopicBroadcastReaches` | src/network/websocket/ws_server.cpp:150-167 | While at most 2^64 connections were accepted, a topic broadcast is for exactly the live connections subscribed under their own id |
| `WsServer.LoopSendsOnce` | src/network/websocket/ws_server.cpp:131-167 | However deliveries and writers interleave, an enqueue loop sends its message once to each connection it has reached and to no other |
| `WsServer.LoopIsEnqueue` | src/network/websocket/ws_server.cpp:131-167 | An operation and its deliveries in any order are one Send to each addressed session and none to others: the step the methods of the object take |
| `WsServer.GoneStaysSilent` | src/network/websocket/ws_server.cpp:214-225 | A disconnected connection stays disconnected and is never sent to or logged for again |
| `WsServer.IdsAreDistinct` | src/network/websocket/ws_server.cpp:263 | The ids of the first n accepts are pairwise distinct iff n is at most 2^64; below that, accept k (from 0) gets k + 1 |
| `WsHistory.LiveIff` | src/network/websocket/ws_server.cpp:199-225 | By the events alone: a connection is live iff its handshake succeeded and it was not disconnected since |
| `WsHistory.SubscribedIff` | src/network/websocket/ws_server.cpp:171-225 | By the events alone: an id is subscribed to a topic iff the last Subscribe, Unsubscribe or disconnect concerning both was a Subscribe |
| `WsHistory.ReachedIff` | src/network/websocket/ws_server.cpp:131-167 | While ids are unique: Broadcast is for every live connection, Send for the live one of its id, a topic broadcast for the live ones whose id is subscribed, live and subscribed by the events |
| `WsHistory.EnabledIff` | src/network/websocket/ws_server.cpp:131-225 | When each operation can run: a handshake once per accepted connection, a disconnect after it, everything that takes the mutex when no enqueue loop holds it |
| `WsHistory.SubscriberIsSent` | src/network/websocket/ws_server.cpp:150-204 | A connection accepted after any run, connected and subscribed, is sent the next broadcast to the topic, and that alone |
| `WsHistory.AcceptsAreCounted` | src/network/websocket/ws_server.cpp:255-270 | The model has accepted as many connections as there were accepts |
| `WsServer.ExecKeepsInv` | src/network/websocket/ws_server.cpp:131-225 | Along every run: live connections and m_sessions agree, and per connection sent plus owed equals its part of the log |
| `WsServer.Server.AllocateId` | src/network/websocket/ws_server.cpp:263 | fetch_add hands out the id of the next accept, wrapping at 2^64 |
| `WsServer.Server.OnSessionConnected` | src/network/websocket/ws_server.cpp:199-204 | Registers the session under its id and nothing else |
| `WsServer.Server.OnSessionDisconnected` | src/network/websocket/ws_server.cpp:214-225 | Removes the id from m_sessions and from every topic set, keeping the topics |
| `WsServer.Server.Subscribe` | src/network/websocket/ws_server.cpp:171-175 | Adds the id to the topic, live or not |
| `WsServer.Server.Unsubscribe` | src/network/websocket/ws_server.cpp:177-189 | Removes the id, and the topic with its last id |
| `WsServer.Server.Send` | src/network/websocket/ws_server.cpp:131-139 | One Send to the session of that id, if any; no other session changes |
| `WsServer.Server.Broadcast` | src/network/websocket/ws_server.cpp:141-148 | Exactly one Send of the message to every registered session |
| `WsServer.Server.BroadcastToTopic` | src/network/websocket/ws_server.cpp:150-167 | Exactly one Send to every registered session subscribed to the topic; no other session changes |
| `Bits.PackedBits` | src/security/jwt_handler.cpp:26-30 | The shifts and ors that pack three bytes, taken bit by bit, are the sum used in the model, below 2^24 |
| `Bits.PickedBits` | src/security/jwt_handler.cpp:32-35 | The shifts and masks that pick sextets and bytes are the quotients and remainders used in the model |
| `Bits.PackedSextets` | src/security/jwt_handler.cpp:86-89 | The shifts and ors that pack four sextets are the sum used in the model, below 2^24 |
| `Base64.B64Encode` | src/security/password_hasher.cpp:21-43 | The loop yields the text of section 4 of RFC 4648: character k is the table entry of bits 6k to 6k+5, padded to a multiple of four |
| `Base64.Base64UrlEncode` | src/security/jwt_handler.cpp:17-50 | The three loops yield the text of section 5 of RFC 4648: the same characters in the URL alphabet, unpadded |
| `Base64.B64Decode` | src/security/password_hasher.cpp:45-80 | The loop decodes whole groups of four, dropping what padding stands for and any left-over characters |
| `Base64.Base64UrlDecode` | src/security/jwt_handler.cpp:52-99 | Translating, re-padding and decoding, for every text |
| `Base64.StdRoundTrip` | src/security/password_hasher.cpp:21-80 | Decoding the standard text of any bytes gives them back |
| `Base64.UrlRoundTrip` | src/security/jwt_handler.cpp:17-99 | Decoding the URL text of any bytes gives them back |
| `Base64.TextShape` | src/security/jwt_handler.cpp:19-49 | Lengths 4*ceil(n/3) and ceil(4n/3); the URL text is the standard one translated and stripped of at most two padding characters; only alphabet characters occur |
| `Base64.TableDecodes` | src/security/jwt_handler.cpp:66-79 | dec inverts kTable at every index |
| `Base64.TestVectors` | src/security/password_hasher.cpp:21-43 | The encodings of f, fo and foo in section 10 of RFC 4648 |
| `Base64.DecodedConcat` | src/security/jwt_handler.cpp:86-96 | Any text is decoded group by group, and up to three characters left over are ignored |
| `Base64.GroupLength` | src/security/jwt_handler.cpp:93-96 | A group gives three bytes, less one for each padding character in its last two places |
| `Base64.JunkReadsAsA` | src/security/jwt_handler.cpp:66-79 | A character outside the alphabet, the padding character apart, reads as A |
| `Base64.UrlDecodedLaws` | src/security/jwt_handler.cpp:52-64 | The URL decoder translates the two other characters and supplies missing padding |
| `Jwt.VerifyToken` | src/security/jwt_handler.cpp:141-225 | Verify of a generated token gives back exactly its claims while now <= exp, and TokenExpired afterwards |
| `Jwt.SignatureOkIff` | src/security/jwt_handler.cpp:168-193 | A token passes the signature check iff it is the seal of a text with exactly one dot |
| `Jwt.AcceptedTokenIsUnique` | src/security/jwt_handler.cpp:168-193 | A token that passes has exactly two dots, and no other token with its signing input passes |
| `Jwt.TokensEqualIff` | src/security/jwt_handler.cpp:141-166 | Two issued tokens are the same text iff user id, username, role, iat and exp all agree |
| `Jwt.CheckOwnPayload` | src/security/jwt_handler.cpp:195-224 | Reading back a generated payload: all members found, role recovered, expiry compared inclusively |
| `Jwt.TokenParts` | src/security/jwt_handler.cpp:141-166 | An issued token is the encoded header with alg HS256 and typ JWT, the encoded payload with its five members, and the encoded HMAC of both, joined by dots |
| `Jwt.VerifyOtherwise` | src/security/jwt_handler.cpp:168-224 | The answer to every other token: AuthorizationFailed without a valid signature or with a payload that does not parse, TokenExpired by exp or its default 0, defaults for missing claims, Viewer for an unknown role, an exception for a payload of the wrong shape |
| `Auth.ClaimsProvenance` | src/security/authentication_service.cpp:20-123 | If only issued tokens carry valid signatures, every token ValidateToken accepts, after any run, names a user registered in that run with that id and role |
| `Auth.UsersPersist` | src/security/authentication_service.cpp:31-38 | No run overwrites or removes a registered record |
| `Auth.UsersWereRegistered` | src/security/authentication_service.cpp:20-39 | Every stored record stems from a registration of the run with its id, name and role |
| `Auth.RevokedIsLoggedOut` | src/security/authentication_service.cpp:105-110 | The revocation set is exactly what was logged out and never shrinks |
| `Auth.LogoutRefusesExactly` | src/security/authentication_service.cpp:79-123 | After Logout of an issued token, for the rest of every run, ValidateToken and RefreshToken refuse an otherwise unrevoked, unexpired issued token iff it shares all five values, and accept it with its own claims otherwise |
| `Auth.LoginTokenValidatesIff` | src/security/authentication_service.cpp:41-103 | Each token of a Login validates, and the refresh token refreshes, iff it has not expired and its text was not logged out |
| `Auth.LoginAfterRunValidatesIff` | src/security/authentication_service.cpp:41-123 | After a run whose logouts were those of given issued tokens, each token of a Login validates iff it has not expired and none of those shares all five of its values |
| `Auth.RenewedTokenValidatesIff` | src/security/authentication_service.cpp:79-103 | The same for the access token that RefreshToken returns |
| `Auth.RefreshInSameSecondIsRefused` | src/security/authentication_service.cpp:79-123 | Refreshing in the second in which the access token was issued and logged out returns that token, which is refused |
| `Auth.ReloginInSameSecondIsRefused` | src/security/authentication_service.cpp:41-123 | Tokens carry no nonce: logging out and in again at the same clock readings yields a token that is refused at once |
| `Auth.RegisteredUserLogsIn` | src/security/authentication_service.cpp:20-77 | Through the rest of any run, a user registered under a free name logs in with exactly the passwords that derive the stored key, and gets tokens for the registered claims; any other password is AuthenticationFailed |
| `Auth.RegistrationIsRefusedIff` | src/security/authentication_service.cpp:20-39 | A failing hash is InternalError whatever the name, a taken name InvalidInput; neither changes anything, and any other registration succeeds |
| `Auth.UnsignedIsRefused` | src/security/authentication_service.cpp:79-123 | A token not signed by the service is AuthorizationFailed, but TokenExpired to ValidateToken when it was logged out |
| `Auth.ExpiresInIs` | src/security/authentication_service.cpp:74-76 | expiresInSeconds is the configured expiry of the access token |
| `Auth.IssuedAreReturned` | src/security/authentication_service.cpp:60-76 | The tokens recorded as issued are the ones a successful Login returns; a refused one records nothing |
| `Auth.AuthenticationService.RegisterUser` | src/security/authentication_service.cpp:20-39 | Hash failure first, then a duplicate name is refused, else the record is stored |
| `Auth.AuthenticationService.Login` | src/security/authentication_service.cpp:41-77 | Unknown user or wrong password is AuthenticationFailed; else two tokens for the record's claims |
| `Auth.AuthenticationService.RefreshToken` | src/security/authentication_service.cpp:79-103 | Verification errors first, then revocation, then a new access token for the verified claims |
| `Auth.AuthenticationService.Logout` | src/security/authentication_service.cpp:105-110 | Adds the text to the revocation set |
| `Auth.AuthenticationService.ValidateToken` | src/security/authentication_service.cpp:112-123 | Revocation first, then verification |
| `PasswordHasher.ParseStoredRoundTrip` | src/security/password_hasher.cpp:108-147 | Parsing a stored string recovers exactly the iteration count, salt and hash, for every 32-bit count and all bytes |
| `PasswordHasher.VerifyHash` | src/security/password_hasher.cpp:88-159 | Verify accepts a password on a string built by Hash iff it derives the stored key; the original password is accepted |
| `PasswordHasher.VerifyIff` | src/security/password_hasher.cpp:108-159 | For every string: a password is accepted iff the string has the stored format, with a number and two encoded fields that are not empty, and the password derives the key in it |
| `PasswordHasher.HashDerives` | src/security/password_hasher.cpp:88-106 | The key is derived with the configured number of iterations, below 2^31, for 32 bytes, and stored in the documented format |
| `PasswordHasher.StoulReads` | src/security/password_hasher.cpp:122-131 | What std::stoul makes of white space, sign, digits and what follows |
| `PasswordHasher.StoulDecimal` | src/security/password_hasher.cpp:110-131 | std::stoul inverts std::to_string |
| `Migration.CrashSafe` | src/database/migration_manager.cpp:32-86 | For ascending positive versions: after any runs with BEGIN, SQL, COMMIT, ROLLBACK or the version query failing or the process dying at any step, a prefix of the list is applied once each in order and exactly that prefix is recorded, iff no run lost a version insert or started over after a failed version query |
| `Migration.MigrateKeepsPrefix` | src/database/migration_manager.cpp:43-86 | One run that loses no version insert and does not start over keeps such a prefix and never takes a migration back |
| `Migration.SuccessCompletes` | src/database/migration_manager.cpp:43-86 | A successful run without a stale transaction completes the list and makes every later run that can read the version a successful no-op |
| `Migration.RunStops` | src/database/migration_manager.cpp:43-86 | A run stopped at its j-th pending migration has committed exactly those before it, and leaves a transaction open only if ROLLBACK fails or the version insert cannot be prepared; every fault spelled out |
| `Migration.RetryCompletes` | src/database/migration_manager.cpp:43-86 | When every ROLLBACK needed succeeds, a run leaves no transaction open, and a faultless retry completes the list |
| `Migration.RestartRecovers` | src/database/migration_manager.cpp:43-86 | After any runs that lost nothing, a restart and a faultless run complete the list |
| `Migration.OpenTransactionIsKept` | src/database/migration_manager.cpp:55-60 | Inside an open transaction a run changes nothing; it fails at BEGIN iff it finds anything to do |
| `Migration.SuccessIsCommittedIff` | src/database/migration_manager.cpp:43-86 | A run that reports success has the whole list committed iff it met no open transaction or the list was complete before |
| `Migration.SuccessAfterRunsIff` | src/database/migration_manager.cpp:43-86 | After any runs from an empty database whose version queries succeed: iff they left no open transaction |
| `Migration.CompletesIffAscending` | src/database/migration_manager.cpp:43-86 | A list can be released in any two parts and still ends up applied once each in order iff its versions are positive and strictly ascending |
| `Migration.SkippedForGood` | src/database/migration_manager.cpp:48-53 | For any other list, with a descent, equal versions or a version below 1, some release exists after which no runs ever complete it that read the version and record what they apply, whatever else befalls them |
| `Migration.PrefixIffIntact` | src/database/migration_manager.cpp:32-86 | The record matches the schema after a run iff no version insert failed in it and it did not commit its first migration again after a failed version query |
| `Migration.LostInsertAppliesTwice` | src/database/migration_manager.cpp:69-75 | Witness for the ignored insert result: a migration whose version row was lost is applied again |
| `Migration.FailedReadAppliesTwice` | src/database/migration_manager.cpp:32-41 | Witness for the version query: when stepping it fails the version counts as 0, and a recorded migration is applied and recorded again |
| `Migration.StaleTransactionHidesFailure` | src/database/migration_manager.cpp:77-82 | Witness for SuccessIsCommittedIff: after COMMIT and ROLLBACK both failed, the next run reports success though nothing was committed |
| `Migration.DescendingIsSkipped` | src/database/migration_manager.cpp:48-53 | Witness for CompletesIffAscending: two migrations out of order, applied whole in one release, lose one in two |
| `Migration.MaxOfPrefix` | src/database/migration_manager.cpp:32-41 | CurrentVersion of a recorded prefix is the version of its last migration, or 0 |
| `Migration.MigrationManager.Register` | src/database/migration_manager.cpp:17-20 | Appends to the list |
| `Migration.MigrationManager.CurrentVersion` | src/database/migration_manager.cpp:32-41 | The greatest recorded version, 0 on an empty table or a failed step, an exception when the query cannot be prepared |
| `Migration.MigrationManager.Migrate` | src/database/migration_manager.cpp:43-86 | The loop of small transactions leaves the database and outcome of the run specification, whatever faults it meets |
| `Heartbeat.TimedOutIff` | src/devices/heartbeat_monitor.cpp:22-44 | Along every run, m_timedOut is set iff a timeout was reported since the last Register or RecordHeartbeat |
| `Heartbeat.ReportedOnce` | src/devices/heartbeat_monitor.cpp:110-127 | Between two reports of one id there is a Register or RecordHeartbeat of it |
| `Heartbeat.RecordFollowsEvents` | src/devices/heartbeat_monitor.cpp:22-44 | By the events alone: a record has the timeout of the last Register and was last seen at the last Register or RecordHeartbeat |
| `Heartbeat.PresentIff` | src/devices/heartbeat_monitor.cpp:22-33 | A device has a record iff its last Register or Unregister was a Register |
| `Heartbeat.ReportsIff` | src/devices/heartbeat_monitor.cpp:110-127 | A scan reports a registered device iff it was last heard at least its timeout ago, in exact nanoseconds, and was not reported since; all by the events |
| `Heartbeat.TimeoutAfterLastSign` | src/devices/heartbeat_monitor.cpp:22-127 | The latency on a run: a device last heard at L and silent since is reported exactly once, in [L + timeout, L + timeout + gap], despite truncation to whole seconds |
| `Heartbeat.TimeoutLatency` | src/devices/heartbeat_monitor.cpp:110-127 | The same from any record |
| `Heartbeat.TruncationIsHarmless` | src/devices/heartbeat_monitor.cpp:119-121 | For a positive timeout the truncated comparison is the exact one; for one of zero or below it holds from just above one second less |
| `Heartbeat.HeartbeatMonitor.Register` | src/devices/heartbeat_monitor.cpp:22-27 | A new record, seen now and not timed out, replaces any old one |
| `Heartbeat.HeartbeatMonitor.Unregister` | src/devices/heartbeat_monitor.cpp:29-33 | Removes the record |
| `Heartbeat.HeartbeatMonitor.RecordHeartbeat` | src/devices/heartbeat_monitor.cpp:35-44 | A known device is seen now and no longer timed out; an unknown one is ignored |
| `Heartbeat.HeartbeatMonitor.ScanDevices` | src/devices/heartbeat_monitor.cpp:110-127 | Whatever the map order, reports precisely the registered, overdue, unreported ids, each once, and marks exactly those |
| `Heartbeat.HeartbeatMonitor.SlicedSleep` | src/devices/heartbeat_monitor.cpp:96-108 | Terminates; slices of at most a second sum to the poll interval unless stopped, and a stop is noticed before another slice |
| `SensorQuery.QueryMeansNewest` | src/database/sensor_repository.cpp:127-180 | The possible answers to the statement and parameters that Query builds are exactly the newest m_limit rows matching device, optional type and optional inclusive window, newest first |
| `SensorQuery.TextMeansNewest` | src/database/sensor_repository.cpp:127-180 | The same of the text that is sent: the cells it may be answered with are exactly those of the newest rows wanted |
| `SensorQuery.SqlTextIsInjective` | src/database/sensor_repository.cpp:131-151 | Conditions by column and comparison, and the direction of the order, can be read off the text |
| `SensorQuery.NamesAre` | src/database/sensor_repository.cpp:131-132 | The columns selected, by their names and in their order |
| `SensorQuery.ReadingIsWantedIff` | src/database/sensor_repository.cpp:134-151 | Which readings are asked for: by device, optional type and optional inclusive window in whole milliseconds |
| `SensorQuery.LimitFits` | src/database/sensor_repository.cpp:171 | The limit is bound as a 64-bit integer of the same bit pattern |
| `SensorQuery.PlaceholderCount` | src/database/sensor_repository.cpp:131-151 | The text has one placeholder per condition and one for the limit |
| `SensorQuery.SelectsWanted` | src/database/sensor_repository.cpp:134-171 | The conditions with the values bound to them hold of exactly the rows asked for |
| `Sensor.SqliteSensorRepository.BuildSql` | src/database/sensor_repository.cpp:131-151 | The appended clauses make the text of the chosen conditions |
| `Sensor.SqliteSensorRepository.BindParams` | src/database/sensor_repository.cpp:155-171 | Binding by running index gives every placeholder the value of its condition |
| `Sensor.SqliteSensorRepository.Query` | src/database/sensor_repository.cpp:127-180 | The whole call: text, parameters, and readings that are the newest rows wanted, column by column |
| `Sensor.BatchRefinesAdds` | src/database/sensor_repository.cpp:47-125 | For every connection: a batch succeeds iff no transaction is open and BEGIN, preparing the insert and COMMIT succeed, and then leaves what Add on each reading leaves: the old rows and those of known devices in order; any other batch commits nothing, and leaves the connection as it was unless ROLLBACK fails or preparing throws, which leaves the transaction open |
| `Sensor.OpenTransactionSwallows` | src/database/sensor_repository.cpp:47-125 | Once a transaction was left open, no later Add or AddBatch commits anything |
| `Sensor.SharedBatchIff` | src/database/sensor_repository.cpp:84-122 | With statements of the device repository in between, on the same connection: a committed batch leaves what all statements leave one by one, a failed one takes them back with its own; a device added in between is stored iff the batch commits |
| `Sensor.StatementsKeepForeignKeys` | src/database/schema.hpp:41 | Under the statements of both repositories every reading keeps a stored device |
| `Sensor.OfOthersKeeps` | src/database/schema.hpp:41 | The cascade of a deleted device leaves the readings of every other one, in order |
| `Sensor.AddAppends` | src/database/sensor_repository.cpp:47-73 | A prepared Add reports success; outside a transaction it appends exactly the row of a known device to the committed ones, inside one to the pending, and for an unknown device nothing |
| `Sensor.InsertedAllKeepsKnown` | src/database/sensor_repository.cpp:96-115 | The inserted rows are those of known devices, in order; others are dropped without a sign |
| `SensorQuery.ReadBack` | src/database/sensor_repository.cpp:32-45 | A stored reading comes back whole but for the part of a millisecond in its time |
| `Sensor.SqliteSensorRepository.Add` | src/database/sensor_repository.cpp:47-73 | Inserts the row of a known device and reports success either way; throws when the insert cannot be prepared |
| `Sensor.SqliteSensorRepository.AddBatch` | src/database/sensor_repository.cpp:75-125 | The loop in one transaction leaves the database and result of the batch specification |
| `Mqtt.MqttClient.Subscribe` | src/network/mqtt/mqtt_client.cpp:145-167 | Tracks topic and QoS iff connected and the request is accepted, with the error of the first check that fails |
| `Mqtt.MqttClient.Unsubscribe` | src/network/mqtt/mqtt_client.cpp:169-178 | Forgets the topic unconditionally |
| `Mqtt.MqttClient.ResubscribeAll` | src/network/mqtt/mqtt_client.cpp:227-236 | Re-issues exactly the tracked map, each topic once with its QoS |
| `Mqtt.MqttClient.OnConnected` | src/network/mqtt/mqtt_client.cpp:242-248 | Sets the flag and re-issues exactly the tracked map |
| `Mqtt.MqttClient.OnConnectionLost` | src/network/mqtt/mqtt_client.cpp:250-256 | Clears the flag and keeps the tracked map |
| `Devices.RouteIff` | src/devices/device_manager.cpp:180-200 | Splitting a topic at its last slash yields an id and subtopic iff the topic was built from them, for every id and every slash-free subtopic |
| `Devices.CoherentIffThreeTopics` | src/devices/device_manager.cpp:49-54 | Coherence means: the three topics of every stored device with their QoS, and no other |
| `DeviceCalls.SubscriptionsStayCoherent` | src/devices/device_manager.cpp:31-75 | Register, Unregister, SubscribeAll and messages split into their repository and client calls and interleaved, with connections lost and restored: as long as no device is brought in and taken out at the same time and needed requests are accepted, only topics of stored devices are tracked, and whenever no call is pending exactly those |
| `DeviceCalls.EveryInterleavingIff` | src/devices/device_manager.cpp:31-75 | Calls begun together while connected, with every request accepted: all their interleavings end coherent iff none unregisters a device that another registers or, stored before, SubscribeAll may subscribe |
| `DeviceCalls.ClashBreaksCoherence` | src/devices/device_manager.cpp:31-75 | Witness for every such pair: an interleaving that leaves topics tracked without a row |
| `DeviceCalls.CoherentIffInv` | src/devices/device_manager.cpp:31-75 | The invariant of overlapping calls is coherence when none is pending |
| `DeviceCalls.ConnectedIff` | src/network/mqtt/mqtt_client.cpp:242-256 | The client is connected iff the last change of the connection was its coming up |
| `DeviceCalls.RegisterAlone` | src/devices/device_manager.cpp:31-58 | Undisturbed, the steps of Register are its effect as a whole |
| `DeviceCalls.UnregisterAlone` | src/devices/device_manager.cpp:60-75 | The same for Unregister |
| `DeviceCalls.SubscribeAllAlone` | src/devices/device_manager.cpp:160-176 | The same for SubscribeAll |
| `DeviceCalls.MessageAlone` | src/devices/device_manager.cpp:180-244 | The same for a message |
| `DeviceCalls.CompletedMessage` | src/devices/device_manager.cpp:202-244 | A message with anything between its GetById and its Update leaves the row that was read, changed, if the device is still there; what it would do to the row now stored iff the two differ in no more than it sets |
| `DeviceCalls.MessageIsAtomic` | src/devices/device_manager.cpp:202-244 | While no other call unregisters the device or handles a message of it, a message acts as one atomic step |
| `DeviceCalls.StaleRowOverwritesNew` | src/devices/device_manager.cpp:202-244 | Witness: a device unregistered and registered anew in between gets its old row back |
| `Devices.RegisterKeepsCoherenceIff` | src/devices/device_manager.cpp:31-58 | An undisturbed Register keeps coherence iff the id was known, or the client is connected and all three requests are accepted |
| `Devices.UnregisterKeepsCoherenceIff` | src/devices/device_manager.cpp:60-75 | An undisturbed Unregister keeps coherence iff the id was unknown or the client is connected |
| `Devices.SubscribeAllEstablishes` | src/devices/device_manager.cpp:160-176 | Connected and accepted, SubscribeAll makes any part of the expected subscriptions complete |
| `Devices.MessageTouchesItsDevice` | src/devices/device_manager.cpp:180-244 | For every topic, undisturbed: subscriptions and ids stay, only the liveness fields of the device the topic was built for may change, and exactly when and how they do |
| `Devices.LiteralTopics` | src/devices/device_manager.cpp:49-54 | The status, sensors and heartbeat topics of a device, as texts, and the QoS of each |
| `Devices.LiteralMessages` | src/devices/device_manager.cpp:202-244 | What a message to each of these texts does to a stored device |
| `Devices.UnknownIsIgnored` | src/devices/device_manager.cpp:202-244 | A message about a device that is not stored changes nothing |
| `Devices.RowsFollowCalls` | src/devices/device_manager.cpp:31-75 | A new device is stored as given, a known row is not touched, Unregister removes exactly its row, and undoes the Register of a new device altogether |
| `Devices.DeviceManager.Register` | src/devices/device_manager.cpp:31-58 | Stores a new device offline and seen now, keeps the row of a known id, reports the new data either way, and subscribes when connected |
| `Devices.DeviceManager.Unregister` | src/devices/device_manager.cpp:60-75 | Unsubscribes when connected, removes the row, and reports an unknown device |
| `Devices.DeviceManager.SubscribeAll` | src/devices/device_manager.cpp:160-176 | Three requests per listed device, results ignored |
| `Devices.DeviceManager.HandleMqttMessage` | src/devices/device_manager.cpp:180-244 | Routes by the last slash and updates the store accordingly |
| `Rules.IdsChangeByAddAndRemove` | src/automation/rule_repository.cpp:11-42 | In every interleaving rules stay under their own ids, and the stored ids are those the additions and removals alone leave |
| `Rules.CompletedToggle` | src/automation/rule_engine.cpp:60-80 | Enable or disable with anything between its two locked steps leaves the rule it read with only the flag set, if the id is still there |
| `Rules.UnknownToggle` | src/automation/rule_engine.cpp:60-80 | Enabling or disabling a rule that is not there changes nothing, then or later |
| `Rules.ToggleIsAtomic` | src/automation/rule_engine.cpp:60-80 | When all pending copies agree with the rule off the flag and nothing in between updates or removes it, the toggle acts as one atomic step, whatever other toggles overlap |
| `Rules.ToggleIsAtomicIff` | src/automation/rule_engine.cpp:60-80 | With anything in between, on a rule that is still there: atomic iff the last write of the rule, by Add, Update or the write-back of another caller, if any, has the content that was read; otherwise the write-back undoes it |
| `Rules.LastWrittenStays` | src/automation/rule_repository.cpp:11-42 | A stored rule is the one written last |
| `Rules.UpdateInBetweenIsLost` | src/automation/rule_engine.cpp:60-80 | With nothing else in between, all of the update is lost |
| `Rules.ReAddedRuleIsLost` | src/automation/rule_engine.cpp:60-80 | Witness without an Update: a rule removed and added anew in between gets its old content back |
| `Rules.OrderIsIrrelevant` | src/automation/rule_engine.cpp:29-40 | The fired actions, as a multiset, do not depend on the order in which rules are listed |
| `Rules.FiresFromStore` | src/automation/rule_engine.cpp:19-43 | An action fires iff a stored enabled rule that has it has conditions, and each names the sensor of the reading and holds of its value |
| `Rules.FiredByCounts` | src/automation/rule_engine.cpp:29-40 | It fires as often as the rules that fire have it, added up |
| `Rules.ConditionsNarrow` | src/automation/condition_evaluator.cpp:42-54 | A further condition never makes a rule with conditions fire; none at all never fires |
| `Rules.OperatorLaws` | src/automation/condition_evaluator.cpp:24-38 | The six operators by the laws of order |
| `Rules.RuleRepository.Add` | src/automation/rule_repository.cpp:11-20 | Refuses a known id, else stores under the rule's id |
| `Rules.RuleRepository.Update` | src/automation/rule_repository.cpp:22-32 | Replaces a known rule, else DataNotFound |
| `Rules.RuleRepository.Remove` | src/automation/rule_repository.cpp:34-42 | Removes a known rule, else DataNotFound |
| `Rules.RuleRepository.GetById` | src/automation/rule_repository.cpp:44-53 | The stored rule or DataNotFound |
| `Rules.RuleRepository.GetEnabled` | src/automation/rule_repository.cpp:67-79 | Each enabled rule once and no other, in any map order |
| `Rules.RuleEngine.Evaluate` | src/automation/rule_engine.cpp:19-43 | The fired actions are those of enabled rules all of whose conditions, at least one, hold; each as often as those rules have it; in any map order |
| `Rules.RuleEngine.SetEnabled` | src/automation/rule_engine.cpp:60-80 | Undisturbed, sets the flag of a known rule and nothing else, or reports DataNotFound |

## Left out

- Sockets, the accept loop, Beast, Asio and Paho internals, threads: only the callbacks they trigger, as events in any order.
- The lifetime of the message buffer during async_write, which is a local in DoWrite (src/network/websocket/ws_session.cpp:103): bytes on the wire are not modelled.
- `WsServer::Stop`, `WsSession::Close` and the read loop beyond the disconnects it causes.
- JSON text, SHA-256, HMAC and PBKDF2: parameters. A claim with invalid UTF-8, on which dump throws, and floating-point or boolean members, which value() would convert, are not modelled.
- Signed overflow of iat + expiry and of other 64-bit clock arithmetic: unbounded integers.
- HTTP router, middleware, access-control table and controllers: short branches that would add easy members.
- `Jwt.VerifyToken`, `Auth.LogoutRefusesExactly`: a `Logout` that lands between the revocation check and the return of `RefreshToken` or `ValidateToken`; both take effect at that check.
- `Auth.AuthenticationService.Login`: holding m_mutex throughout; each call is one step.
- SQLite itself, including partial effects of multi-statement scripts inside a transaction that is rolled back, row ids, disk errors of single inserts, and texts with embedded zero bytes.
- `Sensor.SqliteSensorRepository.Query`: the rows that stepping yields are a parameter, constrained by the meaning of the statement; `Purge` is a single DELETE.
- Sensor values and thresholds are reals: no NaN, no rounding.
- The callback that PollLoop runs after releasing the lock; the model speaks of the scan's list. `TimeSinceLastSeen` is a read.
- `MqttClient::Connect`'s wait on a condition variable, `Disconnect` beyond the flag, `Publish`, and races between a library call and the map update inside one Subscribe or Unsubscribe.
- `DeviceManager::List`, `SendCommand`, callbacks and the parsing of message JSON, whose outcome is a parameter.
- `Devices.DeviceManager.Register`, `Devices.DeviceManager.Unregister`, `Devices.DeviceManager.SubscribeAll`, `Devices.DeviceManager.HandleMqttMessage`: the undisturbed call; overlapping calls are those of module `DeviceCalls`.
- Device repository rows beyond a map by id whose Add keeps an existing row (src/database/device_repository.cpp:99-105).
- Logging, configuration, application wiring, metrics, the Flutter client.
