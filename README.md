# Cursor Crisis: a verified model of the game client and its backend

Cursor Crisis (also called Desktop Survivor Dash) is a survival game. A C++ client built on SDL and ImGui
talks over HTTP to a Node/Express backend that keeps accounts, skills, sessions and scores in
Supabase. This project models the logic of both sides in Dafny and proves what that logic promises.

**The client:**
- `GameLoop` is the stack of screens (push, pop, change, with the enter, exit, pause and resume
  calls in their order), the frame clock with its 32-bit tick wrap-around and 50 ms cap, the FPS
  counter and the run loop.
- `Input` holds the current and previous key and mouse maps and the pressed and down queries.
- `Play` is one run of the game: a class with the source's fields. Its frame is split into stages:
  the three point timers, spawning, pursuit movement, circle collisions, compaction of dead
  entities, the score formula, and game over. It also keeps the save and restore snapshot,
  restart, and the session requests with their delivery callbacks.
- `AuthNetwork` is the request queue. `Update` dispatches the front request. A dispatched request
  completes later, in any order. It also models the 2xx classification, the JSON bodies the client
  sends, and the reading of the server's answers.
- `AuthChoice` is the sign-in screen: form validation (lengths in UTF-8 bytes, first error wins), screen flags, e-mail
  checks and the one-shot hand-off to the home screen.
- `Home` is the home screen: UI modes, default progress, the in-place skill upgrade pass and
  `FormatTime`.

**The backend:**
- `SkillService`: the upgrade price, eligibility, purchase and grouping by category.
- `UserService`: account creation and sign-in dispatch, the profile statistics a game adds, and
  the leaderboard ranking.
- `ScoreService`: personal bests, running totals, the combined save and the table each board reads.
- The routes, as replies built from their inputs: `AuthRoutes`, `SkillRoutes`, `UserRoutes`,
  `GameRoutes` and `LeaderboardRoutes`.
- `Api` holds the reply shapes and the express-validator checks the routes share.
- `Json` models JSON documents as both sides read them.
- `Common` holds the integer and text conversions (C++ truncation, `std::to_string`, JavaScript
  `parseInt`).

Several client files exist twice in the repository with identical text:
- `src/Game.cpp` and `frontend/src/src/Game.cpp`;
- `src/PlayState.cpp` and `frontend/src/PlayState.cpp`;
- `frontend/src/AuthNetworkManager.cpp` and `frontend/src/src/AuthNetworkManager.cpp`;
- `frontend/src/Input.cpp` and `frontend/src/src/Input.cpp`.

One model serves each pair, and the table below cites one copy.

Database rows, query failures, `rand()` values, clock readings, the JSON parser and the
e-mail validator are inputs or function parameters. The request bodies each side builds are
connected across the boundary: `GameRoutes` proves what the client's session-end and progress
bodies become once the server has read them.

## Model

| member | source | states |
|---|---|---|
| Common.NatToString | frontend/src/HomeState.cpp:381 | the decimal text of a non-negative number is non-empty, all digits, and has no leading zero |
| Common.IntToString | frontend/src/HomeState.cpp:381 | the text of a number is non-empty and starts with '-' exactly when the number is negative |
| Common.IntToStringRoundTrip | frontend/src/HomeState.cpp:381 | reading the printed text of any integer back as a decimal gives the integer again |
| Common.Trunc | frontend/src/HomeState.cpp:342 | the float-to-int cast drops the fraction toward zero: the result is within one of the value and on the same side of zero |
| Common.Quot | frontend/src/HomeState.cpp:378-379 | integer division by a positive divisor rounds toward zero for negative dividends as well |
| Common.Rem | frontend/src/HomeState.cpp:380 | quotient times divisor plus remainder gives the dividend back, and the remainder lies strictly inside the divisor on the dividend's side of zero |
| Common.SubUint32 | src/Game.cpp:273 | the difference of two 32-bit tick counts stays a 32-bit count and is the plain difference, or that difference plus 2^32 when the later count has wrapped |
| Common.Filter | frontend/src/PlayState.cpp:337-338 | removing the inactive entries never lengthens the list |
| Common.FilterKeeps | frontend/src/PlayState.cpp:337-338 | every entry left after the removal passes the test |
| Common.FilterMembership | frontend/src/PlayState.cpp:337-338 | an entry is left after the removal exactly when it was in the list and passes the test |
| Common.Compact | frontend/src/PlayState.cpp:337-338 | the removal loop leaves exactly the entries that pass the test, in their original order |
| Common.ParseIntJsOfIntToString | backend/src/routes/gameRoutes.js:214 | parseInt reads back every integer as its decimal text prints it |
| Json.Object | frontend/src/AuthNetworkManager.cpp:305-315 | a request body built member by member is a JSON object |
| Json.ObjectMemberAt | frontend/src/AuthNetworkManager.cpp:305-315 | a key assigned once, and not again later, holds the value assigned to it in the finished body |
| Json.ObjectLacks | frontend/src/AuthNetworkManager.cpp:305-315 | a key never assigned is absent from the finished body |
| Json.AsBool | frontend/src/AuthNetworkManager.cpp:243 | reading a flag succeeds exactly on a JSON boolean |
| Json.AsString | frontend/src/AuthNetworkManager.cpp:244-245 | reading a text succeeds exactly on a JSON string |
| Json.AsInt | frontend/src/AuthNetworkManager.cpp:254-257 | reading a whole number succeeds exactly on a number or a boolean, and gives an integral number unchanged |
| Json.Number | frontend/src/AuthNetworkManager.cpp:310 | a float written into a request keeps its value, as an integer when it has no fraction |
| Json.Field | backend/src/routes/gameRoutes.js:55 | a body member is defined exactly when the body is an object that has the key |
| Json.OrElse | backend/src/routes/gameRoutes.js:63-73 | `value or fallback` gives a truthy value unchanged and the fallback for undefined, null, false, 0 and the empty text |
| Json.OrDefault | backend/src/routes/gameRoutes.js:14 | a destructuring default replaces only an undefined member; null, false, 0 and "" are kept |
| Api.VisibleLength | backend/src/routes/auth.js:26 | the length the validator measures never exceeds the number of characters |
| Api.VisibleLengthWithoutSelectors | backend/src/routes/auth.js:26 | without variation selectors the measured length is the number of characters |
| Api.UsernameErrorsExact | backend/src/routes/auth.js:25-29 | a username passes exactly when it has 3 to 20 characters, all letters, digits or underscores; a failing one gets one or two messages, all under the username field |
| Common.ParseIntJs | backend/src/routes/leaderboard.js:13 | blank text and text that starts with neither a digit nor a sign read as NaN; a negative value needs a leading minus sign |
| GameLoop.Popped | src/Game.cpp:153-162 | popping a non-empty stack removes exactly one screen |
| GameLoop.ReplayAppend | src/Game.cpp:145-171 | replaying two records of lifecycle calls one after the other equals replaying them joined |
| GameLoop.ReplayTwo | src/Game.cpp:145-171 | a record of one or two lifecycle calls describes the stack those calls make, step by step |
| GameLoop.PushCallsReplay | src/Game.cpp:145-151 | the calls PushState makes (pause the old top if any, then enter the new screen) describe the stack with the new screen on top |
| GameLoop.PopCallsReplay | src/Game.cpp:153-162 | the calls PopState makes (exit the top, then resume the screen below if any) describe the stack without its top |
| GameLoop.ChangeCallsReplay | src/Game.cpp:164-171 | the calls ChangeState makes describe the stack with its top replaced, or with the new screen alone |
| GameLoop.PushThenPop | src/Game.cpp:145-162 | pushing then popping gives the stack back, and the screen below is paused before and resumed after the pushed screen's lifetime |
| GameLoop.ChangeIsPopThenPush | src/Game.cpp:145-171 | ChangeState leaves the same stack as PopState then PushState, but skips the resume and pause of the screen below |
| GameLoop.EventDispatches | src/Game.cpp:297-324 | an empty stack receives no event; otherwise one call per event |
| GameLoop.EventDispatchesGoToTop | src/Game.cpp:319-322 | every event goes to the top screen, in the order SDL delivered them |
| GameLoop.TopDispatch | src/Game.cpp:326-363 | an update or a render calls only the top screen, and nothing when the stack is empty |
| GameLoop.CappedDeltaBounds | src/Game.cpp:271-280 | the delta time is the elapsed milliseconds over 1000, never more than 0.05 seconds and never negative |
| GameLoop.DeltaAcrossWrapAround | src/Game.cpp:271-274 | when SDL's 32-bit tick counter wraps between frames, the unsigned subtraction still gives the true elapsed time |
| GameLoop.Game.constructor | src/Game.cpp:14-28 | a new game has no screens, is not running, is windowed at 1280x720, and has its timers and counters at zero |
| GameLoop.Game.PushState | src/Game.cpp:145-151 | the screen goes on top and the lifecycle record gains the pause of the old top and the entry of the new screen; the record still describes the stack |
| GameLoop.Game.PopState | src/Game.cpp:153-162 | the top is exited and removed and the screen below is resumed; an empty stack is left alone |
| GameLoop.Game.ChangeState | src/Game.cpp:164-171 | the old top, if any, is exited and removed, then the new screen is entered on top |
| GameLoop.Game.Initialize | src/Game.cpp:92-99 | the sign-in screen is pushed as the first screen, the game runs, and both clocks start at the current tick |
| GameLoop.Game.Shutdown | src/Game.cpp:113-117 | the stack is emptied without any screen being exited |
| GameLoop.Game.SetFullscreen | src/Game.cpp:173-186 | asking for the current window mode changes nothing; otherwise the mode switches once |
| GameLoop.Game.CalculateDeltaTime | src/Game.cpp:271-280 | the delta time is the capped time since the last frame over 32-bit ticks, and the frame time moves to now |
| GameLoop.Game.UpdateFPS | src/Game.cpp:282-295 | the frame is counted; once at least 1000 ms have passed the rate becomes frames times 1000 over the elapsed time and counting restarts |
| GameLoop.Game.HandleEvents | src/Game.cpp:297-324 | a quit event stops the game, the last resize sets the window size, and every event goes to the top screen only |
| GameLoop.Game.Update | src/Game.cpp:326-336 | the input's frame ends and only the top screen is updated with the delta time |
| GameLoop.Game.Render | src/Game.cpp:338-363 | only the top screen draws, its scene first and then its interface |
| GameLoop.Game.Run | src/Game.cpp:102-111 | the loop stops only when the game stops running, the stack is empty or the frames run out, and every frame's delta time stays within the cap |
| Input.InputState.constructor | src/Input.h:29-35 | a new input has no key or button recorded and the mouse at (0, 0) |
| Input.InputState.IsKeyDown | frontend/src/Input.cpp:55-58 | a key is down exactly when this frame's map holds it as pressed; an absent key is up |
| Input.InputState.IsKeyPressed | frontend/src/Input.cpp:45-53 | a key is pressed exactly when it is down now and was not down in the previous frame (an absent entry counts as up) |
| Input.InputState.IsMouseButtonDown | frontend/src/Input.cpp:35-38 | a button is down exactly when this frame's map holds it as pressed |
| Input.InputState.IsMouseButtonPressed | frontend/src/Input.cpp:25-33 | a button is pressed exactly when it is down now and was not down in the previous frame (an absent entry counts as up) |
| Input.InputState.GetMousePosition | frontend/src/Input.cpp:40-43 | gives back the stored mouse position |
| Input.InputState.Update | frontend/src/Input.cpp:14-18 | this frame's state becomes the previous one, so right after an update no key or button is pressed |
| Input.InputState.HandleEvent | frontend/src/Input.cpp:20-23 | events are not recorded: an input that recorded nothing still has no key or button down |
| Input.IdleInputReportsNothing | frontend/src/Input.cpp:25-58 | an input that recorded nothing reports every key and button as up and unpressed |
| Play.CollisionIsDistanceTest | frontend/src/PlayState.cpp:376-381 | the squared-distance test used here agrees with the source's test that the Euclidean distance is below the sum of the radii, in both directions |
| Play.MarkEnemyDeactivatesHits | frontend/src/PlayState.cpp:350-358 | after the collision test an enemy stays active exactly when it was active and not touching the player; only its flag changes |
| Play.MarkPowerUpDeactivatesHits | frontend/src/PlayState.cpp:361-369 | after the collision test a power-up stays active exactly when it was active and not touching the player; only its flag changes |
| Play.ActiveEnemiesKeepsExactly | frontend/src/PlayState.cpp:337-338 | erasing the inactive enemies keeps every active one and nothing else, and never lengthens the list |
| Play.ActivePowerUpsKeepsExactly | frontend/src/PlayState.cpp:372-373 | erasing the inactive power-ups keeps every active one and nothing else |
| Play.ActiveEnemiesOfActive | frontend/src/PlayState.cpp:337-338 | erasing from a list that is all active changes nothing |
| Play.ActiveEnemiesAppend | frontend/src/PlayState.cpp:337-338 | erasing keeps the survivors in their original order: it distributes over concatenation |
| Play.ActiveEnemiesIsFilter | frontend/src/PlayState.cpp:337-338 | erasing the inactive enemies is the order-preserving filter on the activity flag |
| Play.ActivePowerUpsIsFilter | frontend/src/PlayState.cpp:372-373 | erasing the inactive power-ups is the order-preserving filter on the activity flag |
| Play.MarkEnemyHits | frontend/src/PlayState.cpp:350-358 | the collision pass keeps the length of the enemy list |
| Play.MarkPowerUpHits | frontend/src/PlayState.cpp:361-369 | the collision pass keeps the length of the power-up list |
| Play.MarkEnemyHitsAt | frontend/src/PlayState.cpp:350-358 | the collision pass works in place: enemy i afterwards is enemy i with its hit flag set by the collision test |
| Play.MarkPowerUpHitsAt | frontend/src/PlayState.cpp:361-369 | the collision pass works in place: power-up i afterwards is power-up i with its hit flag set by the collision test |
| Play.HitsDeactivateExactly | frontend/src/PlayState.cpp:350-358 | every hit takes exactly one enemy out of the active ones |
| Play.PickUpsDeactivateExactly | frontend/src/PlayState.cpp:361-369 | every pick-up takes exactly one power-up out of the active ones |
| Play.NoActiveEnemyOverlaps | frontend/src/PlayState.cpp:350-358 | after the collision pass no enemy left active overlaps the player, and such an enemy is unchanged |
| Play.Jitter | frontend/src/PlayState.cpp:275 | the sideways speed of a new enemy, (rand() % 100 - 50) / 10, lies in [-5, 5) |
| Play.Speed | frontend/src/PlayState.cpp:276 | the inward speed of a new enemy, 50 + rand() % 50, lies in [50, 100) |
| Play.SpawnedEnemyEntersScreen | frontend/src/PlayState.cpp:263-299 | a new enemy is active, one of four kinds sized 20 + 5 per kind, just off screen inside the keep area, and heading inwards across its edge at 50 or more |
| Play.SpawnedPowerUpIsInside | frontend/src/PlayState.cpp:301-310 | a new power-up is active, one of three kinds, with its pulse at zero and at least 100 pixels inside the screen |
| Play.MoveEnemyCullsOutsideKeepArea | frontend/src/PlayState.cpp:312-334 | an inactive enemy does not move; a moved enemy stays active exactly when it lands inside the keep area; kind and size never change; an enemy on the player keeps its velocity |
| Play.MoveEnemies | frontend/src/PlayState.cpp:313-334 | the movement pass keeps the length of the enemy list |
| Play.MoveEnemiesAt | frontend/src/PlayState.cpp:313-334 | the movement pass works in place: enemy i afterwards is enemy i moved |
| Play.MoveEnemiesAppend | frontend/src/PlayState.cpp:313-334 | the movement pass distributes over concatenation |
| Play.EnemyPassKeepsExactly | frontend/src/PlayState.cpp:312-339 | the enemy update keeps a moved enemy exactly when it was active and landed inside the keep area |
| Play.EnemyPassKeepsOrder | frontend/src/PlayState.cpp:312-339 | the enemy update keeps the survivors in their original order |
| Play.PulsePowerUps | frontend/src/PlayState.cpp:341-346 | the pulse pass keeps the length of the power-up list |
| Play.PulsePowerUpsAt | frontend/src/PlayState.cpp:341-346 | the pulse pass works in place: power-up i afterwards is power-up i pulsed |
| Play.PulseChangesOnlyPulseTimes | frontend/src/PlayState.cpp:341-346 | the pulse pass changes only pulse times, and advances by dt exactly the active power-ups |
| Play.EnemySpawned | frontend/src/PlayState.cpp:169-171 | the list only grows: one new enemy is appended when twice the game time, truncated, exceeds the list's length, and none otherwise |
| Play.PowerUpSpawned | frontend/src/PlayState.cpp:174-176 | one new power-up is appended when the game time over 5, truncated, exceeds the list's length, and none otherwise |
| Play.MovedAreActive | frontend/src/PlayState.cpp:312-339 | every enemy that survives the movement step is active |
| Play.FrameGrowsByAtMostOneEnemy | frontend/src/PlayState.cpp:168-183 | a frame adds at most one enemy, and none when no spawn is due |
| Play.FrameLeavesNoActiveOverlap | frontend/src/PlayState.cpp:168-183 | after a frame no enemy left active overlaps the player |
| Play.LivesLostAreDeactivatedEnemies | frontend/src/PlayState.cpp:350-358 | every life lost in a frame is an enemy that the frame deactivated, and a frame costs at most one life per enemy |
| Play.FrameGrowsByAtMostOnePowerUp | frontend/src/PlayState.cpp:173-183 | a frame adds at most one power-up, and none when no spawn is due |
| Play.FrameKeepsOnlyActivePowerUps | frontend/src/PlayState.cpp:361-373 | every power-up left after a frame is active |
| Play.PickUpsAreErasedPowerUps | frontend/src/PlayState.cpp:361-373 | every power-up collected in a frame is one the frame erased |
| Play.TimerAfter | frontend/src/PlayState.cpp:546-569 | a point timer stays in [0, interval): it restarts at zero when it fires and otherwise accumulates dt |
| Play.DamageTaken | frontend/src/PlayState.cpp:618 | damage taken is 100 per life lost: zero with all three lives, a positive multiple of 100 otherwise |
| Play.WaveReached | frontend/src/PlayState.cpp:619 | the wave reported is one per full 30 seconds survived, starting at 1 |
| Play.SessionIdFrom | frontend/src/PlayState.cpp:68-103 | a session id is taken only from a successful response whose JSON has a text sessionId, and every such response yields it |
| Play.MarkEnemies | frontend/src/PlayState.cpp:350-358 | the collision loop over the enemies deactivates exactly the hit enemies, in place, and counts the hits |
| Play.MarkPowerUps | frontend/src/PlayState.cpp:361-369 | the collision loop over the power-ups deactivates exactly the collected ones, in place, and counts them |
| Play.PlayState.constructor | frontend/src/PlayState.cpp:16-40 | a new game has the player at the screen centre (640, 360), three lives, zero time, score, points and timers, empty lists, no checkpoint, no pause or game over, no session, and a fresh network manager |
| Play.PlayState.SetAuthToken | frontend/src/PlayState.cpp:44-49 | the token goes to the state's network manager |
| Play.PlayState.StartGameSession | frontend/src/PlayState.cpp:60-104 | one session-start request is queued, answered through the session-start callback |
| Play.PlayState.OnEnter | frontend/src/PlayState.cpp:51-58 | entering the screen asks for a new session |
| Play.PlayState.Deliver | frontend/src/PlayState.cpp:68-103 | the start callback records the session id and marks the session started only when the response carries one; the end callback (lines 639-641) always clears the session |
| Play.PlayState.SaveProgressToServer | frontend/src/PlayState.cpp:572-601 | with a started session that has an id, one progress request with score, points, time and lives is queued; otherwise nothing is sent |
| Play.PlayState.EndGameSession | frontend/src/PlayState.cpp:603-644 | with a started session that has an id, one end request with the final results, zero kills and damage dealt, the damage taken and the wave reached is queued; otherwise nothing is sent |
| Play.PlayState.OnExit | frontend/src/PlayState.cpp:106-117 | leaving the screen ends a running session and sends nothing otherwise |
| Play.PlayState.SaveGameState | frontend/src/PlayState.cpp:207-215 | the checkpoint becomes a copy of time, score, points and both entity lists |
| Play.PlayState.RestoreGameState | frontend/src/PlayState.cpp:217-228 | the game returns to the checkpoint with three lives, no game over and no pause |
| Play.PlayState.CopySnapshot | frontend/src/PlayState.cpp:218-223 | time, score, points and both entity lists are copied back from the checkpoint |
| Play.PlayState.ResetRun | frontend/src/PlayState.cpp:237-246 | time, score and points go to zero and both entity lists are emptied |
| Play.PlayState.ResetSaved | frontend/src/PlayState.cpp:247-252 | the checkpoint is cleared |
| Play.PlayState.ResetPlay | frontend/src/PlayState.cpp:239-255 | three lives, all point timers at zero, no game over, no pause, no Continue |
| Play.PlayState.RestartGame | frontend/src/PlayState.cpp:230-261 | a running session is ended first, everything is reset, the timer invariant holds, and a new session is asked for |
| Play.PlayState.HandleEscape | frontend/src/PlayState.cpp:122-127 | ESC toggles the pause and its menu together, except on the game-over screen |
| Play.PlayState.HandleQuitKey | frontend/src/PlayState.cpp:128-135 | Q sends the progress and then ends a running session; without a session nothing is sent |
| Play.PlayState.QuitToMenu | frontend/src/PlayState.cpp:128-139 | Q queues the progress and the session end, the state change's OnExit (lines 106-117) queues the end once more, and the change then destroys the state with its network manager (frontend/src/src/Game.cpp:164-170), so all queued requests are discarded and nothing reaches a worker |
| Play.PlayState.HandleMouseMotion | frontend/src/PlayState.cpp:141-145 | mouse motion moves the player to the cursor, except on the game-over screen |
| Play.PlayState.Resume | frontend/src/PlayState.cpp:486-489 | the Resume button clears the pause and its menu |
| Play.PlayState.ContinueButton | frontend/src/PlayState.cpp:520-524 | with a checkpoint the game returns to it with full lives, unpaused and not over; without one the button is not offered and nothing changes |
| Play.PlayState.MainMenuButton | frontend/src/PlayState.cpp:495-497 | the Main Menu button's state change queues the session end of an active session through OnExit and then destroys the state, so the whole queue is discarded and nothing more reaches a worker |
| Play.PlayState.AwardPoints | frontend/src/PlayState.cpp:544-562 | one leaderboard point per half second and one skill point per second, each timer restarting when it fires |
| Play.PlayState.UpdatePointSystem | frontend/src/PlayState.cpp:544-570 | the point timers tick and stay in range; every five seconds progress is sent and the checkpoint becomes the current game; otherwise the checkpoint is left alone |
| Play.PlayState.SpawnEnemies | frontend/src/PlayState.cpp:263-299 | the spawned enemy is appended to the list |
| Play.PlayState.SpawnPowerUps | frontend/src/PlayState.cpp:301-310 | the spawned power-up is appended to the list |
| Play.PlayState.UpdateEnemies | frontend/src/PlayState.cpp:312-339 | the list becomes the moved enemies that are still active, in their original order |
| Play.PlayState.UpdatePowerUps | frontend/src/PlayState.cpp:341-346 | the list becomes the pulsed power-ups |
| Play.PlayState.CheckCollisions | frontend/src/PlayState.cpp:348-374 | hit enemies are deactivated and each costs one life; collected power-ups are erased and each adds 50 to the score |
| Play.PlayState.AdvanceClock | frontend/src/PlayState.cpp:162-166 | the clock advances by dt, points are awarded on the timers, and the checkpoint is taken every five seconds |
| Play.PlayState.SpawnAll | frontend/src/PlayState.cpp:168-176 | an enemy and a power-up spawn when the game time has run ahead of their lists; validity, the checkpoint and the session are kept |
| Play.PlayState.MoveAndCollide | frontend/src/PlayState.cpp:178-183 | enemies move and are culled, power-ups pulse, then collisions cost lives and collect power-ups |
| Play.PlayState.FinishFrame | frontend/src/PlayState.cpp:185-204 | the score is 25 per second survived (truncated) plus 10 per enemy plus 2 per leaderboard point; with no lives left the game is over, Continue is offered when a checkpoint exists, and the session is ended; validity, the checkpoint and the session are kept |
| Play.PlayState.CollideAndScore | frontend/src/PlayState.cpp:178-204 | movement, collisions, the new score and the game-over check together; validity, the checkpoint and the session are kept |
| Play.PlayState.PlayEntities | frontend/src/PlayState.cpp:168-204 | a frame's entity lists, lives and score are the frame functions of the lists before it; with no lives left the game is over and the session end is queued; validity, the checkpoint and the session are kept |
| Play.PlayState.RunFrame | frontend/src/PlayState.cpp:162-204 | the clock advances by dt and the timers award their points; the entities are the frame's spawn, movement and collision results at the new game time; lives drop by the enemies hit; the score is truncated game time times 25 plus 10 per enemy plus twice the leaderboard points; with no lives left the game is over and Continue is offered exactly when a checkpoint exists; the checkpoint, when taken, holds the entities and score from before the play; the queue gains the progress save (score and lives from before the play) and, on game over, the session end |
| Play.PlayState.Update | frontend/src/PlayState.cpp:148-205 | the network manager hands its front request to a worker every frame; a paused or finished game changes nothing else; a running game advances its clock, awards the timers' points, takes the checkpoint every five seconds, plays its entities, recomputes the score, is over exactly when no lives are left (and leaves canContinue alone while lives remain), and queues the progress save and session end after the pumped queue |
| Play.PlayState.QuitToMenuFlushed | frontend/src/PlayState.cpp:128-139 | corrected quit: the queued requests, ending with the progress save and the session end, are all handed to workers in order before the state goes, leaving the queue empty |
| AuthNetwork.VerbName | frontend/src/AuthNetworkManager.cpp:137-142 | a request is sent either as GET or as POST |
| AuthNetwork.Encode | frontend/src/AuthNetworkManager.cpp:266-318 | only a request built without a body is sent with an empty body; every game request is sent as its JSON document |
| AuthNetwork.Headers | frontend/src/AuthNetworkManager.cpp:145-151 | the JSON content type always comes first, and a bearer authorization header follows exactly when a token is set |
| AuthNetwork.StatusErrorRoundTrip | frontend/src/AuthNetworkManager.cpp:173 | the "HTTP <code>" error text keeps the status code: it can be read back from the text |
| AuthNetwork.ClassifyHttp | frontend/src/AuthNetworkManager.cpp:176-197 | a plain request succeeds exactly when the exchange was performed with a 2xx status; it carries the status and body; a failed status is named in the error; a transport failure passes on curl's message with no body |
| AuthNetwork.TextMember | frontend/src/AuthNetworkManager.cpp:244-253 | an absent text member reads as the empty text, and a present one reads exactly when it is a string |
| AuthNetwork.CountMember | frontend/src/AuthNetworkManager.cpp:254-257 | an absent number member reads as its default, and a present one is the library's integer conversion of it |
| AuthNetwork.ReadUser | frontend/src/AuthNetworkManager.cpp:247-258 | reading the user block never changes the success flag or the token |
| AuthNetwork.ReadMemberAt | frontend/src/AuthNetworkManager.cpp:249-257 | the i-th user read is its member (a text for the five texts, an integer conversion for the four counts) or, when absent, "" or the count's default (level 1, experience 0, skill points 0, coins 50), and fails exactly when the getter rejects the member's type |
| AuthNetwork.ReadUserInOrder | frontend/src/AuthNetworkManager.cpp:247-258 | for every user block and starting response, each field before the first mistyped member is that member's read value, each field from it on keeps the response's value, and the error becomes the parse-failure text exactly when some member is mistyped |
| AuthNetwork.ReadAuthDocument | frontend/src/AuthNetworkManager.cpp:243-258 | success holds exactly when the success member is true; the error is the parse-failure text exactly when some getter throws, and otherwise the error member or ""; the token is its member or "" when no getter before it threw, and "" otherwise; user fields before the first mistyped user member are their members or defaults and all others stay blank, as they do without a user member |
| AuthNetwork.ParseAuthResponse | frontend/src/AuthNetworkManager.cpp:236-264 | text that is not JSON gives a blank response with the parse-failure error; for a parsed document, success holds exactly when its success member is true, the error and the token are their members, "" or the parse-failure text according to the first throwing getter, and the user fields are those the document read yields |
| AuthNetwork.WellTypedDocumentFields | frontend/src/AuthNetworkManager.cpp:243-258 | a document whose every member has the type its getter expects is read without the parse-failure error: error and token are their members or "", and every user field is its member or its default |
| AuthNetwork.MistypedUserMemberStopsTheRead | frontend/src/AuthNetworkManager.cpp:247-262 | a mistyped user member leaves the parse-failure error whatever the document's error member says, keeps the token and the user fields read before it, and leaves the rest blank |
| AuthNetwork.ReadWellTypedDocument | frontend/src/AuthNetworkManager.cpp:243-246 | a document with a boolean success and a text token is read without error and yields both |
| AuthNetwork.UserDefaults | frontend/src/AuthNetworkManager.cpp:247-258 | missing user members default to empty texts, level 1, experience 0, skill points 0 and 50 coins |
| AuthNetwork.NestedTokenIsNotRead | frontend/src/AuthNetworkManager.cpp:245-249 | a token or user nested under "data" is not read: the response has an empty token and no user fields |
| AuthNetwork.ClassifyAuth | frontend/src/AuthNetworkManager.cpp:168-191 | an authentication request succeeds exactly when the status is 2xx, whatever the body says; a failure always has an error, the body's own error or "HTTP <code>"; a transport failure passes on curl's message |
| AuthNetwork.StatusDecidesSuccess | frontend/src/AuthNetworkManager.cpp:170-171 | a 2xx answer whose body cannot be parsed still counts as a success, with the parse-failure error and no token |
| AuthNetwork.Respond | frontend/src/AuthNetworkManager.cpp:168-198 | authentication requests receive an AuthResponse and all others an HttpResponse |
| AuthNetwork.EmailCheckResult | frontend/src/AuthNetworkManager.cpp:101-114 | the address counts as taken only when a successful response carries exists = true; a failed request passes on its error; an unparsable body reports the parse failure |
| AuthNetwork.CreateAuthJson | frontend/src/AuthNetworkManager.cpp:320-346 | a login body holds exactly email and password; any other body holds the method and each non-empty text field, and steamData only when it parses as JSON, as the parsed document |
| AuthNetwork.AuthNetworkManager.constructor | frontend/src/AuthNetworkManager.cpp:43 | a new manager points at http://localhost:3001 with no token and nothing queued or in flight |
| AuthNetwork.AuthNetworkManager.SetBaseUrl | frontend/src/AuthNetworkManager.cpp:56-58 | the base URL is replaced |
| AuthNetwork.AuthNetworkManager.SetAuthToken | frontend/src/AuthNetworkManager.cpp:60-62 | the token is replaced |
| AuthNetwork.AuthNetworkManager.MakeAuthRequest | frontend/src/AuthNetworkManager.cpp:210-221 | one authentication request is appended to the queue |
| AuthNetwork.AuthNetworkManager.MakeHttpRequest | frontend/src/AuthNetworkManager.cpp:223-234 | one plain request is appended to the queue |
| AuthNetwork.AuthNetworkManager.RegisterEmailUser | frontend/src/AuthNetworkManager.cpp:64-68 | queues the e-mail registration body for /api/auth/choose-method |
| AuthNetwork.AuthNetworkManager.LoginEmailUser | frontend/src/AuthNetworkManager.cpp:70-74 | queues the login body for /api/auth/login |
| AuthNetwork.AuthNetworkManager.CreateSteamUser | frontend/src/AuthNetworkManager.cpp:76-81 | queues the Steam body, with steamData built by concatenation, for /api/auth/choose-method |
| AuthNetwork.AuthNetworkManager.LoginSteamUser | frontend/src/AuthNetworkManager.cpp:83-86 | queues the Steam body without steamData for /api/auth/steam |
| AuthNetwork.AuthNetworkManager.CreateLinkedUser | frontend/src/AuthNetworkManager.cpp:88-94 | queues the linked-account body for /api/auth/choose-method |
| AuthNetwork.AuthNetworkManager.CheckEmailExists | frontend/src/AuthNetworkManager.cpp:96-115 | queues a GET of /api/auth/check-email with the address in the query, answered through the e-mail check closure |
| AuthNetwork.AuthNetworkManager.StartGameSession | frontend/src/AuthNetworkManager.cpp:281-285 | queues the session-start request with the body {gameMode: "normal"} |
| AuthNetwork.AuthNetworkManager.SaveGameProgress | frontend/src/AuthNetworkManager.cpp:287-299 | queues the progress request with session id, score, points, survival time and lives |
| AuthNetwork.AuthNetworkManager.SaveProgress | frontend/src/AuthNetworkManager.cpp:266-275 | queues the legacy save-progress request |
| AuthNetwork.AuthNetworkManager.GetProgress | frontend/src/AuthNetworkManager.cpp:277-279 | queues a GET of /api/game/progress |
| AuthNetwork.AuthNetworkManager.EndGameSession | frontend/src/AuthNetworkManager.cpp:301-318 | queues the session-end request with the final results and the end reason player_death |
| AuthNetwork.AuthNetworkManager.Update | frontend/src/AuthNetworkManager.cpp:117-204 | an empty queue is left alone; otherwise the front request leaves the queue and goes to a worker with the current base URL and headers, or is dropped when curl gives no handle |
| AuthNetwork.AuthNetworkManager.Complete | frontend/src/AuthNetworkManager.cpp:158-198 | a finished worker leaves the pool, and its callback receives the response built from the exchange |
| AuthNetwork.DispatchAll | frontend/src/AuthNetworkManager.cpp:117-151 | handing on a list of requests dispatches each one, in order, with the same base URL and headers |
| AuthNetwork.AuthNetworkManager.Flush | frontend/src/AuthNetworkManager.cpp:117-123 | pumping until the queue is empty hands every queued request to a worker in queue order (none without handles) |
| AuthChoice.FormError | frontend/src/AuthChoiceState.cpp:719-741 | the form passes exactly when the username is 3 or more bytes long in UTF-8, the address has an '@', the password is 6 or more bytes long and matches its confirmation; otherwise the message is the first failing check's, in that order |
| AuthChoice.LoginError | frontend/src/AuthChoiceState.cpp:869-879 | a login passes exactly when the address has an '@' and the password is not empty; otherwise the address is reported first |
| AuthChoice.ScreenPrecedence | frontend/src/AuthChoiceState.cpp:127-145 | each screen is drawn exactly when its flag is set and no earlier flag in the order loading, e-mail form, login form, Steam form, linked form is; the welcome screen exactly when none is |
| AuthChoice.VerdictOf | frontend/src/AuthChoiceState.cpp:885-893 | an authentication answer is accepted exactly when it reports success |
| AuthChoice.ReadDevLogin | frontend/src/AuthChoiceState.cpp:68-79 | a token is read only from an answer whose success is true and whose data holds that token as text |
| AuthChoice.DevLoginReadsServerAnswer | frontend/src/AuthChoiceState.cpp:68-76 | the answer the server's development login gives (success, data.user with a username, data.token) is read as its token |
| AuthChoice.DevLoginVerdict | frontend/src/AuthChoiceState.cpp:63-86 | a failed request is refused with "Development authentication failed: " and its error; an unparsable answer with the parse message and the library's detail; a token is accepted only as the answer holds it |
| AuthChoice.Finished | frontend/src/AuthChoiceState.cpp:753-771 | loading ends; an accepted token is stored, the success status shown and the hand-off flag set; a refusal shows its error and clears the status |
| AuthChoice.AuthChoiceState.constructor | frontend/src/AuthChoiceState.cpp:13-28 | a new screen shows no form, is not loading, has no pending success, an empty token, messages and form fields, no Steam data and a fresh network manager |
| AuthChoice.AuthChoiceState.ClearFormFields | frontend/src/AuthChoiceState.cpp:50-54 | the four form fields are emptied |
| AuthChoice.AuthChoiceState.HideForms | frontend/src/AuthChoiceState.cpp:708-713 | no method is chosen and no form is shown |
| AuthChoice.AuthChoiceState.OnEnter | frontend/src/AuthChoiceState.cpp:32-87 | entering clears every flag, message and field, then shows the loading screen and queues the development login |
| AuthChoice.AuthChoiceState.ResetScreen | frontend/src/AuthChoiceState.cpp:37-54 | every flag, message and form field is cleared |
| AuthChoice.AuthChoiceState.HandleEscape | frontend/src/AuthChoiceState.cpp:93-102 | ESC on a form goes back to the choice; with no form shown it changes nothing |
| AuthChoice.AuthChoiceState.Update | frontend/src/AuthChoiceState.cpp:104-119 | the network manager hands on its front request; a pending success is consumed once and its token goes to the home screen |
| AuthChoice.AuthChoiceState.OnMethodSelected | frontend/src/AuthChoiceState.cpp:603-622 | the chosen method's form opens and the error clears; Steam and linked also refresh the Steam data |
| AuthChoice.AuthChoiceState.GetSteamUserData | frontend/src/AuthChoiceState.cpp:790-798 | with Steam taken as running, the Steam fields are cleared |
| AuthChoice.AuthChoiceState.OnSteamAuth | frontend/src/AuthChoiceState.cpp:624-654 | shows the Steam status, clears the error and queues the Steam login |
| AuthChoice.AuthChoiceState.ValidateEmailForm | frontend/src/AuthChoiceState.cpp:719-741 | true exactly for a valid form; otherwise the first failing check's message is shown |
| AuthChoice.AuthChoiceState.ValidateLinkedForm | frontend/src/AuthChoiceState.cpp:743-750 | with Steam taken as running, the same result as the e-mail form check |
| AuthChoice.AuthChoiceState.CheckEmailAndRegister | frontend/src/AuthChoiceState.cpp:896-904 | shows "Checking email...", clears the error and queues the address check for registration |
| AuthChoice.AuthChoiceState.OnEmailRegister | frontend/src/AuthChoiceState.cpp:656-661 | an invalid form shows its message and sends nothing; a valid one starts the address check |
| AuthChoice.AuthChoiceState.OnLinkedRegister | frontend/src/AuthChoiceState.cpp:663-706 | an invalid form shows its message and sends nothing; a valid one refreshes the Steam data and queues the address check for the linked account |
| AuthChoice.AuthChoiceState.OnBackToChoice | frontend/src/AuthChoiceState.cpp:708-716 | no method, no form and no messages |
| AuthChoice.AuthChoiceState.OnEmailLogin | frontend/src/AuthChoiceState.cpp:869-894 | an invalid login shows its message and sends nothing; a valid one shows "Logging in..." and queues the login |
| AuthChoice.AuthChoiceState.OnAuthSuccess | frontend/src/AuthChoiceState.cpp:753-765 | the screen's progress is the accepted outcome of Finished |
| AuthChoice.AuthChoiceState.OnAuthError | frontend/src/AuthChoiceState.cpp:767-771 | the screen's progress is the refused outcome of Finished |
| AuthChoice.AuthChoiceState.OnVerdict | frontend/src/AuthChoiceState.cpp:885-893 | the closure of each exchange: the progress becomes Finished with the exchange's verdict |
| AuthChoice.AuthChoiceState.OnEmailCheckResult | frontend/src/AuthChoiceState.cpp:906-935 | a network error or a taken address stops with its message and sends nothing; a free address shows "Creating account..." and queues the registration |
| AuthChoice.AuthChoiceState.OnLinkedEmailCheckResult | frontend/src/AuthChoiceState.cpp:680-705 | a network error or a taken address stops with its message and leaves the status as it was; a free address queues the linked account |
| AuthChoice.AuthChoiceState.OnSteamLoginResult | frontend/src/AuthChoiceState.cpp:637-653 | a known Steam user is signed in; otherwise the progress is untouched and the Steam account creation is queued |
| AuthChoice.AuthChoiceState.Deliver | frontend/src/AuthChoiceState.cpp:63-86 | each finished request reaches its own closure: an accepted Steam login signs in and a refused one queues the Steam account creation; an e-mail check stops on a network error or a taken address (with the form's own message) and otherwise queues the registration or the linked account; a token is handed off only when the server accepted that exchange |
| AuthChoice.Utf8Width | frontend/src/AuthChoiceState.cpp:720 | a character takes one to four bytes, one exactly when it is ASCII |
| AuthChoice.Utf8Length | frontend/src/AuthChoiceState.cpp:720 | a field's length() is its UTF-8 byte count: at least its character count, at most four times it, equal to it exactly when all characters are ASCII |
| AuthChoice.NameLengthCountsBytes | frontend/src/AuthChoiceState.cpp:719-741 | the length checks count bytes: a two-character name of accented letters passes the form, a two-character ASCII name does not |
| AuthChoice.TestToken | frontend/src/AuthChoiceState.cpp:285-288 | the test-mode token is "test_token_for_development_" followed by text that reads back as the clock's seconds |
| AuthChoice.TestTokensDiffer | frontend/src/AuthChoiceState.cpp:285-288 | test-mode sign-ins at different seconds get different tokens |
| AuthChoice.AuthChoiceState.OnTestMode | frontend/src/AuthChoiceState.cpp:285-288 | the test-mode button signs in at once: the progress is the accepted outcome of Finished with the test token |
| AuthChoice.AuthChoiceState.OnLoginButton | frontend/src/AuthChoiceState.cpp:237-240 | the login button selects the e-mail method and shows its login form |
| AuthChoice.AuthChoiceState.SwitchToLogin | frontend/src/AuthChoiceState.cpp:361-364 | the registration form's switch hides that form and shows the login form |
| AuthChoice.AuthChoiceState.SwitchToSignup | frontend/src/AuthChoiceState.cpp:846-849 | the login form's switch hides that form and shows the registration form |
| AuthChoice.AuthChoiceState.InitializeSteam | frontend/src/AuthChoiceState.cpp:774-782 | Steam set-up clears the Steam id, name and avatar |
| AuthChoice.AuthChoiceState.OnRetrySteam | frontend/src/AuthChoiceState.cpp:436-438 | Retry runs the Steam set-up again, clearing the Steam data |
| AuthChoice.AuthChoiceState.OnCreateLinkedButton | frontend/src/AuthChoiceState.cpp:527-535 | without Steam running and a typed name, address and password the button changes nothing and sends nothing; otherwise an invalid form shows its message and a valid one queues the address check for the linked account |
| Home.FirstUpgradable | frontend/src/HomeState.cpp:333-349 | the skill an upgrade applies to is the first whose id matches, that can still be upgraded and whose cost the balance covers; when there is none, no skill qualifies |
| Home.Upgraded | frontend/src/HomeState.cpp:337-343 | an upgraded skill is exactly one level higher |
| Home.UpgradedSkill | frontend/src/HomeState.cpp:337-343 | an upgrade keeps the skill's identity and cap; reaching the cap closes further upgrades and keeps the cost, below the cap the next cost is the old cost times 3/2, truncated |
| Home.IndexOf | frontend/src/HomeState.cpp:377-382 | the position found is the first occurrence of the letter; none is found only when the text lacks it |
| Home.IntToStringHasNoLetterM | frontend/src/HomeState.cpp:377-382 | the decimal text of a whole number never holds the letter 'm', so the minutes part of a formatted time ends at its first 'm' |
| Home.FormatTimeReadsBack | frontend/src/HomeState.cpp:377-382 | a formatted duration reads back as minutes and seconds with minutes times 60 plus seconds equal to the whole seconds elapsed, the seconds below 60 for a non-negative duration |
| Home.HomeState.constructor | frontend/src/HomeState.cpp:14-39 | the home screen starts on the main menu at level 1 with no skill points and 50 coins, empty lists, the scores tab, the combat category, volume 0.8, windowed and medium quality, with its own network manager and no token |
| Home.HomeState.OnEnter | frontend/src/HomeState.cpp:43-60 | entering clears the leaderboards and skills; without a network manager the progress is reset to its defaults, with one it is kept until the server answers |
| Home.HomeState.SetAuthToken | frontend/src/HomeState.cpp:66-69 | the token given is the one kept |
| Home.HomeState.LoadUserProgress | frontend/src/HomeState.cpp:392-427 | without a network manager level, skill points and coins fall back to their defaults; with one they are left as they were |
| Home.HomeState.LoadLeaderboards | frontend/src/HomeState.cpp:311-321 | all four leaderboards are empty afterwards |
| Home.HomeState.LoadSkills | frontend/src/HomeState.cpp:323-331 | the skill list is empty afterwards |
| Home.HomeState.SetUIMode | frontend/src/HomeState.cpp:307-309 | the screen shown is the one asked for |
| Home.HomeState.HandleEvent | frontend/src/HomeState.cpp:71-89 | Escape leaves the game exactly when the main menu is shown and otherwise returns to it; F1 opens the leaderboards, F2 the skills; any other key keeps the screen |
| Home.HomeState.ExitGame | frontend/src/HomeState.cpp:373-375 | exiting always asks the game to stop |
| Home.HomeState.NavigateToPlay | frontend/src/HomeState.cpp:359-363 | the play screen is handed the home screen's token |
| Home.HomeState.NavigateToSettings | frontend/src/HomeState.cpp:365-367 | the settings screen is shown |
| Home.HomeState.NavigateToProfile | frontend/src/HomeState.cpp:369-371 | the profile screen is shown |
| Home.HomeState.UpgradeSkill | frontend/src/HomeState.cpp:333-349 | the skills and the balance become the result of upgrading the first qualifying skill |
| Home.UpgradeTouchesOneSkill | frontend/src/HomeState.cpp:333-349 | at most one skill changes, the first qualifying one; it gains one level and the balance drops by exactly its old cost and stays non-negative; with no qualifying skill nothing changes |
| Home.FormatTime | frontend/src/HomeState.cpp:377-382 | the duration text ends in "s", holds the "m" of the minutes and is at least four characters long |
| SkillService.PowAtLeastOne | backend/src/services/skillService.js:171-174 | a multiplier of at least one raised to any level is at least one |
| SkillService.UpgradeCostGrows | backend/src/services/skillService.js:171-174 | the first level costs the base cost, and with a multiplier of at least one and a non-negative base cost each level costs no less than the one before |
| SkillService.CanUpgradeSkill | backend/src/services/skillService.js:141-169 | a level may be bought exactly when the skill is below its cap, the points cover its price, the user's level reaches the unlock level and every prerequisite skill has reached its required level (a missing one counting as level 0) |
| SkillService.LevelMapLastWins | backend/src/services/skillService.js:115-118 | every skill with a row is in the level map, at the level of the last row naming it |
| SkillService.LevelMapKeys | backend/src/services/skillService.js:115-118 | a skill is in the level map exactly when some row names it |
| SkillService.BuildLevelMap | backend/src/services/skillService.js:115-118 | the loop builds the level map of the rows |
| SkillService.SkillsWithUpgrades | backend/src/services/skillService.js:103-139 | a failed catalogue query, then a failed query of the user's skills, then a failed stats query is the error; it succeeds exactly when all three do, and then every catalogue skill, in order, comes with the user's level, whether it may be bought now, its price and whether it is maxed out, alongside the stats row |
| SkillService.MaxedSkillNotOffered | backend/src/services/skillService.js:121-133 | a maxed-out skill is never offered for upgrade, and one offered is one the points cover |
| SkillService.UpgradeSkill | backend/src/services/skillService.js:176-268 | the checks run in the service's order: a failed skill query throws its message, then a missing skill, a missing user, a failed query of the user's skills, an ineligible level and the two writes; the result is UpgradeOutcome |
| SkillService.UpgradeChargesThePrice | backend/src/services/skillService.js:176-268 | a found skill and user are refused exactly when the level may not be bought; a purchase raises the level by one without passing the cap, charges exactly that level's price, leaves a non-negative balance and inserts a row only for the first level |
| SkillService.InCategory | backend/src/services/skillService.js:28-40 | a category's group is never longer than the catalogue |
| SkillService.InCategoryMembers | backend/src/services/skillService.js:28-40 | a category's group holds exactly the catalogue's skills of that category |
| SkillService.InCategoryAppend | backend/src/services/skillService.js:28-40 | grouping keeps catalogue order: the group of two catalogues joined is the two groups joined |
| SkillService.GroupByCategory | backend/src/services/skillService.js:28-40 | there is one group per category that occurs and each holds that category's skills in catalogue order |
| SkillService.EmptyCategory | backend/src/services/skillService.js:28-40 | a category no skill has gets an empty group |
| SkillService.UpgradeCost | backend/src/services/skillService.js:171-174 | the price is the floor of base cost times the multiplier raised to the current level, so the first level costs the floor of the base cost |
| SkillService.UpgradeOutcome | backend/src/services/skillService.js:176-268 | a skill query error is passed on, a missing skill is "Skill not found", a missing user "User not found", a failed skill-list query its message; the purchase succeeds exactly when every lookup found its row, the level may be bought and both writes went through, and then it is of the skill found |
| SkillRoutes.CatalogueViews | backend/src/routes/skills.js:19-31 | the catalogue lists one entry per skill in the service's order, each showing that skill's fields |
| SkillRoutes.ListSkills | backend/src/routes/skills.js:12-37 | a failed catalogue query goes to the error handler with its message, and only then; otherwise a 200 lists one entry per skill in the service's order, each showing that skill's fields |
| SkillRoutes.CatalogueKeepsTheRow | backend/src/routes/skills.js:19-31 | an entry drops only the database id, and the list of a longer catalogue extends the list of its tail |
| SkillRoutes.CurrentValue | backend/src/routes/skills.js:60-61 | an effect's current value is 0 before the first level |
| SkillRoutes.NextValue | backend/src/routes/skills.js:62-63 | an effect's next value is 0 once the skill is at its cap |
| SkillRoutes.EffectViews | backend/src/routes/skills.js:58-65 | each effect of the skill gets one view |
| SkillRoutes.EffectValuesStep | backend/src/routes/skills.js:58-65 | below the cap the next value is the value the next level will show as current, one increment above the current value once a level is owned |
| SkillRoutes.UserSkillsReply | backend/src/routes/skills.js:40-94 | a service error goes to the error handler with its message; otherwise a 200 whose skill i is the view of the service's skill i at the user's level, with the stats row's skill points and level and, because that row holds no coins column (backend/src/services/skillService.js:108), no coins |
| SkillRoutes.UserSkillViewMeaning | backend/src/routes/skills.js:54-55 | a skill is shown unlocked exactly when the user's level reaches its unlock level, and one shown upgradable is unlocked, affordable, below its cap and has its prerequisites met |
| SkillRoutes.PrerequisitesFlagCanUnderstate | backend/src/routes/skills.js:55 | a skill without prerequisites that the user cannot yet afford is shown with its prerequisites unmet |
| SkillRoutes.UpgradeView | backend/src/routes/skills.js:112-127 | the purchase reply lists one new value per effect of the skill |
| SkillRoutes.UpgradeRoute | backend/src/routes/skills.js:93-137 | a missing or empty skillId is refused with the validator's message before any purchase; a service error is a 400 with its message; a purchase is a 200 |
| SkillRoutes.UpgradeReportsPromisedValues | backend/src/routes/skills.js:93-137 | a purchase reports the level the user's list showed plus one, the price it showed, the balance less that price, and as each effect's new value the next value it showed |
| SkillRoutes.GroupViews | backend/src/routes/skills.js:142-171 | each skill of a group gets one entry |
| SkillRoutes.GroupedCategories | backend/src/routes/skills.js:147-160 | the grouped views have exactly the service's categories |
| SkillRoutes.CategoriesReply | backend/src/routes/skills.js:142-171 | a failed catalogue query goes to the error handler with its message, and only then; otherwise a 200 has exactly the service's categories, each with its skills' views |
| SkillRoutes.CategoriesReplyGroups | backend/src/routes/skills.js:142-171 | a category appears exactly when some skill has it, and its group lists the catalogue's skills of that category in catalogue order |
| SkillRoutes.UserSkillViews | backend/src/routes/skills.js:46-72 | one view per skill of the service's list |
| SkillRoutes.UserSkillsReplyWithCoins | backend/src/routes/skills.js:76-82 | corrected reply: the same data as the route's, with the user's coins balance in the currency |
| SkillRoutes.UserSkillsReplyOmitsCoins | backend/src/routes/skills.js:79-80 | whatever the balance, the route as written reports no coins while the corrected reply reports it |
| UserService.WithoutHash | backend/src/services/userService.js:28 | a profile handed back by the service never carries the password hash |
| UserService.CreateUser | backend/src/services/userService.js:5-30 | a failed insert is an error; otherwise the new account is an email account with the given name and address, no Steam id and no hash in the returned profile |
| UserService.SteamUsername | backend/src/services/userService.js:44 | a new Steam account takes the given name, else "Steam_" followed by the first 8 characters of the Steam id |
| UserService.CreateSteamUser | backend/src/services/userService.js:32-57 | a failed lookup of the Steam id throws its message; a known Steam id returns its account; otherwise a failed insert is an error and a new account is a Steam account with that id, the given name or else "Steam_" followed by the first 8 characters of the id, no email, no hash and the given avatar or the default one |
| UserService.CreateSteamUserIdempotent | backend/src/services/userService.js:32-57 | once the account exists, asking again for the same Steam id returns it unchanged whatever name and avatar come with the request |
| UserService.CreateLinkedUser | backend/src/services/userService.js:91-118 | a failed insert is an error; otherwise the account is linked, with both the address and the Steam id, the given or default avatar, and no hash in the returned profile |
| UserService.LinkSteamToEmailAccount | backend/src/services/userService.js:120-146 | a failed lookup of the address throws its message; a missing account and a Steam-only account are refused with their messages; a link succeeds exactly for a found email or linked account whose update did not fail, and returns that account without its hash, now linked with the Steam id |
| UserService.LinkKeepsTheAccount | backend/src/services/userService.js:120-146 | a successful link makes the account linked with the new Steam id and keeps its id, name, address and avatar; linking it again to the same id gives the same account |
| UserService.AuthenticateEmailUser | backend/src/services/userService.js:251-271 | sign-in succeeds exactly for an email or linked account whose stored hash matches the password, and returns it without the hash; a missing account and a wrong password get the same message, a missing hash makes the comparison throw |
| UserService.LoginSteamUser | backend/src/services/userService.js:73-89 | a failed lookup throws its message; a known Steam id signs in to its account; an unknown one goes through account creation, whose own lookup error is passed on and which otherwise makes a Steam account with that id and the Steam user name; a sign-in needs the first lookup to have worked |
| UserService.SignInPath | backend/src/services/userService.js:229-249 | email and steam take their own path; linked takes the email path when both address and password are given, else the Steam path when a Steam id is given, else it is refused; any other method is refused |
| UserService.AuthenticateUser | backend/src/services/userService.js:229-249 | a refused method is the error; an email sign-in returns an email or linked account without its hash; a Steam sign-in passes on a failed lookup's message and returns a known account as found |
| UserService.Floor | backend/src/services/userService.js:504 | Math.floor gives the largest whole number not above the value |
| UserService.Best | backend/src/services/userService.js:586-588 | the best score becomes the candidate exactly when the candidate is strictly larger than the current best (a missing best counts as 0); otherwise it is kept as it was, so it never decreases |
| UserService.Longest | backend/src/services/userService.js:591-593 | the longest survival is replaced by the floored time exactly when the time beats it, stays whole and never decreases |
| UserService.UpdateUserProgress | backend/src/services/userService.js:482-530 | a missing user is refused; otherwise skill points and play time grow by what the request gives (missing counts as 0, time floored), a failed profile update is its error; the best score becomes the current score exactly when that score is given, non-zero and strictly larger than the best (missing counts as 0), and the longest survival becomes the floored time exactly when the time is given, non-zero and strictly larger than the record; otherwise each record is kept, and the other totals are untouched |
| UserService.SessionRow | backend/src/services/userService.js:533-556 | the session row floors the time and records a missing kill count as 0 and a missing wave as 1 |
| UserService.AfterGame | backend/src/services/userService.js:575-593 | a finished game counts one more game; the best score becomes the final score exactly when it is strictly larger than the best (missing counts as 0), the longest survival becomes the floored time exactly when the time is strictly larger than the record, and otherwise each is kept; the survival record stays whole |
| UserService.EndGameSession | backend/src/services/userService.js:532-610 | a failed session insert is the error, then a missing user; otherwise the session row and the profile after the game are written |
| UserService.AfterGameAddsTheGame | backend/src/services/userService.js:575-593 | each total grows by exactly what the session row records, skill points by what was earned, and the leaderboard points earned play no part |
| UserService.GamesOnlyRaiseRecords | backend/src/services/userService.js:575-593 | over any run of games the records never decrease and every game is counted |
| UserService.RankingFor | backend/src/services/userService.js:433-466 | survival and kills rank by their columns; every other type ranks by the best score |
| UserService.GetLeaderboard | backend/src/services/userService.js:433-466 | a failed query is an error; otherwise one entry per row, in the database's order, ranked from 1, each carrying its row's level, avatar, best score as score, longest survival as survivalTime and total kills as kills |
| UserService.RanksFollowTheColumn | backend/src/services/userService.js:433-466 | over rows in the type's column order (descending, nulls first as PostgreSQL sorts them) ranks are distinct, and a better rank shows a null whenever a worse one does and otherwise a value no lower |
| ScoreService.TruthyOr | backend/src/services/ScoreService.js:36-40 | `value or default` keeps a present non-zero number and gives the default for a missing or zero one |
| ScoreService.NormalRecord | backend/src/services/ScoreService.js:26-41 | the row is a personal best exactly when the profile has no row or the score beats its highest score; missing counts are recorded as 0 and a missing wave as 1 |
| ScoreService.SaveNormalScore | backend/src/services/ScoreService.js:7-70 | a failed insert is reported with its prefix; a saved score never lowers the highest score and changes it exactly when it is a personal best |
| ScoreService.PersonalBestIsTheRecord | backend/src/services/ScoreService.js:7-70 | after a saved personal best the highest score is that score, and a later score is a personal best exactly when it beats it |
| ScoreService.NoProfileAlwaysBest | backend/src/services/ScoreService.js:26 | without a profile row every score is a personal best, even a negative one |
| ScoreService.NewTotal | backend/src/services/ScoreService.js:89-90 | the new running total is the current one (missing counts as 0) plus the session's points |
| ScoreService.SaveLeaderboardScore | backend/src/services/ScoreService.js:73-131 | a failed insert is reported with its prefix; otherwise the row and the profile both get the new running total, at an earning rate of 2 |
| ScoreService.SaveSkillScore | backend/src/services/ScoreService.js:134-194 | a failed insert is reported with its prefix; otherwise the row and the profile both get the new running total, with nothing spent, the whole total available, at an earning rate of 1 |
| ScoreService.TotalIsTheSum | backend/src/services/ScoreService.js:89-90 | after a series of sessions the running total is the starting total plus every session's points |
| ScoreService.Failures | backend/src/services/ScoreService.js:225-228 | one labelled message per failed save, in the order normal, leaderboard, skill |
| ScoreService.SaveAllScores | backend/src/services/ScoreService.js:197-249 | the combined save succeeds exactly when all three saves did, keeping their results; otherwise one message lists every failure in order |
| ScoreService.OneFailureMessage | backend/src/services/ScoreService.js:225-232 | a single failure is reported alone with its label |
| ScoreService.UserCurrentTotals | backend/src/services/ScoreService.js:252-279 | a failed read is the error; otherwise the three totals with missing ones as 0 |
| ScoreService.BoardFor | backend/src/services/ScoreService.js:282-302 | the leaderboard and skill types read their tables by accumulated points; every other type reads the normal scores by score |
| ScoreService.BoardsAreDistinct | backend/src/services/ScoreService.js:282-302 | the three known types read three different tables |
| AuthRoutes.ChooseMethodAccepts | backend/src/routes/auth.js:21-51 | a body passes exactly when the method is steam, email or linked, the username has 3 to 20 letters, digits or underscores, an email or linked account brings a valid address and a password of 6 or more characters, and a Steam or linked account brings a Steam id |
| AuthRoutes.ChooseMethodPlan | backend/src/routes/auth.js:52-82 | an invalid body yields its validation errors; a valid one plans a Steam, email or linked account exactly when that method was asked for |
| AuthRoutes.SteamFallbackUnused | backend/src/routes/auth.js:56-62 | since every method demands a username, a Steam account made here is always named by the request's username, never by the Steam profile's name or the generated one |
| AuthRoutes.Create | backend/src/routes/auth.js:54-82 | an email account keeps the requested username, a linked one gets the Steam id, a failed lookup of the Steam id is passed on, and a new Steam account is a Steam account with that id |
| AuthRoutes.ChooseMethod | backend/src/routes/auth.js:21-116 | an invalid body is a 400 with its errors before anything is created; a created account is a 201; a failed Steam lookup and a failed insert are passed to the error handler |
| AuthRoutes.SteamLogin | backend/src/routes/auth.js:123-184 | a missing Steam id or a bad Steam name is a 400; a failed lookup goes to the error handler; a known account signs in as found, an unknown one is created as a Steam account with that id; no 404 is ever sent |
| AuthRoutes.Register | backend/src/routes/auth.js:191-251 | the request is refused with its validation errors exactly when one fails; a registration is a 201 with an email account of the requested name and no hash |
| AuthRoutes.RegisteredNameIsValid | backend/src/routes/auth.js:191-251 | an account registered through the route always has a username of 3 to 20 letters, digits or underscores |
| AuthRoutes.Login | backend/src/routes/auth.js:256-309 | the request is refused with its validation errors exactly when one fails; a sign-in returns the email or linked account of that address without its hash; an unknown address is passed on as a failed sign-in |
| AuthRoutes.LinkSteam | backend/src/routes/auth.js:316-362 | a missing Steam id is a 400 with the validator's message, a user without an email a 400, a failed lookup of the address goes to the error handler; a link returns the same account, now linked with that Steam id |
| AuthRoutes.Me | backend/src/routes/auth.js:369-402 | a vanished user is a 404; otherwise the profile without its hash |
| AuthRoutes.CheckEmail | backend/src/routes/auth.js:405-431 | a missing address is a 400, a failed lookup a 500; otherwise the answer is true exactly when an account has the address |
| AuthRoutes.DevLoginAsWritten | backend/src/routes/auth.js:438-491 | production is refused with 403; outside it, a lookup that finds no account makes the handler read a field of null |
| AuthRoutes.DevLoginAsWrittenFailsWithoutTestAccount | backend/src/routes/auth.js:448-459 | on a database without the test account, dev-login as written never signs anyone in |
| AuthRoutes.DevLogin | backend/src/routes/auth.js:438-491 | production is refused with 403; otherwise a sign-in is a 200 |
| AuthRoutes.DevLoginSignsIn | backend/src/routes/auth.js:448-459 | outside production the test account is returned when found, and otherwise created as the email account TestUser with the test address; with the account present this agrees with the code as written |
| UserRoutes.TrimEnd | backend/src/routes/users.js:66 | dropping trailing white space leaves a prefix that does not end in white space, and only white space was dropped |
| UserRoutes.Leading | backend/src/routes/users.js:66 | trim() drops at the front exactly the white space before the first other character |
| UserRoutes.TrimMeaning | backend/src/routes/users.js:66 | the trimmed text is the piece between the white space at the front and the white space at the end |
| UserRoutes.TrimIdempotent | backend/src/routes/users.js:66 | a trimmed text neither starts nor ends with white space, so trimming twice is trimming once |
| UserRoutes.LeadingSpaces | backend/src/routes/users.js:66 | everything trim() drops at the front is white space |
| UserRoutes.TrimEndIdempotent | backend/src/routes/users.js:66 | a text without white space at either end is left as it is |
| UserRoutes.ProfileErrors | backend/src/routes/users.js:64-76 | a profile body passes exactly when a given username, once trimmed, passes the length and charset checks and a given email is a valid address |
| UserRoutes.Sanitized | backend/src/routes/users.js:64-76 | the sanitizers rewrite only the fields the body defines: a given username becomes its trimmed text and a given email its normalized form |
| UserRoutes.UpdateRow | backend/src/routes/users.js:122 | the write succeeds exactly when it does not fail and the key names a row, and then that row gets the changes |
| UserRoutes.ProfileRoute | backend/src/routes/users.js:63-131 | the request is refused with its validation errors exactly when one fails; a 404 exactly when the signed-in account's row is gone |
| UserRoutes.UpdateProfileAsWritten | backend/src/routes/users.js:63-131 | for an account whose user_id is null every valid change fails: on a write that finds no row, or as taken when the other account has a user_id |
| UserRoutes.NullUserIdHidesTheTakenName | backend/src/routes/users.js:98-108 | for two e-mail-registered accounts, asking for the other's name fails on the write as written, where the intended route answers that the name is taken |
| UserRoutes.UpdateProfile | backend/src/routes/users.js:63-131 | a successful update returns the signed-in account's own row |
| UserRoutes.UpdateProfileWritesTheSignedInRow | backend/src/routes/users.js:96-122 | the name is refused as taken exactly when it is new and held by another account, then the email likewise; otherwise the update succeeds unless the write fails, storing each new value and keeping the others |
| UserRoutes.SignedInteger | backend/src/routes/users.js:146-148 | a text is an integer exactly when it is decimal digits after an optional sign; its value is the text's decimal reading, and a "+" in front reads as the digits after it |
| UserRoutes.SignedIntegerReadsPrinted | backend/src/routes/users.js:146-148 | every integer's decimal text reads back as that integer, and so does a non-negative one written with a leading "+" |
| UserRoutes.PreferenceErrors | backend/src/routes/users.js:137-152 | each of the four fields is reported at most once, and a field's message is reported exactly when the body defines that field and it fails its test (boolean flags, an integer volume from 0 to 100, one of the four quality names) |
| UserRoutes.UpdatePreferences | backend/src/routes/users.js:136-187 | the request is refused with its validation errors exactly when one fails; otherwise updateUser is asked to write exactly the sent columns, its error is passed on, and a 200 answers with the preferences read from the row it returns |
| UserRoutes.PreferenceColumnsExact | backend/src/routes/users.js:164-169 | the write holds a column exactly for each field the body defines, with the value as sent, and no other column |
| UserRoutes.PreferencesKeepWhatIsNotSent | backend/src/routes/users.js:163-182 | when the database stores each sent value as sent and keeps its other columns, a valid request answers with each sent preference and the stored value of every other |
| UserRoutes.PreferenceErrorsExact | backend/src/routes/users.js:137-152 | preferences pass exactly when each defined flag is a boolean in one of its text forms, the volume an integer from 0 to 100 and the quality one of the four names; "+007" is a valid volume, 101 is not, and a null flag fails |
| UserRoutes.Trim | backend/src/routes/users.js:66 | the trimmed text is no longer than the input and neither starts nor ends with white space |
| UserRoutes.PlanProfileChanges | backend/src/routes/users.js:96-118 | the name is refused as taken exactly when it is new and held by another account; the plan succeeds exactly when neither a new name nor a new address is held by another account; it writes the name (the address) exactly when it is given, non-empty and differs from the stored one, and then writes the given value |
| GameRoutes.Relay | backend/src/routes/gameRoutes.js:153-174 | the service's data is a 200, its refusal a 400 with its error, and a throw a 500 with the handler's message |
| GameRoutes.StartMode | backend/src/routes/gameRoutes.js:14 | the mode is gameMode as sent, "normal" only when it is absent |
| GameRoutes.StartSession | backend/src/routes/gameRoutes.js:12-39 | a started session is a 200 with the service's data; a refused start is a 400 with the service's error; a thrown error is a 500 with "Failed to start game session" |
| GameRoutes.ClientStartsNormalGames | backend/src/routes/gameRoutes.js:14 | the client's start request always asks for the normal mode |
| GameRoutes.Read | backend/src/routes/gameRoutes.js:63-73 | a truthy body member is read as sent and any other gives the fallback |
| GameRoutes.ProgressCall | backend/src/routes/gameRoutes.js:42-73 | the progress is handed on exactly when the session id is truthy, under that id |
| GameRoutes.SaveProgress | backend/src/routes/gameRoutes.js:42-91 | without a truthy session id the answer is the 400; otherwise the service's answer relayed |
| GameRoutes.EndCall | backend/src/routes/gameRoutes.js:94-129 | the end of a session is handed on exactly when the session id is truthy, under that id |
| GameRoutes.EndSession | backend/src/routes/gameRoutes.js:94-150 | without a truthy session id the answer is the 400; otherwise the service's answer relayed |
| GameRoutes.NoSessionIdNoCall | backend/src/routes/gameRoutes.js:57-61 | without a session id neither route consults the service: both answer the same 400 whatever it would have said |
| GameRoutes.FalsyFieldsDefault | backend/src/routes/gameRoutes.js:118-129 | a falsy kill count is 0, a falsy wave 1 and a falsy end reason "player_death"; a truthy final score is kept |
| GameRoutes.ReadSentNumber | backend/src/routes/gameRoutes.js:63-73 | a number the client sends is read unchanged, 0 falling back to 0 |
| GameRoutes.SessionEndMembers | frontend/src/AuthNetworkManager.cpp:305-315 | assigning the members in the client's order builds exactly the client's session-end body |
| GameRoutes.SessionEndFieldsFirst | frontend/src/AuthNetworkManager.cpp:305-309 | the client's session-end body holds the session id, final score, points earned and survival time it was given |
| GameRoutes.SessionEndFieldsRest | frontend/src/AuthNetworkManager.cpp:310-315 | the client's session-end body holds the kills, damage, wave and "player_death", and no enemiesSpawned |
| GameRoutes.ClientSessionEndArrivesIntact | backend/src/routes/gameRoutes.js:94-129 | the client's session-end request reaches the service with its numbers unchanged, except that wave 0 becomes 1 and the unsent enemiesSpawned counts as 0 |
| GameRoutes.ProgressFields | frontend/src/AuthNetworkManager.cpp:287-299 | the client's progress body holds the session id, score, points and time, and none of the combat counts |
| GameRoutes.ClientProgressArrivesIntact | backend/src/routes/gameRoutes.js:42-73 | the client's progress request reaches the service with its score, points and time; the unsent counts are 0, the wave 1, and livesRemaining is not read |
| GameRoutes.LeaderboardsCall | backend/src/routes/gameRoutes.js:201-214 | a board is fetched exactly when the type (normal when the path has none) is normal, leaderboard or skill, with parseInt of the limit or 50 |
| GameRoutes.Leaderboards | backend/src/routes/gameRoutes.js:201-233 | any other type is a 400 naming the valid ones; otherwise the board with its type, or the service's error relayed |
| GameRoutes.LeaderboardRequests | backend/src/routes/gameRoutes.js:203-214 | a request without a type asks for the normal board with 50 rows, a decimal limit arrives as that integer, and an unknown type fetches nothing |
| GameRoutes.SaveFailMessage | backend/src/routes/gameRoutes.js:263-266 | each score route has its own 500 message: normal, leaderboard or skill score |
| GameRoutes.SaveOneScore | backend/src/routes/gameRoutes.js:236-267 | a user without a profile gets a 404; otherwise a 200 with the service's result exactly when it succeeded, a 400 with the service's error, and a 500 with the route's "Failed to save … score" message when the service threw |
| LeaderboardRoutes.ClampLimit | backend/src/routes/leaderboard.js:13 | the row limit never exceeds the route's maximum |
| LeaderboardRoutes.LimitFromQuery | backend/src/routes/leaderboard.js:13 | a limit written as an integer is taken as it is, capped at the maximum; 0 and an absent limit give the default; a negative limit is passed through |
| LeaderboardRoutes.Timeframe | backend/src/routes/leaderboard.js:14 | the timeframe is the one the query names, "all" when it names none |
| LeaderboardRoutes.CallsFollowTheQuery | backend/src/routes/leaderboard.js:11-143 | scores, points and survival ask for at most 100 rows (50 by default), /all for at most 50 (10 by default), /recent for at most 50 (20 by default) of the daily board; only scores and survival take the query's timeframe |
| LeaderboardRoutes.Answer | backend/src/routes/leaderboard.js:18-27 | a found board is a 200 with its rows, the timeframe shown and the number of rows; a failed lookup goes to the error handler |
| LeaderboardRoutes.BoardAsWritten | backend/src/routes/leaderboard.js:16 | the call to a lookup the session service does not have always fails |
| LeaderboardRoutes.RoutesAsWrittenNeverAnswer | backend/src/routes/leaderboard.js:11-80 | no query gets a board from the single-board routes as written (scores, points, survival; /recent at lines 124-143 likewise) |
| LeaderboardRoutes.Scores | backend/src/routes/leaderboard.js:11-31 | a scores board shows the query's timeframe and counts its rows |
| LeaderboardRoutes.Points | backend/src/routes/leaderboard.js:36-55 | a points board shows the timeframe "all" and counts its rows |
| LeaderboardRoutes.Survival | backend/src/routes/leaderboard.js:60-80 | a survival board shows the query's timeframe and counts its rows |
| LeaderboardRoutes.Recent | backend/src/routes/leaderboard.js:124-143 | the recent board shows "Last 24 hours" and counts its rows |
| LeaderboardRoutes.All | backend/src/routes/leaderboard.js:85-119 | the combined reply succeeds exactly when all three lookups do, each section holding its lookup's rows |
| LeaderboardRoutes.AllAsWritten | backend/src/routes/leaderboard.js:85-94 | /all as written never succeeds: its first call to the missing lookup throws |
| LeaderboardRoutes.AllAsWrittenNeverAnswers | backend/src/routes/leaderboard.js:85-119 | every /all request as written goes to the error handler with the TypeError |
| LeaderboardRoutes.IntendedRoutesAnswer | backend/src/routes/leaderboard.js:11-31 | the intended routes answer a successful lookup with its rows, where the routes as written fail |

## Left out

- Drawing is not modelled: the ImGui and OpenGL calls of `PlayState::Render`/`RenderUI`, the `Render*` members of the sign-in and home screens, `Renderer`, `MenuState`, `Audio` and `main`. What their buttons do is modelled, each as the method the button calls or as a method of its own: on the sign-in screen the test mode (`AuthChoice.AuthChoiceState.OnTestMode`), the login button (`AuthChoice.AuthChoiceState.OnLoginButton`), the two form switches (`AuthChoice.AuthChoiceState.SwitchToLogin`, `AuthChoice.AuthChoiceState.SwitchToSignup`), Retry (`AuthChoice.AuthChoiceState.OnRetrySteam`) and the guarded Create Linked Account button (`AuthChoice.AuthChoiceState.OnCreateLinkedButton`); on the play screen Resume, Continue from Save and Main Menu (`Play.PlayState.Resume`, `Play.PlayState.ContinueButton`, `Play.PlayState.MainMenuButton`); the home screen's buttons call `NavigateToPlay`, `SetUIMode`, `ExitGame` and `UpgradeSkill`, whose guard is `Home.Upgradable`.
- GameLoop.Game.Run: the screens on the stack are not run inside the loop, so a screen that changes the stack or stops the game during a frame is not modelled there. These are the sign-in screen's switch to the home screen, the home screen's ExitGame and the play screen's Q and Main Menu. Each of these steps is modelled on its own screen: `AuthChoice.AuthChoiceState.Update` returns the token, `Home.HomeState.ExitGame` returns the stop request, and `Play.PlayState.QuitToMenu` and `Play.PlayState.MainMenuButton` return the discarded queue. The stack operations are modelled by `GameLoop.Game`'s own push, pop and change methods.
- UserRoutes.ProfileRoute: the lookups of the signed-in account by id and of other accounts by username and e-mail are taken to succeed or find nothing. A lookup that throws (any error other than PGRST116), which the route passes to the error handler, is not an input.
- Threads, the mutex and curl in `AuthNetworkManager::Update` are not modelled. Dispatch moves the front request to an in-flight list, and `Complete` delivers any in-flight request with a transport outcome given as input. `isLoading`, which detached workers write, is not modelled.
- Floating point is modelled as exact `real` arithmetic, so rounding is not modelled.
- The normalised pursuit direction (a square root) is a function parameter `unit`.
- The `rand()` draws for spawn positions and speeds are parameters. The model applies the code's `%` to them.
- The sine pulse and the FPS figure itself are not computed.
- The JSON parser is a function parameter, and the client's serialisation is not modelled: a request body is the document it serialises.
- SDL, OpenGL and ImGui set-up and event polling in `Game` are not modelled. Events reach the states as values.
- Supabase queries, bcrypt, `jwt.sign`/`jwt.verify`, and express-validator's `isEmail` and `normalizeEmail` are not modelled. Rows are inputs. A lookup the service checks for an error is a `Result` input, whose `Err` is the message the service throws; for a `.single()` lookup `Ok(None)` is the no-row case (PGRST116). The checks and the password comparison are function parameters.
- The authentication middleware is not part of this model. A route receives the signed-in user's id or row.
- `updateLastLogin` and the JWT in each reply are not modelled.
- `GameSessionService.js` is not part of this model. `/session/start`, `/progress/save`, `/session/end`, `/stats` and `/session/active` relay its outcome, which is an input.
- `server.js`, `supabase.js` and `dlc.js` are not part of this model. The last is switched off in the server and built on models that are not in the repository.
- `frontend/src/src/NetworkManager.cpp` is not part of this model. It backs the home screen, whose network answers are only logged. So when a network manager is present, `Home.HomeState.LoadUserProgress` leaves the progress fields unchanged.
- Steam support is a placeholder in the source, so `IsSteamRunning` is taken as always true, and `GetSteamUserData` returns the placeholder user.
- `FormatTimeAgo`, `ShowNotification`, `SetVSync` and the home screen's panels are not modelled.
- The GET routes of `users.js` are not modelled. They only pass on a service lookup.
- A JSON body that is `null` or an array, a query parameter given twice (which arrives as an array), and JavaScript's number-to-text conversion of non-integral numbers are not modelled. Query values are texts, and body members are JSON values.
- ScoreService.SaveNormalScore: the update of the profile's highest score after a personal best is taken to succeed, because the source does not check its outcome.
- ScoreService.SaveLeaderboardScore: the update of the profile's running leaderboard total is taken to succeed, because the source does not check its outcome.
- ScoreService.SaveSkillScore: the update of the profile's running skill-point total is taken to succeed, because the source does not check its outcome.
- SkillService.SkillsWithUpgrades: when both the catalogue query and the query of the user's skills fail, `Promise.all` rejects with whichever fails first in time; the model reports the catalogue's error.
- SkillService.UpgradeOutcome: a failed query of the user's row for the skill or of the stats row is not an input, because the source reads only their `data` (a missing row means level 0 and "User not found").
- The requests a destroyed play screen still holds in its queue are discarded (see the quit finding); requests already handed to a worker thread, whose callbacks then run on a destroyed object, are not modelled.
- UserService.UpdateUserProgress, UserService.EndGameSession and UserService.AfterGame require the stored longest survival time to be a whole number, because the service only ever writes it floored.
- UserService.EndGameSession takes `final_score` and `survival_time` as present numbers. The source does arithmetic on them without a default.
- Play.PlayState.Update, Play.PlayState.RunFrame, Play.PlayState.AdvanceClock, Play.PlayState.UpdatePointSystem and Play.PlayState.AwardPoints require a non-negative frame time, because the game loop only passes values from 0 to 0.05 seconds.
- AuthNetwork.AuthNetworkManager.Complete: when the transport fails, the status code is 0. The source leaves that field uninitialised.
- Play.PlayState.StartGameSession, Play.PlayState.SaveProgressToServer and Play.PlayState.EndGameSession: the network manager is always present, so the source's null checks are dead code here.
- UserRoutes.PreferencesKeepWhatIsNotSent: holds only for a database that returns each written value as sent. The conversion a typed column applies to a text the validators accept, such as "1", "true" or "+007", is not modelled; `UserRoutes.UpdatePreferences` answers with whatever row the update returns.
- A missing e-mail or password field reads as the empty text where the source's validators treat `undefined` that way.

## Findings

| source | as written | input that shows it | evidently intended | confidence | as-written member | corrected member |
|---|---|---|---|---|---|---|
| backend/src/routes/auth.js:448-459 | dev-login creates the test account only when `findUserByEmail` throws, but that lookup returns `null` for a missing account, so the handler then reads `user.id` of `null` | a development database without `test@development.local` | create the test account when the lookup finds none | not executed; high | AuthRoutes.DevLoginAsWritten (with AuthRoutes.DevLoginAsWrittenFailsWithoutTestAccount) | AuthRoutes.DevLogin (with AuthRoutes.DevLoginSignsIn) |
| backend/src/routes/leaderboard.js:16 | every handler calls `gameSessionService.getLeaderboard`, which the session service does not define (it defines `getLeaderboards`, backend/src/services/GameSessionService.js:304), so each request throws a TypeError | `GET /api/leaderboard/scores` with any query | answer the rows a leaderboard lookup returns for the route's call | not executed; high | LeaderboardRoutes.BoardAsWritten (with LeaderboardRoutes.RoutesAsWrittenNeverAnswer and LeaderboardRoutes.AllAsWritten) | LeaderboardRoutes.Scores (with LeaderboardRoutes.IntendedRoutesAnswer) |
| frontend/src/PlayState.cpp:128-139 | Q queues the progress save and the session end (and `OnExit` queues the end again), then `Game::ChangeState` (frontend/src/src/Game.cpp:164-170) destroys the play screen and with it its network manager and the manager's queue (frontend/src/PlayState.h:82) before another `Update` pumps it, so neither request is ever sent | pressing Q during a running session | send the progress and end the server session before returning to the menu | not executed; high | Play.PlayState.QuitToMenu | Play.PlayState.QuitToMenuFlushed (with AuthNetwork.AuthNetworkManager.Flush) |
| backend/src/routes/skills.js:80 | the skill list reports `coins: result.userStats.coins`, but the service selects only `skill_points, level` (backend/src/services/skillService.js:108), so `coins` is undefined and left out of the reply | `GET /api/skills/user` for any user | report the user's coins balance | not executed; medium, because the database schema is not in the repository | SkillRoutes.UserSkillsReply (with SkillRoutes.UserSkillsReplyOmitsCoins) | SkillRoutes.UserSkillsReplyWithCoins |
| backend/src/routes/users.js:101 | the profile route tells accounts apart, and writes, by `user_id`, a column account creation never fills in (backend/src/services/userService.js:14-19), so for such accounts every holder looks like the current user and the write matches no row; the three score routes look the profile up by the same column (backend/src/routes/gameRoutes.js:245, 278, 311), so such accounts get their 404 (the `None` case of `GameRoutes.SaveOneScore`) | two e-mail accounts, "alice" and "bob"; alice asks for the name "bob" | compare and write by the `id` column the rest of the backend uses | not executed; medium, because it depends on the database schema | UserRoutes.UpdateProfileAsWritten (with UserRoutes.NullUserIdHidesTheTakenName) | UserRoutes.UpdateProfile (with UserRoutes.UpdateProfileWritesTheSignedInRow) |
