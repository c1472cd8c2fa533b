# Models of the kconfig evaluator, the voice-bot device and its small cores

This project models the hard core of the repository in Dafny and proves what it promises.

- **Kconfig evaluator** (`docs/bk7258/kconfiglib.py`). Modules `Tristate`, `KconfigExpr`, `KconfigModel`,
  `KconfigTheory`, `KconfigOrder`, `KconfigProgram`, `KconfigCaches`, `KconfigFrozen`, `KconfigEngine`,
  `KconfigStale`, `KconfigLaws`, `KconfigParser`, `KconfigModules`, `ConfigString`. The meaning of a
  configuration is the unique solution of one equation per symbol (`KconfigModel.Solution`); the program
  is the class `KconfigEngine.Kconfig`, which caches values, visibilities and selections and drops them
  along dependencies. Its method `Run` answers any program of assignments, loads and reads exactly as
  evaluating everything afresh would, but for two kinds of visibility that stay as first read;
  `KconfigFrozen` says exactly when that makes a difference. The expression parser is proved to read back
  what the printer writes, and the `.config` reader what the writer writes.
- **Device protocol** (`components/mybot/src/core/mybot_device_lifecycle.c`, `mybot_app.c`). Modules
  `DeviceHistory`, `DeviceProtocol`, `DeviceInvariants`, `DeviceRuns`, `DeviceLiveness`, `DeviceEffects`,
  `DeviceLifecycle`, `AppCommands`. A device is a state machine whose owner is interrupted, at every HTTP
  call and every callback, by any number of posts from other threads; a worker holds snapshots of requests
  and answers or drops them in any order. Everything observable is an entry of a history, and automata
  over the history say what must never happen; further lemmas say in plain terms what a history that the
  automata accept looks like.
- **Media pipeline** (`components/mybot/src/media/`). Modules `MediaProtocol`, `MediaInvariants`,
  `MediaSessions`, `MediaMixing`, `MediaCallbacks`, `MediaPrompts`, `MediaPipeline`, `MediaVolume`.
  Capture, playback and send workers, RTC callbacks and the control owner interleave at the level of
  single shared accesses; every byte received carries its session and its position.
- **Frame queues and command decoder** (`components/video_engine/video_frame_que.c`,
  `components/mybot/src/core/mybot_device_command.c`). Modules `FrameQueue`, `CommandDecoder`.

Where the source updates an object in place there is a class with its fields (`Kconfig`, `Feed`,
`Lifecycle`, `Pipeline`, `Runtime`, `FrameQueues`); each method is proved equal to a function on the
abstract value, or, in `Pipeline`, to be a run of the transition system under any interference, and the
lemmas are about those. What the functions compute is in turn pinned down by laws stated without them
(`KconfigLaws`, `KconfigModules`, `DeviceEffects`, `MediaPrompts`, and the laws in `AppCommands`,
`FrameQueue` and `CommandDecoder`): in terms of the observable values, fields and history.

## Properties that do not hold as one would expect

- `unset_user_value` on the MODULES symbol can leave stale values in the caches, because only
  `set_user_value` clears every cache for MODULES. `KconfigStale.UnsetModulesIsStale` has caches, right
  before, that are wrong after it. `KconfigStale.UnsetIsRightExactly`: for every configuration and
  symbol, all right caches stay right exactly when nothing outside the symbol's dependents moves; that is
  so for every symbol but MODULES, and for MODULES whenever modules are on, or off, before and after.
- Two cached visibilities are never dropped: that of a constant symbol, and that of a choice without
  choice symbols. `KconfigFrozen.FrozenIsHarmlessExactly`: no program reads one wrong exactly when it is
  the same under all assignments. `KconfigFrozen.ConstantPromptsSteady` gives a check on the prompts
  that is enough, and `KconfigStale.ConstantVisibilityIsStale` and
  `KconfigStale.EmptyChoiceVisibilityIsStale` have prompts for which programs do read it wrong.
- A byte of one session can be spoken in the next. `MediaMixing.SessionsMixExactly`: exactly when, in the
  callback that speaks it, RTC joined anew while the pipeline was stopped, or while a disconnect waited
  that the callback was past noticing; `MediaSessions.ReconnectionMixes` is such a run. That is for runs
  in which no flush took back the word of a disconnect with sound in the ring. Only a flush begun with RTC
  up can do so (`MediaSessions.ForgetsOnlyLive`), and then sessions can mix unnoticed
  (`MediaSessions.LiveFlushMixes`).
- `FrameQueue.FailedInitReportsReady`: after a failed `frame_queue_init` the next call reports success on
  a queue that does not work. `FrameQueue.ReadyMeansUsable`: after any operations, a reported success means
  a working queue exactly when the first attempt since the last teardown made both message queues.

## Model

| member | source | states |
|---|---|---|
| Tristate.ReadShow | docs/bk7258/kconfiglib.py:3032-3052 | writing a tristate and reading it back is the identity, and other text counts as n |
| Tristate.PromoteMinMax | docs/bk7258/kconfiglib.py:1371-1456 | m-to-y promotion without modules commutes with min and max |
| KconfigExpr.EvalAgrees | docs/bk7258/kconfiglib.py:3214-3239 | an expression's value depends only on the symbols collected from it |
| KconfigExpr.MakeAndIsMin | docs/bk7258/kconfiglib.py:3168-3188 | the flattened conjunction builder evaluates to the tristate minimum of its parts, an absent part counting as y |
| KconfigExpr.MakeOrIsMax | docs/bk7258/kconfiglib.py:3190-3212 | the disjunction builder evaluates to the maximum of its parts |
| KconfigExpr.PromoteCommutes | docs/bk7258/kconfiglib.py:1371-1442 | promoting the value of a conjunction or disjunction is taking the minimum or maximum of the promoted parts |
| KconfigLaws.AndIsLeast | docs/bk7258/kconfiglib.py:1390-1442 | a conjunction is worth the least of its parts |
| KconfigLaws.OrIsGreatest | docs/bk7258/kconfiglib.py:1390-1442 | a disjunction is worth the greatest |
| KconfigLaws.NotReverses | docs/bk7258/kconfiglib.py:1390-1442 | negation turns the order round and undoes itself, = compares values and != is its contrary |
| KconfigLaws.OperandsMean | docs/bk7258/kconfiglib.py:1390-1442 | a bool or tristate in an expression is worth its value, any other symbol n, a text the tristate it spells |
| KconfigLaws.ModulesDecide | docs/bk7258/kconfiglib.py:1371-1388 | modules are on exactly if MODULES is worth y, and no condition is m while they are off |
| KconfigTheory.OutAgrees | docs/bk7258/kconfiglib.py:1872-2026 | a symbol's value depends on user settings of its node and on the symbols it reads |
| KconfigTheory.ModulesOutStable | docs/bk7258/kconfiglib.py:1872-2026 | the MODULES symbol's value is the same whether or not modules are on |
| KconfigTheory.SolutionUnique | docs/bk7258/kconfiglib.py:1872-2026 | the equations of an acyclic configuration have at most one solution |
| KconfigTheory.SolveIsSolution | docs/bk7258/kconfiglib.py:1872-2026 | and evaluating in dependency order gives it |
| KconfigTheory.FrameSymbol | docs/bk7258/kconfiglib.py:2171-2203 | when two assignments agree outside a set closed under reading and choice membership, so do values and visibilities |
| KconfigTheory.FrameChoice | docs/bk7258/kconfiglib.py:2712-2754 | and so do the selections and visibilities of the choices outside it |
| KconfigTheory.ReachClosed | docs/bk7258/kconfiglib.py:2469-2492 | the recursive set of dependents is closed under reading and choice membership |
| KconfigProgram.UnassignForgets | docs/bk7258/kconfiglib.py:556-560 | unsetting symbol by symbol leaves no user value, selection or mode |
| KconfigCaches.StaysCoherent | docs/bk7258/kconfiglib.py:2469-2492 | dropping the entries of the dependents leaves every cached entry right after an assignment, MODULES included where modules stay on or off |
| KconfigCaches.DroppingSufficesExactly | docs/bk7258/kconfiglib.py:2360-2368 | dropping the entries of a set keeps every right cache right exactly when no value, visibility or selection outside the set has moved |
| KconfigCaches.AllDroppedBare | docs/bk7258/kconfiglib.py:1552-1558 | dropping every entry leaves only constants and never-dropped visibilities cached |
| KconfigCaches.BareOk | docs/bk7258/kconfiglib.py:1552-1558 | and such caches are right for any assignment |
| KconfigEngine.Kconfig.EvalExprRec | docs/bk7258/kconfiglib.py:1390-1442 | the short-circuit evaluator returns the tristate meaning of the expression |
| KconfigEngine.Kconfig.EvalExpr | docs/bk7258/kconfiglib.py:1371-1388 | with absent expressions as y and m promoted without modules |
| KconfigEngine.Kconfig.GetVisibility | docs/bk7258/kconfiglib.py:3147-3166 | the visibility of a symbol is the maximum over its prompts, capped by its choice; for a constant, what it was when first read |
| KconfigEngine.Kconfig.GetChoiceVisibility | docs/bk7258/kconfiglib.py:2790-2795 | the maximum over a choice's prompts; without choice symbols, what it was when first read |
| KconfigEngine.Kconfig.GetMode | docs/bk7258/kconfiglib.py:2797-2808 | the mode of a choice from the visibility read, user mode and optionality |
| KconfigEngine.Kconfig.GetSelectionFromDefaults | docs/bk7258/kconfiglib.py:2733-2754 | the first active default, else the first visible choice symbol |
| KconfigEngine.Kconfig.GetSelection | docs/bk7258/kconfiglib.py:2712-2731 | the user selection when visible and y mode, else the default selection, cached |
| KconfigEngine.Kconfig.GetValue | docs/bk7258/kconfiglib.py:1872-2026 | the value of a symbol equals its value in the solution and leaves the caches right |
| KconfigEngine.Kconfig.NumValue | docs/bk7258/kconfiglib.py:1939-2004 | ints and hexes: user value, default and range clamping |
| KconfigLaws.ChoiceVisibility | docs/bk7258/kconfiglib.py:2790-2795 | a choice shows as far as its most open prompt |
| KconfigLaws.Visibility | docs/bk7258/kconfiglib.py:3147-3166 | a symbol shows as far as its most open prompt and no further than its choice |
| KconfigLaws.SelectsCount | docs/bk7258/kconfiglib.py:1929-1937 | a selected symbol is never worth less than its selectors ask, and is then written |
| KconfigLaws.UserValueCounts | docs/bk7258/kconfiglib.py:1910-1918 | a visible user value counts as far as the visibility goes |
| KconfigLaws.DefaultCounts | docs/bk7258/kconfiglib.py:1920-1927 | without one, the first active default counts as far as its condition goes |
| KconfigLaws.NothingCounts | docs/bk7258/kconfiglib.py:1910-1937 | with neither, the value is what the selectors ask, n if nothing |
| KconfigLaws.ModeLaw | docs/bk7258/kconfiglib.py:2797-2808 | a choice is on exactly when it shows and is asked for, and when it is in y mode |
| KconfigLaws.SelectionLaw | docs/bk7258/kconfiglib.py:2712-2754 | who is chosen: the visible user selection, else the first active default that shows, else the first member that shows |
| KconfigLaws.MemberValue | docs/bk7258/kconfiglib.py:1892-1907 | what a member is worth in each mode of its choice |
| KconfigLaws.OneMemberIsY | docs/bk7258/kconfiglib.py:1892-1904 | in y mode at most one member is y, the one chosen |
| KconfigLaws.UserNumber | docs/bk7258/kconfiglib.py:1960-1973 | a visible user number inside the active range is the value as written |
| KconfigLaws.DefaultNumber | docs/bk7258/kconfiglib.py:1975-2001 | otherwise a default stays as written inside the range and becomes the end it lies beyond |
| KconfigLaws.NoNumber | docs/bk7258/kconfiglib.py:2002-2007 | without a default, the low end of the range if it is above 0, else nothing |
| KconfigLaws.StringLaw | docs/bk7258/kconfiglib.py:2009-2023 | a visible user string is the value, else the first active default |
| KconfigLaws.FixedValue | docs/bk7258/kconfiglib.py:1872-1884 | constants keep their value and an undefined symbol is worth its name |
| KconfigLaws.AssignLaw | docs/bk7258/kconfiglib.py:2374-2431 | which texts a symbol takes, and what they do to its choice |
| KconfigLaws.SettingChooses | docs/bk7258/kconfiglib.py:2374-2431 | setting a member to y, where it shows fully, makes it y and all other members n |
| KconfigLaws.UnsetLaw | docs/bk7258/kconfiglib.py:2433-2443 | unsetting takes back the value, and the selection and mode of the choice |
| KconfigLaws.LoadLaw | docs/bk7258/kconfiglib.py:384-504 | after loading, a symbol has the last value it takes from the file, else its old one or none |
| KconfigEngine.Kconfig.BuildDep | docs/bk7258/kconfiglib.py:1462-1503 | after it every symbol's dependents are exactly the symbols that read it |
| KconfigEngine.Kconfig.GetDependent | docs/bk7258/kconfiglib.py:2469-2492 | returns exactly the set reachable over dependents and choice siblings |
| KconfigEngine.Kconfig.InvalidateSym | docs/bk7258/kconfiglib.py:2360-2368 | drops one symbol's entries and its choice's, constants apart |
| KconfigEngine.Kconfig.InvalidateAll | docs/bk7258/kconfiglib.py:1552-1558 | drops every symbol's entries |
| KconfigEngine.Kconfig.SetUserValueNoInvalidate | docs/bk7258/kconfiglib.py:2374-2431 | records an assignment when the text suits the type, with the effect on the choice |
| KconfigEngine.Kconfig.SetUserValue | docs/bk7258/kconfiglib.py:2171-2203 | an assignment keeps every cached entry right, MODULES included |
| KconfigEngine.Kconfig.UnsetUserValue | docs/bk7258/kconfiglib.py:2205-2210 | takes an assignment back and drops exactly the entries it reaches; the caches stay right unless it is MODULES and modules turn on or off |
| KconfigEngine.Kconfig.UnsetUserValues | docs/bk7258/kconfiglib.py:556-560 | takes every assignment back, dropping every symbol's entries |
| KconfigEngine.Kconfig.LoadConfig | docs/bk7258/kconfiglib.py:384-504 | assigns the lines in order, after forgetting the old values when replacing, and leaves the caches right |
| KconfigEngine.Kconfig.Perform | docs/bk7258/kconfiglib.py:1872-2203 | one operation answers what fresh evaluation answers, and freezes what the source never drops |
| KconfigEngine.Kconfig.Run | docs/bk7258/kconfiglib.py:1872-2203 | every answer of any program of assignments, loads and reads equals the cache-free one, a frozen visibility being as first read |
| KconfigFrozen.FrozenIsHarmlessExactly | docs/bk7258/kconfiglib.py:2360-2368 | a visibility that is never dropped is never read wrong by any program exactly when it is the same under all assignments |
| KconfigFrozen.ConstantPromptsSteady | docs/bk7258/kconfiglib.py:3147-3166 | which it is when its prompts name constants only |
| KconfigFrozen.OrdinaryConfigurations | docs/bk7258/kconfiglib.py:1872-2203 | without prompts of constants on other symbols, and without empty choices, a program's answers are those of fresh evaluation throughout |
| KconfigStale.UnsetModulesIsStale | docs/bk7258/kconfiglib.py:2205-2210 | unsetting MODULES keeps a cached value that is then wrong |
| KconfigStale.UnsetModulesCanHappen | docs/bk7258/kconfiglib.py:2205-2210 | and the caches it starts from are right for their assignment |
| KconfigStale.UnsetIsRightExactly | docs/bk7258/kconfiglib.py:2205-2210 | unsetting a symbol keeps every right cache right exactly when nothing outside what it reaches moves |
| KconfigStale.FrozenReadsGoStale | docs/bk7258/kconfiglib.py:2360-2368 | a program reads n twice where the second fresh reading is y |
| KconfigStale.ConstantVisibilityIsStale | docs/bk7258/kconfiglib.py:2360-2368 | so the visibility of a prompted constant is read wrong |
| KconfigStale.EmptyChoiceVisibilityIsStale | docs/bk7258/kconfiglib.py:2919-2921 | and so is the visibility of a choice without choice symbols |
| KconfigParser.Feed.GetNext | docs/bk7258/kconfiglib.py:3070-3075 | takes the next token of the feed |
| KconfigParser.Feed.Check | docs/bk7258/kconfiglib.py:3080-3086 | takes a token only when it is the one asked for |
| KconfigParser.Feed.ParseFactorRec | docs/bk7258/kconfiglib.py:1155-1188 | parses exactly the specified factor and leaves the feed where it ends |
| KconfigParser.Feed.ParseAndTermRec | docs/bk7258/kconfiglib.py:1144-1153 | the same for conjunctions |
| KconfigParser.Feed.ParseExprRec | docs/bk7258/kconfiglib.py:1133-1142 | the same for disjunctions |
| KconfigModules.ConditionsMeanWithModules | docs/bk7258/kconfiglib.py:1155-1188 | conditions parse when values do and with the same rest, a lone m counting as no more than MODULES, in every configuration |
| KconfigModules.PrintedConditionMeans | docs/bk7258/kconfiglib.py:3260-3315 | so a printed condition comes back meaning what it says |
| KconfigParser.PrintThenParse | docs/bk7258/kconfiglib.py:3260-3315 | parsing the printed tokens gives the expression with nested equal operators flattened |
| KconfigParser.FlatMeans | docs/bk7258/kconfiglib.py:1390-1442 | flattening keeps the value under every assignment |
| KconfigParser.PrintThenParseMeans | docs/bk7258/kconfiglib.py:3288-3315 | so printing and parsing keeps the value |
| ConfigString.WriteThenLoad | docs/bk7258/kconfiglib.py:2459-2463 | loading a written string value gives it back, for any quotes and backslashes |
| ConfigString.EscapeKeepsOthers | docs/bk7258/kconfiglib.py:462-469 | escaping adds backslashes only, all other characters keeping number and order, and every quote then follows a backslash |
| DeviceHistory.Accounting | components/mybot/src/core/mybot_device_lifecycle.c:390-486 | in an accepted history starts exceed stops by one while talking, else by none |
| DeviceHistory.StopRequestFollowsItsConversation | components/mybot/src/core/mybot_device_lifecycle.c:462-486 | a STOP request follows the local stop of the conversation whose id and token it carries |
| DeviceHistory.OneStopRequestEach | components/mybot/src/core/mybot_device_lifecycle.c:462-486 | two STOP requests have a new start between them |
| DeviceHistory.ConversationsOpenClean | components/mybot/src/core/mybot_device_lifecycle.c:54-73 | a conversation is published with an empty stop mailbox and no renewal requested or pending |
| DeviceHistory.GrantedOnline | components/mybot/src/core/mybot_device_lifecycle.c:48-52 | a start, pair code or renewed token comes from the last call made, begun online and answered before any loss |
| DeviceInvariants.BackoffNext | components/mybot/src/core/mybot_device_lifecycle.c:89-94 | the next retry delay is the doubled one up to the maximum |
| DeviceInvariants.PostsDrift | components/mybot/src/core/mybot_device_lifecycle.c:740-817 | whatever other threads post, only the atomics move, and a loss raises the generation and is noted |
| DeviceInvariants.SetStateFacts | components/mybot/src/core/mybot_device_lifecycle.c:54-73 | a state change publishes the new state and keeps the owner's fields under any posts |
| DeviceInvariants.CompleteLocallyFacts | components/mybot/src/core/mybot_device_lifecycle.c:453-460 | a local stop leaves the invariant whole in state runtime, its STOP request still due |
| DeviceInvariants.StopConversationFacts | components/mybot/src/core/mybot_device_lifecycle.c:462-486 | a stop adds at most the one STOP request, for the id and credential of the conversation ended |
| DeviceInvariants.StartConversationKeeps | components/mybot/src/core/mybot_device_lifecycle.c:390-448 | starting keeps the invariant for every answer and interference |
| DeviceInvariants.RenewTokenKeeps | components/mybot/src/core/mybot_device_lifecycle.c:504-553 | so does renewing the RTC token |
| DeviceInvariants.CreatePairCodeKeeps | components/mybot/src/core/mybot_device_lifecycle.c:164-215 | so does asking for a pair code, and the delay follows the failures |
| DeviceInvariants.ClaimedKeeps | components/mybot/src/core/mybot_device_lifecycle.c:288-305 | a claim enters runtime only with its credential stored |
| DeviceInvariants.ServiceResultKeeps | components/mybot/src/core/mybot_device_lifecycle.c:603-628 | so does applying or dropping a worker's answer |
| DeviceInvariants.TickKeeps | components/mybot/src/core/mybot_device_lifecycle.c:630-738 | so does a tick |
| DeviceInvariants.ShutdownKeeps | components/mybot/src/core/mybot_device_lifecycle.c:750-764 | shutdown keeps it and ends any conversation |
| DeviceRuns.InitKeeps | components/mybot/src/core/mybot_device_lifecycle.c:559-601 | start-up restores runtime exactly when the stored record is readable and fits |
| DeviceRuns.RunsAreSafe | components/mybot/src/core/mybot_device_lifecycle.c:559-817 | every run from any store keeps the invariant |
| DeviceRuns.StartsAndStops | components/mybot/src/core/mybot_device_lifecycle.c:390-486 | between operations starts minus stops is one exactly in conversation |
| DeviceRuns.ShutdownIsFinal | components/mybot/src/core/mybot_device_lifecycle.c:750-764 | after shutdown no run is ever in conversation |
| DeviceRuns.RestartRestoresBinding | components/mybot/src/core/mybot_device_lifecycle.c:96-145 | in runtime or conversation, restarting on the store gives runtime with the same token |
| DeviceRuns.AnswersNeedCurrentCredential | components/mybot/src/core/mybot_device_lifecycle.c:603-628 | an answer with any effect was asked for with the current credential, binding and network |
| DeviceRuns.OldRequestsStayOld | components/mybot/src/core/mybot_device_lifecycle.c:147-153 | an answer obtained with a replaced credential changes nothing |
| DeviceEffects.RejectionUnbinds | components/mybot/src/core/mybot_device_lifecycle.c:335-357 | an answer in time that rejects the credential or tells of an unbinding erases the binding, ends any conversation and asks to pair |
| DeviceEffects.BoundStays | components/mybot/src/core/mybot_device_lifecycle.c:335-357 | any other changes at most the poll interval, to the nearest allowed |
| DeviceEffects.ClaimBinds | components/mybot/src/core/mybot_device_lifecycle.c:288-305 | a claim with a working store binds the device with the token it carries |
| DeviceEffects.ClaimUnsaved | components/mybot/src/core/mybot_device_lifecycle.c:288-305 | without the store the device keeps waiting, the token in memory only |
| DeviceEffects.ClaimNotYet | components/mybot/src/core/mybot_device_lifecycle.c:269-321 | what every other answer does while a claim is awaited |
| DeviceEffects.TickStarts | components/mybot/src/core/mybot_device_lifecycle.c:390-448 | a tick that opens a conversation was asked to, and the conversation is the one answered, field by field |
| DeviceEffects.PressingStartTalks | components/mybot/src/core/mybot_device_lifecycle.c:773-783 | pressing start on a bound device online opens the conversation the service names at the next undisturbed tick |
| DeviceEffects.PressingStartInVain | components/mybot/src/core/mybot_device_lifecycle.c:773-783 | offline, unbound, talking or shutting down it does nothing |
| DeviceEffects.FailedStartComesTo | components/mybot/src/core/mybot_device_lifecycle.c:390-448 | a rejected start gives up the binding, a failed one leaves the device bound and no longer asking |
| DeviceEffects.CreateComes | components/mybot/src/core/mybot_device_lifecycle.c:164-215 | asking for a pair code ends in waiting for the claim of the code answered, or unprovisioned with another try due |
| DeviceEffects.AskingToPairPairs | components/mybot/src/core/mybot_device_lifecycle.c:652-684 | asking to pair erases the binding, ends a conversation as the user wished and asks for a code |
| DeviceEffects.PostedStopEnds | components/mybot/src/core/mybot_device_lifecycle.c:710-719 | a stop posted ends the conversation at the next tick and the service is told who ended it |
| DeviceEffects.PostsSayWho | components/mybot/src/core/mybot_device_lifecycle.c:785-817 | the button posts a hang-up, RTC a failure |
| DeviceEffects.ShutdownEnds | components/mybot/src/core/mybot_device_lifecycle.c:750-764 | shutdown ends a conversation, and asks the service to exactly if the network has stayed up |
| DeviceEffects.RenewalComesTo | components/mybot/src/core/mybot_device_lifecycle.c:504-553 | what each answer to a token renewal does, and how long the next try waits |
| DeviceEffects.StartUpRestores | components/mybot/src/core/mybot_device_lifecycle.c:559-601 | start-up takes exactly a whole record for this server and device and erases anything else |
| DeviceEffects.StartUpRejects | components/mybot/src/core/mybot_device_lifecycle.c:559-573 | a configuration that is missing or too long gives no device |
| DeviceEffects.OfflineTick | components/mybot/src/core/mybot_device_lifecycle.c:635-650 | a tick without network drops a start asked for and touches nothing else |
| DeviceEffects.LostTick | components/mybot/src/core/mybot_device_lifecycle.c:635-644 | one that finds a loss ends the conversation without asking the service |
| DeviceEffects.RefusedPollIsNotOut | components/mybot/src/core/mybot_device_lifecycle.c:251-264 | a poll that cannot be handed over is not outstanding |
| DeviceEffects.EndedConversationsAreForgotten | components/mybot/src/core/mybot_device_lifecycle.c:453-460 | whatever ends a conversation, nothing of it is left in the device |
| DeviceRuns.OnePollOutstanding | components/mybot/src/core/mybot_device_lifecycle.c:251-264 | at most one poll is with the worker |
| DeviceRuns.LossEndsConversation | components/mybot/src/core/mybot_device_lifecycle.c:635-644 | a network loss during any step of a run, inside a call or callback included, ends the conversation at the next tick even if the network is back at once |
| DeviceRuns.EveryLossIsNoted | components/mybot/src/core/mybot_device_lifecycle.c:740-748 | after any step a loss is noted exactly when the network was lost during it, or one was noted before and no tick has consumed it |
| DeviceRuns.OfflineConversationsAreNoted | components/mybot/src/core/mybot_device_lifecycle.c:740-748 | a conversation is offline only with a loss noted for the next tick |
| DeviceRuns.PostedStopStays | components/mybot/src/core/mybot_device_lifecycle.c:710-719 | a posted stop stays posted until its conversation ends |
| DeviceLiveness.PairCodeAttemptComes | components/mybot/src/core/mybot_device_lifecycle.c:656-684 | an unprovisioned device with the network up calls for a pair code by the end of its countdown, within 600 ticks and one more after a reconnection, whatever answers, requests and posts come between them |
| DeviceLiveness.AttemptAfterTicks | components/mybot/src/core/mybot_device_lifecycle.c:656-684 | left to its ticks alone it waits exactly the countdown |
| DeviceLiveness.DelayFollowsFailures | components/mybot/src/core/mybot_device_lifecycle.c:184-193 | the delay after the k-th failure in a row is the smaller of 600 and 30 doubled k-1 times |
| DeviceLiveness.PollComes | components/mybot/src/core/mybot_device_lifecycle.c:686-707 | online, the poll of the state goes out at exactly the end of its interval, at most 600 ticks, with its credential, whatever else comes that leaves the device polling |
| DeviceLiveness.RenewalComes | components/mybot/src/core/mybot_device_lifecycle.c:721-734 | a token renewal asked for or pending is tried by the end of its wait, within 100 ticks, whatever comes that does not end the conversation |
| DeviceProtocol.ClampPoll | components/mybot/src/core/mybot_device_lifecycle.c:79-87 | the allowed poll interval nearest to the one asked for |
| DeviceProtocol.Fitted | components/mybot/src/core/mybot_device_lifecycle.c:96-111 | a copied string is the original, or its longest beginning that leaves room for the end mark |
| DeviceLifecycle.Lifecycle.Create | components/mybot/src/core/mybot_device_lifecycle.c:559-601 | no object for an empty or oversized configuration; otherwise the start-up state of `DeviceProtocol.Init`, safe, and in runtime exactly when the record fits |
| DeviceLifecycle.Lifecycle.LoadDeviceAuth | components/mybot/src/core/mybot_device_lifecycle.c:113-145 | takes the token of a fitting record and erases any other |
| DeviceLifecycle.Lifecycle.SetState | components/mybot/src/core/mybot_device_lifecycle.c:54-73 | the object after it is `DeviceProtocol.SetState` of the object before: mailbox cleared on leaving a conversation, then published, with posts in both gaps |
| DeviceLifecycle.Lifecycle.CreatePairCode | components/mybot/src/core/mybot_device_lifecycle.c:164-215 | the object after it is `DeviceProtocol.CreatePairCode` of the object before, stale, failed and accepted answers included |
| DeviceLifecycle.Lifecycle.PollBinding | components/mybot/src/core/mybot_device_lifecycle.c:251-264 | one request is snapshotted and handed over unless one is outstanding; a refused one leaves no poll pending |
| DeviceLifecycle.Lifecycle.ApplyBindingPair | components/mybot/src/core/mybot_device_lifecycle.c:269-321 | each claim status and failure has the effect of `DeviceProtocol.ApplyPair` |
| DeviceLifecycle.Lifecycle.ApplyBindingRuntime | components/mybot/src/core/mybot_device_lifecycle.c:335-357 | each runtime status and failure has the effect of `DeviceProtocol.ApplyRuntime` |
| DeviceLifecycle.Lifecycle.StartConversation | components/mybot/src/core/mybot_device_lifecycle.c:390-448 | the object after it is `DeviceProtocol.StartConversation` of the object before, for every answer and interference |
| DeviceLifecycle.Lifecycle.StopConversation | components/mybot/src/core/mybot_device_lifecycle.c:462-486 | the object after it is `DeviceProtocol.StopConversation` of the object before: stopped locally first, the request only on an uninterrupted network |
| DeviceLifecycle.Lifecycle.RenewRtcToken | components/mybot/src/core/mybot_device_lifecycle.c:504-553 | the object after it is `DeviceProtocol.RenewToken` of the object before, for every answer and interference |
| DeviceLifecycle.Lifecycle.ServiceResult | components/mybot/src/core/mybot_device_lifecycle.c:603-628 | the object after it is `DeviceProtocol.ServiceResult` of the object before, stale answers dropped |
| DeviceLifecycle.Lifecycle.Tick | components/mybot/src/core/mybot_device_lifecycle.c:630-738 | the object after it is `DeviceProtocol.Tick` of the object before, for every interference |
| DeviceLifecycle.Lifecycle.Shutdown | components/mybot/src/core/mybot_device_lifecycle.c:750-764 | the object after it is `DeviceProtocol.Shutdown` of the object before |
| DeviceLifecycle.Lifecycle.Await | components/mybot/src/core/mybot_device_lifecycle.c:740-817 | any series of posts of other threads has the effect of `DeviceProtocol.Posts` |
| DeviceLifecycle.Lifecycle.Serve | components/mybot/src/core/mybot_device_lifecycle.c:603-817 | a whole run of the object is the specified run and stays safe |
| AppCommands.RingIsRecent | components/mybot/src/core/mybot_app.c:242-255 | the history ring remembers exactly the last sixteen accepted ids |
| AppCommands.RememberKeeps | components/mybot/src/core/mybot_app.c:242-255 | an id is accepted exactly when it is not among them |
| AppCommands.ExecutedWhereHeard | components/mybot/src/core/mybot_app.c:257-299 | a command is executed only in the conversation during which its message was received, and is what that message states |
| AppCommands.OnlyTheAgentCommands | components/mybot/src/core/mybot_app.c:257-280 | over all runs, every executed command came from the agent of its conversation, to its channel or privately, and named it |
| AppCommands.DueCommandsExecute | components/mybot/src/core/mybot_app.c:257-299 | handling the queue executes its first command exactly if it is due in the conversation under way |
| AppCommands.AgentCommandExecutes | components/mybot/src/core/mybot_app.c:343-371 | a new command of the agent is heard, queued and executed |
| AppCommands.MessagesThatCount | components/mybot/src/core/mybot_app.c:343-349 | which messages are taken in, and with what generation |
| AppCommands.CommandsAreQueued | components/mybot/src/core/mybot_app.c:301-325 | a message is queued exactly if it states a command and there is room |
| AppCommands.OpeningJoinsExactly | components/mybot/src/core/mybot_app.c:693-752 | a start joins exactly if every step of it succeeds, else a stop is posted |
| AppCommands.EndingForgets | components/mybot/src/core/mybot_app.c:754-775 | the end of a conversation closes its generation and forgets all of it |
| AppCommands.RepeatsAreFarApart | components/mybot/src/core/mybot_app.c:242-255 | the same id is accepted again in a conversation only after at least sixteen others |
| AppCommands.HistoryIsRecent | components/mybot/src/core/mybot_app.c:242-255 | over all runs the history is the last at most sixteen accepted ids, pairwise distinct |
| AppCommands.Runtime.RememberCommand | components/mybot/src/core/mybot_app.c:242-255 | the loop over the ring refuses exactly remembered ids and overwrites the oldest with a new one |
| AppCommands.Runtime.HandleDeviceCommand | components/mybot/src/core/mybot_app.c:257-299 | executes exactly the admitted commands not seen recently |
| AppCommands.CommandsLookLikeIt | components/mybot/src/core/mybot_app.c:357-361 | no message that states a command is sorted out by its type and schema |
| AppCommands.Runtime.ProcessRtmData | components/mybot/src/core/mybot_app.c:343-349 | drops unfit messages (sender and channel as at lines 594-646) and takes down the generation at which any other arrived, before it is parsed |
| AppCommands.Runtime.RouteMessage | components/mybot/src/core/mybot_app.c:357-371 | hands on exactly the messages that state a command, whenever memory and the queue allow |
| AppCommands.Runtime.QueueDeviceCommand | components/mybot/src/core/mybot_app.c:301-325 | queues the stated command with its generation, sender and channel |
| AppCommands.Runtime.OnConversationStart | components/mybot/src/core/mybot_app.c:693-752 | with messages and stops coming in at both gaps, opens a new generation with an empty history and joins RTC, or posts a stop |
| AppCommands.Runtime.OnConversationStop | components/mybot/src/core/mybot_app.c:754-775 | closes the generation and forgets the session |
| MediaInvariants.NextKeeps | components/mybot/src/media/mybot_media_pipeline.c:36-271 | every step of every worker keeps the invariant |
| MediaInvariants.WriteLine | components/mybot/src/media/mybot_media_pipeline.c:198-219 | a partial device write moves exactly the bytes accepted from pending to spoken |
| MediaInvariants.ReferenceKeeps | components/mybot/src/media/mybot_media_pipeline.c:220-229 | the reference write never fails and never disconnects RTC |
| MediaInvariants.EndSessionEmpties | components/mybot/src/media/mybot_media_pipeline.c:555-587 | when ending a session has succeeded, all session sound is gone, for every interleaving |
| MediaInvariants.EndedStaysEmpty | components/mybot/src/media/mybot_media_pipeline.c:555-587 | and whatever the workers then do, it stays gone until RTC is connected again |
| MediaInvariants.SpokenInOrder | components/mybot/src/media/mybot_media_pipeline.c:178-235 | the speaker gets accepted bytes in order, each once, unchanged at unity gain and unmuted |
| MediaInvariants.ReferenceIsWhatWasSpoken | components/mybot/src/media/mybot_media_pipeline.c:220-229 | the echo-canceller ring receives exactly what the speaker took from RTC |
| MediaInvariants.ReferenceAlwaysFits | components/mybot/src/media/mybot_media_pipeline.c:185-191 | the enqueue-failed branch is unreachable |
| MediaInvariants.HeldIsCurrent | components/mybot/src/media/mybot_media_pipeline.c:154-162 | while no disconnect waits to be noticed, all the ring and the pending frame hold is of the present session, and nothing once RTC is down |
| MediaMixing.SessionsMixExactly | components/mybot/src/media/mybot_media_pipeline.c:154-176 | unless a flush forgot a disconnect, a byte is spoken in another session than its own exactly when RTC joined anew during its callback while a stop, or a disconnect no longer looked for, was waiting |
| MediaMixing.SessionsStayApart | components/mybot/src/media/mybot_media_pipeline.c:546-553 | so RTC joining only when neither waits keeps every session's sound to itself |
| MediaSessions.ForgetsOnlyLive | components/mybot/src/media/mybot_media_pipeline.c:237-247 | only a flush begun with RTC up can forget a disconnect |
| MediaSessions.UndisturbedIsCurrent | components/mybot/src/media/mybot_media_pipeline.c:141-235 | from a resting worker on, with no disconnect, stop or step of the control owner in between, whoever else runs, only the session under way is spoken, which is that of the start unless RTC joins anew |
| MediaSessions.ReconnectionMixes | components/mybot/src/media/mybot_media_pipeline.c:546-553 | a run in which RTC goes down and up within one callback speaks sound of session 1 in session 2 |
| MediaSessions.LiveFlushMixes | components/mybot/src/media/mybot_media_pipeline.c:237-247 | a flush begun with RTC up clears the flag a disconnect has just raised, so that sound of session 1 is spoken in session 2 with no disconnect waiting |
| MediaCallbacks.AloneSpeaks | components/mybot/src/media/mybot_media_pipeline.c:178-235 | an undisturbed callback speaks what the device takes of the oldest frame, hands the same bytes to the echo canceller, and holds the rest |
| MediaCallbacks.AloneDrains | components/mybot/src/media/mybot_media_pipeline.c:154-176 | one that finds a disconnect or another announcement throws all RTC sound away and speaks none |
| MediaPrompts.AloneAnnounces | components/mybot/src/media/mybot_media_pipeline.c:108-139 | with an announcement on, the device is handed a frame of its samples, then silence; the rest stays pending, the ring is emptied and no RTC sound is spoken or referenced |
| MediaPrompts.AloneAnnouncesOn | components/mybot/src/media/mybot_media_pipeline.c:178-235 | the rest of an announcement frame goes on where it stopped |
| MediaPrompts.AloneSpeaksOn | components/mybot/src/media/mybot_media_pipeline.c:178-235 | so does the rest of a frame of RTC sound |
| MediaPrompts.AloneWithoutSound | components/mybot/src/media/mybot_media_pipeline.c:108-136 | an announcement without sound, or with too much, hands nothing to the device |
| MediaPrompts.AloneGivesWay | components/mybot/src/media/mybot_media_pipeline.c:162-176 | a pending frame of RTC sound is dropped for an announcement |
| MediaPrompts.ChangedIsNotWritten | components/mybot/src/media/mybot_media_pipeline.c:192-197 | a frame whose announcement has changed is not handed to the device |
| MediaPrompts.ChangedIsNotResumed | components/mybot/src/media/mybot_media_pipeline.c:230-235 | nor is the rest of one whose announcement changed meanwhile |
| MediaPrompts.DrainsOnce | components/mybot/src/media/mybot_media_pipeline.c:154-162 | an undisturbed callback leaves nothing to notice behind |
| MediaPrompts.PromptsInterrupt | components/mybot/src/media/mybot_media_pipeline.c:617-635 | playing or stopping a prompt empties what was pending |
| MediaPrompts.SettingsHeard | components/mybot/src/media/mybot_media_pipeline.c:198-208 | muting silences the device, full volume gives it the bytes themselves |
| MediaPrompts.SoundComesIn | components/mybot/src/media/mybot_media_pipeline.c:597-615 | when RTC sound is taken in, all of it, and as what |
| MediaPrompts.CapturingKeepsOrder | components/mybot/src/media/mybot_media_pipeline.c:36-84 | captured frames wait in order while there is room |
| MediaPrompts.SendingTakesOnce | components/mybot/src/media/mybot_media_pipeline.c:288-323 | sending takes the oldest frame and one frame of reference away |
| MediaPrompts.SendingWaits | components/mybot/src/media/mybot_media_pipeline.c:288-300 | and does nothing while RTC is down or less than a frame waits |
| MediaPrompts.EndingBegins | components/mybot/src/media/mybot_media_pipeline.c:546-587 | ending a session takes RTC down and tells the playback worker, before the flush |
| MediaPrompts.CallsAreMade | components/mybot/src/media/mybot_media_pipeline.c:555-579 | the workers are called in turn, a call that fails being noted |
| MediaCallbacks.BesideSendKeeps | components/mybot/src/media/mybot_media_pipeline.c:288-305 | a captured frame the send worker has seen stays at the front until it reads it |
| MediaCallbacks.HalfDown | components/mybot/src/media/mybot_media_pipeline.c:546-553 | nothing brings RTC up between the two stores of a disconnect |
| MediaPipeline.Pipeline.PlaybackTimer | components/mybot/src/media/mybot_media_pipeline.c:141-235 | interrupted anywhere, takes exactly the steps the callback has to take, each after its gap, and leads where they lead; undisturbed, it plays the oldest frame or drains; stopped, it does nothing |
| MediaPipeline.Pipeline.DrainPending | components/mybot/src/media/mybot_media_pipeline.c:20-34 | draining as the consumer ends, whatever producers do meanwhile |
| MediaPipeline.Pipeline.TakeFrame | components/mybot/src/media/mybot_media_pipeline.c:108-139 | fills the empty pending frame from the announcement or with one whole frame of the ring, or leaves both alone |
| MediaPipeline.Pipeline.WriteBytes | components/mybot/src/media/mybot_media_pipeline.c:198-219 | the part of the frame the device took joins the spoken bytes as muted, gained or plain, with the session and what was waiting at that moment |
| MediaPipeline.Pipeline.CaptureTimer | components/mybot/src/media/mybot_media_pipeline.c:36-84 | a frame read with RTC up reaches the ring after what came meanwhile, if there is room; otherwise nothing changes |
| MediaPipeline.Pipeline.SendTimer | components/mybot/src/media/mybot_media_pipeline.c:288-323 | sends the oldest captured frame with a frame of echo reference or silence and takes both away; without a whole frame, or with RTC down, nothing |
| MediaPipeline.Pipeline.PushRemoteAudio | components/mybot/src/media/mybot_media_pipeline.c:597-615 | takes all of the sound or none |
| MediaPipeline.Pipeline.SetRtcConnected | components/mybot/src/media/mybot_media_pipeline.c:546-553 | connects in one store, a new session if RTC was down; disconnects in two, after which RTC is down and the playback worker told |
| MediaPipeline.Pipeline.FlushPlayback | components/mybot/src/media/mybot_media_pipeline.c:237-247 | the playback flush, interrupted anywhere, completes |
| MediaPipeline.Pipeline.FlushSession | components/mybot/src/media/mybot_media_pipeline.c:555-579 | returns success exactly when the three calls could be made; begun with RTC down, RTC stays down and on success all is empty |
| MediaPipeline.Pipeline.EndSession | components/mybot/src/media/mybot_media_pipeline.c:581-587 | the same after disconnecting, so RTC is down even when a call failed |
| MediaVolume.NoOverflow | components/mybot/src/media/mybot_audio.c:106-117 | for volumes 1 to 99 the 32-bit product and sum do not wrap and neither clamp is reached |
| MediaVolume.CloseToExact | components/mybot/src/media/mybot_audio.c:106-117 | 100 times the output is within 100 of input times volume |
| MediaVolume.RoundsToNearest | components/mybot/src/media/mybot_audio.c:106-117 | the output is the nearest to the product with the gain, halves going up |
| MediaVolume.NeverLouder | components/mybot/src/media/mybot_audio.c:106-117 | the output keeps the sign and never exceeds the input in size |
| MediaVolume.MonotoneInSample | components/mybot/src/media/mybot_audio.c:106-117 | louder input gives no softer output |
| MediaVolume.ApplyMediaVolume | components/mybot/src/media/mybot_audio.c:91-117 | scales the first samples in place and leaves the rest |
| FrameQueue.TokensConserved | components/video_engine/video_frame_que.c:321-531 | free, ready and held tokens always add up to the format's count |
| FrameQueue.OldestFirst | components/video_engine/video_frame_que.c:372-436 | frames leave in completion order, to a reader or reclaimed, oldest first |
| FrameQueue.FramesInCirculation | components/video_engine/video_frame_que.c:31-34 | four, six and three frames are in circulation |
| FrameQueue.AskingForAFrame | components/video_engine/video_frame_que.c:321-397 | a new buffer, else the oldest waiting frame but never for H.264, blank, else nothing |
| FrameQueue.TearingDown | components/video_engine/video_frame_que.c:182-259 | gives back exactly the frames waiting |
| FrameQueue.CompleteKeeps | components/video_engine/video_frame_que.c:445-478 | completing a held frame never finds the queue full |
| FrameQueue.FreeKeeps | components/video_engine/video_frame_que.c:487-531 | freeing a held frame always gives its token back |
| FrameQueue.ClearAllEmpties | components/video_engine/video_frame_que.c:281-312 | after a clear nothing is ready and the ready tokens are free |
| FrameQueue.StepKeeps | components/video_engine/video_frame_que.c:78-531 | every operation its caller may make keeps the accounting |
| FrameQueue.ReadyMeansUsable | components/video_engine/video_frame_que.c:78-148 | after any operations, a reported success means a working queue exactly when the first attempt since the last teardown, this one if there was none, made both message queues |
| FrameQueue.FirstAttemptDecides | components/video_engine/video_frame_que.c:78-148 | a queue counts as made after any attempt since the last teardown, and works exactly if the first succeeded |
| FrameQueue.FailedInitReportsReady | components/video_engine/video_frame_que.c:109-148 | after a failed one the next reports success on a queue that does not work |
| FrameQueue.FrameQueues.InitQueue | components/video_engine/video_frame_que.c:78-148 | both outcomes of making the two message queues, and a queue already counted as made |
| FrameQueue.FrameQueues.MallocFrame | components/video_engine/video_frame_que.c:321-397 | a token and a buffer, or the oldest ready frame where the format allows, with a blank header |
| FrameQueue.FrameQueues.GetReady | components/video_engine/video_frame_que.c:406-436 | takes the oldest ready frame |
| FrameQueue.FrameQueues.CompleteFrame | components/video_engine/video_frame_que.c:445-478 | queues a frame, or frees it when the queue is full |
| FrameQueue.FrameQueues.FreeFrame | components/video_engine/video_frame_que.c:487-531 | returns the frame and its token |
| FrameQueue.FrameQueues.ClearEvery | components/video_engine/video_frame_que.c:281-312 | clears the three ready queues |
| FrameQueue.FrameQueues.DeinitQueue | components/video_engine/video_frame_que.c:182-259 | gives back the waiting frames and forgets the queue |
| CommandDecoder.ReadFields | components/mybot/src/core/mybot_device_command.c:9-28 | accepts exactly objects with known, unrepeated and all required keys, and finds each field |
| CommandDecoder.ReadAction | components/mybot/src/core/mybot_device_command.c:58-84 | returns exactly the action the document states |
| CommandDecoder.ReadEmotion | components/mybot/src/core/mybot_device_command.c:86-112 | returns exactly the emotion the document states |
| CommandDecoder.ReadInteger | components/mybot/src/core/mybot_device_command.c:48-56 | accepts exactly whole numbers in range |
| CommandDecoder.Parse | components/mybot/src/core/mybot_device_command.c:114-141 | returns a command exactly when the document states it |
| CommandDecoder.DescribesOnce | components/mybot/src/core/mybot_device_command.c:114-141 | a document states at most one command |
| CommandDecoder.FieldsGoByKey | components/mybot/src/core/mybot_device_command.c:9-28 | the order of members does not matter |
| CommandDecoder.DocumentDescribes | components/mybot/src/core/mybot_device_command.c:114-141 | the document written for a command states it exactly when its ids and values are in range |
| CommandDecoder.WrittenCommandsAreRead | components/mybot/src/core/mybot_device_command.c:30-141 | the documents spelled out key by key, with or without times, are read as the command they state, within the ranges |

## Left out

Kconfig evaluator

- KconfigEngine.Kconfig.UnsetUserValue: the caches are promised right except when MODULES is unset and modules turn on or off, since then they can be wrong; see `KconfigStale.UnsetIsRightExactly`.
- KconfigEngine.Kconfig.Run: programs do not unset MODULES by itself where that turns modules on or off.
- KconfigEngine.Kconfig.LoadConfig: starts from the assignments found in the file; reading lines and matching them is not modelled.
- The object graph is one class with a column per cached field, indexed by symbol or choice number.
- Tokenising with regular expressions, line continuation, files, environment variables, reports and warnings.
- Turning text into numbers is a parameter of the model; the source's `int` and `hex` conversions are not modelled.
- Dependencies of a symbol are added from one set of the symbols it reads; the source adds them property by property.
- Assumed of the configuration: dependencies are acyclic with the members of a choice as one node, choice defaults are members of the choice, members of a choice are no constant or environment symbols, the MODULES symbol depends on constants only, is no tristate and never worth m, tristate constants and environment symbols hold tristate values, and ranks witness the order.

Device protocol

- Callbacks are taken as installed; a missing submit or renewal callback behaves as a failing one.
- A mailbox post, its check and its store, is one step, and so is a check of both network atomics; `binding_generation` and `network_generation` do not wrap.
- HTTP results, storage outcomes and allocation are parameters of each operation; a failed write or erase may leave anything in the store.
- A read error at start-up erases the stored credential, as in the source; `DeviceRuns.RestartRestoresBinding` is about a readable store.
- Agreement of the displayed application state with the lifecycle state: in `AppCommands` it is any value while talking.
- AppCommands.Runtime.OnConversationStart: the media flush and the RTC set-up appear as their success only, and other threads act before and after the new generation is published.
- AppCommands.Runtime.ProcessRtmData: what the JSON parser makes of the bytes is a parameter (`CommandDecoder` reads it), and messages for the LCD indicators are only set aside.
- Executing a command (volume, mute, emotion) is only recorded; LCD indicators, video control and the RTC wrappers.

Media pipeline

- The build with the cloud echo canceller and without wake words is modelled, with 60 ms frames.
- Muting and software gain act on the whole written frame; the gained bytes are a parameter (`MediaVolume` has the arithmetic on samples).
- Ring buffers are sequences with all-or-nothing reads and writes; their head and tail arithmetic is not modelled, nor are the announcement's sound files.
- RTC callbacks are serialised with each other: a push's checks and its write to the ring are one step, so no disconnect and no end of a session falls between them. RTC does not connect while a session is being ended or flushed.
- Starting and destroying workers; a stop only clears the running and connected flags.

Frame queues and command decoder

- Frame-queue operations are atomic; completing or freeing a frame one does not hold, or a null frame, is outside the caller's duties (`FrameQueue.Legal`).
- The contents of a message queue that was never made are taken as empty and refusing.
- CommandDecoder.ReadFields: the required mask is given as the number of its low bits, which is how every caller builds it.
- JSON parsing itself, and floating-point rounding of the number's double: numbers are reals beside their integer reading.
