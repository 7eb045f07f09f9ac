# Nova's autonomous agent and message handling, modelled in Dafny

This project models the deterministic core of Nova, a chat companion that runs as a Discord bot and a web service. The model covers six backend files:

- The **autonomous agent** (`backend/autonomous_agent.py`). It holds an insertion-ordered registry of recurring tasks and the Ollama circuit breaker. It also keeps a performance record per task, an interval tuner, two bounded logs (the action history and the learning log) and a list of goals.
  - One pass of the scheduling loop is the method `AutonomousAgent.Agent.Tick`.
  - Each loop body is given a `Scheduler.Turn`. It holds the clock reading taken for the breaker test and the body's outcome: it returned after some duration, it timed out, or it raised an error with some text. A timeout or an error also carries the clock reading taken when the breaker is charged. The clock at the start of the pass, the model's replies and `random.random()` are inputs too.
  - The pass is specified on values by `Scheduler.Pass`. The imperative methods are proved against it.
- The **per-user knowledge store** (`backend/learning_system.py`), as a class `Learning.LearningSystem` with one map per kind of data:
  - fact lists, deduplicated ignoring letter case and capped at 100;
  - preferences, interaction counters and a profile;
  - weighted topics of interest, capped at 50 by keeping the heaviest;
  - the phrase extractor that proposes facts from a message, and the context text built from all of the above.
- The **chat pipeline** (`backend/chat_handler.py`). It covers input validation, the choice of system prompt, history assembly, the learning side effects of a message and the mood setting.
- The **Discord message handling** (`backend/discord_bot.py`):
  - suppression of duplicate deliveries, with a 2-second window on a content key and a bounded log of message ids;
  - the respond/ignore gate for each channel mode;
  - the `!nova` mode command and the enable/disable branches of `!autonomous`;
  - the splitting of long replies into messages of at most 2000 characters.
- The **EVE Online item helper** (`backend/eve_helper.py`). It covers the id and name indices over the records of the types file, item, group and ship search, and the text formatting of results.
- The **video analyzer's pure decisions** (`backend/video_analyzer.py`): which attachments and URLs count as videos, and which frame numbers of an animated image are sampled.

The modules follow the files:

| module | file |
|---|---|
| `Scheduler`, `Goals`, `AutonomousAgent` | `autonomous_agent.py` |
| `Learning` | `learning_system.py` |
| `ChatHandler` | `chat_handler.py` |
| `DiscordBot` | `discord_bot.py` |
| `EveHelper` | `eve_helper.py` |
| `VideoAnalyzer` | `video_analyzer.py` |

`Wrappers`, `Text`, `Slices` and `OrderedMap` hold shared helpers:

- `Option` and `Result`;
- Python's `lower`, `strip`, `find`, `in` and `str(int)` on text;
- the slicing idioms and the "append, then keep the newest n" log;
- dictionaries with insertion order.

## Places where the model follows the code

- `complete_goal` returns `True` or `False`, not the goal record (`AutonomousAgent.Agent.CompleteGoal`).
- The decision sub-flow checks the breaker inside `_make_autonomous_decision`, not before launching it. While the breaker is open it records nothing.
- `last_decision` is restamped whenever the decision interval has passed, even if a decision is still in flight (`AutonomousAgent.Agent.Tick`).
- Two `_log_learning` calls pass `"goal_system"` as their second positional argument, so it lands in `user_id` and the source stays `"autonomous"`. The model keeps this.
- Goal ids are `goal_<int(now)>_<len(goals)>`. Two goals created in the same second, with a completion in between, can therefore get the same id. The model keeps that id scheme (`Goals.GoalId`). `complete_goal` then acts on the first goal with the id.
- `!nova off` reaches `thinking_aloud` before the channel-mode branch. So no channel can ever be put in mode `"off"` (`DiscordBot.NoChannelIsOff`). The gate still handles that mode, as the code does.

## Model

| member | source | states |
|---|---|---|
| Scheduler.CheckBreaker | backend/autonomous_agent.py:448-453 | at 5 or more consecutive failures the breaker opens with its reset time 300 s after now; below that nothing changes; the counter is never touched |
| Scheduler.UpdatePerf | backend/autonomous_agent.py:725-744 | one more run: the total grows by one, and exactly one of successes and failures grows by one, according to the outcome; the mean duration times the total grows by the new duration |
| Scheduler.TunedIntervalCases | backend/autonomous_agent.py:746-773 | the tuner on counts: unchanged when off or with fewer than 5 runs; max(300, 0.8·interval) when the success rate is at least 0.7 and the mean is under 5 s; min(86400, 1.5·interval) when the rate is under 0.5; unchanged otherwise |
| Scheduler.TunedIntervalStaysInBand | backend/autonomous_agent.py:764-773 | an interval inside [300, 86400] stays inside it whatever the tuner does |
| Scheduler.TunerShrinksFastReliableTask | backend/autonomous_agent.py:757-768 | five runs with four successes and a 2 s mean shrink an interval of 375 s or more by exactly 20 % |
| Scheduler.ScanTask | backend/autonomous_agent.py:234-315 | one loop body neither adds nor removes a task; what it does to its task is stated by ScanTaskFrame and ScanTaskEffect |
| Scheduler.ScanTaskFrame | backend/autonomous_agent.py:234-315 | one loop body keeps the registry's keys, leaves every other task exactly as it was, and keeps its own task's id, name, interval and priority |
| Scheduler.ScanTaskEffect | backend/autonomous_agent.py:234-315 | branch by branch: disabled, running or not-due tasks change nothing; 3 or more failures disables the task and stamps it without executing; an open breaker stamps the task without executing when the clock reading taken for the test has not passed its deadline; an executed task ends stamped with the pass time and not running |
| Scheduler.BreakerTestUsesFreshClock | backend/autonomous_agent.py:258-268 | for a due task, the body is skipped exactly when the breaker is open and the reading taken for the test is not past the deadline, and runs exactly otherwise; the pass start time plays no part |
| Scheduler.RunCounters | backend/autonomous_agent.py:275-311 | success zeroes the task's failures and the Ollama counter; a timeout adds one to both; another error adds one to the task and adds one to the Ollama counter exactly when its text mentions "ollama" or "connection" in any case |
| Scheduler.ExpiredBreakerCloses | backend/autonomous_agent.py:258-262 | an open breaker whose deadline the reading taken for the test has passed is closed and zeroed before the task runs, and stays closed after a successful run |
| Scheduler.ScanTaskKeepsBreakerValid | backend/autonomous_agent.py:287-304 | the breaker is open only at 5 or more failures, before and after any loop body; a breaker the body opens was opened by a timeout or an error, at exactly 5 failures, with its deadline 300 s after the clock reading taken after the failure |
| Scheduler.ScanTaskKeepsValid | backend/autonomous_agent.py:234-315 | a loop body keeps the scheduler invariant: distinct task ids, breaker validity, consistent performance records, history within 100 |
| Scheduler.Scanned | backend/autonomous_agent.py:234-315 | the first k loop bodies neither add nor remove a task |
| Scheduler.ScannedFrame | backend/autonomous_agent.py:234-315 | after the first k loop bodies the registry has the same keys, and tasks from position k on are untouched |
| Scheduler.ScannedSettled | backend/autonomous_agent.py:234-315 | once the loop has passed a task, later loop bodies leave it alone |
| Scheduler.PassAt | backend/autonomous_agent.py:234-315 | what a whole pass does to task j is what its own loop body does, given the breaker and history the earlier tasks left |
| Scheduler.PassSkipsIdleTasks | backend/autonomous_agent.py:235-241 | a disabled or still-running task leaves the pass unchanged |
| Scheduler.PassDisablesFailingTask | backend/autonomous_agent.py:244-248 | an enabled, idle task with 3 or more failures ends the pass disabled and stamped with the pass time, its other fields unchanged |
| Scheduler.PassStampsDueTask | backend/autonomous_agent.py:251-315 | a due task ends the pass stamped with the pass start time and not running, whatever the outcome |
| Scheduler.PassLeavesTaskNotDue | backend/autonomous_agent.py:250-251 | a task that is not yet due is left unchanged |
| Scheduler.DisabledStaysDisabled | backend/autonomous_agent.py:229-248 | a disabled task is exactly the same after any number of passes, whatever each pass's start time, clock readings and outcomes: it never runs again until a reset |
| Scheduler.Passes | backend/autonomous_agent.py:229-335 | consecutive passes keep the number of tasks |
| Scheduler.ScannedKeepsBreakerValid | backend/autonomous_agent.py:229-315 | a whole pass keeps the breaker invariant |
| Scheduler.ScannedKeepsHistoryBounded | backend/autonomous_agent.py:813-829 | a whole pass keeps the action history within 100 entries |
| Scheduler.DecisionAction | backend/autonomous_agent.py:438-443 | a recorded decision has status "decided" and holds the first 200 characters of the reply |
| Slices.Push | backend/autonomous_agent.py:820-824 | append-then-trim leaves at most n entries, with the new one last; below the bound it is a plain append |
| Slices.PushAllKeepsNewest | backend/autonomous_agent.py:820-824 | trimming after every append keeps exactly the newest n of everything appended, in append order |
| Goals.GoalId | backend/autonomous_agent.py:891 | goal ids start with "goal_" |
| Goals.NewGoal | backend/autonomous_agent.py:892-902 | a new goal is active, with progress 0, no steps and no outcome |
| Goals.GoalIndex | backend/autonomous_agent.py:910-911 | the position of the first goal with the id, or none when no goal has it |
| Goals.BestGoal | backend/autonomous_agent.py:932-936 | the goal worked on has the highest priority, and no earlier goal has it too |
| Goals.Advance | backend/autonomous_agent.py:951-954 | a step adds 10 to progress, capped at 100, and appends the first 100 characters of the reply to the steps; id, priority and status stay |
| Goals.TenStepsComplete | backend/autonomous_agent.py:951-958 | a fresh goal has progress 10·k after k steps, and reaches 100 exactly at the tenth step |
| Goals.AdvanceAllProgress | backend/autonomous_agent.py:954 | below the cap, k steps add exactly 10·k to progress |
| Goals.RemoveAt | backend/autonomous_agent.py:916 | removing the j-th goal keeps the others in order |
| AutonomousAgent.DefaultTasksWellFormed | backend/autonomous_agent.py:100-191 | the nine built-in tasks have distinct ids, each filed under its own id, all enabled, idle and never run |
| AutonomousAgent.ResetAll | backend/autonomous_agent.py:873-881 | the reset-all loop zeroes failures and re-enables exactly the tasks that are not running; running tasks are untouched |
| AutonomousAgent.ResetAllKeepsValid | backend/autonomous_agent.py:873-881 | a reset-all keeps the scheduler invariant |
| AutonomousAgent.ResetAllThenPassKeepsEnabled | backend/autonomous_agent.py:862-881 | no task a reset-all touched is disabled by the next pass |
| AutonomousAgent.Agent.constructor | backend/autonomous_agent.py:38-82 | the nine default tasks, a closed breaker, empty records, logs and goals, stopped, optimisation on |
| AutonomousAgent.Agent.RegisterTask | backend/autonomous_agent.py:193-196 | the task is filed under its id, replacing any task with that id in place; nothing else changes |
| AutonomousAgent.Agent.RemoveTask | backend/autonomous_agent.py:198-202 | the task with that id is dropped; an unknown id changes nothing |
| OrderedMap.RemoveKeepsOrder | backend/autonomous_agent.py:200-201 | `del` on a dict with distinct keys drops exactly that key's entry and keeps the others in insertion order |
| AutonomousAgent.Agent.CheckCircuitBreaker | backend/autonomous_agent.py:448-453 | the breaker becomes the one CheckBreaker computes; nothing else changes |
| AutonomousAgent.Agent.UpdateTaskPerformance | backend/autonomous_agent.py:725-744 | the record of that task, started at zero if missing, gets the run added; other records stay |
| AutonomousAgent.Agent.RecordAction | backend/autonomous_agent.py:813-829 | the action is appended and only the newest 100 are kept |
| AutonomousAgent.Agent.LogLearning | backend/autonomous_agent.py:706-719 | an entry with the summary cut to 200 characters is appended and only the newest 1000 are kept |
| AutonomousAgent.Agent.OptimizeTaskInterval | backend/autonomous_agent.py:746-773 | a known task with a record gets the tuned interval, and all its other fields stay; otherwise nothing changes |
| AutonomousAgent.RunningNamesListed | backend/autonomous_agent.py:845 | a name is among the names of the running tasks exactly when some running task has it |
| AutonomousAgent.Agent.MarkForRun | backend/autonomous_agent.py:253-262 | the task is marked running and an open breaker is closed with its counter zeroed; nothing else changes |
| AutonomousAgent.Agent.ChargeBreaker | backend/autonomous_agent.py:275-299 | the breaker after a run is BreakerAfterRun of the outcome: a success zeroes the counter, a timeout and an Ollama or connection error count one more failure and re-check the threshold, any other error leaves it; nothing else changes |
| AutonomousAgent.Agent.RunTask | backend/autonomous_agent.py:270-315 | after a body runs, the task carries the outcome's failure count, is stamped with the pass time and is no longer running; the breaker, performance record and history are what the outcome dictates, the breaker's deadline coming from the reading taken after the failure |
| AutonomousAgent.Agent.ExecuteDue | backend/autonomous_agent.py:253-315 | marking, the closing of an expired breaker and the run together give the task, breaker, record and history that the value-level loop body gives |
| AutonomousAgent.Agent.SkipDue | backend/autonomous_agent.py:253-268 | a due task the open breaker holds back ends stamped with the pass time and not running; nothing else changes |
| AutonomousAgent.Agent.RunDue | backend/autonomous_agent.py:251-315 | the loop body for a due task, given its own clock reading for the breaker test, equals the value-level loop body ScanTask |
| AutonomousAgent.Agent.ScanOne | backend/autonomous_agent.py:234-251 | the loop body for any task equals ScanTask |
| AutonomousAgent.Agent.ScanAll | backend/autonomous_agent.py:234-315 | the scan over the whole registry equals Pass |
| AutonomousAgent.Agent.Tick | backend/autonomous_agent.py:229-335 | one pass equals Pass; a decision is launched exactly when the interval has passed and none is in flight; the decision time is restamped whenever the interval has passed |
| AutonomousAgent.Agent.MakeDecision | backend/autonomous_agent.py:382-446 | a decision is recorded only when a task is enabled, the breaker is closed, the model answered, and the reply is longer than 10 characters and does not say "nothing" |
| AutonomousAgent.Agent.GetStatus | backend/autonomous_agent.py:831-847 | the active count is the number of enabled tasks and the disabled count the number of the others; the running names are the names of the running tasks in registry order, and every running task's name is listed; the last 10 actions in order; the breaker flag; failed tasks map to their failure counts |
| AutonomousAgent.Agent.RunningNamesExact | backend/autonomous_agent.py:845 | a name is reported as running exactly when some running task has it |
| AutonomousAgent.Agent.FailedTasksExact | backend/autonomous_agent.py:846 | a task is listed among the failed tasks exactly when its failure count is positive, with that count |
| AutonomousAgent.Agent.ResetTaskFailures | backend/autonomous_agent.py:862-881 | with an id, resets that task unless it is running or unknown; without one, resets every task that is not running |
| AutonomousAgent.Agent.ResetAllTasks | backend/autonomous_agent.py:873-881 | the loop over the registry leaves exactly ResetAll of it |
| AutonomousAgent.Agent.CreateGoal | backend/autonomous_agent.py:885-906 | with 10 goals active it returns none and changes nothing; otherwise a new active goal with id goal_T_n is appended and the creation is logged |
| AutonomousAgent.Agent.CompleteGoal | backend/autonomous_agent.py:908-920 | returns true exactly when a goal has the id; the first such goal moves to the completed list with its outcome and the completion is logged; otherwise nothing changes |
| AutonomousAgent.Agent.CreateAutonomousGoal | backend/autonomous_agent.py:965-987 | a reply longer than 10 characters not starting with "none" becomes a new goal (stripped, category "autonomous", priority 3) while there is room, and its creation is logged with the stripped reply; otherwise nothing changes |
| AutonomousAgent.Agent.TrackGoals | backend/autonomous_agent.py:922-963 | with no goals, a draw under 0.3 and a usable reply create exactly one goal from the stripped reply and log it, and anything else leaves goals and log alone; with goals, a reply that is not a usable step changes nothing; a step advances the first highest-priority goal, a step below 100 logs nothing, and a goal reaching 100 moves to the completed list with the achieved outcome, its completion logged |
| AutonomousAgent.Agent.SetTaskEnabled | backend/discord_bot.py:1798-1812 | flips only the enabled flag of an existing task and reports whether it exists; an unknown id changes nothing |
| Learning.AddFactKeepsDistinct | backend/learning_system.py:85-102 | appending an unknown fact and trimming to 100 keeps the list free of case-insensitive duplicates |
| Learning.LearnedFactIsKnown | backend/learning_system.py:86-88 | once learned, the fact in any letter case counts as known, so learning it again is refused |
| Learning.SelectFacts | backend/learning_system.py:107-117 | with no category, every fact in order; with one, only facts that are stored in that category |
| Learning.SelectFactsAppend | backend/learning_system.py:98-117 | a newly appended fact shows up last, and only under its own category or with no filter |
| Learning.Preference | backend/learning_system.py:127-132 | a missing user, or a user without that key, yields the default |
| Learning.PreferenceAfterSet | backend/learning_system.py:119-132 | after setting a key, reading it yields the value set; other keys and other users read as before |
| Learning.Tracked | backend/learning_system.py:134-150 | total messages and the count of this interaction type each grow by exactly one; other types keep their counts |
| Learning.InsertPos | backend/learning_system.py:173-177 | a new entry goes after every leading entry at least as heavy |
| Learning.Insert | backend/learning_system.py:173-177 | insertion adds exactly the one entry |
| Learning.InsertSorted | backend/learning_system.py:173-177 | insertion keeps a list sorted heaviest first |
| Learning.InsertDistinct | backend/learning_system.py:173-177 | insertion of a new key keeps keys distinct |
| Learning.SortDesc | backend/learning_system.py:173-177 | sorting yields a permutation ordered heaviest first |
| Learning.SortDescDistinct | backend/learning_system.py:173-178 | sorting keeps topic keys distinct |
| Learning.SortDescMembers | backend/learning_system.py:173-177 | an entry is in the sorted list exactly when it is in the original |
| Learning.Reinforced | backend/learning_system.py:163-166 | a reinforced weight is at most 10, and equals current + weight·0.5 when that is within the cap |
| Learning.Bumped | backend/learning_system.py:158-168 | an existing topic keeps the map's size; a new topic adds one; keys stay distinct |
| Learning.WithInterest | backend/learning_system.py:156-178 | adding interest keeps a topic map valid: at most 50 distinct lowercased topics |
| Learning.BumpedKeys | backend/learning_system.py:161 | the topic is stored lowercased, so all keys stay lowercase |
| Learning.InterestBelowCap | backend/learning_system.py:156-168 | below the cap: a new topic gets exactly its weight, an existing one the capped reinforcement, and other topics keep their weights |
| Learning.InterestAboveCap | backend/learning_system.py:170-178 | above the cap, exactly 50 entries survive; kept and dropped together are the whole map, and nothing kept is lighter than anything dropped |
| Learning.TopTopics | backend/learning_system.py:182-189 | Python's `[:limit]` on the topics sorted heaviest first: min(limit, n) topics for a non-negative limit and all but the last -limit for a negative one, always a prefix of that sorted list; all from the map, none lighter than a topic left out |
| Learning.PrefEntries | backend/learning_system.py:222 | one entry per preference other than 'internal'; empty exactly when only 'internal' is set |
| Learning.NamePart | backend/learning_system.py:209-210 | a name line exactly when the profile has a non-empty name |
| Learning.FactsPart | backend/learning_system.py:213-217 | a heading and the last five facts as bullets, exactly when there are facts |
| Learning.PrefsPart | backend/learning_system.py:220-224 | a preferences line exactly when a preference other than 'internal' exists |
| Learning.TopicsPart | backend/learning_system.py:227-230 | an interests line exactly when there are topics |
| Learning.TalkPart | backend/learning_system.py:233-235 | a message-count line exactly when there has been a message |
| Learning.ContextParts | backend/learning_system.py:205-235 | the parts are empty exactly when nothing is known, and the fact lines follow the name line |
| Learning.ConversationContext | backend/learning_system.py:203-237 | the context is empty exactly when the user has no name, facts, shown preferences, topics or messages |
| Learning.CutAt | backend/learning_system.py:270-273 | the cut is a prefix and contains no occurrence of the first sentence end tried |
| Learning.CutAtNoEnd | backend/learning_system.py:270-273 | when no sentence end occurs, the text is left whole |
| Learning.CutAtSomeEnd | backend/learning_system.py:270-273 | when some sentence end occurs, the cut is shorter and stops just before one |
| Learning.CutAtFirstEnd | backend/learning_system.py:270-273 | the end that decides is the first-listed one that occurs: the cut stops just before its first occurrence, and the `break` means later ends play no part |
| Learning.Candidate | backend/learning_system.py:265-273 | a candidate exists exactly when the lowercased message contains the indicator |
| Learning.CandidateAt | backend/learning_system.py:265-273 | when the indicator first matches the lowercased message at f, the candidate is the original message after f plus the indicator's length, stripped and cut at the first sentence end |
| Learning.CandidateShape | backend/learning_system.py:268-273 | a candidate starts with no whitespace and has no full stop |
| Learning.ExtractOne | backend/learning_system.py:264-276 | an indicator contributes exactly when its candidate exists and is 3 to 99 characters long; the contribution is the stripped candidate with the indicator's category |
| Learning.ExtractOneShape | backend/learning_system.py:264-276 | a contributed fact comes from an indicator that occurs, is 1 to 99 characters long, has no whitespace at either end and no full stop |
| Learning.Extracted | backend/learning_system.py:244-278 | at most one pair per indicator |
| Learning.ExtractedSnoc | backend/learning_system.py:264-276 | one more indicator appends its contribution, if any, after the pairs of the earlier ones |
| Learning.ExtractedComplete | backend/learning_system.py:264-276 | every contributing indicator's pair is among the extracted ones |
| Learning.ExtractedShape | backend/learning_system.py:264-276 | every extracted pair has the category of an indicator found in the message, and a fact of 1 to 99 characters with no full stop |
| Learning.CutSentence | backend/learning_system.py:270-273 | the loop cuts at the first sentence end tried that occurs |
| Learning.CandidateOf | backend/learning_system.py:265-273 | the loop body computes Candidate |
| Learning.Contribution | backend/learning_system.py:264-276 | one iteration computes ExtractOne |
| Learning.ExtractWith | backend/learning_system.py:264-278 | the loop over indicators yields Extracted |
| Learning.ExtractLearnableInfo | backend/learning_system.py:239-278 | the extractor over the thirteen indicators yields Extracted |
| Learning.LearningSystem.constructor | backend/learning_system.py:15-33 | learning enabled, all six maps empty |
| Learning.LearningSystem.LearnFact | backend/learning_system.py:77-105 | learned exactly when learning is on and the fact is not known ignoring case; then the fact is appended and the oldest dropped past 100; otherwise nothing changes |
| Learning.LearningSystem.GetFacts | backend/learning_system.py:107-117 | an unknown user has no facts |
| Learning.LearningSystem.SetPreference | backend/learning_system.py:119-125 | only that user's key is assigned |
| Learning.LearningSystem.TrackInteraction | backend/learning_system.py:134-154 | only that user's counters change, as Tracked says |
| Learning.LearningSystem.AddTopicInterest | backend/learning_system.py:156-180 | only that user's topic map changes, as WithInterest says |
| Learning.LearningSystem.UpdateProfile | backend/learning_system.py:191-197 | the given fields overwrite or extend that user's profile |
| Learning.LearningSystem.ForgetUser | backend/learning_system.py:299-306 | the user disappears from all six maps; an unknown user changes nothing |
| Learning.ForgottenContextIsEmpty | backend/learning_system.py:299-306 | after forgetting, the user's conversation context is empty |
| ChatHandler.Validate | backend/chat_handler.py:243-247 | an empty or whitespace message and one over 10000 characters are refused with their messages; anything else passes |
| ChatHandler.BuildPrompt | backend/chat_handler.py:45-210 | an unknown mode falls back to "chaotic" and an unknown mood to "You're vibing"; learned context appears exactly for a truthy user id with a non-empty context |
| ChatHandler.ForgottenUserGetsNoContext | backend/chat_handler.py:204-208 | a user whose data was forgotten gets a prompt with no learned context |
| ChatHandler.AssembleHistory | backend/chat_handler.py:250-261 | the system prompt first and the new user message last; in between, exactly the stored messages that are not system messages, in stored order |
| ChatHandler.HistoryOfOneMore | backend/chat_handler.py:250-261 | one more stored message shows up just before the user message when it is not a system message, and changes nothing when it is |
| ChatHandler.LearnAllDisabled | backend/chat_handler.py:274-275 | with learning off the loop learns nothing |
| ChatHandler.LearnAllOthers | backend/chat_handler.py:274-275 | the loop touches only the speaking user's facts |
| ChatHandler.Respond | backend/chat_handler.py:281-312 | an answer gives the reply with metadata (image flag, session and platform echoed, message count or 0); a timeout and an error raise their messages |
| ChatHandler.NovaConfig.constructor | backend/chat_handler.py:13-16 | mode "chaotic", mood "playful" |
| ChatHandler.NovaConfig.GetMood | backend/chat_handler.py:348-350 | the stored mood, "neutral" when none is stored |
| ChatHandler.NovaConfig.SetMood | backend/chat_handler.py:352-366 | accepted exactly when the lowercased mood is one of the seven, and then stored lowercased; otherwise unchanged |
| ChatHandler.LearnFromMessage | backend/chat_handler.py:270-278 | the interaction is counted under platform_chat and every extracted pair is tried in order |
| ChatHandler.ProcessChatMessage | backend/chat_handler.py:217-312 | invalid input raises before anything changes; otherwise the learned context is read before learning, the prompt is built from it and the history assembled around it, learning happens only for a truthy user id, and the reply becomes the result |
| DiscordBot.SameKey | backend/discord_bot.py:267 | deliveries agreeing on author, channel and the first 100 characters share a key |
| DiscordBot.Refreshed | backend/discord_bot.py:277-283 | the key is stamped now; every surviving key is at most 300 s old and kept its time; every other key at most 300 s old survives |
| DiscordBot.TrimAsWritten | backend/discord_bot.py:293-298 | the set trim as written keeps the last 100 of the set's iteration order |
| DiscordBot.TrimAsWrittenCanDropNewest | backend/discord_bot.py:293-298 | when the newest id is listed early, the trim drops it |
| DiscordBot.TrimAsWrittenForgetsZero | backend/discord_bot.py:293-298 | with ids 1..100 remembered, id 0 is forgotten as soon as it is added |
| DiscordBot.Remember | backend/discord_bot.py:290-298 | the id log holds at most 100 ids, the new id last |
| DiscordBot.RememberAllKeepsNewest | backend/discord_bot.py:290-298 | remembering ids one at a time keeps exactly the newest 100, oldest first |
| DiscordBot.RememberAllIsPushAll | backend/discord_bot.py:290-298 | remembering ids one at a time is the bounded-log push |
| DiscordBot.MentionAsWritten | backend/discord_bot.py:453-466 | as written, a reply to someone else ends the chain before the name test |
| DiscordBot.MentionAsWrittenIgnoresName | backend/discord_bot.py:460-466 | "hey nova", sent as a reply to another user, gets no answer in mention mode |
| DiscordBot.MentionTrigger | backend/discord_bot.py:453-466 | mention mode answers exactly a DM, a direct mention that is not @everyone, a reply to the bot, or "nova" in the text |
| DiscordBot.SmartTrigger | backend/discord_bot.py:469-485 | smart mode answers directly exactly a DM, a mention, the name or a reply to the bot; a reply to anyone else gets no answer; only a message that is none of these and no reply asks the channel history |
| DiscordBot.Gate | backend/discord_bot.py:436-485 | a DM with auto-respond on is answered; "off" stops exactly when that does not apply; "always" answers; mention and smart follow their triggers; the channel history is asked exactly in smart mode for a message with no direct trigger that replies to nobody |
| DiscordBot.ModesAreNested | backend/discord_bot.py:436-485 | whatever mention mode answers smart mode answers, and always mode answers everything |
| DiscordBot.ParseMode | backend/discord_bot.py:1609-1699 | only always, smart and mention set a channel mode; on/off only set thinking aloud; mood words only set the mood; anything else unknown is invalid |
| DiscordBot.ChunksJoin | backend/discord_bot.py:2319 | the chunks put back together are the content |
| DiscordBot.ChunksBounded | backend/discord_bot.py:2319 | every chunk is non-empty and at most max_length; all but the last are exactly max_length |
| DiscordBot.ChunkAt | backend/discord_bot.py:2319 | the i-th chunk is the slice starting at i·max_length |
| DiscordBot.Labelled | backend/discord_bot.py:2321-2328 | the prefix goes on the first chunk only |
| DiscordBot.Outgoing | backend/discord_bot.py:2299-2328 | blank content sends nothing; content that fits goes out as prefix + content; otherwise the messages join to prefix + content and each is at most 2000 characters; a prefix of exactly 2000 raises the zero-step error, and a longer one sends nothing |
| DiscordBot.SendLongMessage | backend/discord_bot.py:2299-2329 | what is sent, or the error raised, is Outgoing |
| DiscordBot.SendChunks | backend/discord_bot.py:2321-2329 | the sending loop sends the labelled chunks in order |
| DiscordBot.Bot.constructor | backend/discord_bot.py:33-64 | empty tables, mood "sexual", zero messages, both auto flags on |
| DiscordBot.Bot.Screen | backend/discord_bot.py:264-306 | a duplicate within 2 s is dropped without restamping; otherwise the key table is refreshed; a seen id is dropped; the id is remembered; own messages are dropped; only admitted messages are counted |
| DiscordBot.Bot.ShouldRespond | backend/discord_bot.py:427-485 | the bot's own state never yields a stop |
| DiscordBot.Bot.NovaMode | backend/discord_bot.py:1597-1699 | each argument changes only its own setting: channel mode, thinking aloud, mood, or one of the two auto flags |
| DiscordBot.NoChannelIsOff | backend/discord_bot.py:1685-1699 | no channel is ever in mode "off" |
| DiscordBot.ToggleOf | backend/discord_bot.py:1798-1812 | enable and disable with a task id reach the toggle; known ids are toggled the right way, unknown ones reported |
| DiscordBot.AutonomousToggle | backend/discord_bot.py:1798-1812 | the command flips only that task's flag and leaves the rest of the agent (breaker, records, logs, goals, running flag, decision time, tuner switch) alone; unknown ids and other actions change nothing |
| EveHelper.LocalizedText | backend/eve_helper.py:50-54 | a dictionary yields its entry for the language, else 'en', else ''; another truthy value its text; nothing yields '' |
| EveHelper.EitherId | backend/eve_helper.py:66 | `a or b`: a when it is a non-zero id, else b |
| EveHelper.NameKey | backend/eve_helper.py:66-72 | a record is name-indexed exactly when it has an id and a name other than '' and '#system', under that name lowercased |
| EveHelper.TypeIndexSound | backend/eve_helper.py:65-68 | every indexed id is non-zero and maps to a record of the file that carries it |
| EveHelper.TypeIndexComplete | backend/eve_helper.py:65-68 | every record with an id is reachable by it, and the last record with that id is the one stored |
| EveHelper.NameIndexSound | backend/eve_helper.py:70-75 | the name index has distinct lowercase proper names as keys, each listing only records of the file named so |
| EveHelper.AddByNameValid | backend/eve_helper.py:73-75 | adding a record keeps the name index valid |
| EveHelper.NameIndexComplete | backend/eve_helper.py:70-75 | every record with an id and a proper name is listed under that name |
| EveHelper.PublishedOfSound | backend/eve_helper.py:89-90 | exactly the published records are kept |
| EveHelper.MatchesSound | backend/eve_helper.py:87-90 | the search walks exactly the published records under names that contain the query |
| EveHelper.SearchItemsSound | backend/eve_helper.py:79-104 | every item the search can report is published, in the file, and has a lowercased name containing the lowercased query |
| EveHelper.SearchItemSound | backend/eve_helper.py:86-90 | the same for one found record |
| EveHelper.Summarize | backend/eve_helper.py:91-100 | a result carries the id, the English name and the published flag, and a description of at most 200 characters |
| EveHelper.Bound | backend/eve_helper.py:101-102 | the search stops at limit results, but never below one, since the test follows an append |
| EveHelper.GroupMatchesSound | backend/eve_helper.py:132-134 | exactly the groups whose lowercased name contains the query are found |
| EveHelper.SummarizeGroup | backend/eve_helper.py:133-141 | a group result carries its id and English name |
| EveHelper.FirstShipIn | backend/eve_helper.py:160-161 | the first published item of a ship group in a list, or none when there is none |
| EveHelper.FirstShipSound | backend/eve_helper.py:158-173 | the ship found is a published ship under a matching name; none found means there is none |
| EveHelper.ShipInfoOf | backend/eve_helper.py:162-171 | the ship's id, English name and group |
| EveHelper.FormatResults | backend/eve_helper.py:181-200 | no results give context + "No results found."; otherwise a header with the count and one block per result |
| EveHelper.EntriesInOrder | backend/eve_helper.py:186-198 | the result blocks appear numbered, in result order |
| EveHelper.Helper.constructor | backend/eve_helper.py:14-17 | no index is built yet |
| EveHelper.Helper.BuildTypeIndex | backend/eve_helper.py:56-77 | both indices are built from the file; a second call changes nothing |
| EveHelper.Helper.SearchItems | backend/eve_helper.py:79-104 | the published items under matching names, in index order, at most the bound |
| EveHelper.Helper.GetItemInfo | backend/eve_helper.py:106-124 | none exactly for an unindexed id; otherwise the record's details |
| EveHelper.Helper.GetShipInfo | backend/eve_helper.py:147-173 | the first published ship under a matching name, or none exactly when there is none |
| EveHelper.Helper.FindShip | backend/eve_helper.py:158-173 | the loops over the name index and each name's items find exactly FirstShip |
| EveHelper.Helper.FirstShipAmong | backend/eve_helper.py:160-161 | the inner loop finds exactly FirstShipIn |
| EveHelper.Helper.SearchGroups | backend/eve_helper.py:126-145 | the matching groups in file order, at most the bound |
| EveHelper.SearchIndex | backend/eve_helper.py:86-104 | the loop over the name index returns the first bound matches, summarised |
| EveHelper.TakePublished | backend/eve_helper.py:89-102 | the inner loop appends the published records of one list, stopping at the bound |
| EveHelper.InfoOf | backend/eve_helper.py:114-124 | the details carry the id, names, group and published flag of the record |
| VideoAnalyzer.SuffixIgnoresCase | backend/video_analyzer.py:35 | a name ending in a supported extension in any letter case counts |
| VideoAnalyzer.IsVideoUrl | backend/video_analyzer.py:18-35 | a URL with a supported extension is a video link even when no site pattern matches; with none matching, exactly those are |
| VideoAnalyzer.IsVideoAttachment | backend/video_analyzer.py:37-47 | a video content type decides; otherwise a supported file-name extension; neither attribute gives false |
| VideoAnalyzer.LastSampleInside | backend/video_analyzer.py:166-168 | every sampled index i·(total//num) lies in [0, total) |
| VideoAnalyzer.FrameIndices | backend/video_analyzer.py:164-168 | at most num frames takes every frame; otherwise exactly num, the i-th being i·(total//num), strictly increasing, all below total; a zero count raises |
| VideoAnalyzer.FramesEvenlySpaced | backend/video_analyzer.py:166-168 | neighbouring samples are total//num apart |

## Findings

| source | as written | input that shows it | evidently intended | confidence | as-written member | corrected member |
|---|---|---|---|---|---|---|
| backend/discord_bot.py:293-298 | the id set is trimmed with `list(processed_messages)[-100:]`, which keeps the last 100 ids of the set's iteration order, not the newest 100 | ids 1..100 remembered, then a message with id 0: CPython lists small integers in ascending order, so 0 is dropped at once and its next delivery passes the id check | keep the newest 100 ids in arrival order ("remove oldest") | not executed | DiscordBot.TrimAsWrittenForgetsZero | DiscordBot.RememberAllKeepsNewest |
| backend/discord_bot.py:453-466 | in mention mode, `elif message.reference and message.reference.resolved` takes over whenever the message replies to anyone, so the name test that follows is never reached | "hey nova" sent as a reply to another user's message, in mode "mention" | answer a message naming Nova, whatever it replies to, as smart mode does | not executed | DiscordBot.MentionAsWrittenIgnoresName | DiscordBot.MentionTrigger |

`DiscordBot.Bot.Screen` and `DiscordBot.Gate` use the corrected definitions.

## Left out

- Disk and database I/O are not modelled. This covers the learning store's JSON files, the chat history database and the EVE data files; `_load_jsonl` is among them. Stored history, message counts and the records of the data files are inputs.
- The language model is not modelled. Its replies are inputs (`Option<string>`, with `None` for a timeout or error), and so is the outcome of every task body.
- The clock, `random.random()` and `datetime` timestamps are inputs. Timestamps stored in records (`learned_at`, `created`, ISO times in logs) are omitted.
- The async machinery is left out, because it exists for concurrency. This covers the start and decision locks, the creation and cancellation of the decision task, the `stop()` wait with timeout, the loop's 5 s sleep and the outer exception handler.
- The task bodies that call the browser, the screen or the model are left out; they are external.
- AutonomousAgent.Agent.Tick: a pass leaves goals, completed goals and the learning log as they were, because the task bodies that change them (`_track_goals` at backend/autonomous_agent.py:922-963 and the bodies that log at :1017, :1071 and :1095) are among the external bodies, whose effects are not modelled. `AutonomousAgent.Agent.TrackGoals` models the goal-tracking body on its own. The first definitions of `_track_goals`, `_create_autonomous_goal`, `_consolidate_knowledge`, `_self_test` and `_monitor_network` are left out because later definitions override them.
- `_optimize_task_interval` is modelled, but it is dead code: no caller invokes it.
- `enable_capability`, `get_learning_summary`, `get_stats_summary`, `get_memory_status` and `get_available_files` are left out. They are status or text conveniences outside the modelled core.
- The prose of the personality templates and of all replies and prompts is left out. The model picks the template name and the mood text.
- Parts of `on_message` outside the modelled block are left out because they depend on Discord itself:
  - random reactions and delays;
  - commands;
  - images;
  - text-to-speech stripping;
  - `convert_mentions_to_discord`, which uses a regex and a guild lookup.
- The smart-mode channel-history read and model decision are left out; `DiscordBot.SmartTrigger` stops at `AskHistory` in their place.
- DiscordBot.Outgoing: takes `content` as it is after `convert_mentions_to_discord`, which `send_long_message` applies at backend/discord_bot.py:2307 before the length test and the chunking; that conversion uses a regex and a guild lookup, so `DiscordBot.SendLongMessage` and `DiscordBot.Outgoing` do not model it.
- The `HTTPException` fallback in `send_long_message` is left out: reply and send are one act.
- The other actions of `autonomous_command` are left out: status, start, stop, tasks and capability.
- `is_video_url`'s six regular-expression site patterns are left out; whether one matches is an input.
- ffmpeg, Pillow and HTTP in the video analyzer are left out.
- Scheduler.UpdatePerf: Python floats are modelled as reals with no rounding. The mean is stated as the product identity `avg·total = old avg·old total + duration`, not as the quotient.
- Scheduler.TunedIntervalCases: the success rate is compared as counts (exact rationals), not floats.
- Text.Lower: lowercases ASCII letters only, because Python's Unicode case mapping is not modelled.
- Learning.LearningSystem.SetPreference: preference and profile values are strings. Python allows any JSON value there.
- EveHelper.Summarize: the numeric EVE attributes (mass, volume, capacity, portion size) are kept as their `str()` text, because they are float values.
- EveHelper.LocalizedText: a non-dictionary truthy value is kept as its `str()` text, given as input.
