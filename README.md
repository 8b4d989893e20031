# Telegram bot and assistant dispatcher: a Dafny model

The repository is a Telegram bot that long-polls the Bot API for updates and turns each
text message into a query. It forwards each query to an OpenAI assistant thread for that
chat and queues the assistant's replies to be sent back. This project models the
sequential bookkeeping inside that program and proves properties of it:

- **Update intake** (`Updates`, tg/bot.py `BotUpdateHandlerMixin`).
  - The `updates` queue is drained in order.
  - The cursor (`offset`, `last_id`, `last_date`) advances, with its seven-day reset window.
  - Each message is classified: a valid one becomes a query, anything else is skipped or raises.
- **Commands** (`Commands`, tg/bot.py `BotCommandBase` and `BotCommandManagerMixin.add_commands`).
  - A command object normalises its description and checks its callback.
  - The process-wide registry is filled by `add_commands`.
- **Task tracking** (`BotBase`, tg/bot.py `BotBase`).
  - The constructor checks the token.
  - Tracked tasks are held in a set.
  - The one-shot "work complete" future is resolved by `complete_work`.
- **Startup and command handling** (`Startup`, main.py).
  - The loop that decides whether the platform's command list must be replaced.
  - One step of `handle_cmds`, with its set of handlers.
- **Assistant dispatcher** (`Query`, assistant/query.py `QueryDispatcher`).
  - The chat→thread map.
  - `get_response` on a finished run.
  - One cycle of `handle_user`.
  - The handler-spawn rule of `run`.
  - `stop`.
- **Assistant helpers** (`AssistantUtils`, assistant/utils.py).
  - `handle_annotations`, a fold of `str.replace(placeholder, "")`.
  - `to_messages`.
- **Python semantics** (`PyStr`, `Wrappers`).
  - ASCII `lower`/`capitalize`, slicing, and `str.replace(p, "")` with the count of the occurrences it deletes.
  - Python exceptions as a `Result` error.

Modelling conventions:

- Remote calls are replaced by their results, passed in as parameters. These are the id
  of a newly created thread, the status and messages of a run, and the list a
  `getMyCommands` request returned.
- Dates are integer unix seconds.
- `datetime.today()` is a parameter `now`.
- asyncio futures are a three-state `Signal`.
- A task is a natural number.
- An exception that escapes a Python function is an `Err`/`Some(error)` outcome, and the
  state changes made before the raise are kept.

Where the code does less or other than its names, comments and docstrings suggest, the model follows the code:

- **Commands are not routed by the update intake.** The docstring of `process_message`
  (tg/bot.py:298-302) speaks of a command or a query and "the corresponding queue", and the
  mixin declares `cmds_pending`. The code appends every valid message to `queries` and never
  writes `cmds_pending`, so `handle_cmds` never receives anything. `IdsFiveAndSix` shows
  `"/start"` arriving in `queries`.
- **The window test uses the current update's date.** The comment at tg/bot.py:230 ties the
  seven-day reset to the time since the last update retrieved. The code calls
  `new_last_date` before `new_last_id`, so the test uses the current update's own date, and
  `last_date` is never absent at that point.
- **Errors in a batch end polling.** `process_updates` catches only the `TypeError` of
  `process_message`. Any other exception escapes to `run_polling`, whose `try` encloses the
  whole `while` (tg/bot.py:312-319), so polling ends.
- **An update without a message raises.** `update.get("message") or update.get("edited_message")`
  gives `None`, and calling `.get` on it raises `AttributeError`; the update is not skipped.
- **The local `date` starts as a `datetime`.** It is initialised from `last_date`, so an
  update whose message has neither `date` nor `edit_date` raises `TypeError` when it comes
  first in a batch. Later in a batch, the previous message's timestamp is reused.
- **No per-chat exclusivity.** `run` spawns a handler only for a chat not in `chats`
  (assistant/query.py:126), but `chats` is never written, so every dequeued query spawns a
  handler; `SameChatSpawnsTwice` shows it.
- **A handler does not re-read the queue.** Each iteration of `handle_user`
  (assistant/query.py:107-115) sends the same query again.

## Model

| member | source | states |
|---|---|---|
| PyStr.Lower | tg/bot.py:30 | `s.lower()` keeps the length and lower-cases every character in place |
| PyStr.Capitalize | tg/bot.py:39 | `s.capitalize()` keeps the length, upper-cases the first character and lower-cases every other one |
| PyStr.Prefix | tg/bot.py:39 | `s[:n]` is a prefix of `s` with exactly `min(len(s), n)` characters |
| PyStr.LowerOfCapitalize | tg/bot.py:28-30 | lower-casing the capitalised name gives the lower-cased name, so a command's public name does not depend on the case of its first letter |
| PyStr.RemoveAllLength | assistant/utils.py:124 | `replace(p, "")` removes exactly `len(p)` characters for each non-overlapping occurrence it deletes, as counted by `CountOccurrences` (Python's `str.count` for a non-empty pattern) |
| PyStr.RemoveAll | assistant/utils.py:124 | `replace(p, "")` never lengthens the text, and an empty pattern leaves it unchanged |
| PyStr.CountOccurrences | assistant/utils.py:124 | the number of non-overlapping occurrences that `replace(p, "")` deletes (Python's `str.count` for a non-empty pattern); a positive count means the pattern is non-empty and occurs (the converse is `OccursCounted`) |
| PyStr.RemoveAbsent | assistant/utils.py:124 | a pattern that does not occur leaves the text unchanged |
| PyStr.OccursCounted | assistant/utils.py:124 | a non-empty pattern that occurs is counted at least once |
| PyStr.RemoveAllUnchangedIff | assistant/utils.py:124 | removal leaves the text unchanged exactly when the pattern is empty or absent (both directions) |
| PyStr.RemoveAllSubsequence | assistant/utils.py:124 | the result of removal is a subsequence of the input |
| AssistantUtils.StripAnnotations | assistant/utils.py:122-124 | the stripped reply is no longer than the reply, and annotations with empty placeholders leave it unchanged |
| AssistantUtils.ToMessages | assistant/utils.py:102-104 | exactly one message, carrying the given role and text |
| AssistantUtils.HandleAnnotations | assistant/utils.py:115-125 | the loop returns the in-order fold of placeholder removal over the annotations; with no annotations the reply is returned unchanged |
| AssistantUtils.StripIsSubsequence | assistant/utils.py:122-125 | the stripped reply is a subsequence of the reply and no longer than it |
| AssistantUtils.StripAbsent | assistant/utils.py:122-125 | placeholders none of which occur leave the reply unchanged |
| AssistantUtils.PlaceholderCanReappear | assistant/utils.py:124 | `"aabb"` with placeholder `"ab"` becomes `"ab"`, which still contains the placeholder |
| Query.TextOf | assistant/query.py:97-99 | the reply text of a text message, its placeholders stripped: no longer than the raw text, and the raw text itself without annotations |
| Query.ScanMessages | assistant/query.py:94-103 | the loop either yields a reply whose `last_id` is the id of the last listed message, or raises `IndexError` or `UnboundLocalError`, nothing else |
| Query.GetResponse | assistant/query.py:86-103 | a run whose status is not `"completed"` gives no reply; a reply only comes from a completed run with at least one message |
| Query.ScanWithoutText | assistant/query.py:94-103 | over messages none of which is text, the loop keeps the earlier response and moves `last_id` to the last message; with no earlier response, returning it raises `UnboundLocalError` |
| Query.ScanFindsLastText | assistant/query.py:94-103 | the loop ends with the stripped text of the last text message and the id of the last listed message |
| Query.ScanStopsAtEmptyContent | assistant/query.py:97 | a message with an empty content list raises `IndexError` |
| Query.CompletedReply | assistant/query.py:86-103 | on a completed run, the reply is the stripped text of the last text message, and `last_id` is the id of the last listed message |
| Query.CompletedWithoutText | assistant/query.py:94-103 | a completed run listing no text message raises `UnboundLocalError` |
| Query.CompletedWithEmptyContent | assistant/query.py:96-97 | a completed run listing a message without content raises `IndexError` |
| Query.QueryDispatcher.constructor | assistant/query.py:35-42 | empty thread map, queues, chat set and handler set; not running |
| Query.QueryDispatcher.Submit | main.py:59-60 | the query is appended to the dispatcher's queue |
| Query.QueryDispatcher.CreateThread | assistant/query.py:70-76 | the chat is mapped to the new thread; no other entry changes |
| Query.QueryDispatcher.ThreadMessage | assistant/query.py:60-68 | as one uninterrupted call: an existing thread is reused and the map is unchanged; otherwise a thread is created; afterwards the chat is mapped, and no other entry is removed or changed |
| Query.QueryDispatcher.HandleUserStep | assistant/query.py:105-115 | the chat gets a thread; a reply is pushed as `(chat, response)` and `last_id` advances only when `get_response` gives one; an exception from it leaves `responses` unchanged |
| Query.QueryDispatcher.Start | assistant/query.py:119 | `running` is set |
| Query.QueryDispatcher.RunStep | assistant/query.py:120-129 | one uninterrupted iteration: an empty queue changes nothing; otherwise the head query is taken, and a handler is spawned exactly when its chat is not in `chats` |
| Query.QueryDispatcher.HandlerDone | assistant/query.py:129 | the finished handler leaves the handler set |
| Query.QueryDispatcher.Stop | assistant/query.py:132-135 | every live handler is asked to cancel and `running` is cleared |
| Query.SameChatSpawnsTwice | assistant/query.py:126-129 | two queries from one chat spawn two handlers, because `chats` is never written |
| BotBase.TokenPath | tg/bot.py:71-74 | an empty or non-string token raises `ValueError`; otherwise the path is `"/bot" + token` |
| BotBase.SetResult | tg/bot.py:118 | only a pending future can be resolved; a missing one raises `AttributeError` and a resolved one `InvalidStateError` |
| BotBase.CompleteWorkStep | tg/bot.py:111-118 | the task leaves the set; while tasks remain nothing else changes; when the set becomes empty a pending future is resolved, a missing one raises `AttributeError` and a resolved one `InvalidStateError`, with the discard kept |
| BotBase.ApplyEvent | tg/bot.py:101-118 | `add_tasks` adds the task and never raises; `complete_work` removes it; the future only ever changes from pending to resolved, on an empty set; a raise leaves the future as it was |
| BotBase.Replay | tg/bot.py:101-118 | at most one exception per event, none when only tasks are added |
| BotBase.ReplayResolved | tg/bot.py:101-118 | every event is processed, also after a raising done-callback: the replay ends with the future resolved exactly when it started resolved or one event resolved it (both directions) |
| BotBase.NoResolutionAfterResolved | tg/bot.py:111-118 | once resolved, no later event resolves the future again |
| BotBase.ResolvedAtMostOnce | tg/bot.py:101-118 | over any sequence of `add_tasks`/`complete_work` events, including events after a raising callback, the future is resolved at most once |
| BotBase.SecondResolutionRaises | tg/bot.py:117-118 | emptying the task set a second time raises `InvalidStateError`, once, and leaves the set empty and the future resolved |
| BotBase.Bot.constructor | tg/bot.py:75-81 | the path is stored; no tasks; both futures not yet created; not running |
| BotBase.Bot.Create | tg/bot.py:71-81 | `ValueError` exactly for a rejected token, otherwise a fresh bot with path `"/bot" + token` |
| BotBase.Bot.Start | tg/bot.py:84-91 | running, with the stop and work-complete futures pending |
| BotBase.Bot.AddTasks | tg/bot.py:101-105 | every given task joins the tracked set |
| BotBase.Bot.CompleteWork | tg/bot.py:111-118 | the new state and the raised exception are exactly `CompleteWorkStep` of the old state |
| BotBase.Bot.StopSession | tg/bot.py:120-121 | the stop future is resolved, or the resolution error is returned and nothing changes |
| BotBase.ResolvesWithoutStop | tg/bot.py:111-118 | the work-complete future can be resolved while no stop was requested |
| Commands.NormalizeDescription | tg/bot.py:36-41 | a non-string gives the class name; a string gives `min(len, 25)` characters, a prefix of its capitalised form |
| Commands.BotCommand.Init | tg/bot.py:18-19 | a fresh command with the class defaults: empty description and no callback |
| Commands.BotCommand.SetDescription | tg/bot.py:36-41 | the stored description is `NormalizeDescription` of the value |
| Commands.BotCommand.RegisterCallback | tg/bot.py:43-49 | a callable becomes the callback; anything else raises `TypeError` and leaves the callback unchanged |
| Commands.BotCommand.Create | tg/bot.py:21-26 | `TypeError` exactly for a truthy non-callable callback; otherwise a fresh command with that class name, the callback (or none for a falsy one) and the normalised description |
| Commands.BotCommand.Command | tg/bot.py:28-30 | the public name has the class name's length and is its lower-cased form, character by character |
| Commands.CommandIsLowerName | tg/bot.py:28-30 | a command registered under `name` (class `name.capitalize()`) has public name `name.lower()` |
| Commands.PlanAdd | tg/bot.py:174-185 | the loop of `add_commands` keeps the registered names as a prefix and adds at most one entry per argument |
| Commands.PlanAddNames | tg/bot.py:174-185 | the registered names are the old names followed by the added names, in argument order |
| Commands.PlanAddStopped | tg/bot.py:178-183 | once a new name has raised `TypeError`, no later argument changes the outcome |
| Commands.PlanAddKeepsDistinct | tg/bot.py:176-177 | only unregistered names are added, so the registry's names stay distinct |
| Commands.PlanAddFromPairs | tg/bot.py:175-185 | every added entry is one of the arguments |
| Commands.PlanAddCovers | tg/bot.py:174-185 | without an error, a name is registered afterwards exactly when it was registered before or is an argument (both directions) |
| Commands.PlanAddFailsIff | tg/bot.py:178-183 | for distinct keyword names, `add_commands` raises `TypeError` exactly when an unregistered name comes with a truthy non-callable callback (both directions) |
| Commands.CommandRegistry.constructor | tg/bot.py:154-157 | empty registry, no unset commands |
| Commands.CommandRegistry.Listing | main.py:145 | `bot.commands.values()` as `(command, description)` pairs: one per registered name, in insertion order |
| Commands.CommandRegistry.ListingOf | main.py:145 | the `(command, description)` view of the registry, one entry per name, in insertion order |
| Commands.CommandRegistry.Insert | tg/bot.py:184-185 | the new command is stored last in insertion order and `has_unset_commands` is set |
| Commands.CommandRegistry.AddOne | tg/bot.py:178-185 | a rejected callback raises `TypeError` and changes nothing; otherwise a new command, not one of the earlier command objects, is inserted under the new name |
| Commands.CommandRegistry.AddAt | tg/bot.py:175-185 | one loop iteration moves the registry one step along `PlanAdd`: a registered name is skipped |
| Commands.CommandRegistry.AddCommands | tg/bot.py:174-185 | names grow by the planned additions; `TypeError` exactly when the plan fails; old entries untouched; each new entry a new command whose description is its class name and whose callback is the argument; `has_unset_commands` set exactly when something was added |
| Commands.CommandRegistry.Finished | tg/bot.py:174-185 | the loop's final state, run to the end or stopped by `TypeError`, gives all these facts about the registry |
| Startup.SyncCommands | main.py:144-151 | a missing command list raises `TypeError`; otherwise at most one `set_commands()` is scheduled, and one is scheduled exactly when name or description differ at an index both lists have |
| Startup.LengthAloneDoesNotSync | main.py:145 | extra commands on either side never trigger a sync, because `zip` truncates |
| Startup.CommandHandlers.constructor | main.py:42 | the handler set starts empty |
| Startup.CommandHandlers.HandleCommand | main.py:44-51 | an unregistered command is skipped with `handlers` unchanged; a command without callback raises `TypeError`; otherwise the handler joins `handlers` |
| Startup.CommandHandlers.HandlerDone | main.py:51 | a finished handler is discarded from `handlers` |
| Updates.StartDate | tg/bot.py:282 | the local `date` starts as `self.last_date`: `None` or a `datetime`, never an integer timestamp |
| Updates.SelectMessage | tg/bot.py:286 | `message` when it is a non-empty dict, otherwise `edited_message`; `AttributeError` exactly when neither is there |
| Updates.OwnDate | tg/bot.py:288 | `date` when present and non-zero, otherwise a non-zero `edit_date`; absent exactly when both are missing or zero |
| Updates.NextDate | tg/bot.py:288 | the local `date` becomes the message's own date; with none, the previous value is kept |
| Updates.FromTimestamp | tg/bot.py:241 | only an integer timestamp is accepted; anything else raises `TypeError` |
| Updates.QueryOf | tg/bot.py:304-308 | at most one query, present exactly when `chat.id` and `text` are, and carrying them |
| Updates.UpdatesRequest | tg/bot.py:270-276 | the `getUpdates` parameters: the current offset and the class attributes of tg/bot.py:219-222, limit 100, timeout 100, `message`/`edited_message` updates |
| Updates.Step | tg/bot.py:285-295 | the local `date` becomes `NextDate` of the message; `AttributeError` without a message, `TypeError` when no timestamp is at hand, `KeyError` without `update_id`; the update gets through exactly when it has a message and an `update_id` and brings its own date or the local `date` already holds a timestamp; then the cursor is in sync with the merged `last_id` and the message's query is appended; an exception leaves `offset`, `last_id` and `queries` unchanged |
| Updates.Drain | tg/bot.py:282-296 | the loop empties the queue unless an exception escapes, and then at least the failing update has been removed |
| Updates.MergedLastId | tg/bot.py:243-247 | inside the window the result is the larger of `last_id` and the incoming id, so `last_id` never decreases; outside it is the incoming id, even a smaller one |
| Updates.DrainKeepsSync | tg/bot.py:249-250 | every processed update leaves `offset == last_id + 1`, so a synchronised cursor stays synchronised |
| Updates.DrainConsumesInOrder | tg/bot.py:284-285 | updates are consumed from the front: after an exception exactly the updates behind the failing one stay queued |
| Updates.DrainQueries | tg/bot.py:284-310 | `queries` only grows at the end; without an exception exactly the `(chat_id, text)` pairs of the valid messages are appended, in queue order |
| Updates.DrainNoErrorIff | tg/bot.py:282-290 | the drain finishes without an exception exactly when every update has a message and an `update_id`, and the first brings its own date or the local `date` already holds a timestamp (both directions) |
| Updates.DrainErrors | tg/bot.py:286-292 | only `AttributeError`, `TypeError` or `KeyError` escape; a `TypeError` from `process_message` is caught |
| Updates.MaxIdBounds | tg/bot.py:243-247 | the merged maximum is at least the base and every id, and is the base or one of the ids |
| Updates.RecentBatchMax | tg/bot.py:284-291 | for updates dated inside the window, valid messages or not, the drain succeeds, `last_id` ends at the largest id seen and `offset` one past it |
| Updates.MaxIdOfIncreasing | tg/bot.py:243-247 | for increasing ids above the base, the maximum is the last id |
| Updates.RecentBatchAcknowledged | tg/bot.py:270-276 | after a recent batch, the next `getUpdates` offset is past every processed id |
| Updates.IncreasingBatchOffset | tg/bot.py:249-250 | from the initial cursor, a recent batch with increasing ids leaves the offset at the last id plus one |
| Updates.UpdateHandler.constructor | tg/bot.py:230-237 | `offset` 1, `last_id` 0, no date, empty queues, cursor synchronised |
| Updates.UpdateHandler.ReceiveUpdates | tg/bot.py:266-268 | a successful fetch appends every update to the queue, in order; a failed one appends nothing |
| Updates.UpdateHandler.NewLastDate | tg/bot.py:239-241 | an integer timestamp is stored; anything else raises `TypeError` and changes nothing |
| Updates.UpdateHandler.NewLastId | tg/bot.py:243-247 | the new `last_id` is `MergedLastId`: max-merge inside the window, overwrite outside it |
| Updates.UpdateHandler.NewOffset | tg/bot.py:249-250 | afterwards `offset == last_id + 1` |
| Updates.UpdateHandler.ProcessMessage | tg/bot.py:298-310 | a message with `chat.id` and `text` appends exactly that pair; otherwise `TypeError` and nothing is appended |
| Updates.UpdateHandler.ProcessUpdates | tg/bot.py:278-296 | the new cursor, `queries`, remaining queue and escaping exception are those of `Drain` on the old state; `cmds_pending` is unchanged |
| Updates.IdsFiveAndSix | tg/bot.py:278-296 | ids 5 and 6 on a fresh handler leave the offset at 7; both texts, `"/start"` included, go to `queries` |
| Updates.StaleUpdateResets | tg/bot.py:243-247 | after id 100, an update with id 3 dated outside the window moves `last_id` to 3 and the offset to 4 |

## Left out

- HTTP and JSON are left out because they are I/O: `BotBase.get`/`post`, the `getMyCommands`/`setMyCommands` requests (`get_commands`, `set_commands`), URL encoding and JSON decoding. A fetch result and the remote command list enter as parameters.
- `get_updates` racing the fetch against the stop future, `run_polling`, `BotBase.run` awaiting its futures, `dispatch_queries`, `dispatch_responses`, `log_state` and the shutdown sequence of `main` are left out. They are about asyncio concurrency and cancellation. Only the enqueueing of a successful fetch is modelled (`ReceiveUpdates`).
- `BotBase.run` setting both futures back to `None` at the end (tg/bot.py:97-98) is left out because it happens only after shutdown.
- `BotCommandBase.__call__` is left out because it is event-loop task creation. `HandleCommand` assumes the callback is a coroutine function, as both callbacks of the entry script are. A callback whose result is not awaitable is therefore not modelled: `__call__` then returns that result and `handle_cmds` fails on `add_done_callback`.
- The entry script's configuration step is left out. It calls `add_commands(start=..., help=...)` and then assigns two descriptions (main.py:176-184). Its parts are modelled by `AddCommands` and `SetDescription`. That step runs only when the bot has `_get_commands`, and the `Bot` class does not inherit the command mixin.
- The literal value the entry script stores as the help description (main.py:184) is not evaluated. `NormalizeDescription` states the general rule: 25 characters of the capitalised text.
- The OpenAI SDK wrappers are left out: `get_client`, `get_file`, `store_files`, `create_assistant`, `get_filename`, `QueryDispatcher.setup`, and the remote calls inside `run_thread`, `create_thread`, `thread_message` and `get_response`. They are foreign calls.
- `asyncio.sleep` and `asyncio.timeout` timing is left out. A timed-out wait in `run` is an empty queue in `RunStep`.
- `datetime.today()` is a parameter `now`. `ProcessUpdates` takes one value of `now` for the whole drain, while the code reads the clock once per update.
- `datetime.fromtimestamp` is modelled only by its type check. Out-of-range timestamps (`OverflowError`, `OSError`) and float timestamps are left out.
- Updates.MergedLastId: compares unix seconds, `t > now - 604800`. The code compares naive local wall-clock times from `fromtimestamp` and `today()` (tg/bot.py:241, 244). Across a daylight-saving change the two tests differ by the clock shift, so an update dated up to that shift inside the window can be judged stale.
- Query.QueryDispatcher.ThreadMessage: the lookup and the insertion are modelled as one uninterrupted call. In the code `create_thread` awaits the remote `threads.create` between the failed lookup and `self.threads[chat_id] = thread_id` (assistant/query.py:61-64, 70-75). Two handlers of a new chat can both miss the lookup, and the later insertion then replaces the earlier thread for that chat.
- Case mapping covers the ASCII letters only. Unicode case rules are not modelled.
- Dictionary shapes outside the Bot API contract are left out:
  - a `chat` value that is not a dict (treated like a missing chat id);
  - an update that is not a dict;
  - a remote command entry without `command` or `description`;
  - a message `text` that is not a string.
- argparse, dotenv, logging and environment-variable reads are left out as configuration plumbing.
- Commands.CommandRegistry.AddCommands: says each new command is not one of the command objects registered before, rather than that it is newly allocated.
- Query.QueryDispatcher.Stop: records cancellation requests in a `cancelled` set, because actually cancelling a task and its effects is asyncio behaviour.
