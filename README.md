# kinoko7danmaku in Dafny

kinoko7danmaku turns the events of a Bilibili live room into speech.
Chat messages ("danmaku"), gifts, guard purchases and super chats arrive from the room.
Each category has its own on/off switch and text template.
The rendered text is sent to a text-to-speech service (Fish Speech, GPT-SoVITS over Gradio, or Minimax).
The audio that comes back goes into a playback queue and is played on a chosen output device.
Repeated gifts from one user can be merged and announced once after a quiet period.
A Qt GUI shows the recent messages and chat lines, edits the alias and voice dictionaries, and validates the configuration.
An update checker compares the running version with the latest published release.

This project models that core and proves properties of it.
Each part of the program has its own module:

- `GiftMerging` is the gift merger. It keeps groups keyed by (user, gift), each with a running total and a window that grows on repeats, and a tick flushes the due groups.
- `Playback` is the queued stream player and its device selection. `LegacyPlayers` covers the two older players and their temporary files. `Devices` holds the device table, and `Bytes` the 4096-byte chunked writes.
- `BiliService` is the connection supervisor: the cookie-scan credential loader, run/stop/logout, the room liveness check, and the per-category event gates with the gift value threshold.
- `EventModels` holds the event records and their `parse` and `__str__` methods.
- `EventRegistry` is the ordered handler registry and its dispatch.
- `UpdateChecker` covers version parsing and comparison, the cache, and the update decision.
- `Aliases`, `FishSpeech`, `GptSovits` and `Minimax` cover alias substitution and the request building of the speech services. `Minimax` also decodes base16 audio.
- `ConfigValidators` holds the configuration validators and the voice-list post-processing.
- `MessageDisplay`, `DanmakuControl`, `RowEditor` and `IntSetting` hold the list and editor logic behind the GUI cards.
- `PyStr`, `PyDict`, `JsonValue`, `Http`, `Templates` and `Wrappers` model the Python semantics these rely on:
  - string stripping, lowering and `int()`;
  - insertion-ordered dicts;
  - JSON values and the errors their subscripts raise;
  - HTTP status checks;
  - `str.format` as a symbolic text;
  - results.

The model is driven by explicit calls.
Timers and tasks become methods taking the current time `now` in integer milliseconds.
Device tables, HTTP replies, JSON payloads, cookie lists and configuration values are parameters.
`str.format` rendering is kept symbolic: a rendered text is the template with its named fields.

Where two files of the program hold the same logic, it is modelled once and the table below cites both files.
This applies to:

- the two configuration modules;
- the two event-model files;
- the two supervisors' credential loaders (their `run` methods differ, and each has its own class);
- the dict and alias editors.

## Model

| member | source | states |
|---|---|---|
| Aliases.PreFormat | src/format.py:4-9 | With no aliases the text is returned unchanged; otherwise each alias, in map order, lowercases the current text and replaces the lowercased key by the value; a single alias gives exactly `Replace(Lower(s), Lower(k), v)` |
| Aliases.PreFormatNoMatch | src/format.py:5-9 | When no lowercased key occurs in the lowercased text, `pre_format` with a non-empty alias map only lowercases the text |
| Aliases.LoweredNoMatch | src/format.py:7-8 | After any number of non-matching aliases the text is just the lowercased input |
| Aliases.PreFormatOnlyLastKeepsCase | src/format.py:7-8 | Each pass lowercases again, so the result has no uppercase letter unless the last alias's value has one |
| Aliases.PreFormatIgnoresCase | src/format.py:8 | Key matching ignores case: an alias for "abc" rewrites "ABC" to its value |
| Aliases.Substitute | src/tts_service/fish_speech.py:51-53 | The Fish Speech alias loop applies case-sensitive `str.replace` for each alias in map order; no aliases leave the text unchanged |
| Aliases.SubstitutedChains | src/tts_service/fish_speech.py:52-53 | An alias appended to the map works on the output of all the earlier ones |
| Aliases.SubstitutedPrefix | src/tts_service/fish_speech.py:52-53 | Later aliases do not affect the result of the first `n` |
| Aliases.SubstitutedNoMatch | src/tts_service/fish_speech.py:52-53 | When no non-empty key occurs in the text as written, the substitution changes nothing |
| Aliases.FishIsCaseSensitive | src/tts_service/fish_speech.py:53 | Matching is case-sensitive: an alias for "abc" leaves "ABC" alone |
| FishSpeech.FishSpeechService.constructor | src/tts_service/fish_speech.py:12-14 | The service keeps the API URL it is given |
| FishSpeech.FishSpeechService.TextToSpeech | src/tts_service/fish_speech.py:16-75 | The request goes to the service URL with the alias-substituted text, format "wav" and the other arguments unchanged; the result is the reply's content exactly when the status is 2xx, and an HTTP status error carrying the status otherwise |
| Http.RaiseForStatus | src/tts_service/fish_speech.py:72 | `raise_for_status`: a 2xx reply passes its content through, any other raises an HTTP status error with that status |
| Devices.PyAt | src/core/player.py:34 | Python list indexing: in-range indices select that element, negative indices count from the end, anything else is an IndexError |
| Devices.Resolve | src/core/player.py:59-74 | The device `set_output_device` settles on: -1 maps to the default device; the result exists exactly when the index names a device with an output channel |
| Devices.FirstContaining | src/core/player.py:53-54 | The position of the first name containing the part, with no earlier name containing it, or none when no name contains it |
| Devices.FirstContainingAt | src/core/player.py:53-54 | A position whose name contains the part, with no earlier name containing it, is the one found |
| Devices.FirstContainingNone | src/core/player.py:53-56 | When no name contains the part, nothing is found |
| Bytes.WriteChunks | src/core/player.py:103-105 | Chunk `k` is the slice of the raw frames starting at `k * 4096`, non-empty and at most 4096 bytes. When the device raises on the write of chunk `failAt` and that chunk exists, the loop stops there with exactly the earlier chunks written, which concatenate to the first `failAt * 4096` bytes; otherwise the chunks concatenate to the raw frames and their number is the ceiling of the length over 4096 |
| Bytes.WrittenDone | src/core/player.py:103-105 | When the write loop stops, it stopped on a raising write exactly when that chunk exists; the chunks then cover the frames up to that chunk, and otherwise all of them |
| Bytes.WrittenStep | src/core/player.py:104-105 | Writing the next slice `raw[i:i + 4096]` keeps the loop's state: the writes so far concatenate to the first `i + 4096` bytes (at most all of them), and slice `k` starts at `k * 4096` |
| Playback.ListedSpec | src/core/player.py:36-49 | A device appears in the list exactly when it has an output channel and its host API name contains the default device's, with its own index and name, and the list is in increasing index order |
| Playback.FindByName | src/core/player.py:53-56 | The search loop finds the first listed device whose name contains the requested part |
| Playback.StreamPlayer.constructor | src/core/player.py:13-18 | A new player is on the default output device, with an empty queue, no worker task and not running |
| Playback.StreamPlayer.StartWorker | src/core/player.py:126-131 | Afterwards the player is running; a fresh worker task is created only when it was not running, and the queue and device are untouched |
| Playback.StreamPlayer.StopWorker | src/core/player.py:133-150 | Afterwards the player is not running; when it was running, the worker task is cancelled and every queued clip is discarded in order; otherwise nothing changes |
| Playback.StreamPlayer.PlayBytesAsync | src/core/player.py:152-158 | The clip joins the end of the queue and nothing else changes; the queue stays first in, first out |
| Playback.StreamPlayer.WorkerStep | src/core/player.py:111-124 | One worker iteration: while running with clips queued, the oldest clip leaves the queue and its frames are written in chunks. If playing fails before any write, the clip is recorded as failed with nothing written. If a write raises, the clip is recorded as failed and the chunks before it stay written, concatenating to a prefix of the frames. Otherwise the new writes concatenate to the frames. With nothing queued or not running, nothing changes |
| Playback.StreamPlayer.GetOutputDevices | src/core/player.py:24-49 | No devices raise the "没有找到输出设备" RuntimeError, an out-of-range default index an IndexError; otherwise the list is the output-capable devices on the default host API, and every listed index is such a device |
| Playback.StreamPlayer.SetOutputDevice | src/core/player.py:59-74 | The result is true exactly when the index (with -1 meaning the default) names an existing output-capable device, and only then does the device index change to it |
| Playback.StreamPlayer.SetOutputDeviceByName | src/core/player.py:51-57 | Fails exactly when listing the devices fails; otherwise selects the first listed device whose name contains the part, or keeps the current device when none matches |
| LegacyPlayers.LegacyListedSpec | src/player/stream_player.py:33-45 | A choice is listed exactly for an output-capable device on the default host API, named with the " (默认) " mark when it is the default device, in increasing index order |
| LegacyPlayers.FindChoice | src/player/stream_player.py:57-58 | The search loop finds the first choice whose display name contains the part |
| LegacyPlayers.LegacyStreamPlayer.constructor | src/player/stream_player.py:13-15 | A new player is on the default output device |
| LegacyPlayers.LegacyStreamPlayer.GetOutputDevices | src/player/stream_player.py:17-48 | No devices raise the RuntimeError; otherwise the first choice is ("默认设备", default index) and every later one is a listed output-capable device |
| LegacyPlayers.LegacyStreamPlayer.SetOutputDevice | src/player/stream_player.py:63-78 | True exactly when the index (with -1 meaning the default) names an existing output-capable device, which then becomes the device; otherwise the device is unchanged |
| LegacyPlayers.LegacyStreamPlayer.SetOutputDeviceByName | src/player/stream_player.py:55-61 | Fails exactly when listing fails; otherwise the first choice whose display name contains the part is selected (it may be the leading default choice), and no match changes nothing |
| LegacyPlayers.DefaultChoiceMatches | src/player/stream_player.py:29 | The leading choice's name contains "默认", so searching for that name always selects the default choice |
| LegacyPlayers.RemoveFirst | src/player/stream_player.py:124-125 | `list.remove` drops exactly one occurrence of the element |
| LegacyPlayers.FirstIndex | src/player/stream_player.py:124-125 | The index `list.remove` searches for: it holds the element, and no earlier position does |
| LegacyPlayers.RemoveFirstAt | src/player/stream_player.py:124-125 | The occurrence removed is the first one, and the other entries keep their order: the result is the list before it followed by the list after it |
| LegacyPlayers.TempFiles.constructor | src/player/stream_player.py:116 | The temporary-file list starts empty |
| LegacyPlayers.TempFiles.CleanupTempFile | src/player/stream_player.py:119-127 | An existing file that can be deleted is deleted and its first list entry removed; a missing path, a missing file or a failed deletion changes nothing |
| LegacyPlayers.TempFiles.CleanupAll | src/player/stream_player.py:130-133 | Cleaning over a copy of the list deletes exactly the listed files that exist and do not fail, and removes one list entry for each of them |
| LegacyPlayers.CleanedByStep | src/player/stream_player.py:132-133 | Cleaning one more entry of the copy adds that file to the cleaned set exactly when it exists and its deletion does not fail |
| LegacyPlayers.RemoveStep | src/player/stream_player.py:124-125 | Removing a not-yet-cleaned file's entry keeps the list equal to the snapshot minus the cleaned files |
| LegacyPlayers.CleanedFileListed | src/player/stream_player.py:132-133 | A file of the snapshot not yet cleaned still has an entry in the live list |
| LegacyPlayers.CleanedBySpec | src/player/stream_player.py:130-133 | A file is cleaned exactly when it is listed, exists and its deletion does not fail |
| LegacyPlayers.EntriesSpec | src/audio_player.py:17-34 | Every output-capable device appears once, in index order, and `is_default` holds exactly for the selected device |
| LegacyPlayers.AudioPlayer.constructor | src/audio_player.py:12-15 | A new player is on the default output device |
| LegacyPlayers.AudioPlayer.GetOutputDevices | src/audio_player.py:17-34 | The entries are those of every output-capable device, flagged for the selected one |
| LegacyPlayers.AudioPlayer.SetOutputDevice | src/audio_player.py:36-49 | True exactly when the index names an existing output-capable device (there is no -1 mapping), which then becomes the device |
| LegacyPlayers.AudioPlayer.PlayFromText | src/audio_player.py:51-111 | The request carries `str(text)`, format "wav" and the given arguments; a non-2xx reply raises before anything plays; a write that raises propagates OSError and leaves exactly the chunks before it written; otherwise the decoded frames are written in chunks of at most 4096 bytes and the reply's content is returned |
| BiliService.ScanKeepsLast | src/bilibili/bili_service.py:137-143 | When the cookie loop finishes, each of `bili_jct`, `SESSDATA` and `DedeUserID` holds the value of the last cookie with that name, or is unbound when no cookie has it |
| BiliService.LastNamedStep | src/bilibili/bili_service.py:137-143 | One more cookie leaves its own value under its name and keeps the earlier value under every other name |
| BiliService.ScanStepKeeps | src/bilibili/bili_service.py:138-143 | A successful pass over one cookie replaces the value of that cookie's own name only |
| BiliService.CheckFound | src/bilibili/bili_service.py:144-149 | The credential is built exactly when all three values are bound and truthy, from exactly those values; an unbound name is a NameError and a falsy value an AssertionError |
| BiliService.LoadCredentialCorrect | src/bilibili/bili_service.py:133-149 | A credential loads exactly when the cookie list can be read and scanned and the last `bili_jct`, `SESSDATA` and `DedeUserID` values are present and truthy, and it is built from those values |
| BiliService.LoadCredential | src/bilibili/bili_service.py:133-149 | The cookie loop, with its early raise on a malformed cookie, computes exactly the credential specification; `src/bili_service.py:14-34` is the same code in a second file, modelled by the same member |
| BiliService.ScanErrorSticks | src/bilibili/bili_service.py:137-143 | Once a cookie raises, the whole loop raises that error |
| BiliService.OnDanmaku | src/bilibili/bili_service.py:56-71 | With normal danmaku off nothing happens and nothing is parsed; otherwise the handler fails exactly when parsing fails, and announces the template filled with the user name and the message |
| BiliService.BelowThresholdInMilli | src/bilibili/bili_service.py:78-82 | The threshold test `price / 1000 * num < threshold`, read in exact real arithmetic, holds exactly when `price * num < threshold * 1000`; the program's float rounding is not modelled (see Left out) |
| BiliService.OnSendGift | src/bilibili/bili_service.py:73-95 | The gift is parsed first and the handler fails exactly when parsing fails; it announces exactly when free gifts are on or the coin type is not "silver", and the value, computed exactly, reaches the threshold; the text fills the template with user, gift name and count |
| BiliService.OnGuardBuy | src/bilibili/bili_service.py:97-113 | With guard announcements off nothing happens; otherwise the handler fails exactly when parsing fails, and announces the user name and the guard level's Chinese name |
| BiliService.OnSuperChat | src/bilibili/bili_service.py:115-131 | With super chats off nothing happens; otherwise the handler fails exactly when parsing fails, and announces the user name and the message |
| BiliService.TimerAfterStop | src/bilibili/bili_service.py:172-173 | Stopping keeps the timer, if any, with its interval, and leaves it inactive |
| BiliService.TimerAfterRunAsWritten | src/bilibili/bili_service.py:160-166 | The timer step of `run` as written: with no timer a new active one with the 1000 ms interval exists afterwards; an existing timer is left exactly as it was |
| BiliService.StopThenRunAsWrittenLeavesTimerStopped | src/bilibili/bili_service.py:161-173 | As written, run after stop finds the stopped timer and does not restart it, so the liveness check stays off |
| BiliService.TimerAfterRun | src/bilibili/bili_service.py:160-166 | The intended timer step: after a run the timer exists and is active; a new one has the 1000 ms interval, and an existing one keeps its interval |
| BiliService.RunAfterStopRestartsTimer | src/bilibili/bili_service.py:160-173 | With the intended step the timer is active after every run, including one that follows a stop |
| BiliService.Service.constructor | src/bilibili/bili_service.py:33-38 | A new service has no credential, room, connect task or timer |
| BiliService.Service.Run | src/bilibili/bili_service.py:151-166 | Fails, changing nothing, exactly when the credential cannot be loaded; otherwise the service is logged in with that credential, a new listening room for the room id has a new connect task, and the timer follows the step as written: it is created and started only when there was none, so a timer stopped by `stop` stays stopped |
| BiliService.Service.Connect | src/bilibili/bili_service.py:152-166 | After loading, the service holds the credential, a new listening room for the room id with the next serial, its connect task, and the timer as written: a new running 1000 ms timer when there was none, otherwise the old timer unchanged, stopped or not; cancelled tasks stay as they were |
| BiliService.Service.CheckRoomStatus | src/bilibili/bili_service.py:40-53 | Without a task or a room, or while the room is open, nothing changes; a closed room's task is cancelled and a new room with the current credential and a new connect task replace them |
| BiliService.Service.Stop | src/bilibili/bili_service.py:168-174 | The connect task, if any, is cancelled and forgotten, and the timer is stopped but kept; the credential and the room stay |
| BiliService.Service.IsLoggedIn | src/bilibili/bili_service.py:176-177 | True exactly when a credential is held; a successful `Run` makes it true and `Logout` makes it false (see their rows) |
| BiliService.PlainService.constructor | src/bili_service.py:10-12 | A new service of the second file has no credential and no room |
| BiliService.PlainService.Run | src/bili_service.py:36-42 | The `run` of the second file: it fails with the loader's error, changing nothing, exactly when the credential cannot be loaded; otherwise it holds that credential and a new room for the room id built with it. Unlike `Service.Run` it registers no listeners, starts no connect task and no liveness timer |
| BiliService.Service.Logout | src/bilibili/bili_service.py:179-188 | After logout the service is not logged in and has no credential, room, task or timer; a running task has been cancelled |
| EventRegistry.RunUntilRaiseSpec | src/event_handler.py:20-22 | The handlers a trigger runs are a prefix of its list in registration order, none but the last raises, all run when none raises, and otherwise the last one run is one that raises |
| EventRegistry.RegisteredTwiceRunsTwice | src/event_handler.py:24-31 | Registration does not deduplicate: a handler registered twice runs twice when nothing raises |
| EventRegistry.LaterHandlersSkipped | src/event_handler.py:29-31 | The handlers after the first raising one do not run |
| EventRegistry.RunIsPrefix | src/event_handler.py:29-31 | The handlers run are a prefix of the list in registration order, and none but the last run raises |
| EventRegistry.RunWhole | src/event_handler.py:29-31 | When no handler raises, every handler runs |
| EventRegistry.RunEndsRaising | src/event_handler.py:29-31 | When some handler raises, the run is non-empty and its last handler is one that raises |
| EventRegistry.EventHandler.constructor | src/event_handler.py:9-14 | A new registry has five empty handler lists |
| EventRegistry.EventHandler.On | src/event_handler.py:16-18 | Registration appends the handler to its own category's list only and returns the handler unchanged |
| EventRegistry.EventHandler.Trigger | src/event_handler.py:20-58 | A trigger runs the category's handlers in registration order up to and including the first that raises, and raises exactly when one of them does |
| EventRegistry.Singleton | src/event_handler.py:61-62 | An existing module registry is kept; otherwise a fresh, empty one is created |
| EventModels.Value | src/models/bilibili.py:16-19 | Every guard level has a value between 0 and 3 |
| EventModels.NameCnInjective | src/models/bilibili.py:21-30 | The four Chinese level names are pairwise distinct and none is the unknown-level text "未知等级" |
| EventModels.GuardLevelOf | src/models/bilibili.py:102 | `GuardLevel(v)` succeeds exactly for the values 0 to 3 (and the booleans, which equal 0 and 1), gives the level with that value, and otherwise raises ValueError |
| EventModels.GuardLevelRoundTrip | src/models/bilibili.py:16-19 | Looking a level up by its own value gives the level back |
| EventModels.EmotionEntriesSpec | src/models/bilibili.py:83-86 | Each `emots` entry becomes key to url ("" when missing): the table has the same keys in the same order, and each key maps to its own entry's url |
| EventModels.EmotionStep | src/models/bilibili.py:85-86 | One more `emots` entry: the table so far is built, and the entry's url is stored under its key |
| EventModels.EmotionErrorSticks | src/models/bilibili.py:85-86 | Once an entry fails to give a url, the whole fill fails with that error |
| EventModels.FillEmotion | src/models/bilibili.py:84-86 | The fill loop, with its early raise, builds exactly the emotion table of the specification |
| EventModels.ParseDanmu | src/models/bilibili.py:59-108 | `DanmuMessage.parse` returns exactly the payload's specification: room id first, early return without `data`/`info`, then the fields in reading order; `src/bilibili/model.py:57-106` is the same code in a second file, modelled by the same member |
| EventModels.DanmuRoomAndEarlyReturn | src/models/bilibili.py:69-75 | The room id always comes from `room_display_id`; without `data`, or without `info` in it, every other field keeps its default; `src/bilibili/model.py:67-73` is the same code in a second file, modelled by the same member |
| EventModels.DanmuNeedsRoomId | src/models/bilibili.py:71 | Without a room id that `int()` accepts, parsing fails before anything else is read |
| EventModels.ReplyOnlyWhenShown | src/models/bilibili.py:87-91 | The reply fields stay at their defaults unless `extra["show_reply"]` is truthy |
| EventModels.MedalOnlyWhenPresent | src/models/bilibili.py:99-102 | Medal and guard fields stay at their defaults when `info[3]` is empty, and an out-of-range guard level there raises ValueError |
| EventModels.PicOnlyFromDict | src/models/bilibili.py:104-106 | The picture emoticon is read only from a dict, and is "" when the dict has no url |
| EventModels.DanmuToString | src/models/bilibili.py:110-117 | The text is the optional guard tag (non-zero level only), the optional medal tag (non-empty name and non-zero level only), then `user_name:message`; it always ends with `user_name:message`; `src/bilibili/model.py:108-115` is the same code in a second file, modelled by the same member |
| EventModels.DanmuTextAffixes | src/models/bilibili.py:110-117 | The text ends with `user_name:message` and, when the sender has a guard level, starts with that level's tag |
| EventModels.InteractTypeOf | src/models/bilibili.py:120-126 | `InteractType(v)` succeeds exactly for 1, 2 and 3 (and `True`), and otherwise raises ValueError |
| EventModels.ParseInteractWord | src/models/bilibili.py:136-144 | Every field of a parsed interaction is tied to the payload: the room id is `int()` of `room_display_id`, and from `event["data"]["data"]` the user id is `uid`, the user name `uname`, the type the enum of `msg_type` and the timestamp `timestamp` |
| EventModels.ParseGuardBuy | src/models/bilibili.py:156-167 | A parsed guard purchase is stamped with the current time; its room id is `int()` of `room_display_id`, and from `event["data"]["data"]` its user id is `uid`, its user name `username`, its level the enum of `guard_level`, its count `num` and its price `price` |
| EventModels.GuardBuyText | src/models/bilibili.py:169-170 | The display text is exactly "name[mid] 购买了 " with the level's Chinese name, followed by "，价值 price 元": it starts with the first part, ends with the second, and is as long as both together |
| EventModels.ParseSuperChat | src/models/bilibili.py:186-201 | A parsed super chat stores the current time in `time` and keeps `timestamp` at 0; its room id is `int()` of `room_display_id`, and from `event["data"]["data"]` its user id is `uid`, its price `price`, its message `message`, its user name and face `user_info.uname` and `user_info.face`, and its medal name, medal level and guard level those of `medal_info` |
| EventModels.SuperChatText | src/models/bilibili.py:203-204 | The display text is exactly "name[mid] 发送了一条醒目留言，他说“", the message, and "”，价值 price 元": it starts with the first part, holds the message right after it, ends with the last part, and is as long as the three together |
| EventModels.ParseGift | src/models/bilibili.py:217-229 | A parsed gift is stamped with the current time; from `event["data"]["data"]` it carries `coin_type`, `giftName`, the count `num`, the price `price` and the user id `uid`, and it agrees field by field with the older `SendGift.parse`, failing whenever that fails |
| EventModels.GiftText | src/models/bilibili.py:231-232 | The display text is exactly "name[mid] 赠送了 num 个 gift" followed by "，价值 price 元": it starts with the first part, ends with the second, and is as long as both together |
| EventModels.GetName | src/bilibili/model.py:21-37 | Levels 0 to 3 get the name of the level with that value; any other integer gets "未知等级" |
| EventModels.GetNameAgrees | src/bilibili/model.py:108-111 | `get_name` of a level's value equals `name_cn` of the level, so both models render the same guard tag |
| EventModels.GetNameInjective | src/bilibili/model.py:31-37 | `get_name` tells the four levels apart from each other and from an unknown level |
| EventModels.ParseSendGift | src/bilibili/model.py:208-219 | A parsed gift is stamped with the current time; its room id is `int()` of `room_display_id`, and from `event["data"]["data"]` it copies the user id `uid`, the user name `uname`, `giftName`, the count `num` and the price `price`, the two values the gift threshold reads |
| UpdateChecker.ParseVersion | src/core/update_checker.py:42-57 | `parse_version` fails only with ValueError, and does so whenever the text after its leading 'v's does not start with a digit; the major number is the value of the leading digit run. `ParseVersionRegex` states the whole pattern |
| UpdateChecker.ParseVersionRegex | src/core/update_checker.py:52-57 | For every input: `parse_version` succeeds exactly when the text after the leading 'v's is three digit strings joined by dots, followed by text that does not start with a digit; the result is then the values of the three digit strings, leading zeros read away |
| UpdateChecker.ParseMatched | src/core/update_checker.py:52-57 | Text that the pattern matches after the 'v's parses to the values of its three groups |
| UpdateChecker.ParseOnlyMatched | src/core/update_checker.py:52-57 | `parse_version` succeeds only on text that the pattern matches after the 'v's |
| UpdateChecker.NumberOfDigits | src/core/update_checker.py:54 | `\d+` on a digit string followed by a non-digit reads the value of the whole digit string and leaves the rest |
| UpdateChecker.NumberDotOfDigits | src/core/update_checker.py:54 | `\d+\.` on a digit string and a dot reads its value and leaves what follows the dot |
| UpdateChecker.NumberParts | src/core/update_checker.py:54 | What `\d+` matched is a digit string, and the rest does not start with a digit |
| UpdateChecker.NumberDotParts | src/core/update_checker.py:54 | What `\d+\.` matched is a digit string and a dot |
| UpdateChecker.TwoGroupsRejected | src/core/update_checker.py:54-56 | Two digit strings joined by one dot, and nothing after them, raise ValueError |
| UpdateChecker.SecondGroupRejected | src/core/update_checker.py:54-56 | A digit string and a dot followed by no digit raise ValueError |
| UpdateChecker.TwoNumbersRejected | src/core/update_checker.py:55-56 | "1.2" raises ValueError |
| UpdateChecker.LetterGroupRejected | src/core/update_checker.py:55-56 | "1.x.3" raises ValueError |
| UpdateChecker.EmptyGroupRejected | src/core/update_checker.py:55-56 | "1..3" raises ValueError |
| UpdateChecker.LeadingZerosRead | src/core/update_checker.py:54-57 | "01.02.03" reads as 1.2.3 |
| UpdateChecker.OneTwoThree | src/core/update_checker.py:54-57 | "1.2.3" reads as 1.2.3 |
| UpdateChecker.SameAfterV | src/core/update_checker.py:52 | A parsable version and the same text behind a 'v' compare equal |
| UpdateChecker.DigitRun | src/core/update_checker.py:54 | The length of the leading run of digits: every character before it is a digit and the one after it, if any, is not |
| UpdateChecker.Number | src/core/update_checker.py:54 | `\d+` matches exactly when the text starts with a digit |
| UpdateChecker.NumberOfRendering | src/core/update_checker.py:54-57 | Reading a number from its decimal rendering, followed by a non-digit, gives the number and leaves the rest |
| UpdateChecker.NumberDotOfRendering | src/core/update_checker.py:54-57 | Reading `\d+\.` from a rendered number and a dot gives the number and what follows the dot |
| UpdateChecker.DigitRunOf | src/core/update_checker.py:54 | The digit run of a digit string followed by a non-digit is the whole digit string |
| UpdateChecker.ParseRendered | src/core/update_checker.py:42-57 | A rendered "MAJOR.MINOR.PATCH", followed by any text that does not continue the last number, parses back to the same triple |
| UpdateChecker.ParseOfParts | src/core/update_checker.py:52-57 | When stripping leaves the text and the three numbers match in turn, `parse_version` returns them |
| UpdateChecker.RenderParts | src/core/update_checker.py:54 | A rendered version followed by a suffix splits at its two dots into the three numbers and the suffix |
| UpdateChecker.NoLeadingV | src/core/update_checker.py:52 | Stripping 'v's leaves text that starts with a rendered number unchanged |
| UpdateChecker.ParseIgnoresV | src/core/update_checker.py:52 | A leading "v" does not change what `parse_version` reads |
| UpdateChecker.Compare | src/core/update_checker.py:75-79 | Tuple comparison gives 1, 0 or -1, and 0 exactly for equal triples |
| UpdateChecker.CompareOrder | src/core/update_checker.py:75-79 | Swapping the triples negates the answer, and "greater" is transitive |
| UpdateChecker.CompareVersions | src/core/update_checker.py:59-79 | Succeeds exactly when both strings parse (otherwise ValueError), and then compares the parsed triples |
| UpdateChecker.CompareVersionsAntisymmetric | src/core/update_checker.py:59-79 | Comparing the other way round gives the negated answer, and 0 exactly when both strings parse to the same triple |
| UpdateChecker.ComparedParsed | src/core/update_checker.py:59-79 | Two parsable versions compare as the triples they parse to |
| UpdateChecker.LeadingVExample | src/core/update_checker.py:46-52 | "v1.2.3" and "1.2.3" compare equal |
| UpdateChecker.SuffixExample | src/core/update_checker.py:54 | "3.0.0-beta" parses as 3.0.0, because the match is anchored only at the start |
| UpdateChecker.RenderedText | src/core/update_checker.py:54-57 | The renderings of 1.2.3 and of 3.0.0 followed by "-beta" are the example texts |
| UpdateChecker.CachedRelease | src/core/update_checker.py:150-155 | The release built from the cache carries the cached version and reads each of the three fields from the cached dict, "" when missing |
| UpdateChecker.FromCache | src/core/update_checker.py:126-160 | Each branch: nothing when no version is cached or the cached one is not newer; a truthy cached version that is not a string raises AttributeError, and one that does not parse raises ValueError; a newer one gives nothing without release information, raises AttributeError when that information is truthy but not a dict, and otherwise gives the version with the three fields read from it, each defaulting to "" |
| UpdateChecker.UpdateChecker.constructor | src/core/update_checker.py:176-180 | The checker starts from the loaded cache |
| UpdateChecker.UpdateChecker.CheckUpdate | src/core/update_checker.py:162-273 | Asks the API exactly when forced or an hour has passed, with `If-None-Match` only for a non-empty cached etag; 403, timeouts, network and other errors answer from the cache unchanged; 304 refreshes only the check time; an empty tag gives nothing; a fresh release is saved with its etag (or the old one), and it is the answer exactly when it is newer than the current version |
| GptSovits.BaseUrl | src/tts_service/gpt_sovits.py:21 | The base url always ends with "/": a url already ending in "/" is kept, any other gets one "/" appended |
| GptSovits.BaseUrlIdempotent | src/tts_service/gpt_sovits.py:21 | Normalising the base url twice changes nothing more |
| GptSovits.ApiKey | src/tts_service/gpt_sovits.py:46 | A normalised API name never starts with "/" |
| GptSovits.LeadingSlashIgnored | src/tts_service/gpt_sovits.py:46 | A leading "/" does not change the key an API name normalises to |
| GptSovits.PlainNameKept | src/tts_service/gpt_sovits.py:106 | "get_tts_wav" normalises to itself |
| GptSovits.SlashedNameMatches | src/tts_service/gpt_sovits.py:106 | "/get_tts_wav" normalises to "get_tts_wav", so both name the same API |
| GptSovits.DepEntrySpec | src/tts_service/gpt_sovits.py:43-48 | A dependency yields an entry only when it is a dict with a truthy `api_name`, keyed by the normalised name, with its position as the value when it has no `id`; a falsy dependency yields nothing |
| GptSovits.Entries | src/tts_service/gpt_sovits.py:43 | Every dependency gets its own entry, computed with its own position |
| GptSovits.LoadedKeepsOthers | src/tts_service/gpt_sovits.py:43-48 | A key no dependency yields keeps its earlier value in the function map |
| GptSovits.LoadedLastWins | src/tts_service/gpt_sovits.py:43-48 | After the loop a key maps to the value of the last dependency that yields it: later duplicates overwrite earlier ones |
| GptSovits.LoadedErrorSticks | src/tts_service/gpt_sovits.py:43-48 | A loop that ends without error had no error on the way |
| GptSovits.LoadedStopsUntil | src/tts_service/gpt_sovits.py:43-48 | Once a dependency raises, the table and the error stay as they were at that point |
| GptSovits.NoDependenciesNoEntries | src/tts_service/gpt_sovits.py:41 | A missing, None or empty dependency list adds nothing |
| GptSovits.IsFileData | src/tts_service/gpt_sovits.py:80-83 | Anything that is not a dict is not a FileData argument |
| GptSovits.ProcessOne | src/tts_service/gpt_sovits.py:80-100 | A FileData dict with a truthy, non-http(s) path is replaced by the uploaded path, its `orig_name` (or the last "/"-segment of the path) and FileData meta; every other argument passes unchanged |
| GptSovits.ProcessedSpec | src/tts_service/gpt_sovits.py:77-101 | Processing keeps length and order: entry `i` is argument `i` processed |
| GptSovits.ProcessedErrorSticks | src/tts_service/gpt_sovits.py:79-96 | The first failing upload ends processing with its error |
| GptSovits.Shorten | src/tts_service/gpt_sovits.py:118 | `text[:200]` is a prefix of the text of at most 200 characters |
| GptSovits.PredictResult | src/tts_service/gpt_sovits.py:115-122 | The prediction succeeds exactly for a 200 reply with a dict body whose `error` is falsy, and then returns its `data`; any other status raises with the status and the first 200 characters of the text |
| GptSovits.GradioClient.constructor | src/tts_service/gpt_sovits.py:20-25 | A new client has the normalised base url, no session and an empty function map |
| GptSovits.GradioClient.LoadConfig | src/tts_service/gpt_sovits.py:35-48 | The function map and the error, if any, are exactly those of the configuration specification; entries stored before a failing dependency stay |
| GptSovits.GradioClient.Ensure | src/tts_service/gpt_sovits.py:27-33 | Afterwards there is a session; an existing one is kept without loading again, and otherwise a new session is opened and the configuration loaded once |
| GptSovits.GradioClient.Close | src/tts_service/gpt_sovits.py:50-57 | Afterwards there is no session; an open one is closed once, and closing again does nothing |
| GptSovits.GradioClient.ProcessInputs | src/tts_service/gpt_sovits.py:77-101 | The loop computes exactly the processed arguments of the specification |
| GptSovits.GradioClient.Predict | src/tts_service/gpt_sovits.py:103-122 | After ensuring the session, an unknown API name raises before anything is sent; otherwise the processed inputs are posted to "api/predict/" with the function index and the millisecond clock as session hash, and the reply decides the result |
| Minimax.HexValue | src/tts_service/minimax.py:96 | A hex digit of either case stands for a value below 16 |
| Minimax.FromHex | src/tts_service/minimax.py:96 | `bytes.fromhex`: without white space, a decoded text has exactly two digits per byte; every failure is a ValueError |
| Minimax.InvalidDigitRejected | src/tts_service/minimax.py:96 | Any character that is neither a hex digit nor white space makes decoding fail |
| Minimax.OddLengthRejected | src/tts_service/minimax.py:96 | Text of odd length without white space has an unpaired digit and is rejected |
| Minimax.LowerHexDigit | src/tts_service/minimax.py:96 | The lowercase digit for a value below 16 decodes back to that value |
| Minimax.UpperHexDigit | src/tts_service/minimax.py:96 | The uppercase digit for a value below 16 decodes back to that value |
| Minimax.ToHex | src/tts_service/minimax.py:96 | The base16 text of n bytes has 2n digits |
| Minimax.FromHexRoundTrip | src/tts_service/minimax.py:96 | Decoding the base16 text of any bytes, in either case, gives the bytes back |
| Minimax.Tones | src/tts_service/minimax.py:62-64 | The pronunciation list has exactly one entry per alias |
| Minimax.SplitFirstOf | src/tts_service/minimax.py:64 | Splitting "k/v" at the first "/" gives back k and v when k has no "/" |
| Minimax.ToneRoundTrip | src/tts_service/minimax.py:62-64 | Entry `i` of the pronunciation list is alias `i` written "key/value", and it splits back into that alias when the key has no "/" |
| Minimax.AliasTexts | src/tts_service/minimax.py:62-64 | The loop builds the "key/value" entry of every alias, in map order |
| Minimax.AudioOf | src/tts_service/minimax.py:92-96 | A non-2xx status raises an HTTP status error. A body that fails `MinimaxTTSResponse` validation raises ValidationError: a non-dict body, a non-string `trace_id`, `audio_file`, `subtitle_file`, `audio` or `ced`, a non-integer `status` (ints, bools and integer strings pass), a non-dict `base_resp`, or a malformed `extra_info`. The audio is returned exactly when the body validates, `data` is present and its `audio` decodes as base16, and it is that decoding; `src/schema/minimax.py:57-75` holds the schema |
| Minimax.WrongTypedFieldRejected | src/schema/minimax.py:67 | An integer `trace_id` fails validation even when the audio itself is well formed |
| Minimax.AudioRoundTrip | src/tts_service/minimax.py:92-96 | Whatever audio the service encodes in base16, of either case, is what the service returns, with the status given in any form pydantic accepts as an integer |
| Minimax.HttpClient.constructor | src/tts_service/minimax.py:28-31 | A new HTTP client is open |
| Minimax.MinimaxService.constructor | src/tts_service/minimax.py:17-23 | The service keeps its url, key, voice and model, and has no client yet |
| Minimax.MinimaxService.GetClient | src/tts_service/minimax.py:25-32 | An open client is reused; a missing or closed one is replaced by a fresh open client |
| Minimax.MinimaxService.Close | src/tts_service/minimax.py:34-38 | Only an open client is closed and dropped; otherwise, and on a second close, nothing changes |
| Minimax.MinimaxService.TextToSpeech | src/tts_service/minimax.py:40-101 | The post carries the instance's model and voice id, the given speed, volume and pitch, tone equal to the alias list, and the bearer headers; the result is `AudioOf` of the reply, so the status check, the response validation and the base16 decoding above, and an open client remains |
| ConfigValidators.DictCorrect | src/core/qconfig.py:102-116 | A dict is kept as it is and anything else becomes `{}`, so the result always passes `validate` |
| ConfigValidators.DictCorrectIdempotent | src/core/qconfig.py:112-116 | Correcting a corrected value changes nothing |
| ConfigValidators.IntCorrect | src/core/qconfig.py:129-134 | `int(value)` when the conversion succeeds, and 0 when it raises ValueError or TypeError; `src/config/qconfig.py:49-54` is the same code in a second file, modelled by the same member |
| ConfigValidators.IntCorrectValid | src/core/qconfig.py:119-134 | Every corrected value passes `validate`, which is `isinstance(value, int)`; `src/config/qconfig.py:39-54` is the same code in a second file, modelled by the same member |
| ConfigValidators.IntCorrectKeepsInts | src/core/qconfig.py:129-134 | An int is kept, and correcting twice is correcting once |
| ConfigValidators.IntCorrectUnderscores | src/core/qconfig.py:131-132 | `int()` accepts an underscore between digit groups, so "1_000" is corrected to 1000; `src/config/qconfig.py:49-52` is the same code in a second file |
| PyStr.ParseInt | src/core/qconfig.py:132 | `int()` of a text: a digit string reads as its decimal value, and digit groups joined by single underscores read as the digits without them |
| PyStr.UnderscoreIgnored | src/core/qconfig.py:132 | Joining two digit runs with an underscore does not change the number `int()` reads |
| ConfigValidators.IntCorrectCases | src/core/qconfig.py:129-134 | A string of decimal digits becomes its value, a bool becomes 0 or 1, and None, lists and dicts become 0 |
| ConfigValidators.Options | src/core/qconfig.py:144 | The options are the indices of the devices `get_output_devices` lists, in order, and fail exactly when that listing fails |
| ConfigValidators.OptionsAreOutputDevices | src/core/qconfig.py:144 | Every option indexes a device of the table that has output channels |
| ConfigValidators.NewOutputDeviceValidator | src/core/qconfig.py:143-144 | Making the validator lists the devices once; a listing error propagates |
| ConfigValidators.OutputDeviceValidator.constructor | src/core/qconfig.py:143-144 | The validator holds the given options |
| ConfigValidators.OutputDeviceValidator.Validate | src/core/qconfig.py:146-158 | The options are reloaded from the current table, and the answer is whether the value is one of them; a listing error propagates and keeps the old options |
| ConfigValidators.OutputDeviceValidator.Correct | src/core/qconfig.py:160-170 | An accepted value is kept; otherwise the first refreshed option is returned, or IndexError when there is none; any value returned passes `validate` |
| ConfigValidators.VoiceIds | src/core/qconfig.py:192-193 | Success gives one id per voice record, in order; a failure is the error of some record's `voice_id` subscript |
| ConfigValidators.VoiceIdsFirstError | src/core/qconfig.py:192-193 | The first record without a `voice_id` decides the error |
| ConfigValidators.CollectVoiceIds | src/core/qconfig.py:189-193 | The append loop computes exactly `VoiceIds` |
| ConfigValidators.VoicesNeverEmpty | src/core/qconfig.py:183-196 | `get_voices` never returns an empty list |
| ConfigValidators.VoicesInOrder | src/core/qconfig.py:183-196 | A successful reply whose `voice_cloning` lists records gives their ids, in order |
| ConfigValidators.GetVoices | src/core/qconfig.py:173-196 | A status error gives the single error id, a body that is not JSON raises, a reply without voices gives the error id, and otherwise the ids; the result is never empty |
| MessageDisplay.LastN | src/gui/components/message_display_card.py:26 | A `deque` with a maximum length n holds the last n elements appended, in order, or all of them when fewer arrived |
| MessageDisplay.LastNAppend | src/gui/components/message_display_card.py:55-57 | Appending to the bounded buffer holds the same as bounding the whole arrival history, so nothing the buffer should keep was lost earlier |
| MessageDisplay.AppendDropsOldest | src/gui/components/message_display_card.py:54-57 | With room to spare an append keeps everything; a full buffer drops exactly its oldest entry |
| MessageDisplay.Entry | src/gui/components/message_display_card.py:56 | The entry is "[", the timestamp, "]:", then the message, each at its own position |
| MessageDisplay.MessageDisplayCard.constructor | src/gui/components/message_display_card.py:17-28 | The card has `max_lines` blank labels and an empty buffer |
| MessageDisplay.MessageDisplayCard.UpdateDisplay | src/gui/components/message_display_card.py:67-74 | Label i shows message i, and every label past the last message is blank |
| MessageDisplay.MessageDisplayCard.AddMessage | src/gui/components/message_display_card.py:48-60 | The stamped entry is appended, the buffer keeps the last `max_lines` entries that arrived, and the labels show it |
| MessageDisplay.MessageDisplayCard.ClearMessages | src/gui/components/message_display_card.py:62-65 | The buffer empties and every label is blank |
| DanmakuControl.Line | src/gui/view/danmaku_control_card.py:143-146 | A line is "timestamp user: message" when there is a timestamp, and "user: message" otherwise |
| DanmakuControl.LineEndsWithMessage | src/gui/view/danmaku_control_card.py:143-146 | Either form ends with the user name, ": " and the message |
| DanmakuControl.Added | src/gui/view/danmaku_control_card.py:148-156 | Below 100 items the line is appended; at 100 or more the first item goes as the line is appended |
| DanmakuControl.AddedKeepsNewest | src/gui/view/danmaku_control_card.py:149-156 | A list of at most 100 items stays at most 100 and holds the newest 100 of its items and the new line |
| DanmakuControl.DanmakuControlCard.constructor | src/gui/view/danmaku_control_card.py:27-31 | A new card is idle, shows "disconnected", enables only start, and has no items |
| DanmakuControl.DanmakuControlCard.UpdateStatus | src/gui/view/danmaku_control_card.py:122-133 | The label shows the given state; start is enabled exactly when disconnected and stop exactly when connected |
| DanmakuControl.DanmakuControlCard.OnStartListening | src/gui/view/danmaku_control_card.py:103-107 | Start is emitted and the card is listening, with the display to match |
| DanmakuControl.DanmakuControlCard.OnStopListening | src/gui/view/danmaku_control_card.py:109-113 | Stop is emitted and the card is idle, with the display to match |
| DanmakuControl.DanmakuControlCard.OnReconnect | src/gui/view/danmaku_control_card.py:115-120 | Only while listening: stop is emitted and start is scheduled after 500 ms; the listening flag never changes |
| DanmakuControl.DanmakuControlCard.SetConnected | src/gui/view/danmaku_control_card.py:162-169 | The flag and the display take the given state, and nothing is emitted |
| DanmakuControl.DanmakuControlCard.AddDanmaku | src/gui/view/danmaku_control_card.py:135-156 | The list becomes `Added` of the old list and the line; nothing else changes |
| DanmakuControl.DanmakuControlCard.ClearDanmaku | src/gui/view/danmaku_control_card.py:158-160 | The list empties; nothing else changes |
| IntSetting.AfterText | src/gui/components/int_setting_card.py:62-76 | Digit text stores its value, which is at least 0, and shows that value's decimal digits; any other text leaves the value and the text as they were |
| IntSetting.LeadingZerosDropped | src/gui/components/int_setting_card.py:62-76 | Entering "007" stores 7 and shows "7" |
| IntSetting.CanonicalTextFixed | src/gui/components/int_setting_card.py:62-76 | Processing the text the card wrote changes nothing, since `int(str(v)) == v` |
| IntSetting.SetValueEmits | src/gui/components/int_setting_card.py:69-76 | `setValue(v)` emits `v` once through the slot exactly when the box's text changes and `v` is at least 0, and emits nothing otherwise |
| IntSetting.SlotEmits | src/gui/components/int_setting_card.py:62-67 | The slot emits nothing for non-digit text; for digit text it emits what its `setValue` emits, then the value once more |
| IntSetting.TypedTextEmits | src/gui/components/int_setting_card.py:62-76 | Typed digit text emits its value twice exactly when it has a leading zero, and once otherwise |
| IntSetting.LeadingZerosEmitTwice | src/gui/components/int_setting_card.py:62-76 | Typing "007" emits 7 twice, and typing "7" emits it once |
| IntSetting.NonCanonicalIffLeadingZero | src/gui/components/int_setting_card.py:64-76 | Digit text differs from `str(int(text))` exactly when it has more than one digit and starts with '0' |
| IntSetting.IntSettingCard.constructor | src/gui/components/int_setting_card.py:48 | The box shows the decimal rendering of the configured value; nothing runs or is emitted, because the slots are connected afterwards |
| IntSetting.IntSettingCard.SetValue | src/gui/components/int_setting_card.py:69-76 | The configuration holds the value and the box shows `str(value)`. Storing a new value runs `setValue` again through the item's signal, and the text change runs the slot, so `v` is emitted once exactly when the text changed and `v` is at least 0 (`SetValueEmits`) |
| IntSetting.IntSettingCard.SetText | src/gui/components/int_setting_card.py:60 | `setText` with the same text does nothing; a new text runs the slot on it before returning, so the state follows `AfterText` and the emissions follow `SlotEmits` |
| IntSetting.IntSettingCard.OnTextChanged | src/gui/components/int_setting_card.py:62-67 | The state follows `AfterText`; the emissions follow `SlotEmits`, so digit text emits its value once, or twice when the box showed other text than `str(value)`, and other text emits nothing |
| GiftMerging.AddToGroups | src/bilibili/gift_merger.py:95-135 | The table gains the gift's (user, gift) key and every other group is left as it was |
| GiftMerging.SeparateKeys | src/bilibili/gift_merger.py:104-106 | A gift never changes the group of another user or another gift name |
| GiftMerging.FirstGiftOpensGroup | src/bilibili/gift_merger.py:106-114 | A first gift opens a group with its own count, the initial window, and creation and update times both now |
| GiftMerging.RepeatGiftGrowsWindow | src/bilibili/gift_merger.py:119-130 | A repeat gift adds its count, moves the update time to now and keeps the creation time; the window grows by the increment but never passes the maximum, and it never shrinks when the increment is non-negative and the window was within the maximum |
| GiftMerging.AddKeepsWindowsBounded | src/bilibili/gift_merger.py:106-130 | With initial ≤ max and a non-negative increment, every window stays between the initial window and the maximum |
| GiftMerging.Flushes | src/bilibili/gift_merger.py:159-161 | Flushing a list of keys announces at most one gift per key |
| GiftMerging.WorkedExample | src/bilibili/gift_merger.py:95-157 | Three gifts of 1, 2 and 3 at 0, 1 and 2.5 s, with a 2 s window, a 1 s increment and a 5 s maximum, leave one group with total 6 and window 4 s; it is due exactly from 6.5 s on |
| GiftMerging.WorkedExampleAnnouncement | src/bilibili/gift_merger.py:163-201 | Flushing that group announces the user's gift with count 6 |
| GiftMerging.GiftMerger.constructor | src/bilibili/gift_merger.py:54-65 | A new merger has no groups, no announcements and a stopped timer |
| GiftMerging.GiftMerger.Start | src/bilibili/gift_merger.py:67-74 | The timer runs afterwards, and nothing else changes |
| GiftMerging.GiftMerger.Stop | src/bilibili/gift_merger.py:76-80 | The timer is stopped afterwards, and nothing else changes |
| GiftMerging.GiftMerger.ProcessSingleGift | src/bilibili/gift_merger.py:189-209 | Exactly one announcement is added: the gift with the template rendered from its user name, gift name and count; it is emitted before the speech call, whose outcome is returned, so a raising speech call still leaves the announcement |
| GiftMerging.GiftMerger.AddToUserGiftGroup | src/bilibili/gift_merger.py:95-135 | The table becomes `AddToGroups` of the old one, each group's total stays the sum of every count merged into it, and nothing is announced; a new key goes last in the dict's key order and a repeat keeps its place |
| GiftMerging.GiftMerger.OpenGroup | src/bilibili/gift_merger.py:106-114 | A first gift inserts its group last in the table, with its own count, the initial window and both times now |
| GiftMerging.GiftMerger.MergeRepeat | src/bilibili/gift_merger.py:119-130 | A repeat gift updates its group in place (`Grown`), keeping the key order and adding its count to those merged into the group |
| GiftMerging.GiftMerger.AddGift | src/bilibili/gift_merger.py:82-93 | With merging on the gift is merged silently: a new (user, gift) key goes last in the dict's key order, a repeat keeps its place, and the group's total is the sum of the counts merged into it; with merging off the gift is announced at once with its own count and the table is unchanged |
| GiftMerging.GiftMerger.ProcessUserGiftGroup | src/bilibili/gift_merger.py:163-187 | An absent key changes nothing; a present group is popped from the table and from the key order and announced once, under its user and gift names, with the sum of every count merged into it; the speech outcome is returned |
| GiftMerging.GiftMerger.DueKeys | src/bilibili/gift_merger.py:150-157 | The first loop of the tick collects the keys `DueIn` the table's insertion order: the due keys, in dict order |
| GiftMerging.DueInSpec | src/bilibili/gift_merger.py:150-157 | When the key order lists every key of the table once, the keys collected are distinct and are exactly those whose quiet time has reached their window |
| GiftMerging.DueInMembers | src/bilibili/gift_merger.py:150-157 | A key is collected exactly when it is listed, has a group and that group is due; listed once means collected at most once |
| GiftMerging.WithoutSpec | src/bilibili/gift_merger.py:175 | Popping keys from an insertion-ordered dict keeps every other key once, in its old relative order |
| GiftMerging.WithoutMore | src/bilibili/gift_merger.py:175 | Popping one more key from the remaining order is the same as popping the enlarged set from the original order |
| GiftMerging.GiftMerger.FlushKeys | src/bilibili/gift_merger.py:159-161 | The listed groups are removed and announced in list order until a speech call raises; that error ends the loop, the groups of the later keys stay in the table, and the key order loses exactly the flushed keys |
| GiftMerging.GiftMerger.FlushDue | src/bilibili/gift_merger.py:147-161 | Both loops of the tick: the flushed keys are a prefix of the due keys in dict order, all of them exactly when every speech call succeeds, and a raise is the error of the last flushed key's speech call |
| GiftMerging.GiftMerger.FlushNext | src/bilibili/gift_merger.py:160-161 | One pass of the flush loop removes the next listed group from the table and appends its announcement to those before |
| GiftMerging.RemoveNext | src/bilibili/gift_merger.py:160-161 | The next listed key is still in the table and unchanged there, and removing it takes it out of what is left |
| GiftMerging.FlushesStep | src/bilibili/gift_merger.py:160-161 | The announcements of the first `i + 1` keys are those of the first `i` followed by that of key `i` |
| GiftMerging.GiftMerger.CheckGiftGroups | src/bilibili/gift_merger.py:137-161 | With merging off nothing happens. With it on, the due groups are flushed in the dict's insertion order, each once, until a speech call raises: on success the flushed keys are exactly the due ones; on a raise they are a prefix of them ending at the failing one, and the later due groups stay for the next tick. The table and key order lose exactly the flushed keys, and the announcements are those of the flushed groups in that order |
| GiftMerging.GiftMerger.ClearAll | src/bilibili/gift_merger.py:211-218 | Every group is dropped and nothing is announced |
| RowEditor.Pairs | src/gui/components/dict_edit_card.py:122-128 | Row i reads as its stripped key text and stripped value text, one pair per row in order; `src/gui/components/alias_dict_card.py:91-97` is the same code in a second file, modelled by the same member |
| RowEditor.IndexOf | src/gui/components/dict_edit_card.py:244 | `item in self.dict_items`: a position is found exactly when a row has that identity, and it is that row's position |
| RowEditor.SavedStep | src/gui/components/dict_edit_card.py:280-284 | One pass of the save loop stores the next row exactly when its key and value are both non-empty |
| RowEditor.SavedLookup | src/gui/components/dict_edit_card.py:279-284 | Looking a key up in the saved dict gives the value of the last kept row with that key |
| RowEditor.LastKeptAt | src/gui/components/dict_edit_card.py:283-284 | With no later kept row for the key, the last kept row is the given one |
| RowEditor.LastKeptNone | src/gui/components/dict_edit_card.py:283-284 | A key none of whose rows is kept has no last kept row |
| RowEditor.SavedSpec | src/gui/components/dict_edit_card.py:273-287 | A key with a kept row is saved with the value of its last kept row, so a later duplicate wins; `src/gui/components/alias_dict_card.py:210-224` is the same code in a second file, modelled by the same member |
| RowEditor.SavedSpecAbsent | src/gui/components/dict_edit_card.py:273-287 | A key with no row whose stripped key and value are both non-empty is not saved; `src/gui/components/alias_dict_card.py:210-224` is the same code in a second file, modelled by the same member |
| RowEditor.Loaded | src/gui/components/dict_edit_card.py:195-200 | Loading makes one row per entry, in dict order, or one blank row for an empty dict, so never no rows |
| RowEditor.StripAll | src/gui/components/dict_edit_card.py:122-128 | Each loaded pair reads back with its key and value stripped |
| RowEditor.SavedAllKept | src/gui/components/dict_edit_card.py:279-284 | Rows that are all kept and have distinct keys are saved as exactly that dict, in order |
| RowEditor.LoadSaveIdentity | src/gui/components/dict_edit_card.py:186-203 | Loading a dict with non-empty, already-stripped entries and saving it again gives the same dict; `src/gui/components/alias_dict_card.py:131-148` is the same code in a second file, modelled by the same member |
| RowEditor.RemoveKeepsUnique | src/gui/components/dict_edit_card.py:245 | `list.remove` of a row leaves the identities unique and none of them the removed one |
| RowEditor.CfgSet | src/gui/components/dict_edit_card.py:287 | `cfg.set` stores nothing when the new dict equals the stored one as a Python dict, whatever the order; afterwards the stored mapping is always the new one; `src/gui/components/alias_dict_card.py:224` is the same call |
| RowEditor.NonEmptyDiffers | src/gui/components/dict_edit_card.py:287 | A dict with a key never equals `{}`, so saving an empty dict always leaves `{}` stored |
| RowEditor.ReorderedSaveKeepsOrder | src/gui/components/dict_edit_card.py:279-287 | Rows `b:2, a:1` saved over the stored `{a: 1, b: 2}` leave the stored order a, b |
| RowEditor.CollectKept | src/gui/components/dict_edit_card.py:277-284 | The loop builds exactly `Saved` of the pairs; `src/gui/components/alias_dict_card.py:216-222` is the same code in a second file |
| RowEditor.DictEditCard.constructor | src/gui/components/dict_edit_card.py:147-184 | A new card loads the configured dict; `src/gui/components/alias_dict_card.py:116-129` is the same code in a second file, modelled by the same member |
| RowEditor.DictEditCard.AddRow | src/gui/components/dict_edit_card.py:205-227 | A new row with the given texts and a fresh identity is appended; the configuration is not touched; `src/gui/components/alias_dict_card.py:150-164` is the same code in a second file, modelled by the same member |
| RowEditor.DictEditCard.LoadDict | src/gui/components/dict_edit_card.py:186-203 | The rows read as the stripped `Loaded` pairs of the configured dict, they are never empty, and their buttons are set; `src/gui/components/alias_dict_card.py:131-148` is the same code in a second file, modelled by the same member |
| RowEditor.DictEditCard.UpdateButtonStates | src/gui/components/dict_edit_card.py:262-271 | Only the last row shows "add", every row shows "delete" exactly when there is more than one, and nothing else about the rows changes; `src/gui/components/alias_dict_card.py:199-208` is the same code in a second file, modelled by the same member |
| RowEditor.DictEditCard.SaveToConfig | src/gui/components/dict_edit_card.py:273-287 | `cfg.set` of `Saved` of the rows' stripped pairs: when the stored dict already has the same mapping it is kept as it was, order included; otherwise it becomes the new dict. The rows are untouched; `src/gui/components/alias_dict_card.py:210-224` is the same code in a second file, modelled by the same member |
| RowEditor.DictEditCard.OnAddItem | src/gui/components/dict_edit_card.py:229-236 | One blank row is added at the end, the other rows keep their identities, and the dict of the new rows is saved through `CfgSet`; `src/gui/components/alias_dict_card.py:166-173` is the same code in a second file, modelled by the same member |
| RowEditor.DictEditCard.OnDeleteItem | src/gui/components/dict_edit_card.py:238-256 | A row not on the card changes nothing and saves nothing; a present row is removed and the rest saved through `CfgSet`; deleting the only row leaves one blank row and an empty dict; `src/gui/components/alias_dict_card.py:175-193` is the same code in a second file, modelled by the same member |
| RowEditor.DictEditCard.DeleteAt | src/gui/components/dict_edit_card.py:245-256 | Removing the row at a position keeps the card valid, saves the remaining rows through `CfgSet`, and leaves one blank row with a fresh identity when it was the last |
| RowEditor.DictEditCard.RemoveRow | src/gui/components/dict_edit_card.py:245-251 | The row is dropped and the others keep their order; an emptied card gets one blank row; the removed identity is gone and the identities stay unique |
| RowEditor.DictEditCard.OnValueChanged | src/gui/components/dict_edit_card.py:258-260 | After a row's texts are edited, the dict of the current rows is saved through `CfgSet`; `src/gui/components/alias_dict_card.py:195-197` is the same code in a second file, modelled by the same member |

## Left out

- Concurrency: asyncio tasks, queue suspension, `asyncio.to_thread`, Qt timers and `QTimer.singleShot` become sequential calls. A task is a handle with a cancelled flag. Interleavings of concurrent handlers are not modelled.
- Foreign libraries: pyaudio, sounddevice, `wave`, pydub, bilibili_api, httpx, aiohttp, PySide6 and qfluentwidgets widgets. Their effects are inputs (device tables, status codes, replies) or recorded outputs (written chunks, emitted signals).
- Widgets: the GUI cards keep their list and state logic. Row widgets are values with an identity. A label, button or list widget is a field. Layout and styling are left out.
- IntSetting.IntSettingCard.SetText: the box's `QIntValidator` is not modelled, so the slot may receive any text, not only what the validator lets a user type. Writing the configuration file in `qconfig.set` is not modelled either. Nothing in the model listens to the card's `valueChanged`.
- Characters: `str.isdigit`, the regular expression `\d` and `int()` of a text are modelled on ASCII digits. The Unicode digits Python also accepts are not. `str.lower` lowers the ASCII letters only.
- `repr` escaping in log and display strings is not modelled.
- pydantic: the program does not validate assigned fields. Each `parse` builds an empty model and assigns its attributes, and no model turns on assignment validation. The model treats a payload value of the wrong JSON type as an error, where the program would store it and carry on, for example announcing an integer `info[1]` as the message.
- BiliService.OnSendGift: the threshold test `gift_price / 1000 * gift_num < threshold` is computed exactly, whereas the program computes it in IEEE double precision. Where `price * num == threshold * 1000` the float product can round below the threshold: for price 290, count 100 and threshold 29 the program computes 28.999999999999996 and drops the gift, while the model announces it.
- BiliService.BelowThresholdInMilli: the equivalence with `price * num < threshold * 1000` holds in exact arithmetic only; the program's float test differs from it at equality, as in the example above.
- Floating point: floats, float slider scaling and the speed/volume/pitch bounds are left out. Times and windows are integer milliseconds, and JSON has no float values.
- ConfigValidators.IntCorrect: `int()` of a float, which truncates, is not modelled, because JSON values here have no floats. `int()` of a text with non-ASCII decimal digits (such as full-width "１２") is a ValueError in the model, corrected to 0, where the program reads the number. Underscore-grouped digits are modelled.
- Minimax.AudioOf: pydantic's own parsing of a string into an `int` or `float` field is approximated by the `int()` rules. Strings it also accepts, such as "200.0" for `status` or "1.5" for `audio_length`, are a ValidationError in the model. Float values are not represented at all. Model instances passed in place of dicts do not arise from `response.json()`.
- Minimax.MinimaxService.TextToSpeech: its result is `Minimax.AudioOf`, so it carries the same approximation of pydantic's string parsing.
- MessageDisplay.MessageDisplayCard.constructor: a negative `max_lines`, for which `deque` raises ValueError, cannot be passed, because the size is a natural number.
- The `cfg` global: every switch, threshold, template, window and room id is a parameter of the call that reads it.
- Network and files: HTTP transport, `json.loads`, cookie and cache files, and the version file are parameters or results of the calls. Unlinking the cookie file in `logout` is not modelled.
- `str.format` is not interpreted: a rendered text is the template with its named fields.
- Audio decoding: the `wave` and pydub decoding of TTS replies is not modelled. The players receive raw bytes.
- `close()` of the players, which terminates the audio backend, is not modelled.
- `print_output_devices` is console output and is not modelled.
- GPTSovitsService (`__init__` and `text_to_speech` with its `@retry` policy) is not modelled. Only the Gradio client under it is.
- `GradioClient._upload_file` is not modelled. File inputs are rewritten through a function passed in.
- The OnlineCount, RoomBlockMsg and AnchorLot event models are not modelled, because no handler of the core reads them.
- `get_self_info` is a network fetch and is not modelled.
- BiliService.Service.Run: like the program, it does not cancel a run task left by an earlier `run`.
- The login panel, the float range card, the entry points and the web UI are not modelled. They are network, widget or floating-point code.

## Findings

| source | as written | input that shows it | evidently intended | confidence | as-written member | corrected member |
|---|---|---|---|---|---|---|
| src/bilibili/bili_service.py:161-173 | `run` creates and starts the status timer only when none exists; `stop` stops the timer but keeps it | `run`, then `stop`, then `run`: the second `run` finds the stopped timer and does not start it, so the room liveness check never runs again | every `run` leaves the status timer running | not executed | BiliService.StopThenRunAsWrittenLeavesTimerStopped | BiliService.RunAfterStopRestartsTimer |

`BiliService.Service.Run` and `BiliService.Service.Connect` take the timer step as written (`BiliService.TimerAfterRunAsWritten`). `BiliService.TimerAfterRun` is the corrected step; the service does not use it.
