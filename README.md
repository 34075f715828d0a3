# Guardian core in Dafny

Guardian is a Windows background assistant. It records the microphone, the
screen and the keyboard. It sends each audio chunk, screenshot and keystroke
log to OpenRouter for a transcription or an analysis, and appends the answers
to per-day text logs. Once a day it asks for a summary of those logs, saves
it, e-mails it and backs it up to Google Drive. It pauses its recorders while
the machine sleeps or the session is locked.

This project models the sequential logic between those foreign calls and
proves what it does. Every foreign call becomes a parameter:

- OpenRouter, SMTP and the Drive service;
- the clock and the disk;
- the window title and the screen grab;
- the key events and the Win32 messages.

One Dafny module per source file:

| module | file | models |
|---|---|---|
| `Wrappers`, `Strings`, `Files`, `Work` | (shared) | the `Option` and `Result` types; string operations with Python's semantics; the disk as a map from path to content, with append, overwrite and delete; the tagged day-log records of the workers |
| `Helpers` | src/utils/helpers.py | `safe_filename`, `format_duration` on whole seconds, the day, month and time-stamp formats |
| `PyText` | (shared) | Python's `str()` and `repr()` of a parsed setting, wherever the source interpolates one into text |
| `Config` | src/config_manager.py | dotted `get`, `_validate`, `get_path`, `is_enabled`, `_load`, `reload` and the `get_config` singleton, over an already-parsed YAML tree |
| `Models` | src/api/models.py | the model catalogue, `get_model_info`'s merge precedence and `list_models_by_type` |
| `OpenRouter` | src/api/openrouter_client.py | headers, response classification, MIME tables, Whisper routing, the request payloads and the `test_connection` verdict |
| `Email` | src/delivery/email_sender.py | `_markdown_to_html` and the gating of `send`, `send_daily_summary` and `send_error_alert` |
| `KeyboardRecorder` | src/keyboard/recorder.py | the key-to-text mapping, the keystroke buffer, `save_buffer`, one wake-up of `_save_loop`, and the lifecycle flags |
| `Transcriber`, `ScreenAnalyzer`, `KeyboardAnalyzer` | src/audio/transcriber.py, src/screen/analyzer.py, src/keyboard/analyzer.py | the FIFO work queues, one worker step, and the drain loop proved against a specification of the whole run |
| `ScreenCapture` | src/screen/capture.py | the privacy check, monitor selection, screenshot naming, one capture tick, `capture_once` and the flags |
| `Summary` | src/summary/generator.py | the "nothing captured" sentinel, the section assembly, the single summariser call and the overwriting save |
| `Power` | src/system/power_monitor.py | message dispatch, the callback table and the flags |
| `Scheduler` | src/system/scheduler.py | the callback table, `run_now`, the times the `schedule` library accepts, and the job table that `start` fills and `stop` clears |
| `Drive` | src/storage/drive_manager.py | the folder cache, the day-folder chain, uploads and their gating, and the retention sweep, over an abstract table of remote entries |
| `Assistant` | src/main.py | `setup`, the start and stop order, the callbacks between modules, the pause and resume fan-out, the daily summary and the clean-up |

Where the design description of the project and the code disagree, the model
follows the code:

- The daily summary concatenates the transcripts, screen analyses and
  keyboard analyses in that fixed order. It does not interleave them by
  time stamp (src/summary/generator.py:83-97).
- Wake and unlock resume every recorder unconditionally, so after any run of
  power events the last one decides whether a recorder is paused. A wake
  during a locked session resumes capture; a suspend followed by a resume is
  not a transparent round trip (src/main.py:188-222, `Assistant.LastEventWins`).
- A failed enrichment drops the item. It is neither retried nor requeued,
  and the queues are unbounded (src/audio/transcriber.py:37-47).
- The screen analyzer deletes the screenshot after a successful analysis
  even when saving that analysis failed (src/screen/analyzer.py:60-63).

## Model

| member | source | states |
|---|---|---|
| Helpers.SafeFilenameChars | src/utils/helpers.py:52-65 | `safe_filename` keeps the length, turns each of the nine invalid characters into `_` and leaves every other character as it was |
| Helpers.SafeFilenameClean | src/utils/helpers.py:62-65 | the output of `safe_filename` holds none of the invalid characters, and sanitising twice equals sanitising once |
| Helpers.ReplaceEachChars | src/utils/helpers.py:63-64 | the loop of whole-string replacements over the invalid characters acts as one per-character map |
| Helpers.DurationDecomposes | src/utils/helpers.py:95-97 | hours, minutes and seconds (div and mod by 3600 and 60) recombine to the duration, with minutes and seconds below 60 |
| Helpers.DurationPartsSum | src/utils/helpers.py:99-105 | the parts list is never empty, no part holds a space, and the parts add up to the duration |
| Helpers.FormatDurationRoundTrip | src/utils/helpers.py:85-107 | reading the formatted duration back gives the number of whole seconds |
| Helpers.FormatDurationZero | src/utils/helpers.py:104-105 | zero seconds is shown as "0s" |
| Helpers.FormatDurationHour | src/utils/helpers.py:100-107 | zero parts are dropped: 3600 is shown as "1h" |
| Helpers.AllParts | src/utils/helpers.py:99-107 | with all three parts non-zero the text is hours "h", minutes "m", seconds "s", space-separated in that order |
| Helpers.FormatDurationFull | src/utils/helpers.py:93 | 5445 seconds is shown as "1h 30m 45s" |
| Helpers.PadValue | src/utils/helpers.py:19 | a zero-padded field is all digits and reads back to its number |
| Helpers.PadOrder | src/utils/helpers.py:19 | fields zero-padded to one width compare as strings exactly as their numbers compare |
| Helpers.DayFolderFormat | src/utils/helpers.py:17-24 | the day folder is "YYYY-MM-DD" (ten characters, dashes at 4 and 7) and reads back to its date; the month folder is its first seven characters |
| PyText.Render | src/api/openrouter_client.py:72 | `str()` of a string is the string itself, of `None` "None", of a number its decimal digits |
| PyText.ReprPlain | src/api/openrouter_client.py:72 | `repr()` of text with no quote, backslash or control character is that text in single quotes |
| PyText.RenderDefined | src/api/openrouter_client.py:72 | every value has a `str()` text except one holding a mapping of two or more entries |
| PyText.RenderList | src/api/openrouter_client.py:72 | `str(['key'])` is "['key']" |
| Helpers.DayFolderOrder | src/utils/helpers.py:17-19 | day folders compare as strings exactly in calendar order |
| Helpers.FileStampFormat | src/screen/capture.py:118 | "HHhMMmSSs" is nine characters with `h`, `m`, `s` at 2, 5 and 8 and reads back to its time |
| Helpers.ClockFormats | src/utils/helpers.py:27-29 | "HHhMM" is the first five characters of the file stamp; "HH:MM:SS" holds the same zero-padded fields |
| Helpers.DatetimeStampFormat | src/utils/helpers.py:32-34 | "YYYY-MM-DD_HHhMMmSSs" is twenty characters: the day folder, `_` at 10, then the file stamp; the day and the clock read back from the two halves |
| Files.NameStemSuffix | src/audio/transcriber.py:55 | a file name splits into its stem followed by its suffix; a non-empty suffix is one dot and a dot-free extension |
| Files.NameSuffixOf | src/storage/drive_manager.py:197 | a name "stem.ext" with a non-empty stem and a dot-free extension has suffix ".ext" |
| Files.Appended | src/audio/transcriber.py:54-55 | opening a file for append adds the text at the end of that file, creating it when missing, and leaves every other file as it was |
| Files.ReadAppended | src/audio/transcriber.py:54-55 | after an append, reading any path gives its old content plus the text when it is the appended path, and the old content otherwise |
| Files.Disk.Append | src/keyboard/recorder.py:95-96 | the disk after an append is `Appended` of the disk before |
| Files.Disk.Write | src/summary/generator.py:120 | `write_text` replaces the file's content with the text and changes nothing else |
| Files.Disk.Remove | src/screen/analyzer.py:92-96 | deleting a file removes that path only, and a missing file stays missing |
| Work.TaggedRoundTrip | src/audio/transcriber.py:55 | a record "\n[tag]\ntext\n" reads back to its tag and its text whenever the tag has no "]" |
| Work.DayLogInjective | src/audio/transcriber.py:51-52 | two different days never share a per-day log file |
| Work.Stems | src/audio/transcriber.py:55 | the record tags of a run of files are their stems, position by position |
| Models.Merge3Precedence | src/api/models.py:94-99 | the `{**a, **b, **c}` merge holds exactly the keys of the three tables, each with its value from the last table that has it |
| Models.GetModelInfoPrecedence | src/api/models.py:84-99 | `get_model_info` takes the text table first, then the vision table, then the transcription table, and gives `None` for an id in none of them |
| Models.SharedIdReportsText | src/api/models.py:47-61 | "openai/gpt-4o-mini", listed as both a vision and a text model, reports the text entry "Melhor custo-benefício para resumos" |
| Models.CatalogueCoversTypes | src/api/models.py:102-117 | an id has information exactly when one of the three typed listings holds it, and any other type name lists nothing |
| Config.LookupConcat | src/config_manager.py:92-98 | following the segments `a` and then `b` is following `a + b`: traversal is one nested mapping per segment |
| Config.LookupPastLeaf | src/config_manager.py:95-100 | once traversal reaches a value that is not a mapping, any further segment fails (the caught `TypeError`) |
| Config.GetFollowsSegments | src/config_manager.py:77-100 | `get` on a dotted key gives the value reached by following its segments, and `default` when a segment is missing or traversal meets a non-mapping |
| Config.SettingIsGet | src/config_manager.py:92-100 | reading a setting by its segment list is `get` on the dotted key |
| Config.GetNest | src/config_manager.py:92-98 | whatever is nested under a dotted key is what `get` gives back for it |
| Config.GetMissing | src/config_manager.py:95-100 | a key whose first segment is absent, or a document that is not a mapping, gives the default |
| Config.ProblemsIff | src/config_manager.py:66-73 | there are no error lines exactly when every listed key is present, not None, not "" and (for the API key) not the placeholder; at most one line per key |
| Config.ValidationErrorIff | src/config_manager.py:57-75 | `_validate` raises exactly when one of the four required keys is unacceptable |
| Config.ProblemsPrefix | src/config_manager.py:67-73 | the error lines keep the order of the key list: the lines of a prefix open the lines of the whole list |
| Config.PlaceholderReported | src/config_manager.py:71-72 | a placeholder API key gets its own line, and that line opens the message |
| Config.GetPath | src/config_manager.py:102-121 | `get_path` gives a path other than `Path(default)` only when the value read is truthy |
| Config.GetPathCases | src/config_manager.py:113-121 | a missing key gives the default, placed under the root unless absolute; an empty value gives `Path(default)` unresolved; a relative value goes under the root; an absolute one is kept |
| Config.GetPathEmptyUnresolved | src/config_manager.py:113-115 | with a relative default, an empty setting gives the bare default while a missing one gives it under the root |
| Config.GetPathResolved | src/config_manager.py:102-121 | the corrected `get_path` fails exactly when the original does |
| Config.GetPathResolvedAbsolute | src/config_manager.py:110-111 | with an absolute root the corrected `get_path` always gives an absolute path, and an empty setting resolves like a missing one |
| Config.IsEnabledReadsSection | src/config_manager.py:123-133 | `is_enabled(m)` is the value at `m.enabled`, and `False` when the section or the entry is missing |
| Config.Load | src/config_manager.py:46-55 | a missing file and a YAML error raise `ConfigError`, with the file path in the first message; an empty document becomes an empty mapping; any other document is kept |
| Config.Open | src/config_manager.py:23-39 | construction succeeds exactly when the file exists, parses and passes validation, and then holds the loaded settings; otherwise it raises the load error or the validation message |
| Config.ConfigManager.Validate | src/config_manager.py:57-75 | the loop over the required keys yields `ValidationError` of the settings: the lines joined with newlines, or none |
| Config.ConfigManager.Reload | src/config_manager.py:194-198 | a failed load leaves the settings as they were and reports its error; a successful one replaces them and reports the validation outcome |
| Config.Registry.GetConfig | src/config_manager.py:225-240 | the first successful call builds the single instance from its path (the default path when none is given); later calls return that instance and ignore their arguments; a construction that raises leaves no instance |
| OpenRouter.ChooseApiKey | src/api/openrouter_client.py:44-48 | a non-empty key argument is used as given; otherwise a falsy `openrouter.api_key` raises "API key do OpenRouter não configurada" and a truthy one is used as `str()` renders it |
| OpenRouter.ChooseApiKeyRenders | src/api/openrouter_client.py:44-48 | a truthy key that is not a string is accepted: the list `['key']` is used as the text "['key']" |
| OpenRouter.BearerRoundTrip | src/api/openrouter_client.py:72 | the bearer credential ("Bearer " + key, section 2.1 of RFC 6750) reads back to the key |
| OpenRouter.Headers | src/api/openrouter_client.py:69-76 | `_get_headers` has exactly four entries, its Authorization carries the key as a bearer credential, and the content type is JSON |
| OpenRouter.HandleResponse | src/api/openrouter_client.py:78-107 | the body is returned exactly when it parses as JSON and the status is 200; otherwise the error carries the status, and an unparsable body raises with the raw text |
| OpenRouter.HandleResponseErrorText | src/api/openrouter_client.py:99-105 | a non-200 reply's message is `error.message` when present, and the whole body as text otherwise |
| OpenRouter.SubtypeOf | src/api/openrouter_client.py:217 | `mime.split("/")[1]` of "type/sub" is "sub" |
| OpenRouter.AudioFormat | src/api/openrouter_client.py:141-150 | every audio MIME type the table or its default gives is "audio/" followed by the format the chat route sends |
| OpenRouter.TranscribeRequest | src/api/openrouter_client.py:141-157 | the Whisper route is taken exactly when "whisper" is in the lower-cased model name, with the suffix's MIME type and the bearer key; the chat route sends one user message and no token limit |
| OpenRouter.TranscribeChatFormat | src/api/openrouter_client.py:198-226 | on the chat route the audio part's format is the MIME subtype, so "audio/" + format is the MIME type |
| OpenRouter.TranscribeAudio | src/api/openrouter_client.py:109-233 | a missing file raises before any request; a transcription is returned only from a reply `_handle_response` accepts: on the Whisper route its `text` entry, "" when there is none; on the chat route `choices[0].message.content`, and the call fails exactly when that is missing |
| OpenRouter.DataUrlRoundTrip | src/api/openrouter_client.py:288 | the image data URL ("data:" + MIME + ";base64," + data, section 3 of RFC 2397) reads back to the MIME type and the payload |
| OpenRouter.ImagePayload | src/api/openrouter_client.py:280-298 | `analyze_image` sends one user message holding the image as a data URL and then the prompt, with `max_tokens` 500 |
| OpenRouter.ImageMimeDefault | src/api/openrouter_client.py:268-276 | an unknown image suffix gives "image/jpeg" |
| OpenRouter.TextMessages | src/api/openrouter_client.py:333-336 | `generate_text` sends a system message first exactly when the system prompt is non-empty, then exactly one user message with the prompt |
| OpenRouter.SummaryPromptRoundTrip | src/api/openrouter_client.py:376-383 | the full summary prompt is the prompt, the fixed "CONTEÚDO DO DIA" separator, the content and a newline, and the content can be cut back out of it |
| OpenRouter.SummaryPayload | src/api/openrouter_client.py:353-389 | `generate_summary` sends no system message, one user message with the full prompt (the configured prompt only when none is given), and `max_tokens` 3000 |
| OpenRouter.TestConnectionIff | src/api/openrouter_client.py:391-416 | `test_connection` is true exactly when the call returns and "OK" occurs in the upper-cased reply |
| Email.HeaderLines | src/delivery/email_sender.py:105-110 | the header pass keeps the number of lines and rewrites each one on its own: "## " gives `<h2>`, otherwise "# " gives `<h1>`, anything else is kept |
| Email.FindClose | src/delivery/email_sender.py:115 | the lazy bold match closes at the first "**" after at least one character, with no newline inside the match |
| Email.BoldSpan | src/delivery/email_sender.py:115 | `**x**` with a non-empty, star-free, single-line `x` becomes `<strong>x</strong>`, and matching resumes after it |
| Email.BoldNoStars | src/delivery/email_sender.py:115 | text without a star is left alone by the bold substitution |
| Email.BoldKeepsNewlines | src/delivery/email_sender.py:115 | the bold substitution never adds or removes a newline |
| Email.ListLines | src/delivery/email_sender.py:118 | the list pass keeps the number of lines; a line "- " plus at least one character becomes `<li>rest</li>`, any other is kept |
| Email.MarkdownToHtml | src/delivery/email_sender.py:100-130 | the method's loop over the lines followed by the three substitutions and the wrapper yields `MarkdownHtml` of the input |
| Email.BodyLines | src/delivery/email_sender.py:104-121 | the header, bold and list passes keep every newline of the markdown, and the body puts exactly one `<br>` before each of them |
| Email.EmailSender.constructor | src/delivery/email_sender.py:19-31 | `enabled` defaults to false, `send_on_error` to true, the recipient is read from the settings, and nothing has been sent |
| Email.EmailSender.Send | src/delivery/email_sender.py:33-78 | a disabled sender returns false and hands nothing to the server; an enabled one hands over the message (recipient `recipient or recipient_email`) and returns whether it was delivered |
| Email.EmailSender.SendDailySummary | src/delivery/email_sender.py:80-88 | the summary goes out as HTML under "📋 Resumo do dia " + the day, through `send` and its gating |
| Email.EmailSender.SendErrorAlert | src/delivery/email_sender.py:90-98 | with `send_on_error` off nothing is sent and the result is false; otherwise a plain-text alert goes through `send` |
| KeyboardRecorder.Accepted | src/keyboard/recorder.py:42-63 | a press adds at most one entry: the key's text, exactly when that text is non-empty |
| KeyboardRecorder.SpecialKeyText | src/keyboard/recorder.py:49-59 | a special key other than space, enter, tab and backspace is shown as its name in brackets, "Key.shift" giving "[shift]" |
| KeyboardRecorder.SpecialNeverEmpty | src/keyboard/recorder.py:49-59 | every special key produces some text (space " ", enter "\n", tab "\t", backspace "[BKSP]", the others their bracketed name) |
| KeyboardRecorder.PressedContent | src/keyboard/recorder.py:61-63 | dropping empty texts loses nothing: the joined buffer after a run of presses is the old content followed by what was typed, in order |
| KeyboardRecorder.FlushedParts | src/keyboard/recorder.py:92-96 | the appended block is "\n--- [" + "HH:MM:SS" + "] ---\n", the buffer's content and a newline, and gives back its time and its content |
| KeyboardRecorder.KeyboardRecorder.constructor | src/keyboard/recorder.py:19-35 | the interval is the minutes times 60; the buffer is empty and the recorder neither running nor paused |
| KeyboardRecorder.KeyboardRecorder.OnPress | src/keyboard/recorder.py:37-65 | while paused a press leaves the buffer unchanged; otherwise the buffer becomes the old buffer plus the accepted text, earlier entries untouched |
| KeyboardRecorder.KeyboardRecorder.SaveBuffer | src/keyboard/recorder.py:74-104 | an empty buffer writes nothing and hands nothing on; otherwise the buffer is emptied before the write, the block is appended to the day's keylog.txt when the write succeeds, and only then is the path handed to `on_log_ready` |
| KeyboardRecorder.KeyboardRecorder.SaveTick | src/keyboard/recorder.py:67-72 | one wake-up of the save loop does nothing while paused and is `save_buffer` otherwise |
| KeyboardRecorder.KeyboardRecorder.Start | src/keyboard/recorder.py:106-122 | a no-op when running; otherwise it sets running, clears paused, attaches the listener and launches one saver; the buffer is untouched |
| KeyboardRecorder.KeyboardRecorder.Stop | src/keyboard/recorder.py:124-133 | clears running, detaches the listener and flushes what is left through `save_buffer`, paused or not |
| KeyboardRecorder.KeyboardRecorder.Pause | src/keyboard/recorder.py:135-138 | sets paused and changes nothing else, buffered keys included |
| KeyboardRecorder.KeyboardRecorder.Resume | src/keyboard/recorder.py:140-143 | clears paused and changes nothing else |
| Transcriber.Requests | src/audio/transcriber.py:35-40 | the worker makes one `transcribe_audio` call per chunk, in queue order |
| Transcriber.RequestsOneEach | src/audio/transcriber.py:37-40 | the i-th call is for the i-th chunk, with the transcriber's model and the language "pt" |
| Transcriber.SameLogIff | src/audio/transcriber.py:51-52 | two days share a transcricao.txt exactly when they are the same day |
| Transcriber.AfterItemLog | src/audio/transcriber.py:40-59 | one chunk adds its record to the log of its own day and to no other, and adds nothing when the transcription or the write fails |
| Transcriber.TranscribedLog | src/audio/transcriber.py:35-59 | after a run each day's log is its old content followed by that day's records "\n[stem]\ntext\n", in queue order; failed chunks add nothing |
| Transcriber.TranscribedKeepsFiles | src/audio/transcriber.py:32-59 | the worker deletes no file and changes no file but the day logs: the audio chunks stay on disk |
| Transcriber.AudioTranscriber.constructor | src/audio/transcriber.py:19-30 | the model is the argument when truthy and `models.transcription` otherwise; the queue is empty and the worker not running |
| Transcriber.AudioTranscriber.AddToQueue | src/audio/transcriber.py:73-74 | `add_to_queue` puts the chunk at the tail and changes nothing else |
| Transcriber.AudioTranscriber.Start | src/audio/transcriber.py:61-66 | a no-op when running; otherwise it sets the flag and launches one worker |
| Transcriber.AudioTranscriber.Stop | src/audio/transcriber.py:68-71 | clears the flag and leaves the queue to the worker |
| Transcriber.AudioTranscriber.Step | src/audio/transcriber.py:37-47 | one iteration takes the head of the queue, makes one call for it and appends its record on success; a failed chunk is dropped, not requeued |
| Transcriber.AudioTranscriber.Drain | src/audio/transcriber.py:32-47 | the loop (guard: running or queue non-empty) processes the first min(queue, attempts) chunks in FIFO order, with the calls and the disk the specification functions give; once stopped, enough iterations empty the queue |
| Transcriber.AudioTranscriber.TodayTranscription | src/audio/transcriber.py:79-81 | the day's log, or "" when it does not exist |
| ScreenAnalyzer.DeletesByDefault | src/screen/analyzer.py:91 | with no setting at all, screenshots are deleted after analysis |
| ScreenAnalyzer.Removed | src/screen/analyzer.py:54-63 | the screenshots a deleting analyzer removes are exactly those whose analysis came back |
| ScreenAnalyzer.Requests | src/screen/analyzer.py:49-58 | the worker makes one `analyze_image` call per screenshot, in queue order |
| ScreenAnalyzer.RequestsOneEach | src/screen/analyzer.py:54-58 | the i-th call is for the i-th screenshot, with the analyzer's prompt and model |
| ScreenAnalyzer.SameLogIff | src/screen/analyzer.py:75-76 | two days share an analise_tela.txt exactly when they are the same day |
| ScreenAnalyzer.AfterShotLog | src/screen/analyzer.py:54-86 | one screenshot adds its record "\n[stem]\nanalysis\n" to its own day's log and to no other; a failed analysis or write adds nothing |
| ScreenAnalyzer.AnalysedLog | src/screen/analyzer.py:49-86 | after a run each day's log is its old content followed by that day's records in queue order; deleting screenshots never touches a log |
| ScreenAnalyzer.ScreenshotRetention | src/screen/analyzer.py:60-63 | a screenshot is gone after a run exactly when deletion is on and its analysis came back, whether or not saving the analysis worked; with screenshot backup on, none is lost, and other files keep their content |
| ScreenAnalyzer.ScreenAnalyzer.constructor | src/screen/analyzer.py:26-43 | the model is the argument when truthy and `models.screen_analysis` otherwise, the prompt likewise with the configured prompt; the queue is empty and the worker not running |
| ScreenAnalyzer.ScreenAnalyzer.AddToQueue | src/screen/analyzer.py:115-118 | puts the screenshot at the tail and changes nothing else |
| ScreenAnalyzer.ScreenAnalyzer.Start | src/screen/analyzer.py:98-106 | a no-op when running; otherwise it sets the flag and launches one worker |
| ScreenAnalyzer.ScreenAnalyzer.Stop | src/screen/analyzer.py:108-113 | clears the flag and leaves the queue to the worker |
| ScreenAnalyzer.ScreenAnalyzer.Step | src/screen/analyzer.py:51-70 | one iteration takes the head, makes one call, appends on success and then deletes the screenshot when `google_drive.backup.screenshots` is false; a failed analysis is dropped and leaves the screenshot |
| ScreenAnalyzer.ScreenAnalyzer.Drain | src/screen/analyzer.py:45-70 | the loop processes the first min(queue, attempts) screenshots in FIFO order, with the calls and the disk the specification functions give; once stopped, enough iterations empty the queue |
| ScreenAnalyzer.ScreenAnalyzer.QueueSize | src/screen/analyzer.py:125-127 | the size is the queue's length, zero exactly when the queue is empty |
| ScreenAnalyzer.ScreenAnalyzer.TodayAnalysis | src/screen/analyzer.py:129-132 | the day's log, or "" when it does not exist |
| KeyboardAnalyzer.SentFor | src/keyboard/analyzer.py:46-58 | a queued log leads to at most one `generate_summary` call, exactly when the file exists and is not blank, carrying the whole file with the analyzer's prompt and model |
| KeyboardAnalyzer.Wanted | src/keyboard/analyzer.py:41-58 | the reference call list: one call per queued log that is present and not blank, in queue order, never more calls than logs |
| KeyboardAnalyzer.NotALog | src/keyboard/recorder.py:90 | a keystroke log (named keylog.txt) is never the analyzer's own day file |
| KeyboardAnalyzer.SameLogIff | src/keyboard/analyzer.py:71-72 | two days share an analise_teclado.txt exactly when they are the same day |
| KeyboardAnalyzer.AnalysedKeepsFiles | src/keyboard/analyzer.py:37-83 | the worker deletes no file and writes only day files: the keystroke logs and every other file keep their content |
| KeyboardAnalyzer.SentIsWanted | src/keyboard/analyzer.py:41-61 | the calls the worker makes are exactly the reference calls: blank or missing logs cause none, every other log one, in queue order |
| KeyboardAnalyzer.AfterLogLog | src/keyboard/analyzer.py:46-83 | one queued log adds "\n[HHhMMmSSs]\nanalysis\n", stamped at save time, to its own day's file exactly when a call is made and succeeds and the write works; nothing otherwise |
| KeyboardAnalyzer.AnalysedLog | src/keyboard/analyzer.py:41-83 | after a run each day's file is its old content followed by that day's records, in queue order |
| KeyboardAnalyzer.KeyboardAnalyzer.constructor | src/keyboard/analyzer.py:18-35 | the model is the argument when truthy and `models.summary` otherwise, the prompt likewise with the configured keyboard prompt; the queue is empty and the worker not running |
| KeyboardAnalyzer.KeyboardAnalyzer.AddToQueue | src/keyboard/analyzer.py:102-105 | puts the log at the tail and changes nothing else |
| KeyboardAnalyzer.KeyboardAnalyzer.Start | src/keyboard/analyzer.py:85-93 | a no-op when running; otherwise it sets the flag and launches one worker |
| KeyboardAnalyzer.KeyboardAnalyzer.Stop | src/keyboard/analyzer.py:95-100 | clears the flag and leaves the queue to the worker |
| KeyboardAnalyzer.KeyboardAnalyzer.Step | src/keyboard/analyzer.py:43-66 | one iteration takes the head, skips a missing or blank log with no call, and otherwise makes one call and appends the record on success |
| KeyboardAnalyzer.KeyboardAnalyzer.Drain | src/keyboard/analyzer.py:37-66 | the loop processes the first min(queue, attempts) logs in FIFO order, with the calls and the disk the specification functions give; once stopped, enough iterations empty the queue |
| KeyboardAnalyzer.KeyboardAnalyzer.TodayAnalysis | src/keyboard/analyzer.py:107-110 | the day's file, or "" when it does not exist |
| ScreenCapture.EmptyEntrySkipsAll | src/screen/capture.py:58-72 | an empty string in either exclusion list is a substring of every title, so every capture is skipped, even when the window title cannot be read |
| ScreenCapture.SkipsIgnoresCase | src/screen/capture.py:60-69 | the check compares lower-cased names with the lower-cased title, so a title and its lower-cased form get the same answer |
| ScreenCapture.PyIndex | src/screen/capture.py:83 | Python list indexing on `count` monitors: defined exactly for -count <= i < count, and the result is always a valid position |
| ScreenCapture.LoopMonitor | src/screen/capture.py:82-85 | the capture loop's monitor choice is always a valid position, or fails like the source's indexing |
| ScreenCapture.OnceMonitor | src/screen/capture.py:172 | `capture_once`'s monitor choice is always a valid position, or fails like the source's indexing |
| ScreenCapture.MonitorChoices | src/screen/capture.py:82-172 | the loop falls back to monitor 1 and `capture_once` to the last monitor; the two agree for an index in range and differ past it when there are more than two entries |
| ScreenCapture.DefaultMonitor | src/screen/capture.py:35-172 | with no `screen.monitor` setting both choose monitor 0, the combined screen |
| ScreenCapture.ShotNameParts | src/screen/capture.py:117-123 | a screenshot's stem is its "%Hh%Mm%Ss" time stamp and its suffix is ".jpg" exactly when the format is "jpg", ".png" otherwise |
| ScreenCapture.ScreenCapture.constructor | src/screen/capture.py:22-44 | the monitor defaults to 0 and the format to "jpg", the exclusion lists are the lists of names given to it, and the capture starts neither running nor paused |
| ScreenCapture.ScreenCapture.ShouldSkipCapture | src/screen/capture.py:58-72 | the two loops with their early returns answer true exactly when some excluded application or window name occurs in the title, ignoring case |
| ScreenCapture.ScreenCapture.Tick | src/screen/capture.py:87-109 | one loop iteration writes a screenshot to the day folder and hands its path to the callback exactly when the capture is not paused, not excluded, and the grab and save work; nothing changes otherwise |
| ScreenCapture.ScreenCapture.Start | src/screen/capture.py:133-145 | returns false and changes nothing when running; otherwise it sets running, clears paused, launches one thread and returns true |
| ScreenCapture.ScreenCapture.Stop | src/screen/capture.py:147-156 | the capture ends stopped and nothing else changes |
| ScreenCapture.ScreenCapture.Pause | src/screen/capture.py:158-161 | sets paused and nothing else |
| ScreenCapture.ScreenCapture.Resume | src/screen/capture.py:163-166 | clears paused and nothing else |
| ScreenCapture.ScreenCapture.CaptureOnce | src/screen/capture.py:168-175 | a bad monitor index or a failed grab raises and leaves the disk alone; a failed save gives no path; otherwise the screenshot is written and its path returned |
| Summary.Sections | src/summary/generator.py:83-95 | one header-and-text section for each non-empty source text, in the fixed order transcripts, screen, keyboard |
| Summary.ContentIsSections | src/summary/generator.py:83-97 | the request content is the present sections joined by newlines: each header directly precedes its own text and the texts are never mixed |
| Summary.ContentOfAll | src/summary/generator.py:83-97 | with all three texts present, the content is the three headers and texts in full, the later headers each starting on a blank line |
| Summary.SavedParts | src/summary/generator.py:109-120 | the saved file starts with "# Resumo do dia " and the date and ends with the summary unchanged |
| Summary.GenerateResult | src/summary/generator.py:60-107 | when all three texts are empty the fixed "nothing captured" sentence is returned; otherwise the result fails exactly when the API call or the save raises, and a raising call's failure carries the exception's message |
| Summary.SummaryGenerator.constructor | src/summary/generator.py:18-31 | the model is `models.summary`, the prompt the loaded one, and the three input folders and the output folder sit under the project's data folder |
| Summary.SummaryGenerator.Generate | src/summary/generator.py:60-120 | reads the day's three files, "" when missing; with nothing to summarise it makes no request and writes nothing; otherwise it makes exactly one request with the joined content, and on success writes the header and summary to resumo.md and returns the summary; an API or save error reaches the caller with the disk unchanged |
| Summary.SummaryGenerator.GetSummary | src/summary/generator.py:123-130 | the saved summary of the day, or "" when there is none |
| Power.DispatchIff | src/system/power_monitor.py:51-70 | a message fires "on_sleep" exactly on a suspend broadcast, "on_wake" exactly on either resume broadcast, and "on_lock"/"on_unlock" exactly on a session lock/unlock when pausing on lock is enabled; every other message fires nothing |
| Power.Fired | src/system/power_monitor.py:76-82 | at most one callback runs: the one registered for the event, and none when the event has none |
| Power.PowerMonitor.constructor | src/system/power_monitor.py:29-37 | `privacy.pause_on_lock` defaults to true; no callbacks are registered and the monitor is not running |
| Power.PowerMonitor.RegisterCallback | src/system/power_monitor.py:39-49 | the event's callback is replaced and nothing else changes |
| Power.PowerMonitor.Trigger | src/system/power_monitor.py:76-82 | runs the registered callback when there is one; its exception is swallowed and no state changes |
| Power.PowerMonitor.WindowProc | src/system/power_monitor.py:51-74 | runs exactly the callbacks `Dispatch` selects for the message, reading the setting as Python truthiness |
| Power.PowerMonitor.Start | src/system/power_monitor.py:116-123 | a no-op when running; otherwise it sets the flag and launches one message-loop thread |
| Power.PowerMonitor.Stop | src/system/power_monitor.py:125-134 | clears the flag and keeps the callbacks |
| Scheduler.TaskNamed | src/system/scheduler.py:89-94 | "summary" names the summary trigger, "cleanup" the cleanup trigger, and any other name none |
| Scheduler.Fired | src/system/scheduler.py:44-62 | a trigger runs at most one callback: the one registered under its name, and none when none is registered |
| Scheduler.TriggersApart | src/system/scheduler.py:44-62 | the two triggers use different callback names, so neither runs the other's callback |
| Scheduler.TaskScheduler.constructor | src/system/scheduler.py:18-27 | the summary time defaults to "22:00" and the time zone to "America/Sao_Paulo"; no callbacks, no jobs, not running |
| Scheduler.TaskScheduler.RegisterCallback | src/system/scheduler.py:29-32 | overwrites the name's callback and changes nothing else |
| Scheduler.TaskScheduler.Trigger | src/system/scheduler.py:44-62 | runs the registered callback if any; its exception is swallowed and no state changes |
| Scheduler.AcceptedIsClock | src/system/scheduler.py:70 | every summary time `at` accepts denotes a valid time of day |
| Scheduler.ClockAccepted | src/system/scheduler.py:70 | every time of day is accepted written "HH:MM:SS" or "HH:MM", and denotes itself |
| Scheduler.SummaryTimes | src/system/scheduler.py:70-74 | the default "22:00" and the clean-up "00:30" are accepted; "25:00", "22h" and the number 1320 (an unquoted 22:00 read by YAML) are refused |
| Scheduler.TaskScheduler.Start | src/system/scheduler.py:64-79 | a no-op when running; otherwise, when `at` accepts the summary time, it schedules the daily summary at that time and the cleanup at "00:30", sets the flag and launches one polling thread; when `at` refuses it, `start` raises with nothing scheduled and the flag clear |
| Scheduler.TaskScheduler.Stop | src/system/scheduler.py:81-87 | clears the flag and every scheduled job |
| Scheduler.TaskScheduler.RunJob | src/system/scheduler.py:38-39 | a due job runs its own trigger and the job list is unchanged |
| Scheduler.TaskScheduler.RunNow | src/system/scheduler.py:89-94 | "summary" and "cleanup" run their trigger; any other name does nothing |
| Drive.CacheKeyInjective | src/storage/drive_manager.py:114 | the key "parent/name" never confuses two folders: equal keys mean the same parent and the same name |
| Drive.FirstMatch | src/storage/drive_manager.py:119-127 | the search result taken is the first folder of that name (under the parent when one is given), and -1 means no entry matches |
| Drive.LookupCaches | src/storage/drive_manager.py:112-142 | a lookup keeps every cached id, caches its own result and only adds entries to the remote table; a folder it creates gets an id used nowhere before |
| Drive.LookupMemoised | src/storage/drive_manager.py:114-141 | a second lookup of the same folder returns the same id and changes nothing |
| Drive.TodayMonth | src/storage/drive_manager.py:146-147 | with no date, the day folder is today's "YYYY-MM-DD" and its first seven characters are today's month |
| Drive.DayChainResolves | src/storage/drive_manager.py:144-153 | afterwards the cache resolves root, month and day one after the other, ending at the returned day id, and no earlier entry or cache line is lost |
| Drive.DriveMimeIgnoresCase | src/storage/drive_manager.py:189-197 | the MIME type depends on the lower-cased suffix, so the extension's case does not matter |
| Drive.DriveMimeExample | src/storage/drive_manager.py:189-197 | an upper-case ".MP3" file is still uploaded as audio/mpeg |
| Drive.DestinationResolves | src/storage/drive_manager.py:181-186 | the upload's destination is the day folder, or its subfolder when one is named, and the cache resolves it afterwards |
| Drive.UploadPlacement | src/storage/drive_manager.py:179-213 | a successful upload appends one entry, under the resolved destination, with the file's name, its MIME type and an id used nowhere before; every older entry stays |
| Drive.Children | src/storage/drive_manager.py:268-275 | the folder listing of a parent holds exactly the folders directly under it |
| Drive.NamedChildren | src/storage/drive_manager.py:280-281 | the type listing of a day folder holds exactly the entries of that name directly under it, folders or files |
| Drive.Without | src/storage/drive_manager.py:285 | deleting keeps exactly the entries whose ids are not deleted, in order |
| Drive.DoomedIff | src/storage/drive_manager.py:265-286 | cleanup deletes an entry exactly when it is named after the type and sits directly in a day folder whose name sorts before the cut-off, inside a month folder of the root |
| Drive.DoomedByDate | src/storage/drive_manager.py:261-278 | for day folders named by date, a day's type folder is deleted exactly when the day is before the cut-off date |
| Drive.CleanupKeepsValid | src/storage/drive_manager.py:258-292 | cleanup keeps ids unique, only removes entries, and keeps every entry it does not delete |
| Drive.DefaultSettings | src/storage/drive_manager.py:33-48 | with no settings, backup is off, the folder is "Assistente IA", and audio, transcriptions, screen analyses and summaries are backed up but screenshots are not |
| Drive.DriveManager.constructor | src/storage/drive_manager.py:29-58 | the manager is enabled exactly when `google_drive.enabled` is truthy and authentication succeeds; the root folder's name is `str()` of `google_drive.folder_name`; the cache starts empty |
| Drive.DriveManager.GetOrCreateFolder | src/storage/drive_manager.py:112-142 | returns the cached id, else the first matching folder, else a new folder's id, and caches the answer, as `LookupCaches` describes |
| Drive.DriveManager.GetDayFolder | src/storage/drive_manager.py:144-153 | three lookups: the root, then the month under it, then the day under the month |
| Drive.DriveManager.UploadFile | src/storage/drive_manager.py:155-217 | returns no id and changes nothing when disabled, without a service, or when the local file is missing; otherwise it creates the folder chain and uploads the file, and a failed create gives no id |
| Drive.DriveManager.UploadAudio | src/storage/drive_manager.py:219-223 | no id and no change when audio backup is off; otherwise an upload into the day's "audio" subfolder |
| Drive.DriveManager.UploadTranscription | src/storage/drive_manager.py:225-229 | no id and no change when transcription backup is off; otherwise an upload into the day folder itself |
| Drive.DriveManager.UploadScreenAnalysis | src/storage/drive_manager.py:231-235 | no id and no change when screen-analysis backup is off; otherwise an upload into the day folder itself |
| Drive.DriveManager.UploadSummary | src/storage/drive_manager.py:237-241 | no id and no change when summary backup is off; otherwise an upload into the day folder itself |
| Drive.DriveManager.Delete | src/storage/drive_manager.py:285 | removes exactly the entry with that id and leaves the cache alone |
| Drive.DriveManager.SweepDay | src/storage/drive_manager.py:280-286 | the innermost loop deletes every type entry of one day folder and counts them |
| Drive.DriveManager.SweepMonth | src/storage/drive_manager.py:274-286 | the middle loop deletes the type entries of every day folder of a month that sorts before the cut-off, and counts them |
| Drive.DriveManager.SweepRoot | src/storage/drive_manager.py:268-286 | the outer loop deletes exactly the entries `DoomedIff` characterises, and `deleted_count` is their number |
| Drive.DriveManager.CleanupFolderType | src/storage/drive_manager.py:258-289 | looks up the root and then deletes exactly the doomed entries for the cut-off day |
| Drive.DriveManager.CleanupOldFiles | src/storage/drive_manager.py:243-256 | nothing when disabled or without a service; otherwise cleans "audio" when audio backup is on and then "screenshots" when screenshot backup is on, each against its own cut-off |
| Assistant.CallsOnHas | src/main.py:260-275 | a run of guarded calls touches exactly the present modules among those named, and nothing else |
| Assistant.CallsOnOrder | src/main.py:260-275 | guarded calls happen in the order the modules are named |
| Assistant.StartsPresent | src/main.py:259-275 | `start` starts every present module and no absent one |
| Assistant.StartOrder | src/main.py:259-275 | each worker starts before its producer (transcriber before recorder, screen analyzer before capture, keyboard analyzer before recorder), and the scheduler before the power monitor |
| Assistant.AbortedStart | src/main.py:260-275 | a `start` that the scheduler aborts makes the calls of a full one except the power monitor's: every other present module is started, and the power monitor is not |
| Assistant.StopsPresent | src/main.py:292-308 | `stop` stops every present module and no absent one |
| Assistant.StopOrder | src/main.py:292-308 | the power monitor stops before the scheduler and each producer before its worker; the keyboard recorder's last log reaches the analyzer's queue after the recorder stops and before the analyzer does |
| Assistant.LastEventWins | src/main.py:188-222 | after a sleep or lock every present recorder is paused, and after a wake or unlock resumed, whatever came before: the last power event decides |
| Assistant.LogFile | src/keyboard/recorder.py:90 | the log path handed to the callback is the recorder's day log file |
| Assistant.NewAudio | src/main.py:98-106 | the transcriber exists exactly when audio is enabled, idle, with an empty queue, writing to "data/transcriptions" |
| Assistant.NewScreen | src/main.py:108-116 | the analyzer and the capture exist exactly when the screen is enabled; the capture interval is `screen.capture_interval_seconds` (30 by default) and its callback is set |
| Assistant.NewKeyboard | src/main.py:118-126 | the analyzer and the recorder exist exactly when the keyboard is enabled; the recorder saves every `keyboard.save_interval_minutes` (5 by default) minutes, in seconds, with its callback set |
| Assistant.NewScheduler | src/main.py:140-144 | the scheduler has exactly the summary and clean-up callbacks, no jobs, and is not running |
| Assistant.NewPower | src/main.py:146-152 | the power monitor has exactly the four sleep, wake, lock and unlock callbacks and reads `privacy.pause_on_lock` |
| Assistant.NewStreams | src/main.py:60-68 | each stream pair exists exactly when its section is enabled, idle and with empty queues |
| Assistant.NewServices | src/main.py:70-78 | Drive and e-mail exist exactly when enabled; the summary generator, scheduler and power monitor always exist, with their callbacks registered |
| Assistant.Assistant.Present | src/main.py:32-42 | the modules whose lifecycle the assistant drives are exactly those it holds |
| Assistant.Assistant.constructor | src/main.py:26-96 | `setup` succeeds exactly when the configuration loads; then each module exists exactly when its section is enabled, idle and empty; on failure nothing is built; the assistant is not running |
| Assistant.Assistant.Launch | src/main.py:256-275 | sets running and starts the present modules in `start`'s order, keeping their queues and buffers; when the scheduler refuses its summary time, its `start` raises and the power monitor is never started |
| Assistant.Assistant.Start | src/main.py:251-275 | a failed setup exits and changes nothing; otherwise the assistant runs and every present module has been started, in `start`'s order, unless the scheduler's `start` raises, which ends `start` before the power monitor |
| Assistant.Assistant.OnKeyboardLogReady | src/main.py:181-185 | the log goes onto the keyboard analyzer's queue when there is one, and nothing else happens |
| Assistant.Assistant.PendingLog | src/keyboard/recorder.py:80-96 | the log the stopping recorder hands on, if any, is its day log file |
| Assistant.Assistant.StopKeyboard | src/main.py:301-304 | the recorder's final save appends its buffer to the day log and queues the log when it has content and the write works; then the analyzer stops |
| Assistant.Assistant.Stop | src/main.py:287-308 | clears running and stops the present modules in `stop`'s order: power monitor, scheduler, screen capture, screen analyzer, keyboard recorder, keyboard analyzer, audio recorder, transcriber; the keyboard buffer is saved and queued once, and with nothing to flush or a failed append the disk is unchanged; screen and audio queues are kept, and the scheduler's jobs are cleared |
| Assistant.Assistant.PowerEvent | src/main.py:188-222 | pauses or resumes the capture and the keyboard recorder, and records the call on the audio recorder too, whatever their state |
| Assistant.Assistant.PowerMessage | src/system/power_monitor.py:51-82 | a power message runs the callback `Dispatch` selects: sleep and lock pause the recorders, wake and unlock resume them, and any other message leaves them as they are |
| Assistant.Assistant.OnAudioChunkReady | src/main.py:164-171 | the chunk goes onto the transcriber's queue when there is one, and is uploaded to Drive's "audio" folder when there is a manager and audio backup is on |
| Assistant.Assistant.OnScreenshotReady | src/main.py:174-178 | the screenshot goes onto the analyzer's queue only; it is never uploaded |
| Assistant.Assistant.BackupSummary | src/main.py:234-238 | the day's `resumo.md` under the project root is uploaded into the day folder when it exists and summaries are backed up; Drive is otherwise unchanged |
| Assistant.Assistant.GenerateDailySummary | src/main.py:225-243 | the summary is generated; on success it is e-mailed when mail is enabled, and the saved `resumo.md` is uploaded to Drive when there is a manager, the file exists and summaries are backed up; any failure sends an error alert with the failure's message when mail and alerts are enabled, nothing when alerts are off, and leaves Drive untouched |
| Assistant.Assistant.CleanupOldFiles | src/main.py:245-249 | runs the Drive clean-up when there is a manager |

## Left out

- Threads, `join` timeouts, `queue.get(timeout=…)` and `time.sleep` cadence: each worker thread is a `Step` method and a `Drain` loop run sequentially, and draining within a timeout is not proved.
- The `while` loop of the keyboard recorder's `_save_loop`, the screen capture's `_capture_loop` and the scheduler's `_run_scheduler`: one wake-up or iteration is modelled (`KeyboardRecorder.KeyboardRecorder.SaveTick`, `ScreenCapture.ScreenCapture.Tick`, `Scheduler.TaskScheduler.RunJob`), not the loop itself.
- The `schedule` library's clock matching: which job is due at a given time is a parameter of `RunJob`.
- Scheduler.TaskScheduler.Start: only ASCII digits are accepted in the summary time; the library's `\d` pattern and `int()` also accept other Unicode decimal digits.
- The audio recorder (`AudioRecorder`, imported by src/main.py:14) is not part of this model: it appears only as a present-or-absent module and as entries of the orchestrator's call trace, with no chunking.
- HTTP transport, SMTP sessions, the Google OAuth flow with its pickled token, and the Drive API calls: their outcomes are parameters (a reply or a raised error, an authentication result, an abstract folder table).
- Base64 encoding (section 4 of RFC 4648) is an opaque function; file reading for uploads is left to the caller.
- `win32gui`, `mss`/PIL grabbing and encoding, the `pynput` listener, and the Win32 window and message loop: the window title, the grab's success, the key events and the messages are parameters.
- YAML parsing: the configuration is an already-parsed tree; a missing file and an empty document are modelled.
- `datetime.now`, `strftime` and date arithmetic: date and time parts are passed in, and Drive's retention cut-off dates are given, not computed from the retention days.
- Strings.Lower and Strings.Upper: only ASCII letters change case; Python's Unicode case mapping is not modelled.
- Prompt loading (`get_prompt`, `get_screen_analysis_prompt`, `get_keyboard_analysis_prompt`): the loaded prompts are parameters, so the corrected `Config.GetPathResolved` has no caller in the model.
- src/utils/logger.py, every logger call, and src/system/startup.py: logging and the `schtasks` subprocess have no statable core.
- Floating point: `format_size`, model prices, HTTP timeouts and `format_duration` on fractional seconds.
- Helpers.FormatDuration: takes whole non-negative seconds; a negative duration, which Python's floor division turns into "59m 55s" for -5, is not modelled (the function has no caller in the source).
- `file_hash` in src/utils/helpers.py: hashing is a library call.
- `transcribe_file`, `analyze_file` and the `get_openrouter_client` singleton: thin wrappers around the modelled payload builders and an HTTP post.
- `get_monitors`: a listing from `mss` with no logic of its own.
- Exceptions raised by module constructors inside `setup`: `setup` fails only when the configuration does not load.
- Assistant.NatSetting: a non-integer or negative interval setting is read as the default, where Python would raise or misbehave.
- Drive cleanup: the listings are taken from the table as it stood after the root lookup; deleting a folder removes that entry only, not its contents; an exception inside the sweep is not modelled.
- Drive.DriveManager.GetOrCreateFolder: the folder search and the folder creation never fail; in the source either can raise, and `upload_file` then returns `None`. Only the file's own create call may fail in the model.
- Drive.DriveManager.constructor: a mapping of two or more entries as the folder name has no `str()` text (the parsed tree keeps no key order), so the name falls back to "Assistente IA"; a non-string folder name is also used as its `str()` text when creating the folder, where Python sends the raw value to the Drive API.
- OpenRouter.ChooseApiKey: a mapping of two or more entries as the API key has no `str()` text (the parsed tree keeps no key order), so the key is refused where Python would send that text.
- ScreenCapture.ScreenCapture.constructor: the exclusion lists are parameters holding names, not read from the `privacy.excluded_apps` and `privacy.excluded_windows` settings; a setting that is not a list of strings is not modelled (a string would be iterated character by character, and a non-string entry raises on `.lower()` inside `_should_skip_capture`).
- Summary.GenerateResult: a failed `write_text` is a failure carrying the fixed message `Summary.SaveFailed`, not the operating system's error text that `str(e)` would give the error alert.
- PyText.Render: `repr()` escapes backslashes, quotes and ASCII control characters; its escapes of non-ASCII non-printable characters are not modelled.
- Assistant.Assistant.Start and Assistant.Assistant.Stop: the trace of calls on the modules is recorded as a whole after the calls, not interleaved with them.
- The default output folders of the transcriber ("data/transcriptions", src/audio/transcriber.py), the screen analyzer ("data/screen_analysis", src/screen/analyzer.py:28) and the keyboard analyzer ("data/keyboard_analysis", src/keyboard/analyzer.py:20) are relative, while the summary generator reads under the project root (src/summary/generator.py:26-28); this is modelled as written.

## Findings

| source | as written | input that shows it | evidently intended | confidence | as-written member | corrected member |
|---|---|---|---|---|---|---|
| src/config_manager.py:113-115 | an empty setting returns `Path(default)` without resolving it under the project root, while a missing setting resolves the same default under the root | `prompt.file: ""` with default "config/prompt.txt" gives the relative "config/prompt.txt"; with the key absent it gives root + "/config/prompt.txt" | the documented "absolute path": the default resolved under the root in both cases | not executed | Config.GetPathEmptyUnresolved | Config.GetPathResolved |
