# DOP talent agency functions, modelled in Dafny

This project models the core logic of the Netlify functions behind the DOP ("digital one's
presence") talent agency site, and proves properties of it. Each function has its own module.

- **The render poller** (`VideoProcessor`, `heygen_video_processor.js`).
  - It reconciles each persona record's `pending` HeyGen renders.
  - A render the provider reports with a URL moves to `videos`; a failed render moves to `failures`.
  - Then `status` becomes `ready` or `processing`, and the record is written back only if an entry moved.
  - `ProcessPersona` and the `Handler` are methods with the source's nested loops. Each is proved equal to a recursive specification (`Process`, `Poll`, `Pass`, `ProcessEach`).
  - The invariants are proved on that specification: no key is at once pending, captured and failed; no key is lost; no write happens without a move.
  - A record whose text is `null` throws; the batch then ends with 500 `processor_failed`, and the records written before it stay written.
- **The chat session table** (`SessionChat`, `session-chat.js`).
  - A `SessionStore` class holds the `SESSIONS` map from id to `Session` objects.
  - The handler seeds, appends to, caps and stamps these objects in place.
  - The store's `Valid()` keeps every history within ten turns and every object unshared.
- **Intent routing** (`DopChat`, `dop-chat.js`): input validation, the keyword matcher, the validation of the language model's reply, the acceptance threshold and the fallback message.
- **Text-to-speech** (`TtsEleven`, `tts-eleven.js`): the clip-name intent matcher (its two regular expressions written out as matchers), voice selection, and the sentence-aware clamp.
- **Uploads** (`DopUploads`, `dop-uploads.js`): image truncation, persona prompts, the system prompt, the persona record, and the store writes with their backups, both as intended and as written (the record write at line 209 always throws).
- **Logs and listings**:
  - `DopContext` (`dop_context.js`): the backward tail scan with a session filter, and the capsule summary.
  - `LogView` (`log_view.js`): the parse loop, the in-place sort by `ts` and the clamped tail.
  - `DopListRecent` (`dop-list-recent.js`): the paged grouping of blob keys by persona id, the latest timestamp, and the top-100 sort. A persona id that names a property every object inherits (`constructor`, `__proto__`, `toString`, …) makes the grouping throw, and the listing answers 500.
- **Small mappers**:
  - `CheckVideo` (`check-video.js`): progress.
  - `DopFile` (`dop-file.js`) and `DopView` (`dop-view.js`): MIME types.
- **Shared modules**:
  - `Text`: JavaScript string operations on `seq<char>`: `trim`, ASCII `toLowerCase`, `includes`, `split`, `join`, `lastIndexOf`, `parseInt` and number rendering.
  - `Seqs`: `slice(-n)` and `reverse`.
  - `Sorting`: an in-place array sort proved sorted and a permutation.
  - `Wrappers`: `Option` and `Result`.
- **`Pipeline`** connects the files. Its lemmas are about the intended record write of the upload (`DopUploads.Handle`): that record is read by the poller, and the poller never marks it ready or writes it. The progress endpoint reports it as not started.

Throughout, the store is a map and the external services are oracle parameters:

- HeyGen status replies are a function of the polling round and the endpoint;
- the OpenAI reply and the ElevenLabs reply are values;
- `JSON.parse` of a log line is a function to `Option`.

The poller's wall-clock budget becomes a bound `rounds` on the number of polling passes.

Three source defects stop the code from doing what it evidently means. The model follows the evident intent, and for the upload it also models the code as written.

- `functions/dop-chat.js:12` puts an unescaped apostrophe inside a single-quoted string. The relax option's label is modelled as `What's your favorite way to relax?`.
- `functions/dop-file.js:17` declares `const guessType` a second time, which is a syntax error. The first definition (lines 5-15) is `DopFile.GuessType`. The second is `DopFile.GuessTypeRedeclared`, and `DopFile.RedeclaredDiffersOnJson` shows that the two differ exactly on `.json` keys.
- `functions/dop-uploads.js:209` calls `uploadsStore.setBlob`, but `functions/_lib/blobs.js:4-21` exports `uploadsStore` as a function that returns the store. The call throws `uploadsStore.setBlob is not a function`, so every validated upload answers 500 and stores nothing, after the voice clone and the avatar have already been created. `DopUploads.HandleAsWritten` models this and `DopUploads.SetBlobDefect` contrasts it with the intended `uploadsStore().set`, which `DopUploads.Commit`, `DopUploads.Accept` and `DopUploads.Handle` model and the rest of the model uses.

One behaviour of the poller deserves a note. It is modelled as written and shown by `VideoProcessor.NullPendingLeavesStaleStatus`:

- a `pending` entry whose value is `null` blocks the fast path, yet no pass ever polls it or counts it as remaining;
- so the poller reports `ready` but never rewrites the stored `processing` status.

## Model

The table lists the members whose contracts state something. Helper definitions without a contract of their own are characterised by the lemmas named here:

- `HasAllVideos`, `GotKeys`, `PromptKey` and `VideoKey` by `HasAllVideosMeans` and `ReadyIffAllVideos`;
- `Poll`, `Reconciled` and `FastReady` by `PollRounds`, `PollFacts`, `FastPath` and `ReadyIffAllVideos`;
- `Serialize` by `NormalizeSerialize`; `Apply` by `ApplyKeepsOthers`; `HasVideoFor` by `Step` and `PassSettles`;
- `PickClip` and `RuleMatches` by `FirstMatch` and `PickClipByShortKeywords`; `AssistantLine` by `FunLine`, `FromLine` and `RelaxLine`; `UserText` and `AddUser` by `NextHistory` and `EmptyTextGreets`;
- `OptionMatches` and `WhereFrom` by `CheckKeywordMatchMeans`; `FallbackMessage` by `FallbackMessageText`;
- `WordEndsAt` by `WordAt`; `IntentVoice` and `FallbackVoice` by `PickVoiceId`; `IsPunct` by `LastPunct` and `Truncate`;
- `DropCR` by `DropCRs`; `Qualifies` and `RowOf` by `KeptMeans` and `KeptFrom`; `LastN` by `ParseLastN`; `RowLine` by `Summarize`; `Render` by `DopContext.Handle`;
- `LexLe` and `TsLe` by `LexLeTotal`, `LexLeTransitive` and `TsLeIsTotalPreorder`;
- `GroupFor`, `Expected`, `AddBlob` and `GroupAll` by `GroupAllMeans` and `AddBlobStep`; `Consumed` by `AllPagesConsumed` and `ConsumedStep`; `Later` by `LaterIsTotalPreorder`; `Thrown` by `FirstClash` and `FirstClashAppend`;
- `Percent` by `PercentBounds`; `LengthOrZero` by `ProgressOf`;
- `GuessType`, `GuessTypeRedeclared` and `FirstMatch` (in `DopFile`) by `GuessTypeIsTable`, `OctetIffNoSuffix` and `RedeclaredDiffersOnJson`;
- `Extension`, `MimeFromKey` and `MimeOfExtension` by `ExtensionAfterLastDot` and `MimeIsTableLookup`.

| member | source | states |
|---|---|---|
| VideoProcessor.Normalize | functions/heygen_video_processor.js:61-67 | `videos` and `pending` default to empty; `prompts` defaults to the three keyed prompts when absent or empty; failures and status are kept |
| VideoProcessor.NormalizeSerialize | functions/heygen_video_processor.js:73 | a record the poller writes reads back as the same record |
| VideoProcessor.WantedKeys | functions/heygen_video_processor.js:49 | the wanted keys are exactly the non-empty lowercased prompt keys |
| VideoProcessor.HasAllVideosMeans | functions/heygen_video_processor.js:48-53 | ready means: some prompt has a key, and every keyed prompt has a clip whose `key \|\| prompt` equals it up to case |
| VideoProcessor.TextPromptsNeverReady | functions/heygen_video_processor.js:49-50 | prompts stored as bare strings have no keys, so such a record is never ready |
| VideoProcessor.StatusEndpoint | functions/heygen_video_processor.js:31-37 | `task_id` selects the v2 endpoint with that id; otherwise `video_id` selects the v1 endpoint with that id; with neither there is no request |
| VideoProcessor.CheckTask | functions/heygen_video_processor.js:28-46 | a reply is obtained exactly when there is an endpoint and the provider answers OK, and it is the provider's reply for that endpoint in that round; a missing id is the thrown `task_id or video_id required` |
| VideoProcessor.Classify | functions/heygen_video_processor.js:92-103 | the completion guard holds exactly when the reply has a URL, whatever its status says; `failed`/`error` without a URL is a failure; `completed` without a URL keeps waiting |
| VideoProcessor.RemoveKey | functions/heygen_video_processor.js:94-99 | `delete pending[k]` keeps exactly the other entries and shrinks the list when `k` was present |
| VideoProcessor.Step | functions/heygen_video_processor.js:84-106 | a null entry or an already captured key is skipped without counting; an error or non-terminal status counts as remaining and leaves the record unchanged; a reply with a URL or a failure always moves the key; a move removes exactly that key from `pending` and either appends exactly one clip `{key, url, thumbnail, duration}` from the provider's reply to `videos` (a URL) or sets `failures[key]` to `render failed` (a failure) |
| VideoProcessor.Pass | functions/heygen_video_processor.js:84-107 | a pass never touches `status`; a pass that moves nothing leaves the record as it was; at most one entry per snapshot entry remains |
| VideoProcessor.PassGrows | functions/heygen_video_processor.js:84-107 | a pass only removes entries from `pending` and only appends to `videos` |
| VideoProcessor.PassSettles | functions/heygen_video_processor.js:92-100 | after a pass, every snapshot entry the provider answered with a URL or a failure is out of `pending`, unless a clip for its key was already captured |
| VideoProcessor.Process | functions/heygen_video_processor.js:55-118 | a missing, empty or unparsable blob is a skip and never written; a record that parsed to null throws at line 61; other results are `ready` or `processing`, and a written record carries the reported status |
| VideoProcessor.ProcessRecord | functions/heygen_video_processor.js:69-76 | a parsed record always yields `ready` or `processing`, and any write carries that status |
| VideoProcessor.Settle | functions/heygen_video_processor.js:78-117 | after the rounds, the status is `ready` exactly when every clip is present; the record is written exactly when some pass moved an entry, and the written record is the polled one with the new status |
| VideoProcessor.ProcessPersona | functions/heygen_video_processor.js:55-118 | the imperative `processPersona` returns the result of `Process`, or its thrown error, and leaves the store as `Process` says |
| VideoProcessor.PollAndSettle | functions/heygen_video_processor.js:78-117 | the loops plus the final status and conditional write compute `Settle` |
| VideoProcessor.PollRounds | functions/heygen_video_processor.js:81-111 | the outer `while` loop, which stops at the first pass with nothing remaining, computes `Poll` |
| VideoProcessor.PollPass | functions/heygen_video_processor.js:84-107 | the inner `for` loop over a snapshot of `pending` computes `Pass` |
| VideoProcessor.JsonKeys | functions/heygen_video_processor.js:131 | exactly the listed keys ending in `.json` are processed, never more than are listed; a single key is kept exactly when it ends in `.json` |
| VideoProcessor.JsonKeysAppend | functions/heygen_video_processor.js:131 | the filter distributes over concatenation, so it keeps the listing order and repeated keys |
| VideoProcessor.ProcessEach | functions/heygen_video_processor.js:133-142 | one result per key, in order, up to the first key whose record is null, which ends the batch with its error; the batch throws exactly when some listed record is null; no store key is added or dropped; no record becomes or stops being null; records of unlisted keys are unchanged, and writes before the throw are kept |
| VideoProcessor.EachStep | functions/heygen_video_processor.js:134-138 | processing one more key keeps the batch facts |
| VideoProcessor.EachAfterThrow | functions/heygen_video_processor.js:133-142 | after a throw, one more key changes nothing |
| VideoProcessor.EachThrows | functions/heygen_video_processor.js:135 | a null record ends a clean batch with the `TypeError` message and no change |
| VideoProcessor.EachAppends | functions/heygen_video_processor.js:135-136 | any other record appends its result and changes only itself |
| VideoProcessor.ProcessEachThrown | functions/heygen_video_processor.js:133-142 | once a prefix of the keys has thrown, the remaining keys change nothing |
| VideoProcessor.NextBatchThrown | functions/heygen_video_processor.js:133-142 | a batch that threw is not extended |
| VideoProcessor.ApplyKeepsOthers | functions/heygen_video_processor.js:115 | a write replaces only the processed record, and writes a parsed record |
| VideoProcessor.Handler | functions/heygen_video_processor.js:120-143 | OPTIONS is answered with 204 and no change; otherwise the `.json` keys are processed sequentially: the count is the number of keys, or a throw gives 500 `processor_failed` with its message, keeping the earlier writes |
| VideoProcessor.RemoveKeyDistinct | functions/heygen_video_processor.js:94-99 | deleting a key from a record with distinct keys keeps the keys distinct and removes just that key |
| VideoProcessor.StepFacts | functions/heygen_video_processor.js:92-100 | a moved key leaves `pending` in the same step it enters `videos` or `failures`; separation of the three key sets and the set of known keys are kept |
| VideoProcessor.PassFacts | functions/heygen_video_processor.js:84-107 | a pass that moves nothing changes nothing; one that moves something strictly shrinks `pending`; separation and known keys are kept |
| VideoProcessor.PollFacts | functions/heygen_video_processor.js:81-111 | the same facts hold over all rounds |
| VideoProcessor.ReadyIffAllVideos | functions/heygen_video_processor.js:113 | the status of a parsed record is `ready` exactly when the reconciled record has every clip; failures never produce another status |
| VideoProcessor.FastPath | functions/heygen_video_processor.js:70-76 | with nothing pending and all clips present, the result is `ready`; it is written only when the stored status was not already `ready` |
| VideoProcessor.WriteIffMoved | functions/heygen_video_processor.js:114-116 | on the polling path the record is written exactly when some key left `pending` |
| VideoProcessor.ProcessKeepsDisjoint | functions/heygen_video_processor.js:92-100 | a written record keeps pending, captured and failed keys separated, and knows the same keys as before |
| VideoProcessor.SettledRecordIsFixedPoint | functions/heygen_video_processor.js:70-76 | a written record with nothing pending is reported the same by the next run, whatever its budget and replies, and not written again |
| VideoProcessor.PromptsKept | functions/heygen_video_processor.js:81-111 | polling never changes the prompts |
| VideoProcessor.PassPromptsKept | functions/heygen_video_processor.js:84-107 | a pass never changes the prompts |
| VideoProcessor.CompletionIsCaptured | functions/heygen_video_processor.js:92-116 | a render reported complete with a URL is captured, and the record becomes `ready` and is written |
| VideoProcessor.CompletedInOnePass | functions/heygen_video_processor.js:84-109 | one completed reply empties `pending` in one pass and sets `changed` |
| VideoProcessor.CapturedIsComplete | functions/heygen_video_processor.js:48-53 | a record whose only keyed prompt has its clip is complete |
| VideoProcessor.OneKeyedPromptWanted | functions/heygen_video_processor.js:49 | one keyed prompt gives one wanted key |
| VideoProcessor.FailureIsRecorded | functions/heygen_video_processor.js:96-116 | a failed render is recorded as `render failed` and written, and the status stays `processing` |
| VideoProcessor.NullPendingLeavesStaleStatus | functions/heygen_video_processor.js:70-88 | a null pending entry with all clips present yields `ready` without a write |
| SessionChat.FirstMatch | functions/session-chat.js:21-24 | the clip of the first rule with a keyword in the text, or none exactly when no rule matches |
| SessionChat.PickClipIsRuleClip | functions/session-chat.js:13-17 | a picked clip is one of the three rule clips |
| SessionChat.PickClipByShortKeywords | functions/session-chat.js:13-25 | the picker is decided by `fun`, `from`, `relax` in that order, because each long keyword contains its rule's short one |
| SessionChat.TwoKeywords | functions/session-chat.js:22 | a two-keyword rule matches exactly when one of its keywords occurs |
| SessionChat.FunLine | functions/session-chat.js:67 | the fun clip gets its own line |
| SessionChat.FromLine | functions/session-chat.js:68 | the from clip gets its own line, not the fun line |
| SessionChat.RelaxLine | functions/session-chat.js:69 | the relax clip gets its own line, so the generic line never follows a picked clip |
| SessionChat.SessionIdOf | functions/session-chat.js:42 | `sessionId` when set, else `session_id` when set, else `anon`; never empty |
| SessionChat.ReplyFor | functions/session-chat.js:61-79 | a matched clip gives its line and an empty `fallbackResponse`; otherwise the reply is `Okay — <text>`, or the greeting for empty text; the turn is always an assistant turn |
| SessionChat.Push | functions/session-chat.js:57-81 | a push then `capHistory` ends with the new turn, keeps the previous last turn just before it, and stays within ten turns |
| SessionChat.Seed | functions/session-chat.js:48-54 | a non-empty server history, or no client history, is left as it is |
| SessionChat.Appended | functions/session-chat.js:48-81 | the history after a request has at most ten turns, ends with the assistant turn, and has the user turn just before it when there was text |
| SessionChat.NextHistory | functions/session-chat.js:43-81 | the same, with the user text trimmed from `text` or `message` and the reply chosen from it |
| SessionChat.ClientHistoryIgnoredWhenServerHasTurns | functions/session-chat.js:49-53 | client turns never affect a session that already has turns |
| SessionChat.EmptySessionSeededFromClient | functions/session-chat.js:51-53 | an empty session takes only the last ten client turns |
| SessionChat.EmptyTextGreets | functions/session-chat.js:56-78 | empty text adds no user turn and gets the greeting |
| SessionChat.ResponseFor | functions/session-chat.js:85-92 | the response carries the session id, the picked clip, and the new history; a clip and a fallback text never both appear |
| SessionChat.Session.constructor | functions/session-chat.js:29 | a new session is empty and stamped |
| SessionChat.Session.CapHistory | functions/session-chat.js:34-37 | the history becomes its last ten turns in order, a no-op when it is short enough |
| SessionChat.Session.Update | functions/session-chat.js:48-82 | the session object's history becomes the appended history and it is stamped |
| SessionChat.SessionStore.constructor | functions/session-chat.js:8 | the table starts empty |
| SessionChat.SessionStore.EnsureSession | functions/session-chat.js:27-32 | an absent id gets a fresh empty session; an existing one is returned untouched; other sessions are unchanged |
| SessionChat.SessionStore.Record | functions/session-chat.js:45-82 | the id's session ends with the appended history and the new stamp; every other session keeps its object and history; all histories stay within ten turns |
| SessionChat.SessionStore.UpdateSession | functions/session-chat.js:48-82 | updating one session object leaves the table and the other sessions' histories as they were |
| SessionChat.SessionStore.Handle | functions/session-chat.js:39-96 | an unparsable body gives 500 and changes nothing; otherwise the session's history is `NextHistory` of its previous one, the response is `ResponseFor`, and every other session keeps its object and its history |
| DopChat.FindById | functions/dop-chat.js:68 | `find` by id returns an option with that id, and nothing exactly when none has it |
| DopChat.KnownIds | functions/dop-chat.js:9-13 | exactly `fun`, `from` and `relax` name an option |
| DopChat.CountMatches | functions/dop-chat.js:109 | the count of present keywords never exceeds the number of keywords |
| DopChat.CountMatchesAtLeastTwo | functions/dop-chat.js:109-112 | at least two matches exactly when two different keywords occur |
| DopChat.CountMatchesAtLeastOne | functions/dop-chat.js:109 | at least one match exactly when some keyword occurs |
| DopChat.FirstOption | functions/dop-chat.js:108-127 | the first option that matches, or none exactly when no option matches |
| DopChat.CheckKeywordMatch | functions/dop-chat.js:98-130 | a match is one of the configured options |
| DopChat.CheckKeywordMatchMeans | functions/dop-chat.js:102-129 | `where` with `from` gives `from`; otherwise fun, from and relax are tried in order; no match gives null |
| DopChat.SingleKeywords | functions/dop-chat.js:117-126 | `relax` alone selects relax; `for fun`, or `what` with `fun`, selects fun |
| DopChat.ClassifyWithModel | functions/dop-chat.js:170-203 | a reply is accepted exactly when it has content with an `id` and a numeric `confidence`; the accepted id is lowercased; timeout and format errors give their messages |
| DopChat.Accepted | functions/dop-chat.js:67-69 | a classification selects an option exactly when the id is not `none`, the confidence is at least 0.6 and the id names an option |
| DopChat.NoneTestRedundant | functions/dop-chat.js:67 | the `none` test is implied by the option lookup |
| DopChat.Labels | functions/dop-chat.js:210 | the labels of the options, in order |
| DopChat.FallbackMessageText | functions/dop-chat.js:209-212 | the fallback is the prefix followed by the three labels joined with `, or ` |
| DopChat.Route | functions/dop-chat.js:15-93 | non-POST gives 405; a failed parse gives 500 with the fallback; empty text gives 400; text over 500 UTF-16 units gives 400 `Input too long`; a keyword match answers without the model; the model answer is used exactly when accepted, with the accepted option's clip, id and confidence; otherwise the fallback is `fallback-no-key`, `fallback-gpt-error` or `fallback-low-confidence`; every fallback is the fallback message |
| DopChat.KeywordPathIgnoresModel | functions/dop-chat.js:35-42 | a keyword-matched question gets the same response whatever the model says and whether a key is set |
| TtsEleven.WordAt | functions/tts-eleven.js:30-31 | the intent group matches an intent word followed by a dot or the end |
| TtsEleven.UnderscoreWordAt | functions/tts-eleven.js:30 | `p?_` then the group yields an intent |
| TtsEleven.MatchAt | functions/tts-eleven.js:30-31 | a match at one index yields an intent |
| TtsEleven.Rest | functions/tts-eleven.js:30-31 | the part after the anchor yields an intent |
| TtsEleven.Leftmost | functions/tts-eleven.js:30-31 | `match` yields an intent, and nothing only when no index from the start on matches |
| TtsEleven.LeftmostIsFirst | functions/tts-eleven.js:30-32 | the captured word is that of the leftmost matching index |
| TtsEleven.LeftmostSkips | functions/tts-eleven.js:30-31 | indices without a match do not change the leftmost match |
| TtsEleven.IntentFromClip | functions/tts-eleven.js:26-33 | an empty clip gives null, and a result is always one of the three intents |
| TtsEleven.IntentFromClipIgnoresCase | functions/tts-eleven.js:28 | the clip's case does not matter |
| TtsEleven.PrefixedIntent | functions/tts-eleven.js:29-30 | `p_fun` and the like give their intent |
| TtsEleven.BareIntent | functions/tts-eleven.js:29-31 | `fun` and the like give their intent through the second pattern |
| TtsEleven.AssetIntent | functions/tts-eleven.js:29-30 | `assets/p_fun.mp4` and the like give their intent |
| TtsEleven.AssetMatch | functions/tts-eleven.js:30 | on `assets/p_<intent>.mp4` the first pattern finds the intent |
| TtsEleven.PickVoiceId | functions/tts-eleven.js:35-39 | an explicit voice wins; else the intent's voice; else the fallback voice; never empty |
| TtsEleven.LastPunct | functions/tts-eleven.js:45 | the index of the last `.`, `!` or `?`, or -1 |
| TtsEleven.ClampText | functions/tts-eleven.js:41-47 | empty exactly for blank text; trimmed text within the limit is unchanged; longer text becomes a prefix plus `…`, at most max+1 long, cut just after the last sentence end past index 120 when there is one within the limit, and at the limit otherwise |
| TtsEleven.Truncate | functions/tts-eleven.js:44-46 | the cut of a text over the limit: just after the last `.`, `!` or `?` past index 120 within the limit when there is one, at the limit otherwise |
| TtsEleven.Speak | functions/tts-eleven.js:95-134 | 200 with the audio exactly when the service answers OK; a failed answer gives its status (or 502) and the longest prefix of its text within 600 UTF-16 units; an abort gives 500 `TTS function error` with the abort message |
| TtsEleven.Handle | functions/tts-eleven.js:49-135 | GET and OPTIONS give 204; other non-POST gives 405; a missing key gives 401; bad JSON gives 400; a `null` body gives 500 `TTS function error` with the `TypeError` of reading `text`; blank text gives 400; otherwise the clamped text is spoken with the chosen voice |
| DopUploads.CompressBase64Image | functions/dop-uploads.js:13-20 | the result is the input's prefix of length min(length, KB·768) |
| DopUploads.DefaultBudget | functions/dop-uploads.js:13-14 | the default budget is 76800 characters |
| DopUploads.CompressIdempotent | functions/dop-uploads.js:13-20 | compressing twice is compressing once |
| DopUploads.GeneratePersonaPrompts | functions/dop-uploads.js:23-40 | the four bio prompts exactly when the trimmed bio is longer than ten UTF-16 units, else the three defaults |
| DopUploads.PromptsIgnoreName | functions/dop-uploads.js:23 | the name has no effect on the prompts |
| DopUploads.GenerateSystemPrompt | functions/dop-uploads.js:43-55 | starts `You are <name\|Assistant>. `, ends with the stay-in-character text, and holds the trimmed-bio clause between them exactly when the trimmed bio is longer than ten UTF-16 units |
| DopUploads.SystemPromptMentionsBio | functions/dop-uploads.js:48-50 | a bio that says something appears, trimmed, in the prompt |
| DopUploads.SystemPromptWithoutBio | functions/dop-uploads.js:46-52 | without a bio the prompt is the opening followed by the closing |
| DopUploads.BuildPersona | functions/dop-uploads.js:193-204 | `name` defaults to `My DOP`; `heygenEnabled` is the avatar id being truthy; the image is the compressed photo, a prefix of at most 76800 characters; prompts and system prompt come from the bio |
| DopUploads.PersonaKeyIsNotBackup | functions/dop-uploads.js:209-220 | the record's key is never a backup key |
| DopUploads.BackupKeysDiffer | functions/dop-uploads.js:219-220 | the two backup keys differ |
| DopUploads.Backups | functions/dop-uploads.js:218-225 | the backup writes that succeed add their files, in order, and nothing else changes |
| DopUploads.Commit | functions/dop-uploads.js:208-225 | with the intended `uploadsStore().set`, the record is stored under `personas/<dopId>.json`; only that key and the two backup keys can change |
| DopUploads.Accept | functions/dop-uploads.js:175-239 | with the intended `uploadsStore().set`: a failed record write gives 500 and stores nothing; otherwise 200 with the id, voice and avatar, and the committed store |
| DopUploads.Handle | functions/dop-uploads.js:132-255 | with the intended `uploadsStore().set`: OPTIONS gives 200; non-POST gives 405; an unparsable body gives 500; a missing photo or voice gives 400 and stores nothing; the store only changes on 200 |
| DopUploads.HandleAsWritten | functions/dop-uploads.js:132-255 | as written: every validated POST answers 500 `Upload failed: Storage failed: uploadsStore.setBlob is not a function`, no answer is a success, and the store never changes; the other branches are `Handle`'s |
| DopUploads.SetBlobDefect | functions/dop-uploads.js:208-214 | for every validated form with a working store, the intended write answers 200 and stores `personas/<dopId>.json`, while the code as written answers 500 and leaves the store unchanged |
| DopUploads.BackupFailureIsHarmless | functions/dop-uploads.js:218-225 | how many backup writes succeed never changes the response |
| DopContext.NonEmpty | functions/dop_context.js:44 | `filter(Boolean)` keeps exactly the non-empty lines, never more than it was given, and a single line exactly when it is non-empty |
| DopContext.NonEmptyAppend | functions/dop_context.js:44 | the filter distributes over concatenation, so the lines keep their order and repeats |
| DopContext.DropCRs | functions/dop_context.js:44 | each piece loses its `\r` line end and holds no newline |
| DopContext.Lines | functions/dop_context.js:44 | the lines are non-empty and hold no newline, and a string is a line exactly when it is non-empty and is some piece of the trimmed text split at `\n` with its `\r` dropped |
| DopContext.LinesOfPieces | functions/dop_context.js:44 | the non-empty pieces with their `\r` dropped are exactly the non-empty strings that some piece gives |
| DopContext.NoNewlineKept | functions/dop_context.js:44 | filtering keeps lines newline-free |
| DopContext.Kept | functions/dop_context.js:47-51 | at most one row per line |
| DopContext.KeptMeans | functions/dop_context.js:47-51 | a row is kept exactly when some line parses to it and it passes the session filter |
| DopContext.KeptAppend | functions/dop_context.js:46-52 | the kept rows of two runs of lines are the kept rows of each, in order |
| DopContext.KeptFrom | functions/dop_context.js:47-51 | the rows kept from line `i` on are that line's row, if it parses and passes the filter, then those of the later lines |
| DopContext.ParseLastN | functions/dop_context.js:43-54 | the result is the last `n` kept rows in file order, and at most `n` of them |
| DopContext.ScanBack | functions/dop_context.js:46-53 | the backward scan that stops at `n` rows, then reversed, computes the last `n` kept rows |
| DopContext.ScanFull | functions/dop_context.js:46-53 | the rows kept from a suffix of the file are the last ones of the whole file |
| DopContext.Summarize | functions/dop_context.js:56-73 | at most the last ten rows are listed, in order, one line each; phase, step and next action come from the last row with `MVP`, `unknown` and the default next action as fallbacks |
| DopContext.EffectiveN | functions/dop_context.js:91 | 30 when absent, non-numeric or 0; otherwise the number capped at 200 |
| DopContext.SessionFilter | functions/dop_context.js:92 | the session parameter, else `dopple` |
| DopContext.Handle | functions/dop_context.js:89-117 | a failed read gives 500; empty text gives `No logs yet.`; otherwise the capsule of the last `n` qualifying rows |
| LogView.LexLeTotal | functions/log_view.js:61 | any two timestamps are ordered one way or the other |
| LogView.LexLeTransitive | functions/log_view.js:61 | the timestamp order is transitive |
| LogView.TsLeIsTotalPreorder | functions/log_view.js:61 | ordering by `ts` is a total preorder, so the sort's contract applies |
| LogView.NonBlankLines | functions/log_view.js:52 | exactly the lines that are not blank are kept, never more lines than the split gives |
| LogView.NonBlank | functions/log_view.js:52 | the blank filter keeps exactly the non-blank lines, never more than it was given, and a single line exactly when it is not blank |
| LogView.NonBlankAppend | functions/log_view.js:52 | the filter distributes over concatenation, so the lines keep their order and repeats |
| LogView.Parsed | functions/log_view.js:53-58 | at most one entry per line; a single line gives its entry when it parses and nothing otherwise |
| LogView.ParsedAppend | functions/log_view.js:53-58 | parsing distributes over concatenation, so the entries keep the order and repeats of their lines |
| LogView.ParsedMeans | functions/log_view.js:53-58 | an entry is parsed exactly when some line parses to it |
| LogView.ParseLines | functions/log_view.js:53-58 | the parse loop computes `Parsed`: at most one entry per line, in file order |
| LogView.Limit | functions/log_view.js:23-26 | 200 by default; a number is clamped to [1, 2000]; a non-number is NaN, which keeps everything |
| LogView.DefaultLimitParses | functions/log_view.js:25 | the default parameter reads as 200 |
| LogView.Tail | functions/log_view.js:62 | the last `limit` entries, or all of them for NaN |
| LogView.LogText | functions/log_view.js:30-37 | an `ok` read gives its text; a 404 that is not `ok` is an empty log; any other status that is not `ok` is the error `Read failed: <status> <body>`; a throw is the error `Error: <message>` |
| LogView.Handle | functions/log_view.js:2-75 | missing credentials and read errors give 500; `format=raw` returns the text unchanged; otherwise `count` is the number of items, which are the tail of a sorted permutation of the parsed entries |
| Sorting.Sort | functions/log_view.js:61 | the array ends sorted and is a permutation of the input |
| Sorting.InsertOne | functions/log_view.js:61 | inserting one element extends the sorted prefix and keeps the permutation |
| Sorting.SwapStep | functions/log_view.js:61 | one adjacent swap keeps the insertion invariants |
| Seqs.TakeLast | functions/session-chat.js:52 | `slice(-n)` gives the last `n` elements, or all when fewer |
| Seqs.TakeLastOfSuffix | functions/dop_context.js:58 | the last `\|b\|` elements of `a + b` are `b` |
| Seqs.Reverse | functions/dop_context.js:53 | element `i` of the reversal is element `n-1-i` of the input |
| Seqs.ReverseReverse | functions/dop_context.js:53 | reversing twice gives the input back |
| DopListRecent.BucketOf | functions/dop-list-recent.js:33-39 | a grouped key has at least three parts and starts with `images` or `voices`; its persona id is the second part; every other key is ignored |
| DopListRecent.MaxTs | functions/dop-list-recent.js:41-45 | a group's timestamp is at least 0 and at least each of its blobs' timestamps, and 0 when it has none |
| DopListRecent.MaxTsAttained | functions/dop-list-recent.js:44-45 | a timestamp above 0 is that of one of the group's blobs |
| DopListRecent.Ids | functions/dop-list-recent.js:41 | the persona ids are distinct, and are exactly those of the grouped blobs |
| DopListRecent.IndexOf | functions/dop-list-recent.js:41 | the position of the group of an id, or -1 exactly when there is none |
| DopListRecent.FirstClash | functions/dop-list-recent.js:41-42 | the first blob whose persona id is a property every object inherits, or none exactly when there is no such blob |
| DopListRecent.FirstClashAppend | functions/dop-list-recent.js:30-48 | the first clash of a listing is that of its first part, or past a clash-free part that of the rest |
| DopListRecent.ThrownStep | functions/dop-list-recent.js:32-42 | past a clash-free prefix, the next blob throws the page's error or extends the prefix |
| DopListRecent.GroupAllMeans | functions/dop-list-recent.js:32-46 | the grouping gives one group per persona id, in first-seen order; each holds exactly its blobs of each bucket, in listing order, and their latest timestamp |
| DopListRecent.AddBlobStep | functions/dop-list-recent.js:33-45 | one blob takes the expected groups of a prefix to those of the prefix with it |
| DopListRecent.ExistingGroup | functions/dop-list-recent.js:41-45 | a blob of a known id updates just that id's group |
| DopListRecent.NewGroup | functions/dop-list-recent.js:41-45 | a blob of a new id opens its group at the end |
| DopListRecent.PositionOf | functions/dop-list-recent.js:41 | a known id's group sits at the id's position |
| DopListRecent.IdsSnoc | functions/dop-list-recent.js:41 | a blob of a new persona id appends that id |
| DopListRecent.GroupForSnoc | functions/dop-list-recent.js:42-45 | a blob changes only its own persona's group |
| DopListRecent.MembersEmpty | functions/dop-list-recent.js:42 | an id with no blobs has no files |
| DopListRecent.AllPagesConsumed | functions/dop-list-recent.js:30-48 | when only the last page lacks a cursor, every page is read |
| DopListRecent.GroupListing | functions/dop-list-recent.js:27-48 | the `do`/`while` over pages groups all blobs of the pages read, or ends with the error of the first blob whose id names an inherited property |
| DopListRecent.ConsumedStep | functions/dop-list-recent.js:31-48 | reading a page adds its blobs, and a page without a cursor ends the listing |
| DopListRecent.ConsumedFrom | functions/dop-list-recent.js:30-48 | the pages read from one on are that page's blobs, then the rest only when it has a cursor |
| DopListRecent.GroupPage | functions/dop-list-recent.js:32-46 | the loop over one page's blobs extends the grouping by those blobs, or ends with the first clash's error |
| DopListRecent.GroupAllSnoc | functions/dop-list-recent.js:32-46 | one more blob is one more step of the loop body |
| DopListRecent.AddOne | functions/dop-list-recent.js:33-45 | the loop body for one blob computes `AddBlob`, or throws when the blob's id names an inherited property |
| DopListRecent.LaterIsTotalPreorder | functions/dop-list-recent.js:51 | the descending comparator is a total preorder |
| DopListRecent.Handle | functions/dop-list-recent.js:16-58 | OPTIONS gives 204; non-GET gives 405; a wrong key gives 401 before any listing; a failed listing gives 500; a blob grouped under an inherited property name gives 500 with the `TypeError` message; otherwise at most 100 items, the head of a permutation of the groups sorted by `lastModified` descending |
| CheckVideo.TotalVideos | functions/check-video.js:52 | the prompts' length, or 3 when missing or empty; always positive |
| CheckVideo.StatusOf | functions/check-video.js:56 | the stored status when there is one, and `unknown` exactly when there is none |
| CheckVideo.PercentBounds | functions/check-video.js:61 | the percentage is below 100 exactly while videos are missing, 0 exactly while less than 1% is done, and at most 100 |
| CheckVideo.FloorAtLeast | functions/check-video.js:61 | the floored quotient reaches `k` exactly when the dividend reaches `k` times the divisor |
| CheckVideo.MinutesLeft | functions/check-video.js:63 | twice the missing videos, and at least 1 |
| CheckVideo.Estimate | functions/check-video.js:58-66 | `Ready!` when ready; the minutes estimate when processing; `A few minutes` otherwise |
| CheckVideo.EstimateReadsBack | functions/check-video.js:63 | the number in a processing estimate reads back as the minutes left |
| CheckVideo.ReadDigits | functions/check-video.js:63 | digits followed by a non-digit read as their value |
| CheckVideo.ProgressOf | functions/check-video.js:52-78 | the summary's counts, default status, percentage and estimate, the missing counts being 0 |
| CheckVideo.NoStatusIsUnknown | functions/check-video.js:56-58 | a record without a status is `unknown` with the vague estimate |
| CheckVideo.Handle | functions/check-video.js:12-97 | OPTIONS gives 204; non-GET gives 405; a missing id gives 400; a throwing read gives the catch's 500; a missing record gives 404; a parse failure gives 500; otherwise the progress of the parsed record |
| DopFile.FirstMatchNone | functions/dop-file.js:14 | with no matching suffix the type is octet-stream |
| DopFile.FirstMatchAt | functions/dop-file.js:7-13 | the first matching suffix decides the type |
| DopFile.GuessTypeIsTable | functions/dop-file.js:5-15 | the `if` chain is the suffix table read in order: json, png, jpg/jpeg, webp, mp3/mpeg, wav, webm |
| DopFile.LaterRows | functions/dop-file.js:10-14 | the rows from `.webp` on |
| DopFile.Row | functions/dop-file.js:7-13 | one table row is one `if` |
| DopFile.OctetIffNoSuffix | functions/dop-file.js:14 | octet-stream exactly when no listed suffix ends the lowercased key |
| DopFile.FirstIndex | functions/dop-file.js:7-13 | a matching row has a first matching row at or before it |
| DopFile.GuessTypeIgnoresCase | functions/dop-file.js:6 | the key's case does not matter |
| DopFile.JsonIffJsonSuffix | functions/dop-file.js:7 | the type is JSON exactly for keys ending in `.json` |
| DopFile.RedeclaredDiffersOnJson | functions/dop-file.js:5-26 | the second definition agrees with the first except on `.json` keys, which it serves as octet-stream |
| DopFile.Serve | functions/dop-file.js:94-107 | the guessed type, the byte length, and the bytes as text exactly for `.json` keys and as base64 otherwise |
| DopFile.Handle | functions/dop-file.js:28-121 | a missing key gives 400; missing credentials give 500; a 404 gives 404; another failure gives its status; a throw gives 500; a body is served only after an OK fetch |
| DopView.ExtensionAfterLastDot | functions/dop-view.js:8 | the extension is the lowercased text after the last `.` |
| DopView.ExtensionWithoutDot | functions/dop-view.js:8 | a key without a `.` is lowercased whole |
| DopView.ExtensionHasNoDot | functions/dop-view.js:8 | an extension never holds a `.` |
| DopView.LastPiece | functions/dop-view.js:8 | `split(".").pop()` is what follows the last `.` |
| DopView.JoinLast | functions/dop-view.js:8 | a join ends with the separator and the last part |
| DopView.MimeIsTableLookup | functions/dop-view.js:9-17 | a known extension gets its table type; octet-stream exactly for every other one, the empty one included |
| DopView.MimeIgnoresCase | functions/dop-view.js:8 | the key's case does not matter |
| DopView.ExtensionOfLower | functions/dop-view.js:8 | lowercasing the key keeps its extension |
| DopView.DopIdParam | functions/dop-view.js:24 | `id`, falling back to `dopId`, and none exactly when both are missing |
| DopView.FirstKey | functions/dop-view.js:41-42 | the first listed key, when present and non-empty |
| DopView.Embed | functions/dop-view.js:46-55 | a present key is embedded with its MIME type |
| DopView.Load | functions/dop-view.js:46-55 | no key embeds nothing; a read key is embedded with its MIME type; a `null` blob is the `TypeError` of `Buffer.from(null)` and a failed read is its error |
| DopView.Handle | functions/dop-view.js:20-88 | no id gives 400; missing credentials give 500 with their message; the first failing listing or read gives 500 with its message, in the source's order; otherwise the page embeds the first image and the first voice of that id |
| Pipeline.AsProcessorRecord | functions/dop-uploads.js:193-204 | the poller reads an upload as bare-string prompts with nothing else set |
| Pipeline.TextPrompts | functions/dop-uploads.js:202 | string prompts read back as keyless prompts, one each |
| Pipeline.AsProgressRecord | functions/check-video.js:52-56 | the progress endpoint reads an upload as its prompt count with no status |
| Pipeline.FreshUploadStaysProcessing | functions/heygen_video_processor.js:113-116 | a freshly uploaded record is always reported as `processing` and never written by the poller |
| Pipeline.KeylessRecordStaysProcessing | functions/heygen_video_processor.js:48-53 | a record of bare-string prompts without pending renders stays `processing` and unwritten |
| Pipeline.NothingPendingNothingPolled | functions/heygen_video_processor.js:84-109 | with nothing pending, polling changes nothing |
| Pipeline.FreshUploadProgress | functions/check-video.js:52-66 | a fresh upload shows all its prompts to render, four exactly when it has a bio, nothing done, and status `unknown` |
| Pipeline.NotStarted | functions/check-video.js:52-66 | a record with only prompts shows nothing done |
| Pipeline.ProcessedAsProgressRecord | functions/check-video.js:52-53 | a processed record is read with its prompt and video counts |
| Pipeline.WrittenStatusIsReported | functions/check-video.js:56-66 | once the poller writes a record, the progress endpoint shows its status, with `Ready!` or the minutes estimate |
| Text.TrimStart | functions/session-chat.js:43 | the leading white space is dropped and nothing else |
| Text.TrimEnd | functions/session-chat.js:43 | the trailing white space is dropped and nothing else |
| Text.Trim | functions/tts-eleven.js:42 | `trim` is empty exactly for blank text and otherwise starts and ends with a non-space |
| Text.TrimBothEnds | functions/tts-eleven.js:42 | trimming both ends is empty exactly for blank text |
| Text.Lower | functions/tts-eleven.js:28 | `toLowerCase` keeps the length, maps each ASCII capital to its small letter and keeps every other character |
| Text.Utf16Take | functions/tts-eleven.js:115 | `slice(0, n)` on whole characters: a prefix of at most `n` UTF-16 units that the next character would overflow, and the first `n` characters of text inside the Basic Multilingual Plane |
| Text.Utf16Length | functions/dop-uploads.js:30 | JavaScript `length`: between one and two units per character, zero only for the empty string, one unit per character inside the Basic Multilingual Plane and two outside it |
| Text.LowerIdempotent | functions/dop-file.js:6 | lowercasing twice is lowercasing once |
| Text.Contains | functions/session-chat.js:22 | `includes` holds exactly when the text occurs at some index |
| Text.ContainsTransitive | functions/session-chat.js:14-16 | containing a string that contains `t` is containing `t` |
| Text.Split | functions/dop-list-recent.js:33 | the pieces hold no separator and join back to the input |
| Text.LastIndexOf | functions/tts-eleven.js:45 | the last index holding the character, or -1 |
| Text.ParseIntOfIntToString | functions/dop_context.js:91 | reading back a rendered integer gives the integer |
| Text.NatToStringValue | functions/check-video.js:63 | the digits of a rendered number have its value |

## Left out

- Netlify Blobs and `fetch` to HeyGen, ElevenLabs and OpenAI are I/O. The store is a map or a given read result, and every remote reply is a parameter or oracle function.
- The poller's wall clock (`POLL_LIMIT_MS`, `Date.now`, `sleep`) becomes the `rounds` bound on polling passes. Time itself is not modelled.
- Poll: accepts `rounds == 0`, a run with no pass. The source's loop at line 81 always makes at least one pass, because its first clock test comes right after `start` is set. The lemmas hold for every `rounds`, so they cover the runs of one or more passes.
- VideoProcessor.Persona: keeps only the fields the poller reads or writes (`videos`, `prompts`, `pending`, `failures`, `status`). The writes at lines 73 and 115 store the whole object back, so `name`, `bio`, `image` and the other upload fields come back unchanged; the model does not carry them.
- `createVoiceClone` and `createHeyGenAvatar` (`dop-uploads.js`) are remote calls. Their outcomes are parameters of the upload environment (`voiceClone`, `avatar`).
- `Math.random` for the upload id, `new Date()` for `created`, and `Date.now()` for session stamps and missing timestamps are parameters.
- `JSON.parse` and `JSON.stringify` are not modelled as text. A parsed value is a datatype, and a parse failure is `None` or a dedicated constructor.
- `check-video.js` writes `lastUpdated` from the clock. That field is left out of `Progress`.
- CheckVideo.ProgressOf: the percentage is the integer `(completed*100)/total`. JavaScript's `Math.floor(completed/total*100)` can land one lower when the float product falls just below an integer (29 of 100 gives 28 there).
- Floating point is not modelled elsewhere either:
  - the model's confidence is a `real`;
  - the image budget `KB*1024*0.75` is the exact `KB*768`.
- `localeCompare` is taken as code-point order. `toLowerCase` lowers ASCII letters only.
- ClampText: counts and cuts characters, where `length` and `slice` count UTF-16 units. For text outside the Basic Multilingual Plane the source's limit falls earlier, and its cut can split a surrogate pair; a Dafny string cannot hold half a pair.
- Truncate: the same; its indices are character positions, not UTF-16 units.
- Speak: cuts the details on whole characters. Where a character outside the Basic Multilingual Plane straddles unit 600, `slice` keeps its first surrogate alone and the model stops before it.
- `Text.Utf16Length` gives `DopChat.Route` and `DopUploads.HasBio` JavaScript's `length` in UTF-16 units, and `Text.Utf16Take` gives `TtsEleven.Speak` its `slice(0, 600)`. Elsewhere lengths are counted in characters: `DopUploads.CompressBase64Image`, whose input is base64 text where the two agree, and the log viewer's blank-line test, which only asks whether a length is zero.
- Handler: models the record that parses to `null`, which throws at line 61 and ends the batch with 500 `processor_failed`. Other throws also end the batch with that response and are not modelled: a record that parses to a number, string or boolean; a `null` element of `videos` or `prompts` (read at lines 47, 51 and 88); and a failing `store.list`, `store.get` or `store.set`. An array record is taken as an object with no fields, though `JSON.stringify` would write it back as `[]`.
- LogView.Handle: entries always carry a string `ts`. A line that parses to `null`, or an entry whose `ts` is a truthy non-string, makes the comparator at line 61 throw once there are two entries, and the handler answers 500 with the engine's message (line 72). This throw is not modelled.
- LogView.Handle: promises a sorted permutation, not the stability of JavaScript's `sort`; entries with equal `ts` may come out in another order.
- DopListRecent.Handle: likewise does not promise the relative order of groups with equal `lastModified`.
- DopListRecent.Handle: a listing either fails outright or delivers all its pages, so the model cannot express a `store.list` call that throws on a later page after an earlier page already held an inherited-property id; the source answers with that earlier `TypeError`, because it is thrown first.
- `DopListRecent`: `Object.values(grouped)` orders its groups by first insertion. The model does not reproduce the engine's rule that integer-like keys come first.
- The `DopView` page's HTML, the blob bytes and their base64 data URLs are not modelled. Neither are `DopFile`'s base64 and UTF-8 encodings: the body keeps the bytes and the encoding chosen.
- CORS and other response headers are not modelled.
- The system prompt and request body that `classifyWithGPT` sends are not modelled. Only the validation of its reply is.
- The other functions of the repository are outside this model: the browser scripts, the thin REST adapters, `_lib/check-video.js`, Stripe checkout, e-mail, and the diagnostic, test and one-off endpoints.
- `SessionChat`: concurrent requests, and the loss of the `SESSIONS` table when the function instance is recycled, are not modelled.
- `DopUploads.Handle`: a failed main write is the 500 with `Upload failed: Storage failed`. The storage error's own message and the stack trace in `details` are not modelled.
- `DopChat.Route`: an `OPENAI_TIMEOUT_MS` abort is the `TimedOut` reply, without a clock. Likewise the 7-second abort in `tts-eleven.js` is the `Aborted` reply.

## Findings

| source | as written | input that shows it | evidently intended | confidence | as-written member | corrected member |
|---|---|---|---|---|---|---|
| functions/dop-uploads.js:209 | `uploadsStore.setBlob(...)` on the factory that `_lib/blobs.js` exports, which throws `uploadsStore.setBlob is not a function` | any POST with a photo and a voice | `uploadsStore().set(...)`: store the record and answer 200 | not executed | DopUploads.HandleAsWritten | DopUploads.Handle |
