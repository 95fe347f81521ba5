# Messenger core in Dafny

A model of the core of a browser messenger mock-up written in React. The page holds
a list of chats, each with a contact and its ordered messages, plus a denormalised
chat-list entry: the last message's preview, its time and an unread counter. The
user can:

- send text;
- record voice notes and video notes;
- attach files;
- create polls and vote in them.

A separate storage screen counts messages by type and shows a storage breakdown with
a "clear cache" button.

The model follows the program's own structure:

| module (file) | models |
|---|---|
| `Optional` (option.dfy) | optional values (`undefined` / `null`) |
| `Text` (text.dfy) | JavaScript `trim`, the blank filter `o => o.trim()`, decimal `toString`, `padStart(2, '0')`, `split`/`join` |
| `Clock` (clock.dfy) | the two `${a}:${pad2(b)}` labels (message time, recording time) and their read-back |
| `ChatTypes` (chat_types.dfy) | the records of `src/types/chat.ts`; `type` is called `kind` |
| `ChatWindow` (chat_window.dfy) | the conversation view: initials, status line, poll totals, percentages, vote guard |
| `ChatStore` (chat_store.dfy) | the handlers of `src/pages/Index.tsx` that rebuild the chat list, as functions from the old list to the new |
| `Composer` (message_input.dfy) | the composer of `src/components/MessageInput.tsx`: poll-draft transforms, and class `Composer` holding the input line, the menus and the draft |
| `Messenger` (index.dfy) | class `Messenger`: the page state of `src/pages/Index.tsx`, its handlers as methods, the recording flags, counter, recorder and timer |
| `Storage` (storage_view.dfy) | the counting loop, the statistics, and class `StorageView` with its clear-cache handler |

Inputs from the platform are parameters:

- The clock reading (`getHours`, `getMinutes`, `Date.now()`) is a `Now` value.
- Object URLs are strings.
- Whether the browser granted the microphone or camera is a boolean.
- One firing of the one-second timer is the `Tick` method.

Storage sizes are whole tenths of a megabyte.

Four places where the code is followed rather than the intended behaviour:

- `handleVotePoll` records a vote even when the message already has one. Only the
  button guard in the conversation view stops a second vote.
- Stopping a recording does not reset the elapsed seconds. They are reset when the
  next recording starts.
- Poll option texts are kept untrimmed. Only blank options are dropped.
- A recording's `onstop` handler is created by the render that started it, so it
  sends that render's `recordingTime` (0 on the first recording, the previous
  recording's length after that) to that render's selected chat. The stop handler
  that sends the elapsed time is modelled beside it (see Findings).

## Model

The guard predicates (`CanSendText`, `CanCreatePoll`, `CanAddOption`, `CanRemoveOption`,
`InCategory`) and the header predicate `Stamped` have no rows of their own; they are
stated through the rows of the members that use them.

| member | source | states |
|---|---|---|
| Text.Trim | src/pages/Index.tsx:298 | the trimmed text starts and ends with a non-whitespace character (or is empty) |
| Text.TrimStrips | src/pages/Index.tsx:298 | `trim()` is a contiguous slice of the input and everything cut off on either side is whitespace |
| Text.BlankIffAllWhitespace | src/pages/Index.tsx:292 | `s.trim()` is falsy (empty) exactly when `s` is all whitespace, so `IsBlank` is the guard `!s.trim()` |
| Text.TrimIdempotent | src/pages/Index.tsx:298 | trimming a trimmed text changes nothing |
| Text.NonBlank | src/pages/Index.tsx:237 | `filter(o => o.trim())` keeps only non-blank options and never grows the list |
| Text.NonBlankMembers | src/pages/Index.tsx:236-237 | an option survives the filter iff it was in the draft and is not blank |
| Text.NonBlankAppend | src/components/MessageInput.tsx:155 | filtering a draft with an appended option is filtering each part |
| Text.NonBlankKeepsAll | src/pages/Index.tsx:237 | a draft with no blank option passes the filter unchanged |
| Text.NonBlankDropsAll | src/pages/Index.tsx:237 | an all-blank draft filters to nothing |
| Text.NatToString | src/pages/Index.tsx:155 | `n.toString()` is all digits, has no leading zero unless `n` is 0, and has one digit iff `n < 10` |
| Text.NatToStringRoundTrip | src/pages/Index.tsx:155 | reading the decimal digits of `n.toString()` gives back `n` |
| Text.PadStart2 | src/pages/Index.tsx:188 | `padStart(2, '0')` keeps the text as its suffix, fills up to length 2 with zeros, and leaves longer texts alone |
| Text.Split | src/components/ChatWindow.tsx:39 | `split(' ')` yields at least one piece and no piece contains a space |
| Text.SplitJoin | src/components/ChatWindow.tsx:39 | joining the pieces of `split(sep)` with `sep` gives back the string |
| Clock.ClockRoundTrip | src/pages/Index.tsx:155 | the label `${a}:${pad2(b)}` reads back as the pair `(a, b)` |
| Clock.TimeString | src/pages/Index.tsx:155 | a message time is the hour without a leading zero, a colon and the minute as exactly two digits; it reads back as the clock's hour and minute and is 4 or 5 characters long |
| Clock.FormatRecordingTime | src/pages/Index.tsx:185-189 | the recording label is the minutes `seconds / 60` without a leading zero, a colon, and exactly two digits worth `seconds % 60` |
| Clock.RecordingFields | src/pages/Index.tsx:185-189 | a `mins:ss` label with `secs < 60` shows exactly those two fields |
| Clock.RecordingTimeRoundTrip | src/pages/Index.tsx:185-189 | the recording label reads back as `(mins, secs)` with `secs < 60` and `mins * 60 + secs == seconds` |
| ChatWindow.InitialsAreWordStarts | src/components/ChatWindow.tsx:39 | the avatar initials are exactly the characters that start a word of the name, in order |
| ChatWindow.Initials | src/components/ChatWindow.tsx:39 | the initials are never longer than the name and contain no space |
| ChatWindow.StatusLine | src/components/ChatWindow.tsx:49 | an online contact shows "В сети", an offline one its `lastSeen`; nothing is shown exactly when the contact is offline without a `lastSeen` |
| ChatWindow.TextBodyShown | src/components/ChatWindow.tsx:190-192 | the text paragraph is rendered only for a text message, so never together with the poll widget |
| ChatWindow.PollShown | src/components/ChatWindow.tsx:143 | the poll widget is rendered only for a typed, non-text message that carries options |
| ChatWindow.UntypedShowsNoBody | src/components/ChatWindow.tsx:143-191 | a message without a `type` renders neither a text body nor a poll |
| ChatWindow.TotalVotes | src/components/ChatWindow.tsx:148 | the vote total is zero exactly when no option has a vote |
| ChatWindow.TotalVotesAppend | src/components/ChatWindow.tsx:148 | the vote total of a concatenation is the sum of the totals |
| ChatWindow.VotesAtMostTotal | src/components/ChatWindow.tsx:148-149 | no option has more votes than the poll's total |
| ChatWindow.Percentage | src/components/ChatWindow.tsx:149 | an option's share lies in [0, 100]; it is 0 without votes, otherwise share × total = votes × 100 |
| ChatWindow.PartialPercentages | src/components/ChatWindow.tsx:148-149 | the shares of the first `n` options add up to the first `n` options' votes over the total, times 100 |
| ChatWindow.PercentagesAddUp | src/components/ChatWindow.tsx:148-149 | once anyone has voted, the shares of all options add up to exactly 100 |
| ChatWindow.AtMostOneMarked | src/components/ChatWindow.tsx:150 | with distinct option ids, at most one option carries the check mark, and it is the voted one |
| ChatWindow.IsVoted | src/components/ChatWindow.tsx:150 | the check mark beside an option appears only together with the results, except on an option whose id is 0 |
| ChatWindow.VoteEnabled | src/components/ChatWindow.tsx:155-156 | the vote buttons are enabled exactly when the recorded vote is absent or 0 |
| ChatWindow.ResultsShown | src/components/ChatWindow.tsx:163-186 | the bars, percentages and total show exactly when the vote buttons are disabled |
| ChatWindow.VoteEnabledIntended | src/components/ChatWindow.tsx:155-156 | the intended guard (no vote recorded yet) never accepts a click the written guard refuses |
| ChatWindow.GuardsCompared | src/components/ChatWindow.tsx:155-163 | results show exactly when voting is disabled; the as-written guard and the intended one differ exactly when the vote is option 0 |
| ChatStore.Outgoing | src/pages/Index.tsx:294-303 | a new message has the id `Date.now()` of the clock, is sent and unread, carries the given text and type and no vote or options, and its time reads back as the clock's hour and minute |
| ChatStore.MessageTimes | src/pages/Index.tsx:155 | the time of every message the handlers build is the clock's hour without a leading zero, a colon and its minutes as exactly two digits (the same template at lines 195, 234 and 294) |
| ChatStore.MediaMessage | src/pages/Index.tsx:155-167 | a media message has the clock's id and is sent and unread; a voice note has type audio, the voice-note caption and the audio URL only; a video note has type video and the video URL only; both carry the duration |
| ChatStore.Tenths | src/pages/Index.tsx:198-200 | `t` is `bytes / unit` in tenths rounded half up |
| ChatStore.FixedOne | src/pages/Index.tsx:199 | `toFixed(1)` of `t` tenths is digits without a leading zero (unless the whole part is 0), a point and one digit, and reads back as `t` |
| ChatStore.FileSizeLabel | src/pages/Index.tsx:198-200 | the size label is at least six characters and ends in " КБ" exactly when the size is below 1048576 bytes |
| ChatStore.FileSizeShown | src/pages/Index.tsx:198-200 | the size label ends in " КБ" below 1048576 bytes and " МБ" from there on; its number has no leading zero unless it is below 1, and is the size in that unit rounded to the nearest tenth |
| ChatStore.FileMessage | src/pages/Index.tsx:195-212 | a file message has the clock's id, is sent and unread, and has type file, the file name as text and `fileName`, the size label and the URL |
| ChatStore.Numbered | src/pages/Index.tsx:238 | numbering gives each text the id `start + k` and zero votes |
| ChatStore.PollOptionsFrom | src/pages/Index.tsx:236-238 | the options are the non-blank drafts, in order, with ids 0, 1, … and no votes |
| ChatStore.NewPollIsFresh | src/pages/Index.tsx:236-238 | a new poll has distinct option ids and a vote total of 0 |
| ChatStore.ExamplePoll | src/pages/Index.tsx:236-238 | the draft `["Pizza", "Tacos", ""]` becomes options 0 "Pizza" and 1 "Tacos" |
| ChatStore.PollMessage | src/pages/Index.tsx:234-249 | a poll message has the clock's id, is sent and unread, and has type poll, the question as text and `pollQuestion`, the numbered options and no vote |
| ChatStore.Preview | src/pages/Index.tsx:220 | every chat-list preview (the text itself at lines 175 and 311, a prefixed file name at 220, a prefixed question at 257) ends with the message text |
| ChatStore.PreviewIsText | src/pages/Index.tsx:220 | the chat-list preview equals the message text iff the message is neither a file nor a poll; otherwise it is a two-character prefix and the text |
| ChatStore.AppendTo | src/pages/Index.tsx:169-181 | every chat with the id gains the message at the end, with preview and time from it; every other chat is unchanged |
| ChatStore.AppendToMissing | src/pages/Index.tsx:169-181 | when no chat has the id, the list is unchanged |
| ChatStore.SelectedShows | src/pages/Index.tsx:172-177 | after a send, the selected chat ends with the new message and previews it |
| ChatStore.SendTo | src/pages/Index.tsx:169-181 | when the guard holds only the selected chat gains the message; when it fails nothing changes |
| ChatStore.SendMedia | src/pages/Index.tsx:152-183 | `sendMediaMessage` appends the media message to the selected chat iff a chat is selected (a truthy id) |
| ChatStore.MediaPreview | src/pages/Index.tsx:175-176 | after a media send the selected chat ends with the media message and previews its caption |
| ChatStore.SelectFile | src/pages/Index.tsx:191-229 | no file or no selected chat changes nothing; otherwise the file message is appended to the selected chat |
| ChatStore.FilePreview | src/pages/Index.tsx:220-221 | after a file send the selected chat previews "📎 " and the file name |
| ChatStore.CreatePoll | src/pages/Index.tsx:231-269 | the poll is appended iff the question is not blank, at least two options are not blank and a chat is selected |
| ChatStore.PollPreview | src/pages/Index.tsx:257-258 | after a poll send the selected chat previews "📊 " and the question, and its last message has at least two options |
| ChatStore.TextMessage | src/pages/Index.tsx:294-303 | a text message has the clock's id, is sent and unread, and carries the trimmed input, which is empty iff the input is blank |
| ChatStore.SendText | src/pages/Index.tsx:291-322 | the trimmed text is appended iff the input is not blank and a chat is selected |
| ChatStore.TextPreview | src/pages/Index.tsx:311-312 | after a text send the selected chat previews the trimmed input, which is non-empty |
| ChatStore.AppendKeepsMirrors | src/pages/Index.tsx:169-181 | appending keeps every chat-list entry showing its last message's preview and time |
| ChatStore.SentKeepsMirrors | src/pages/Index.tsx:169-181 | any send outcome keeps every chat-list entry in step with its conversation |
| ChatStore.MediaKeepsMirrors | src/pages/Index.tsx:169-181 | `sendMediaMessage` keeps every chat-list entry in step |
| ChatStore.FileKeepsMirrors | src/pages/Index.tsx:214-226 | `handleFileSelect` keeps every chat-list entry in step |
| ChatStore.PollKeepsMirrors | src/pages/Index.tsx:251-263 | `handleCreatePoll` keeps every chat-list entry in step |
| ChatStore.TextKeepsMirrors | src/pages/Index.tsx:305-317 | `handleSendMessage` keeps every chat-list entry in step |
| ChatStore.Bump | src/pages/Index.tsx:280-282 | options with the voted id gain one vote; all others, and every id and text, are unchanged |
| ChatStore.BumpAddsCount | src/pages/Index.tsx:280-282 | the vote total grows by the number of options carrying the voted id |
| ChatStore.CountUnique | src/pages/Index.tsx:280-282 | with distinct ids, at most one option carries a given id |
| ChatStore.BumpTotal | src/pages/Index.tsx:280-282 | with distinct ids, a vote adds exactly one to the total if the id exists and nothing otherwise, and ids stay distinct |
| ChatStore.VoteMessage | src/pages/Index.tsx:276-284 | a poll message with the id and options records the vote and bumps the option; any other message is unchanged; nothing else in the message changes |
| ChatStore.VoteMessages | src/pages/Index.tsx:275-286 | the vote is applied to each message of a chat |
| ChatStore.Vote | src/pages/Index.tsx:271-289 | `handleVotePoll` applies the vote to every message of every chat and changes nothing else in the chats |
| ChatStore.VoteKeepsMirrors | src/pages/Index.tsx:271-289 | voting keeps every chat-list entry in step with its conversation |
| ChatStore.VoteTotals | src/pages/Index.tsx:271-289 | a targeted poll records the vote and its total grows by one exactly when the option exists |
| ChatStore.Click | src/components/ChatWindow.tsx:155 | a click votes exactly when the as-written guard `!message.userVote` lets it through |
| ChatStore.ClickIntended | src/components/ChatWindow.tsx:155 | a click votes exactly when no vote has been recorded |
| ChatStore.SecondVoteAfterZero | src/components/ChatWindow.tsx:155-156 | as written, two clicks on option 0 of a fresh poll count two votes |
| ChatStore.ClickIntendedVotesOnce | src/components/ChatWindow.tsx:155-156 | with the intended guard, a second click changes nothing and the total grows by at most one |
| Composer.EditedOption | src/components/MessageInput.tsx:132-135 | editing option `i` replaces it and keeps the rest and the length |
| Composer.WithBlankOption | src/components/MessageInput.tsx:155-156 | below 10 options a blank option is appended; at 10 nothing changes; the 2..10 range is kept |
| Composer.WithoutOption | src/components/MessageInput.tsx:142 | `filter((_, i) => i !== index)` removes exactly the option at `index` |
| Composer.RemovedOption | src/components/MessageInput.tsx:138-142 | above two options, removing option `i` drops exactly that entry and keeps the others in order; at two options nothing changes; the 2..10 range is kept |
| Composer.DraftStaysInRange | src/components/MessageInput.tsx:132-156 | any sequence of edits, additions and removals keeps the draft between 2 and 10 options |
| Composer.EmptyDraftInRange | src/components/MessageInput.tsx:110-114 | starting from the reset draft `['', '']`, the draft always has 2 to 10 options |
| Composer.SubmitMatchesCreate | src/components/MessageInput.tsx:165 | the submit button is enabled (with a chat selected) exactly when the poll handler goes ahead |
| Composer.EmptyDraftNotSubmittable | src/components/MessageInput.tsx:165 | the reset poll creator cannot be submitted |
| Composer.SubmitEnabled | src/components/MessageInput.tsx:165 | the submit button is enabled only with a non-empty question and at least two options |
| Composer.ViewOf | src/components/MessageInput.tsx:80-175 | the recording view shows while either recording flag is set, then the poll creator, else the composer |
| Composer.SendButtonMatchesSend | src/components/MessageInput.tsx:250-257 | the send button shows exactly when the send handler would send (with a chat selected) |
| Composer.SendButtonShown | src/components/MessageInput.tsx:250 | the send button shows exactly when the trimmed input is not empty |
| Composer.Composer.constructor | src/pages/Index.tsx:12-21 | the composer starts with an empty input, closed menus and the draft `['', '']` |
| Composer.Composer.CurrentView | src/components/MessageInput.tsx:80-101 | the recording view shows exactly while a recording flag is set, the poll creator exactly when not recording and the creator is open |
| Composer.Composer.EmojiClick | src/components/MessageInput.tsx:62-64 | the emoji is appended to the input and nothing else changes |
| Composer.Composer.SetInput | src/components/MessageInput.tsx:227 | typing replaces the input |
| Composer.Composer.SetQuestion | src/components/MessageInput.tsx:123 | typing replaces the poll question |
| Composer.Composer.EditOption | src/components/MessageInput.tsx:132-135 | the edited option is replaced in place and the draft stays in range |
| Composer.Composer.AddOption | src/components/MessageInput.tsx:155-156 | a blank option is appended below 10 options, nothing changes at 10 |
| Composer.Composer.RemoveOption | src/components/MessageInput.tsx:138-142 | above two options the option is removed, at two nothing changes |
| Composer.Composer.ClosePollCreator | src/components/MessageInput.tsx:110-114 | closing hides the creator and resets question and draft |
| Composer.Composer.ChoosePoll | src/components/MessageInput.tsx:204-207 | the poll creator opens and the attach menu closes |
| Composer.Composer.ChooseFile | src/components/MessageInput.tsx:193-196 | the attach menu closes |
| Composer.Composer.ToggleAttachMenu | src/components/MessageInput.tsx:183 | the attach menu flips |
| Composer.Composer.ToggleEmojiPicker | src/components/MessageInput.tsx:237 | the emoji picker flips |
| Composer.Composer.ClearAfterSend | src/pages/Index.tsx:319-320 | the input is cleared and the emoji picker closes |
| Messenger.Seed | src/pages/Index.tsx:44-45 | a seed message has no type and the given text and time |
| Messenger.SeedContacts | src/pages/Index.tsx:29-34 | there are four seed contacts |
| Messenger.SeedChats | src/pages/Index.tsx:36-73 | three seed chats with 4, 2 and 3 messages, every chat-list entry in step with its last message, and message ids reused across chats |
| Messenger.Messenger.constructor | src/pages/Index.tsx:9-27 | the page starts on the seed chats, chat 1 selected, not recording, time 0, no recorder, no chunks |
| Messenger.Messenger.SetChats | src/pages/Index.tsx:36 | `setChats` replaces the list and keeps the page invariant |
| Messenger.Messenger.SelectChat | src/pages/Index.tsx:11 | selecting a chat sets the selected id |
| Messenger.Messenger.SendMessage | src/pages/Index.tsx:291-322 | the chats become `SendText` of the old chats and input; when it sent, the input is cleared and the picker closed, otherwise the composer is unchanged |
| Messenger.Messenger.SendMediaMessage | src/pages/Index.tsx:152-183 | the chats become `SendMedia` of the old chats for the chat selected in the render that defined the handler |
| Messenger.Messenger.FileSelect | src/pages/Index.tsx:191-229 | the chats become `SelectFile` of the old chats; the attach menu closes iff a file was sent |
| Messenger.Messenger.CreatePoll | src/pages/Index.tsx:231-269 | the chats become `CreatePoll` of the old chats and draft; when it sent, the creator closes and the draft resets, otherwise the draft is unchanged |
| Messenger.Messenger.VotePoll | src/pages/Index.tsx:271-289 | the chats become `Vote` of the old chats |
| Messenger.Messenger.StartRecording | src/pages/Index.tsx:77-139 | with access granted: an active recorder of that kind whose `onstop` holds the elapsed time and the selected chat from before the start, empty chunks, time 0, timer running, and that recording flag set; without access nothing changes |
| Messenger.Messenger.Tick | src/pages/Index.tsx:101-103 | while the timer runs each firing adds one second |
| Messenger.Messenger.DataAvailable | src/pages/Index.tsx:84-88 | a non-empty chunk is appended, an empty one is ignored |
| Messenger.Messenger.StopRecording | src/pages/Index.tsx:141-150 | both flags clear and the timer stops; an active recorder becomes inactive and its media message goes to the chat and with the duration the recorder captured at the start; the elapsed time is kept |
| Messenger.Messenger.StopRecordingIntended | src/pages/Index.tsx:90-94 | as `StopRecording`, but the media message carries the elapsed time at the stop |
| Messenger.Messenger.RecordingLabel | src/components/MessageInput.tsx:86 | the label shown while recording is the minutes without a leading zero, a colon and the seconds as exactly two digits; it reads back as `recordingTime` |
| Messenger.RecordFor | src/pages/Index.tsx:77-150 | start, `n` timer firings, stop: the time is `n` and the label reads back as `n` seconds, but the message sent carries the time from before the start |
| Messenger.RecordForIntended | src/pages/Index.tsx:77-150 | with the intended stop handler the same session sends a message whose duration is `n` |
| Storage.CountMessages | src/components/StorageView.tsx:37-47 | the nested counting loop yields the same counts as the statistics' `reduce`/`filter` expressions |
| Storage.CategoriesPartition | src/components/StorageView.tsx:43-45 | each message is in exactly one of text, media, file or uncounted, so the four counts add up to the list length |
| Storage.CountZeroIff | src/components/StorageView.tsx:219-229 | a filter count is zero iff no message of the list has that type |
| Storage.TalliesPartition | src/components/StorageView.tsx:213-229 | over all chats the four counts add up to the message total |
| Storage.TallyZeroIff | src/components/StorageView.tsx:219-229 | a tally is zero iff no message in any chat has that type |
| Storage.CountsBounded | src/components/StorageView.tsx:37-47 | text + media + file counts never exceed the message total, and equal it iff no message is a poll or untyped |
| Storage.Measured | src/components/StorageView.tsx:49-63 | the record is consistent with a 100 MB total and a 3.2 MB cache, and uses just the cache exactly when no message is counted |
| Storage.ShownStatistics | src/components/StorageView.tsx:205-229 | the figures are `chats.length`, the number of all messages, the audio and video messages and the file messages; media plus files never exceed the messages |
| Storage.ClearedCache | src/components/StorageView.tsx:69-77 | the cache becomes 0 and `used` drops by the old cache; the other categories and the total stay; consistency is kept; on an empty cache nothing changes |
| Storage.StorageView.constructor | src/components/StorageView.tsx:25-35 | the record starts at 100 MB total with nothing used |
| Storage.StorageView.Refresh | src/components/StorageView.tsx:37-63 | the record becomes the sizes of the counted messages, with `used` the sum of the categories |
| Storage.StorageView.CanClearCache | src/components/StorageView.tsx:181 | while the button is disabled, clearing the cache would change nothing |
| Storage.StorageView.ClearCache | src/components/StorageView.tsx:69-77 | the record becomes `ClearedCache` of the old one; consistency is kept and the button is disabled afterwards |

## Left out

- Media capture and playback are left out: `getUserMedia`, `MediaRecorder`, `Blob`,
  `URL.createObjectURL`, `Audio.play()` and download links are platform I/O. The
  recorder is a kind, an active flag and what its `onstop` handler captured, and
  chunks are their sizes.
- Device errors from `getUserMedia` are not modelled as exceptions. They are
  `StartRecording(kind, false)`, which changes nothing.
- Timers and async code are left out. `setInterval` and `clearInterval` are the
  `timerRunning` flag and `Tick`, and the async device acquisition is one step.
- `Messenger.Messenger.StartRecording`: two starts in quick succession are not modelled
  as a race. The record buttons stay on screen until the recording flag is set
  (src/components/MessageInput.tsx:80, 258-274), so a second click while device access
  is pending starts a second recorder and a second interval. Only the last interval id
  is kept (src/pages/Index.tsx:101, 133, 146), so the first timer is never cleared and
  the first recorder is never stopped. The model replaces recorder and timer in one step.
- `Messenger.Messenger.StartRecording`: the render that starts a recording is taken to
  be the one the click happened in; a re-render while device access is pending is not
  modelled.
- `Messenger.Messenger.StopRecording` sends the media message at once. In the browser
  this happens asynchronously, after the recorder stops.
- `ChatWindow.InitialsAreWordStarts`: strings are sequences of Unicode characters, while
  JavaScript strings are UTF-16 code units. `n[0]` of a word starting with a character
  outside the Basic Multilingual Plane (an emoji) is a lone surrogate in JavaScript and
  the whole character here.
- `ChatWindow.Initials`: its length bound counts characters, not UTF-16 code units.
- `ChatStore.PreviewIsText`: the "two-character prefix" is two characters ("📎 " or
  "📊 "); in UTF-16 it is three code units.
- `ChatStore.Outgoing`: its contract fixes the time label only as reading back to the
  clock's hour and minute. The exact form is stated by `ChatStore.MessageTimes`,
  because every handler's contract would otherwise carry it.
- `ChatStore.MediaMessage`: the time label is stated by `ChatStore.MessageTimes`, not by
  its contract.
- `ChatStore.FileMessage`: the time label is stated by `ChatStore.MessageTimes`, not by
  its contract.
- `ChatStore.PollMessage`: the time label is stated by `ChatStore.MessageTimes`, not by
  its contract.
- `ChatStore.TextMessage`: the time label is stated by `ChatStore.MessageTimes`, not by
  its contract.
- Clocks are parameters. `new Date()` and `Date.now()` become a `Now` value, and
  message ids are not assumed to be unique.
- `ChatWindow.Percentage`: real numbers, not IEEE doubles. The `toFixed(0)` text of
  the percentage and the bar width are not modelled.
- `ChatStore.FileSizeShown`: the `toFixed(1)` number is rounded half up in exact
  integers. This agrees with the doubles for every size below 2^53 bytes. Dividing
  by a power of two is exact, and `toFixed` takes the larger candidate on a tie.
  Larger sizes are not modelled.
- `Storage.StorageView.Refresh`: sizes are exact tenths of a megabyte. The JavaScript
  float sums (for example 1.8 × n), `usedPercentage` and `freeSpace` are not modelled.
- `Storage.StorageView.ClearCache`: the button guard `cache === 0` is the predicate
  `CanClearCache`. The handler has no guard of its own, and on an empty cache it
  changes nothing.
- Click-outside handling, the emoji widget, JSX layout and styling are left out.
  Click-outside closes menus on a `mousedown` outside them.
- The sidebar (navigation, search, view switching) and the storage screen's back
  button are not part of this model.
- `unread` counters are never changed by the handlers, so they are carried through
  as data.

## Findings

| source | as written | input that shows it | evidently intended | confidence | as-written member | corrected member |
|---|---|---|---|---|---|---|
| src/pages/Index.tsx:90-94 | the `onstop` handler sends `recordingTime` as seen by the render that started the recording, before `setRecordingTime(0)` and the timer took effect | a fresh page (`recordingTime` 0): record a voice note for 5 seconds and stop; the note is sent with duration 0, and the next recording is sent with duration 5 | the duration sent is the elapsed time at the stop | high; not executed | Messenger.RecordFor | Messenger.RecordForIntended |
| src/components/ChatWindow.tsx:155-156 | the vote button is enabled while `!message.userVote`, and `0` is falsy | a new poll (option ids start at 0, src/pages/Index.tsx:238): click option 0, then click option 0 again; the second click is accepted and the poll counts two votes | a vote is accepted only while no vote is recorded (`userVote === undefined`) | high; not executed | ChatStore.SecondVoteAfterZero | ChatStore.ClickIntendedVotesOnce |
