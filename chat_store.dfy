/**
 * The chat-store handlers of src/pages/Index.tsx. Each of them rebuilds the list of
 * chats with `map` and spread and hands the result to `setChats`, so each is a
 * function from the old list (and its inputs) to the new one:
 *   `sendMediaMessage`, `handleFileSelect`, `handleCreatePoll`, `handleSendMessage`
 *   append one message to the selected chat, and `handleVotePoll` records a vote in
 *   every poll message with a given id, in every chat.
 * The clock (`new Date()`, `Date.now()`) and the object URLs are parameters.
 */
module ChatStore {
  import opened Optional
  import opened Text
  import opened Clock
  import opened ChatTypes
  import opened ChatWindow

  // ---------------------------------------------------------------------------
  // Inputs from the platform

  /** One reading of the clock: `now.getHours()`, `now.getMinutes()` and the
      millisecond stamp `Date.now()` that becomes the new message's id. */
  datatype Now = Now(hours: nat, minutes: nat, millis: int)

  predicate ValidNow(now: Now) {
    now.hours < 24 && now.minutes < 60
  }

  /** The selected file: its name and its size in bytes. */
  datatype FileInfo = FileInfo(name: string, size: nat)

  /** `'audio' | 'video'`, the two kinds `sendMediaMessage` accepts. */
  datatype MediaKind = VoiceNote | VideoNote

  // ---------------------------------------------------------------------------
  // New messages

  /** The header every new message carries: the id `Date.now()`, sent by the user
      and not yet read. (The time label is stated by `MessageTimes`.) */
  predicate Stamped(m: Message, now: Now) {
    m.id == now.millis && m.sent && !m.read
  }

  /** The fields every new message shares: id from the clock, the time string,
      sent and unread, and the given type; all optional media fields absent. */
  function Outgoing(now: Now, text: string, kind: Kind): (m: Message)
    requires ValidNow(now)
    ensures Stamped(m, now) && m.text == text && m.kind == Some(kind)
    ensures m.userVote.None? && m.pollOptions.None?
    ensures ParseClock(m.time) == Some((now.hours, now.minutes))
  {
    Message(now.millis, text, TimeString(now.hours, now.minutes), true, false, Some(kind),
      None, None, None, None, None, None, None, None, None)
  }

  function MediaText(kind: MediaKind): string {
    match kind
    case VoiceNote => "🎤 Голосовое сообщение"
    case VideoNote => "🎥 Видео-кружок"
  }

  /** The message `sendMediaMessage(type, url, duration)` builds: the URL goes to
      `audioUrl` for audio and to `videoUrl` for video. */
  function MediaMessage(now: Now, kind: MediaKind, url: string, duration: nat): (m: Message)
    requires ValidNow(now)
    ensures Stamped(m, now)
    ensures m.kind == Some(if kind == VoiceNote then Audio else Video) && m.text == MediaText(kind)
    ensures m.duration == Some(duration)
    ensures kind == VoiceNote ==> m.audioUrl == Some(url) && m.videoUrl.None?
    ensures kind == VideoNote ==> m.videoUrl == Some(url) && m.audioUrl.None?
  {
    var base := Outgoing(now, MediaText(kind), if kind == VoiceNote then Audio else Video);
    base.(duration := Some(duration),
          audioUrl := if kind == VoiceNote then Some(url) else None,
          videoUrl := if kind == VideoNote then Some(url) else None)
  }

  /** `(x).toFixed(1)` for `x = bytes / unit`, as a number of tenths: the integer `t`
      with `t / 10` closest to `x`, the larger one on a tie. */
  function Tenths(bytes: nat, unit: nat): (t: nat)
    requires unit > 0
    ensures 2 * unit * t <= 20 * bytes + unit < 2 * unit * (t + 1)
  {
    (20 * bytes + unit) / (2 * unit)
  }

  /** A number written with exactly one decimal: digits, a point, one digit. */
  predicate FixedOneForm(s: string) {
    |s| >= 3 && s[|s| - 2] == '.' && IsDigit(s[|s| - 1]) && AllDigits(s[..|s| - 2])
  }

  /** Reads such a number back as a count of tenths. */
  function FixedOneValue(s: string): nat
    requires FixedOneForm(s)
  {
    DigitsValue(s[..|s| - 2]) * 10 + DigitValue(s[|s| - 1])
  }

  /** The digits `toFixed(1)` prints for a number of tenths: the whole part, a point
      and exactly one decimal. They read back as the same number of tenths. */
  function FixedOne(t: nat): (r: string)
    ensures FixedOneForm(r) && FixedOneValue(r) == t
    ensures r[0] == '0' ==> r[..|r| - 2] == "0"
  {
    var whole := NatToString(t / 10);
    var r := whole + "." + [DigitChar(t % 10)];
    assert r[..|r| - 2] == whole;
    NatToStringRoundTrip(t / 10);
    r
  }

  /** The size label of a file: `file.size < 1024 * 1024 ? KB : MB`, one decimal. */
  function FileSizeLabel(size: nat): (r: string)
    ensures |r| >= 6 && (r[|r| - 3..] == " КБ" <==> size < 1048576)
  {
    if size < 1048576 then FixedOne(Tenths(size, 1024)) + " КБ"
    else FixedOne(Tenths(size, 1048576)) + " МБ"
  }

  /** The size label is a number with one decimal followed by the unit, kilobytes
      below 1024 * 1024 bytes and megabytes from there on; read as tenths, the number
      is `size / unit` rounded to the nearest tenth (half up). */
  lemma FileSizeShown(size: nat)
    ensures var r := FileSizeLabel(size); var unit := if size < 1048576 then 1024 else 1048576;
      |r| >= 6 && r[|r| - 3..] == (if size < 1048576 then " КБ" else " МБ") &&
      FixedOneForm(r[..|r| - 3]) && (r[0] == '0' ==> r[..|r| - 5] == "0") &&
      2 * unit * FixedOneValue(r[..|r| - 3]) <= 20 * size + unit < 2 * unit * (FixedOneValue(r[..|r| - 3]) + 1)
  {
    var unit := if size < 1048576 then 1024 else 1048576;
    var shown := FixedOne(Tenths(size, unit));
    var suffix := if size < 1048576 then " КБ" else " МБ";
    var r := shown + suffix;
    assert FileSizeLabel(size) == r;
    assert r[..|r| - 3] == shown;
    assert r[|r| - 3..] == suffix;
  }

  /** The message `handleFileSelect` builds: the file name is both the text and the
      `fileName`. */
  function FileMessage(now: Now, file: FileInfo, url: string): (m: Message)
    requires ValidNow(now)
    ensures Stamped(m, now)
    ensures m.kind == Some(File) && m.text == file.name && m.fileName == Some(file.name)
    ensures m.fileSize == Some(FileSizeLabel(file.size)) && m.fileUrl == Some(url)
  {
    Outgoing(now, file.name, File).(fileName := Some(file.name),
      fileSize := Some(FileSizeLabel(file.size)), fileUrl := Some(url))
  }

  /** `texts.map((text, index) => ({ id: start + index, text, votes: 0 }))`. */
  function Numbered(texts: seq<string>, start: int): (r: seq<PollOption>)
    ensures |r| == |texts|
    ensures forall k :: 0 <= k < |r| ==> r[k] == PollOption(start + k, texts[k], 0)
    decreases |texts|
  {
    if texts == [] then [] else [PollOption(start, texts[0], 0)] + Numbered(texts[1..], start + 1)
  }

  /** The options of a new poll: the non-blank entries of the draft, in order and
      untrimmed, numbered 0, 1, ... with no votes. */
  function PollOptionsFrom(draft: seq<string>): (r: seq<PollOption>)
    ensures |r| == |NonBlank(draft)|
    ensures forall k :: 0 <= k < |r| ==> r[k].id == k && r[k].text == NonBlank(draft)[k] && r[k].votes == 0
  {
    Numbered(NonBlank(draft), 0)
  }

  /** A new poll has distinct option ids and no votes, so it shows no results. */
  lemma NewPollIsFresh(draft: seq<string>)
    ensures UniqueIds(PollOptionsFrom(draft))
    ensures TotalVotes(PollOptionsFrom(draft)) == 0
  {
  }

  /** The message `handleCreatePoll` builds: the question, untrimmed, is both the text
      and `pollQuestion`. */
  function PollMessage(now: Now, question: string, draft: seq<string>): (m: Message)
    requires ValidNow(now)
    ensures Stamped(m, now)
    ensures m.kind == Some(Poll) && m.text == question && m.pollQuestion == Some(question)
    ensures m.pollOptions == Some(PollOptionsFrom(draft)) && m.userVote.None?
  {
    Outgoing(now, question, Poll).(pollQuestion := Some(question),
      pollOptions := Some(PollOptionsFrom(draft)))
  }

  // ---------------------------------------------------------------------------
  // Appending to the selected chat

  /** The chat-list preview the handlers store in `lastMessage`: a paper-clip before
      a file name, a chart before a poll question, the text itself otherwise. */
  function Preview(m: Message): (r: string)
    ensures |r| >= |m.text| && r[|r| - |m.text|..] == m.text
  {
    if m.kind == Some(File) then "📎 " + m.text
    else if m.kind == Some(Poll) then "📊 " + m.text
    else m.text
  }

  /** The preview repeats the message text exactly for text, audio and video messages
      (and untyped ones); files and polls carry a two-character prefix. */
  lemma PreviewIsText(m: Message)
    ensures Preview(m) == m.text <==> m.kind != Some(File) && m.kind != Some(Poll)
    ensures m.kind == Some(File) || m.kind == Some(Poll) ==> Preview(m)[2..] == m.text
  {
    if m.kind == Some(File) || m.kind == Some(Poll) {
      assert |Preview(m)| == |m.text| + 2;
    }
  }

  /** Text, audio and video messages are previewed by their text alone. */
  lemma PlainPreview(m: Message)
    requires m.kind != Some(File) && m.kind != Some(Poll)
    ensures Preview(m) == m.text
  {
  }

  /** `c` became `d` by gaining `m` at the end of its messages, with the preview and
      time of the chat taken from `m`; id, contact and unread count are untouched. */
  predicate AppendedTo(c: Chat, d: Chat, m: Message) {
    d.messages == c.messages + [m] && d.lastMessage == Preview(m) && d.time == m.time &&
    d.id == c.id && d.contact == c.contact && d.unread == c.unread
  }

  /** The `prevChats.map(...)` shared by the four send handlers: every chat whose id
      is `chatId` gains `m`; every other chat stays as it was. */
  function AppendTo(chats: seq<Chat>, chatId: int, m: Message): (r: seq<Chat>)
    ensures |r| == |chats|
    ensures forall k :: 0 <= k < |chats| && chats[k].id == chatId ==> AppendedTo(chats[k], r[k], m)
    ensures forall k :: 0 <= k < |chats| && chats[k].id != chatId ==> r[k] == chats[k]
    decreases |chats|
  {
    if chats == [] then []
    else
      var c := chats[0];
      var head := if c.id == chatId then c.(messages := c.messages + [m], lastMessage := Preview(m), time := m.time) else c;
      [head] + AppendTo(chats[1..], chatId, m)
  }

  /** When no chat has the id the list comes back unchanged. */
  lemma AppendToMissing(chats: seq<Chat>, chatId: int, m: Message)
    requires forall k :: 0 <= k < |chats| ==> chats[k].id != chatId
    ensures AppendTo(chats, chatId, m) == chats
  {
    var r := AppendTo(chats, chatId, m);
    assert forall k :: 0 <= k < |chats| ==> r[k] == chats[k];
  }

  /** Outcome of a send handler on the list of chats: when the guard fails nothing
      changes; when it holds the selected chat gains `m` and no other chat changes. */
  predicate Sent(chats: seq<Chat>, r: seq<Chat>, go: bool, selected: Option<int>, m: Message) {
    |r| == |chats| &&
    (forall k :: 0 <= k < |chats| && !(go && selected == Some(chats[k].id)) ==> r[k] == chats[k]) &&
    (forall k :: 0 <= k < |chats| && go && selected == Some(chats[k].id) ==> AppendedTo(chats[k], r[k], m))
  }

  /** After a send that went ahead, a chat with the selected id ends with `m` and
      previews it. */
  lemma SelectedShows(chats: seq<Chat>, r: seq<Chat>, selected: Option<int>, m: Message, k: nat)
    requires selected.Some? && Sent(chats, r, true, selected, m)
    requires k < |r| && r[k].id == selected.value
    ensures r[k].messages != [] && Last(r[k]) == m && r[k].lastMessage == Preview(m)
  {
    assert AppendedTo(chats[k], r[k], m);
  }

  /** `SelectedShows` for every chat with the selected id at once. */
  lemma EverySelectedShows(chats: seq<Chat>, r: seq<Chat>, selected: Option<int>, m: Message)
    requires selected.Some? && Sent(chats, r, true, selected, m)
    ensures forall k :: 0 <= k < |r| && r[k].id == selected.value ==>
      r[k].messages != [] && Last(r[k]) == m && r[k].lastMessage == Preview(m)
  {
    forall k | 0 <= k < |r| && r[k].id == selected.value
      ensures r[k].messages != [] && Last(r[k]) == m && r[k].lastMessage == Preview(m)
    {
      SelectedShows(chats, r, selected, m, k);
    }
  }

  /** The common shape of the four send handlers: when `go` holds and a chat is
      selected, `m` is appended to it; otherwise the list is kept. */
  function SendTo(chats: seq<Chat>, go: bool, selected: Option<int>, m: Message): (r: seq<Chat>)
    requires go ==> selected.Some?
    ensures Sent(chats, r, go, selected, m)
    ensures !go ==> r == chats
  {
    if go then AppendTo(chats, selected.value, m) else chats
  }

  /** `sendMediaMessage`: the voice note or video circle goes to the selected chat,
      if one is selected (a truthy `selectedChat`). */
  function SendMedia(chats: seq<Chat>, selected: Option<int>, now: Now, kind: MediaKind, url: string, duration: nat): (r: seq<Chat>)
    requires ValidNow(now)
    ensures Sent(chats, r, Truthy(selected), selected, MediaMessage(now, kind, url, duration))
  {
    SendTo(chats, Truthy(selected), selected, MediaMessage(now, kind, url, duration))
  }

  /** The selected chat now previews the media caption. */
  lemma MediaPreview(chats: seq<Chat>, selected: Option<int>, now: Now, kind: MediaKind, url: string, duration: nat)
    requires ValidNow(now) && Truthy(selected)
    ensures var r := SendMedia(chats, selected, now, kind, url, duration);
      forall k :: 0 <= k < |r| && r[k].id == selected.value ==>
        r[k].lastMessage == MediaText(kind) && Last(r[k]) == MediaMessage(now, kind, url, duration)
  {
    var m := MediaMessage(now, kind, url, duration);
    var r := SendMedia(chats, selected, now, kind, url, duration);
    PlainPreview(m);
    EverySelectedShows(chats, r, selected, m);
  }

  /** `handleFileSelect`: needs a file and a selected chat. */
  function SelectFile(chats: seq<Chat>, selected: Option<int>, file: Option<FileInfo>, now: Now, url: string): (r: seq<Chat>)
    requires ValidNow(now)
    ensures file.None? || !Truthy(selected) ==> r == chats
    ensures file.Some? ==> Sent(chats, r, Truthy(selected), selected, FileMessage(now, file.value, url))
  {
    if file.Some? then SendTo(chats, Truthy(selected), selected, FileMessage(now, file.value, url))
    else chats
  }

  /** The selected chat now previews the file name after a paper-clip. */
  lemma FilePreview(chats: seq<Chat>, selected: Option<int>, file: FileInfo, now: Now, url: string)
    requires ValidNow(now) && Truthy(selected)
    ensures var r := SelectFile(chats, selected, Some(file), now, url);
      forall k :: 0 <= k < |r| && r[k].id == selected.value ==>
        r[k].lastMessage == "📎 " + file.name && Last(r[k]) == FileMessage(now, file, url)
  {
    var m := FileMessage(now, file, url);
    var r := SelectFile(chats, selected, Some(file), now, url);
    EverySelectedShows(chats, r, selected, m);
  }

  /** The guard of `handleCreatePoll`: a question that is not blank, at least two
      options that are not blank, and a selected chat. */
  predicate CanCreatePoll(question: string, draft: seq<string>, selected: Option<int>) {
    !IsBlank(question) && |NonBlank(draft)| >= 2 && Truthy(selected)
  }

  /** `handleCreatePoll`: the poll goes to the selected chat with the options the
      draft filter keeps. */
  function CreatePoll(chats: seq<Chat>, selected: Option<int>, question: string, draft: seq<string>, now: Now): (r: seq<Chat>)
    requires ValidNow(now)
    ensures Sent(chats, r, CanCreatePoll(question, draft, selected), selected, PollMessage(now, question, draft))
  {
    SendTo(chats, CanCreatePoll(question, draft, selected), selected, PollMessage(now, question, draft))
  }

  /** The selected chat now previews the question after a chart, and its last
      message is a poll with at least two options. */
  lemma PollPreview(chats: seq<Chat>, selected: Option<int>, question: string, draft: seq<string>, now: Now)
    requires ValidNow(now) && CanCreatePoll(question, draft, selected)
    ensures var r := CreatePoll(chats, selected, question, draft, now);
      forall k :: 0 <= k < |r| && r[k].id == selected.value ==>
        r[k].lastMessage == "📊 " + question && Last(r[k]).pollOptions.Some? &&
        |Last(r[k]).pollOptions.value| >= 2
  {
    var m := PollMessage(now, question, draft);
    EverySelectedShows(chats, CreatePoll(chats, selected, question, draft, now), selected, m);
  }

  /** The guard of `handleSendMessage`: non-blank input and a selected chat. */
  predicate CanSendText(input: string, selected: Option<int>) {
    !IsBlank(input) && Truthy(selected)
  }

  /** The message `handleSendMessage` builds: the input, trimmed, as a text message. */
  function TextMessage(now: Now, input: string): (m: Message)
    requires ValidNow(now)
    ensures Stamped(m, now)
    ensures m.kind == Some(Text) && m.text == Trim(input)
    ensures m.text == [] <==> IsBlank(input)
  {
    BlankIffAllWhitespace(input);
    Outgoing(now, Trim(input), Text)
  }

  /** Every message the handlers build is stamped with the clock's time: the hour
      without a leading zero, a colon and the minutes as exactly two digits. */
  lemma MessageTimes(now: Now, text: string, k: Kind, kind: MediaKind, url: string, duration: nat,
                     file: FileInfo, question: string, draft: seq<string>, input: string)
    requires ValidNow(now)
    ensures ShowsFields(Outgoing(now, text, k).time, now.hours, now.minutes)
    ensures ShowsFields(MediaMessage(now, kind, url, duration).time, now.hours, now.minutes)
    ensures ShowsFields(FileMessage(now, file, url).time, now.hours, now.minutes)
    ensures ShowsFields(PollMessage(now, question, draft).time, now.hours, now.minutes)
    ensures ShowsFields(TextMessage(now, input).time, now.hours, now.minutes)
  {
    var stamp := TimeString(now.hours, now.minutes);
    assert Outgoing(now, text, k).time == stamp;
    assert MediaMessage(now, kind, url, duration).time == stamp;
    assert FileMessage(now, file, url).time == stamp;
    assert PollMessage(now, question, draft).time == stamp;
    assert TextMessage(now, input).time == stamp;
  }

  /** `handleSendMessage`: the trimmed input goes to the selected chat as a text
      message. */
  function SendText(chats: seq<Chat>, selected: Option<int>, input: string, now: Now): (r: seq<Chat>)
    requires ValidNow(now)
    ensures Sent(chats, r, CanSendText(input, selected), selected, TextMessage(now, input))
  {
    SendTo(chats, CanSendText(input, selected), selected, TextMessage(now, input))
  }

  /** The selected chat now ends with a non-empty text message and previews the
      trimmed input. */
  lemma TextPreview(chats: seq<Chat>, selected: Option<int>, input: string, now: Now)
    requires ValidNow(now) && CanSendText(input, selected)
    ensures var r := SendText(chats, selected, input, now);
      forall k :: 0 <= k < |r| && r[k].id == selected.value ==>
        r[k].lastMessage == Trim(input) && Last(r[k]).text != "" && Last(r[k]).kind == Some(Text)
  {
    var m := TextMessage(now, input);
    var r := SendText(chats, selected, input, now);
    PlainPreview(m);
    EverySelectedShows(chats, r, selected, m);
  }

  function Last(c: Chat): Message
    requires c.messages != []
  {
    c.messages[|c.messages| - 1]
  }

  /** The chat-list entry mirrors the conversation: preview and time come from the
      last message. Every seed chat has this shape, and every handler keeps it. */
  predicate Mirrors(c: Chat) {
    c.messages != [] ==> c.lastMessage == Preview(Last(c)) && c.time == Last(c).time
  }

  predicate AllMirror(chats: seq<Chat>) {
    forall k :: 0 <= k < |chats| ==> Mirrors(chats[k])
  }

  /** Appending keeps every chat-list entry in step with its conversation. */
  lemma AppendKeepsMirrors(chats: seq<Chat>, chatId: int, m: Message)
    requires AllMirror(chats)
    ensures AllMirror(AppendTo(chats, chatId, m))
  {
    var r := AppendTo(chats, chatId, m);
    forall k | 0 <= k < |r| ensures Mirrors(r[k]) {
      if chats[k].id == chatId {
        assert Last(r[k]) == m;
      }
    }
  }

  /** Every send handler keeps every chat-list entry in step with its conversation. */
  lemma SentKeepsMirrors(chats: seq<Chat>, r: seq<Chat>, go: bool, selected: Option<int>, m: Message)
    requires AllMirror(chats) && Sent(chats, r, go, selected, m)
    ensures AllMirror(r)
  {
    forall k | 0 <= k < |r| ensures Mirrors(r[k]) {
      if go && selected == Some(chats[k].id) {
        assert Last(r[k]) == m;
      }
    }
  }

  lemma PollKeepsMirrors(chats: seq<Chat>, selected: Option<int>, question: string, draft: seq<string>, now: Now)
    requires ValidNow(now) && AllMirror(chats)
    ensures AllMirror(CreatePoll(chats, selected, question, draft, now))
  {
    SentKeepsMirrors(chats, CreatePoll(chats, selected, question, draft, now),
      CanCreatePoll(question, draft, selected), selected, PollMessage(now, question, draft));
  }

  lemma MediaKeepsMirrors(chats: seq<Chat>, selected: Option<int>, now: Now, kind: MediaKind, url: string, duration: nat)
    requires ValidNow(now) && AllMirror(chats)
    ensures AllMirror(SendMedia(chats, selected, now, kind, url, duration))
  {
    SentKeepsMirrors(chats, SendMedia(chats, selected, now, kind, url, duration),
      Truthy(selected), selected, MediaMessage(now, kind, url, duration));
  }

  lemma TextKeepsMirrors(chats: seq<Chat>, selected: Option<int>, input: string, now: Now)
    requires ValidNow(now) && AllMirror(chats)
    ensures AllMirror(SendText(chats, selected, input, now))
  {
    SentKeepsMirrors(chats, SendText(chats, selected, input, now),
      CanSendText(input, selected), selected, TextMessage(now, input));
  }

  lemma FileKeepsMirrors(chats: seq<Chat>, selected: Option<int>, file: Option<FileInfo>, now: Now, url: string)
    requires ValidNow(now) && AllMirror(chats)
    ensures AllMirror(SelectFile(chats, selected, file, now, url))
  {
    if file.Some? {
      SentKeepsMirrors(chats, SelectFile(chats, selected, file, now, url),
        Truthy(selected), selected, FileMessage(now, file.value, url));
    }
  }

  // ---------------------------------------------------------------------------
  // Voting

  /** `opts.map(opt => opt.id === optionId ? { ...opt, votes: opt.votes + 1 } : opt)`:
      each option with the chosen id gains exactly one vote, all else is kept. */
  function Bump(opts: seq<PollOption>, optionId: int): (r: seq<PollOption>)
    ensures |r| == |opts|
    ensures forall k :: 0 <= k < |r| ==> r[k].id == opts[k].id && r[k].text == opts[k].text
    ensures forall k :: 0 <= k < |r| && opts[k].id == optionId ==> r[k].votes == opts[k].votes + 1
    ensures forall k :: 0 <= k < |r| && opts[k].id != optionId ==> r[k] == opts[k]
    decreases |opts|
  {
    if opts == [] then []
    else
      var o := opts[0];
      [if o.id == optionId then o.(votes := o.votes + 1) else o] + Bump(opts[1..], optionId)
  }

  /** How many options carry the id. */
  function CountId(opts: seq<PollOption>, optionId: int): nat
    decreases |opts|
  {
    if opts == [] then 0 else (if opts[0].id == optionId then 1 else 0) + CountId(opts[1..], optionId)
  }

  predicate HasOption(opts: seq<PollOption>, optionId: int) {
    exists k :: 0 <= k < |opts| && opts[k].id == optionId
  }

  /** The total rises by the number of options that carry the chosen id. */
  lemma {:induction false} BumpAddsCount(opts: seq<PollOption>, optionId: int)
    ensures TotalVotes(Bump(opts, optionId)) == TotalVotes(opts) + CountId(opts, optionId)
    decreases |opts|
  {
    if opts != [] {
      BumpAddsCount(opts[1..], optionId);
      assert Bump(opts, optionId)[1..] == Bump(opts[1..], optionId);
    }
  }

  /** With distinct ids an id is carried by one option or by none. */
  lemma {:induction false} CountUnique(opts: seq<PollOption>, optionId: int)
    requires UniqueIds(opts)
    ensures CountId(opts, optionId) == if HasOption(opts, optionId) then 1 else 0
    decreases |opts|
  {
    if opts != [] {
      var tail := opts[1..];
      assert UniqueIds(tail);
      CountUnique(tail, optionId);
      if opts[0].id == optionId {
        assert !HasOption(tail, optionId);
      } else if HasOption(opts, optionId) {
        var k :| 0 <= k < |opts| && opts[k].id == optionId;
        assert tail[k - 1].id == optionId;
      }
    }
  }

  /** With distinct ids a vote adds exactly one to the total when the option exists
      and nothing when it does not; the ids stay distinct. */
  lemma BumpTotal(opts: seq<PollOption>, optionId: int)
    requires UniqueIds(opts)
    ensures TotalVotes(Bump(opts, optionId)) == TotalVotes(opts) + (if HasOption(opts, optionId) then 1 else 0)
    ensures UniqueIds(Bump(opts, optionId))
  {
    BumpAddsCount(opts, optionId);
    CountUnique(opts, optionId);
  }

  /** The messages `handleVotePoll(messageId, ...)` touches: polls with options and
      that id. */
  predicate Targeted(m: Message, messageId: int) {
    m.id == messageId && m.kind == Some(Poll) && m.pollOptions.Some?
  }

  /** One message under `handleVotePoll`: a targeted poll records the vote and bumps
      the chosen option (there is no check for an earlier vote); anything else is
      returned as it was. */
  function VoteMessage(m: Message, messageId: int, optionId: int): (r: Message)
    ensures !Targeted(m, messageId) ==> r == m
    ensures Targeted(m, messageId) ==>
      r.userVote == Some(optionId) && r.pollOptions.Some? &&
      r.pollOptions.value == Bump(m.pollOptions.value, optionId) &&
      r.(userVote := m.userVote, pollOptions := m.pollOptions) == m
  {
    if Targeted(m, messageId) then
      m.(userVote := Some(optionId), pollOptions := Some(Bump(m.pollOptions.value, optionId)))
    else m
  }

  function VoteMessages(msgs: seq<Message>, messageId: int, optionId: int): (r: seq<Message>)
    ensures |r| == |msgs|
    ensures forall k :: 0 <= k < |r| ==> r[k] == VoteMessage(msgs[k], messageId, optionId)
    decreases |msgs|
  {
    if msgs == [] then [] else [VoteMessage(msgs[0], messageId, optionId)] + VoteMessages(msgs[1..], messageId, optionId)
  }

  /** `handleVotePoll(messageId, optionId)`: every chat is rebuilt, and in every chat
      every targeted poll takes the vote. Message ids need not be unique (the seed
      chats repeat 1, 2, 3), so one call may vote in several chats. */
  function Vote(chats: seq<Chat>, messageId: int, optionId: int): (r: seq<Chat>)
    ensures |r| == |chats|
    ensures forall k :: 0 <= k < |r| ==>
      r[k] == chats[k].(messages := VoteMessages(chats[k].messages, messageId, optionId))
    decreases |chats|
  {
    if chats == [] then []
    else [chats[0].(messages := VoteMessages(chats[0].messages, messageId, optionId))] + Vote(chats[1..], messageId, optionId)
  }

  /** A vote changes no text, type or time, so every preview stays in step. */
  lemma VoteKeepsMirrors(chats: seq<Chat>, messageId: int, optionId: int)
    requires AllMirror(chats)
    ensures AllMirror(Vote(chats, messageId, optionId))
  {
    var r := Vote(chats, messageId, optionId);
    forall k | 0 <= k < |r| ensures Mirrors(r[k]) {
      if chats[k].messages != [] {
        var l := Last(chats[k]);
        assert Last(r[k]) == VoteMessage(l, messageId, optionId);
        assert Preview(Last(r[k])) == Preview(l);
      }
    }
  }

  /** In every chat, every poll with that id and distinct option ids gains one vote
      in total when the option exists, and none otherwise. */
  lemma VoteTotals(chats: seq<Chat>, messageId: int, optionId: int, c: nat, i: nat)
    requires c < |chats| && i < |chats[c].messages|
    requires Targeted(chats[c].messages[i], messageId) && UniqueIds(chats[c].messages[i].pollOptions.value)
    ensures var before := chats[c].messages[i].pollOptions.value;
      var after := Vote(chats, messageId, optionId)[c].messages[i];
      after.userVote == Some(optionId) &&
      TotalVotes(after.pollOptions.value) == TotalVotes(before) + (if HasOption(before, optionId) then 1 else 0)
  {
    BumpTotal(chats[c].messages[i].pollOptions.value, optionId);
  }

  // ---------------------------------------------------------------------------
  // The click on a poll option (src/components/ChatWindow.tsx), applied to the
  // message it is shown for.

  /** `!message.userVote && handleVotePoll(message.id, option.id)`, as written. */
  function Click(m: Message, optionId: int): (r: Message)
    ensures VoteEnabled(m) ==> r == VoteMessage(m, m.id, optionId)
    ensures !VoteEnabled(m) ==> r == m
  {
    if VoteEnabled(m) then VoteMessage(m, m.id, optionId) else m
  }

  /** The click with the evidently intended guard: only while no vote is recorded. */
  function ClickIntended(m: Message, optionId: int): (r: Message)
    ensures VoteEnabledIntended(m) ==> r == VoteMessage(m, m.id, optionId)
    ensures !VoteEnabledIntended(m) ==> r == m
  {
    if VoteEnabledIntended(m) then VoteMessage(m, m.id, optionId) else m
  }

  /** As written, a vote for option id 0 leaves the buttons enabled: a second click
      on the same option is counted again, so one user adds two votes. */
  lemma SecondVoteAfterZero(m: Message)
    requires m.kind == Some(Poll) && m.pollOptions.Some? && m.userVote.None?
    requires UniqueIds(m.pollOptions.value) && HasOption(m.pollOptions.value, 0)
    ensures var twice := Click(Click(m, 0), 0);
      twice.userVote == Some(0) &&
      TotalVotes(twice.pollOptions.value) == TotalVotes(m.pollOptions.value) + 2
  {
    var opts := m.pollOptions.value;
    var once := Click(m, 0);
    BumpTotal(opts, 0);
    var k :| 0 <= k < |opts| && opts[k].id == 0;
    assert Bump(opts, 0)[k].id == 0;
    BumpTotal(Bump(opts, 0), 0);
  }

  /** With the intended guard, any two clicks on a poll with distinct option ids add
      at most one vote, and the second click changes nothing. */
  lemma ClickIntendedVotesOnce(m: Message, a: int, b: int)
    requires m.kind == Some(Poll) && m.pollOptions.Some? && UniqueIds(m.pollOptions.value)
    ensures var once := ClickIntended(m, a);
      ClickIntended(once, b) == once &&
      TotalVotes(once.pollOptions.value) <= TotalVotes(m.pollOptions.value) + 1
  {
    if m.userVote.None? {
      BumpTotal(m.pollOptions.value, a);
    }
  }

  // ---------------------------------------------------------------------------
  // Example

  /** The draft of a poll with an empty third line keeps two options, numbered from 0. */
  lemma ExamplePoll()
    ensures PollOptionsFrom(["Pizza", "Tacos", ""]) ==
      [PollOption(0, "Pizza", 0), PollOption(1, "Tacos", 0)]
  {
    assert !IsWhitespace("Pizza"[0]) && !IsWhitespace("Tacos"[0]);
    assert IsBlank("");
    assert NonBlank(["Pizza", "Tacos", ""]) == ["Pizza", "Tacos"] by {
      assert ["Pizza", "Tacos", ""][1..] == ["Tacos", ""];
      assert ["Tacos", ""][1..] == [""];
      assert [""][1..] == [];
    }
  }
}
