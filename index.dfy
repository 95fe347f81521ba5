/**
 * The page state of src/pages/Index.tsx as one object: the chats, the selected chat,
 * the composer state it hands to MessageInput, and the recording machinery (the two
 * recording flags, the elapsed seconds, the recorder reference, the recorded chunks
 * and the one-second timer). Each handler is a method; the chat handlers delegate to
 * the functions of `ChatStore`. Device access, the timer and the clock are explicit:
 * `StartRecording` is told whether the device was granted, `Tick` is one firing of
 * the timer, and the clock reading and object URL are parameters.
 */
module Messenger {
  import opened Optional
  import opened Text
  import opened Clock
  import opened ChatTypes
  import opened ChatStore
  import opened Composer

  /** `mediaRecorderRef.current`: what it records, whether its state is not
      'inactive', and what its `onstop` handler captured from the render that started
      the recording: that render's `recordingTime` (the duration it will send) and
      its `selectedChat` (the chat its `sendMediaMessage` appends to). */
  datatype Recorder = Recorder(kind: MediaKind, active: bool, duration: nat, chat: Option<int>)

  // ---------------------------------------------------------------------------
  // The seed data

  function Seed(id: int, text: string, time: string, sent: bool, read: bool): (m: Message)
    ensures m.kind.None? && m.text == text && m.time == time
  {
    Message(id, text, time, sent, read, None, None, None, None, None, None, None, None, None, None)
  }

  function SeedContacts(): (r: seq<Contact>)
    ensures |r| == 4
  {
    [Contact(1, "Анна Соколова", "", Online, None),
     Contact(2, "Дмитрий Петров", "", Offline, Some("2 часа назад")),
     Contact(3, "Елена Иванова", "", Online, None),
     Contact(4, "Михаил Зайцев", "", Offline, Some("вчера"))]
  }

  /** The three seed chats. Their message ids repeat from chat to chat. */
  function SeedChats(): (r: seq<Chat>)
    ensures |r| == 3 && |r[0].messages| == 4 && |r[1].messages| == 2 && |r[2].messages| == 3
    ensures AllMirror(r)
    ensures r[0].messages[0].id == r[1].messages[0].id == r[2].messages[0].id
  {
    var c := SeedContacts();
    var r := [
      Chat(1, c[0], "Отлично, встречаемся завтра!", "14:32", 2, [
        Seed(1, "Привет! Как дела?", "14:28", false, true),
        Seed(2, "Привет! Всё хорошо, спасибо", "14:30", true, true),
        Seed(3, "Можем встретиться завтра?", "14:31", false, true),
        Seed(4, "Отлично, встречаемся завтра!", "14:32", true, false)]),
      Chat(2, c[1], "Документы отправил на почту", "13:15", 0, [
        Seed(1, "Не забудь отправить документы", "12:00", true, true),
        Seed(2, "Документы отправил на почту", "13:15", false, true)]),
      Chat(3, c[2], "Спасибо за помощь! 🙏", "Вчера", 0, [
        Seed(1, "Подскажи, как решить эту задачу?", "Вчера", false, true),
        Seed(2, "Конечно, вот решение...", "Вчера", true, true),
        Seed(3, "Спасибо за помощь! 🙏", "Вчера", false, true)])
    ];
    assert Mirrors(r[0]) && Mirrors(r[1]) && Mirrors(r[2]);
    r
  }

  // ---------------------------------------------------------------------------
  // The page

  class Messenger {
    var chats: seq<Chat>
    var selectedChat: Option<int>
    var isRecordingAudio: bool
    var isRecordingVideo: bool
    var recordingTime: nat
    var recorder: Option<Recorder>
    var chunks: seq<nat>
    var timerRunning: bool
    const composer: Composer

    predicate Recording()
      reads this
    {
      isRecordingAudio || isRecordingVideo
    }

    predicate RecorderActive()
      reads this
    {
      recorder.Some? && recorder.value.active
    }

    /** Every chat-list entry shows its last message, and the recording view is up
        exactly while a recorder is active and the timer runs. (The draft's own
        invariant is `composer.Valid()`, kept by the handlers that touch the draft.) */
    ghost predicate Valid()
      reads this
    {
      AllMirror(chats) &&
      (isRecordingAudio || isRecordingVideo) == (recorder.Some? && recorder.value.active) &&
      (isRecordingAudio || isRecordingVideo) == timerRunning
    }

    constructor ()
      ensures Valid() && composer.Valid() && fresh(composer)
      ensures chats == SeedChats() && selectedChat == Some(1)
      ensures !Recording() && recordingTime == 0 && recorder.None? && chunks == []
    {
      chats := SeedChats();
      selectedChat := Some(1);
      isRecordingAudio := false;
      isRecordingVideo := false;
      recordingTime := 0;
      recorder := None;
      chunks := [];
      timerRunning := false;
      composer := new Composer();
    }

    /** `setChats`: the list is replaced by one whose entries all mirror their
        conversations. */
    method SetChats(next: seq<Chat>)
      requires Valid() && AllMirror(next)
      modifies this`chats
      ensures Valid() && chats == next
    {
      chats := next;
    }

    /** `setSelectedChat`, as the chat list calls it. */
    method SelectChat(id: Option<int>)
      requires Valid()
      modifies this`selectedChat
      ensures Valid() && selectedChat == id
    {
      selectedChat := id;
    }

    /** `handleSendMessage`: the trimmed input goes to the selected chat, then the
        input empties and the emoji picker closes; with a blank input or no chat
        selected nothing happens. */
    method SendMessage(now: Now)
      requires Valid() && composer.Valid() && ValidNow(now)
      modifies this`chats, composer`messageInput, composer`showEmojiPicker
      ensures Valid() && composer.Valid()
      ensures chats == SendText(old(chats), selectedChat, old(composer.messageInput), now)
      ensures CanSendText(old(composer.messageInput), selectedChat) ==>
        composer.messageInput == "" && !composer.showEmojiPicker
      ensures !CanSendText(old(composer.messageInput), selectedChat) ==>
        composer.messageInput == old(composer.messageInput) && composer.showEmojiPicker == old(composer.showEmojiPicker)
    {
      var input := composer.messageInput;
      if CanSendText(input, selectedChat) {
        composer.ClearAfterSend();
      }
      TextKeepsMirrors(chats, selectedChat, input, now);
      SetChats(SendText(chats, selectedChat, input, now));
    }

    /** `sendMediaMessage` as defined in a render whose `selectedChat` was `selected`. */
    method SendMediaMessage(selected: Option<int>, now: Now, kind: MediaKind, url: string, duration: nat)
      requires Valid() && ValidNow(now)
      modifies this`chats
      ensures Valid()
      ensures chats == SendMedia(old(chats), selected, now, kind, url, duration)
    {
      var next := SendMedia(chats, selected, now, kind, url, duration);
      MediaKeepsMirrors(chats, selected, now, kind, url, duration);
      SetChats(next);
    }

    /** `handleFileSelect`: with a file and a selected chat the file message is
        appended and the attach menu closes. */
    method FileSelect(file: Option<FileInfo>, now: Now, url: string)
      requires Valid() && composer.Valid() && ValidNow(now)
      modifies this`chats, composer`showAttachMenu
      ensures Valid() && composer.Valid()
      ensures chats == ChatStore.SelectFile(old(chats), selectedChat, file, now, url)
      ensures file.Some? && Truthy(selectedChat) ==> !composer.showAttachMenu
      ensures !(file.Some? && Truthy(selectedChat)) ==> composer.showAttachMenu == old(composer.showAttachMenu)
    {
      var go := file.Some? && Truthy(selectedChat);
      var next := ChatStore.SelectFile(chats, selectedChat, file, now, url);
      FileKeepsMirrors(chats, selectedChat, file, now, url);
      SetChats(next);
      if go {
        composer.ChooseFile();
      }
    }

    /** `handleCreatePoll`: with a valid draft and a selected chat the poll is
        appended, the draft resets to an empty question and `['', '']`, and the
        creator closes. */
    method CreatePoll(now: Now)
      requires Valid() && composer.Valid() && ValidNow(now)
      modifies this`chats, composer`showPollCreator, composer`pollQuestion, composer`pollOptions
      ensures Valid() && composer.Valid()
      ensures chats == ChatStore.CreatePoll(old(chats), selectedChat, old(composer.pollQuestion), old(composer.pollOptions), now)
      ensures CanCreatePoll(old(composer.pollQuestion), old(composer.pollOptions), selectedChat) ==>
        composer.pollQuestion == "" && composer.pollOptions == EmptyDraft && !composer.showPollCreator
      ensures !CanCreatePoll(old(composer.pollQuestion), old(composer.pollOptions), selectedChat) ==>
        composer.pollQuestion == old(composer.pollQuestion) && composer.pollOptions == old(composer.pollOptions) &&
        composer.showPollCreator == old(composer.showPollCreator)
    {
      var question, draft := composer.pollQuestion, composer.pollOptions;
      var go := CanCreatePoll(question, draft, selectedChat);
      var next := ChatStore.CreatePoll(chats, selectedChat, question, draft, now);
      PollKeepsMirrors(chats, selectedChat, question, draft, now);
      SetChats(next);
      if go {
        composer.ClosePollCreator();
      }
    }

    /** `handleVotePoll`: no guard of its own. */
    method VotePoll(messageId: int, optionId: int)
      requires Valid()
      modifies this`chats
      ensures Valid()
      ensures chats == Vote(old(chats), messageId, optionId)
    {
      VoteKeepsMirrors(chats, messageId, optionId);
      SetChats(Vote(chats, messageId, optionId));
    }

    /** `startAudioRecording` / `startVideoRecording`. When the device is granted a new
        active recorder replaces the old one, the chunks empty, the matching flag is
        set, the elapsed time restarts at 0 and the timer runs; the other flag is left
        as it was. The new recorder's `onstop` keeps the elapsed time and the selected
        chat as they were before the start. When access fails nothing changes. */
    method StartRecording(kind: MediaKind, granted: bool)
      requires Valid()
      modifies this`isRecordingAudio, this`isRecordingVideo, this`recordingTime, this`recorder, this`chunks, this`timerRunning
      ensures Valid()
      ensures granted ==>
        recorder == Some(Recorder(kind, true, old(recordingTime), selectedChat)) &&
        chunks == [] && recordingTime == 0 && timerRunning
      ensures granted && kind == VoiceNote ==> isRecordingAudio && isRecordingVideo == old(isRecordingVideo)
      ensures granted && kind == VideoNote ==> isRecordingVideo && isRecordingAudio == old(isRecordingAudio)
      ensures !granted ==>
        isRecordingAudio == old(isRecordingAudio) && isRecordingVideo == old(isRecordingVideo) &&
        recordingTime == old(recordingTime) && recorder == old(recorder) && chunks == old(chunks) &&
        timerRunning == old(timerRunning)
    {
      if granted {
        recorder := Some(Recorder(kind, true, recordingTime, selectedChat));
        chunks := [];
        if kind == VoiceNote {
          isRecordingAudio := true;
        } else {
          isRecordingVideo := true;
        }
        recordingTime := 0;
        timerRunning := true;
      }
    }

    /** One firing of the one-second timer: `setRecordingTime(prev => prev + 1)`. */
    method Tick()
      requires Valid()
      modifies this`recordingTime
      ensures Valid()
      ensures timerRunning ==> recordingTime == old(recordingTime) + 1
      ensures !timerRunning ==> recordingTime == old(recordingTime)
    {
      if timerRunning {
        recordingTime := recordingTime + 1;
      }
    }

    /** `ondataavailable`: a non-empty chunk is kept. */
    method DataAvailable(size: nat)
      requires Valid()
      modifies this`chunks
      ensures Valid()
      ensures size > 0 ==> chunks == old(chunks) + [size]
      ensures size == 0 ==> chunks == old(chunks)
    {
      if size > 0 {
        chunks := chunks + [size];
      }
    }

    /** `stopRecording`: an active recorder is stopped; the timer stops and both flags
        clear, and the recorder's `onstop` then sends the recording with the duration
        and to the chat it captured when the recording started, not the elapsed time
        and the current chat. The elapsed time is NOT reset. */
    method StopRecording(now: Now, url: string)
      requires Valid() && ValidNow(now)
      modifies this`chats, this`isRecordingAudio, this`isRecordingVideo, this`recorder, this`timerRunning
      ensures Valid()
      ensures !Recording() && !timerRunning && recordingTime == old(recordingTime)
      ensures old(RecorderActive()) ==>
        recorder == Some(old(recorder).value.(active := false)) &&
        chats == SendMedia(old(chats), old(recorder).value.chat, now, old(recorder).value.kind, url,
                           old(recorder).value.duration)
      ensures !old(RecorderActive()) ==> recorder == old(recorder) && chats == old(chats)
    {
      if RecorderActive() {
        var stopped := recorder.value;
        recorder := Some(recorder.value.(active := false));
        timerRunning := false;
        isRecordingAudio := false;
        isRecordingVideo := false;
        SendMediaMessage(stopped.chat, now, stopped.kind, url, stopped.duration);
      } else {
        timerRunning := false;
        isRecordingAudio := false;
        isRecordingVideo := false;
      }
    }

    /** The stop handler as evidently intended: the recording is sent with the elapsed
        time at the moment it stops (what the recording label shows), to the chat it
        was started in. Everything else is as in `StopRecording`. */
    method StopRecordingIntended(now: Now, url: string)
      requires Valid() && ValidNow(now)
      modifies this`chats, this`isRecordingAudio, this`isRecordingVideo, this`recorder, this`timerRunning
      ensures Valid()
      ensures !Recording() && !timerRunning && recordingTime == old(recordingTime)
      ensures old(RecorderActive()) ==>
        recorder == Some(old(recorder).value.(active := false)) &&
        chats == SendMedia(old(chats), old(recorder).value.chat, now, old(recorder).value.kind, url,
                           old(recordingTime))
      ensures !old(RecorderActive()) ==> recorder == old(recorder) && chats == old(chats)
    {
      if RecorderActive() {
        var stopped := recorder.value;
        recorder := Some(recorder.value.(active := false));
        timerRunning := false;
        isRecordingAudio := false;
        isRecordingVideo := false;
        SendMediaMessage(stopped.chat, now, stopped.kind, url, recordingTime);
      } else {
        timerRunning := false;
        isRecordingAudio := false;
        isRecordingVideo := false;
      }
    }

    /** The elapsed time shown while recording, as minutes and seconds; it reads back
        as `recordingTime` seconds. */
    function RecordingLabel(): (r: string)
      reads this
      ensures ShowsFields(r, recordingTime / 60, recordingTime % 60)
      ensures ParseClock(r).Some? && ParseClock(r).value.1 < 60
      ensures ParseClock(r).value.0 * 60 + ParseClock(r).value.1 == recordingTime
    {
      RecordingTimeRoundTrip(recordingTime);
      FormatRecordingTime(recordingTime)
    }
  }

  /** A recording session: started with access granted, `n` timer firings, then
      stopped. The label shown at the end reads back as `n` seconds, and the time
      stays at `n` after the stop; but the message sent carries the elapsed time as
      it was before the session started (0 on the first recording, the previous
      recording's length after that) and goes to the chat selected at the start. */
  method RecordFor(m: Messenger, kind: MediaKind, n: nat, now: Now, url: string)
    requires m.Valid() && ValidNow(now)
    modifies m`isRecordingAudio, m`isRecordingVideo, m`recordingTime, m`recorder, m`chunks, m`timerRunning, m`chats
    ensures m.Valid() && !m.Recording()
    ensures m.recordingTime == n
    ensures ParseClock(m.RecordingLabel()).Some? &&
      ParseClock(m.RecordingLabel()).value.0 * 60 + ParseClock(m.RecordingLabel()).value.1 == n
    ensures m.chats == SendMedia(old(m.chats), old(m.selectedChat), now, kind, url, old(m.recordingTime))
  {
    m.StartRecording(kind, true);
    var i := 0;
    while i < n
      invariant 0 <= i <= n
      invariant m.Valid() && m.timerRunning && m.recordingTime == i
      invariant m.chats == old(m.chats)
      invariant m.recorder == Some(Recorder(kind, true, old(m.recordingTime), old(m.selectedChat)))
    {
      m.Tick();
      i := i + 1;
    }
    m.StopRecording(now, url);
  }

  /** The same session with the intended stop handler: the message sent carries the
      `n` seconds the label shows. */
  method RecordForIntended(m: Messenger, kind: MediaKind, n: nat, now: Now, url: string)
    requires m.Valid() && ValidNow(now)
    modifies m`isRecordingAudio, m`isRecordingVideo, m`recordingTime, m`recorder, m`chunks, m`timerRunning, m`chats
    ensures m.Valid() && !m.Recording() && m.recordingTime == n
    ensures m.chats == SendMedia(old(m.chats), old(m.selectedChat), now, kind, url, n)
  {
    m.StartRecording(kind, true);
    var i := 0;
    while i < n
      invariant 0 <= i <= n
      invariant m.Valid() && m.timerRunning && m.recordingTime == i
      invariant m.chats == old(m.chats)
      invariant m.recorder == Some(Recorder(kind, true, old(m.recordingTime), old(m.selectedChat)))
    {
      m.Tick();
      i := i + 1;
    }
    m.StopRecordingIntended(now, url);
  }
}
