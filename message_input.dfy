/**
 * The composer of src/components/MessageInput.tsx. Its state (the input line, the
 * emoji picker, the attach menu, the poll creator and the poll draft) is owned by
 * src/pages/Index.tsx and changed through setters; here it is the class `Composer`.
 * The draft transforms (edit, add, remove an option) are functions over the list of
 * option strings, and the draft keeps between 2 and 10 options.
 */
module Composer {
  import opened Optional
  import opened Text
  import opened ChatTypes
  import opened ChatStore

  const MinOptions: nat := 2
  const MaxOptions: nat := 10

  /** The draft the creator starts from and returns to: `['', '']`. */
  const EmptyDraft: seq<string> := ["", ""]

  predicate InRange(opts: seq<string>) {
    MinOptions <= |opts| <= MaxOptions
  }

  // ---------------------------------------------------------------------------
  // Draft transforms

  /** `newOptions = [...pollOptions]; newOptions[index] = value`: only entry `i`
      changes; an index with no input field behind it changes nothing. */
  function EditedOption(opts: seq<string>, i: int, value: string): (r: seq<string>)
    ensures |r| == |opts|
    ensures 0 <= i < |opts| ==> r[i] == value
    ensures forall k :: 0 <= k < |opts| && k != i ==> r[k] == opts[k]
  {
    if 0 <= i < |opts| then opts[i := value] else opts
  }

  /** The add button is disabled at 10 or more options. */
  predicate CanAddOption(opts: seq<string>) {
    !(|opts| >= MaxOptions)
  }

  /** The remove buttons are rendered only above 2 options. */
  predicate CanRemoveOption(opts: seq<string>) {
    |opts| > MinOptions
  }

  /** A click on the add button: `[...pollOptions, '']` when it is enabled. */
  function WithBlankOption(opts: seq<string>): (r: seq<string>)
    ensures CanAddOption(opts) ==> |r| == |opts| + 1 && r[..|opts|] == opts && r[|opts|] == ""
    ensures !CanAddOption(opts) ==> r == opts
    ensures InRange(opts) ==> InRange(r)
  {
    if CanAddOption(opts) then opts + [""] else opts
  }

  /** `pollOptions.filter((_, i) => i !== index)`: exactly entry `i` goes, the others
      keep their order; an index out of range removes nothing. */
  function WithoutOption(opts: seq<string>, i: int): (r: seq<string>)
    ensures 0 <= i < |opts| ==> r == opts[..i] + opts[i + 1..]
    ensures !(0 <= i < |opts|) ==> r == opts
    decreases |opts|
  {
    if opts == [] then []
    else (if i == 0 then [] else [opts[0]]) + WithoutOption(opts[1..], i - 1)
  }

  /** A click on the remove button of option `i`, which exists only above 2 options. */
  function RemovedOption(opts: seq<string>, i: int): (r: seq<string>)
    ensures CanRemoveOption(opts) && 0 <= i < |opts| ==> |r| == |opts| - 1 && r == opts[..i] + opts[i + 1..]
    ensures !CanRemoveOption(opts) ==> r == opts
    ensures InRange(opts) ==> InRange(r)
  {
    if CanRemoveOption(opts) then WithoutOption(opts, i) else opts
  }

  /** The user actions on the draft options. */
  datatype DraftEdit = Edit(index: int, value: string) | Add | Remove(index: int)

  function ApplyEdit(opts: seq<string>, e: DraftEdit): seq<string> {
    match e
    case Edit(i, v) => EditedOption(opts, i, v)
    case Add => WithBlankOption(opts)
    case Remove(i) => RemovedOption(opts, i)
  }

  function ApplyEdits(opts: seq<string>, edits: seq<DraftEdit>): seq<string>
    decreases |edits|
  {
    if edits == [] then opts else ApplyEdits(ApplyEdit(opts, edits[0]), edits[1..])
  }

  /** Whatever the user does from `['', '']`, the draft holds between 2 and 10
      options. */
  lemma {:induction false} DraftStaysInRange(opts: seq<string>, edits: seq<DraftEdit>)
    requires InRange(opts)
    ensures InRange(ApplyEdits(opts, edits))
    decreases |edits|
  {
    if edits != [] {
      var next := ApplyEdit(opts, edits[0]);
      assert InRange(next);
      DraftStaysInRange(next, edits[1..]);
    }
  }

  lemma EmptyDraftInRange(edits: seq<DraftEdit>)
    ensures InRange(ApplyEdits(EmptyDraft, edits))
  {
    DraftStaysInRange(EmptyDraft, edits);
  }

  // ---------------------------------------------------------------------------
  // What the composer shows

  /** The submit button of the creator is enabled unless the question is blank or
      fewer than two options are non-blank. */
  predicate SubmitEnabled(question: string, opts: seq<string>)
    ensures SubmitEnabled(question, opts) ==> question != "" && |opts| >= 2
  {
    !(IsBlank(question) || |NonBlank(opts)| < 2)
  }

  /** The submit button and `handleCreatePoll` test the same condition, except that
      the handler also needs a selected chat. */
  lemma SubmitMatchesCreate(question: string, opts: seq<string>, selected: Option<int>)
    ensures SubmitEnabled(question, opts) && Truthy(selected) <==> CanCreatePoll(question, opts, selected)
  {
  }

  /** A fresh draft cannot be submitted: the question is empty. */
  lemma EmptyDraftNotSubmittable()
    ensures !SubmitEnabled("", EmptyDraft)
  {
    assert IsBlank("");
  }

  /** The three renderings of the composer. */
  datatype View = RecordingView | PollCreatorView | ComposeView

  /** The early returns: recording first, then the poll creator, then the line. */
  function ViewOf(isRecordingAudio: bool, isRecordingVideo: bool, showPollCreator: bool): (v: View)
    ensures v == RecordingView <==> isRecordingAudio || isRecordingVideo
    ensures v == PollCreatorView <==> !isRecordingAudio && !isRecordingVideo && showPollCreator
    ensures v == ComposeView <==> !isRecordingAudio && !isRecordingVideo && !showPollCreator
  {
    if isRecordingAudio || isRecordingVideo then RecordingView
    else if showPollCreator then PollCreatorView
    else ComposeView
  }

  /** `messageInput.trim() ? <send> : <mic, video>`. */
  predicate SendButtonShown(input: string)
    ensures SendButtonShown(input) <==> Trim(input) != ""
  {
    BlankIffAllWhitespace(input);
    !IsBlank(input)
  }

  /** With a chat selected, the send button is offered exactly when sending would
      append a message; otherwise the record buttons are offered. */
  lemma SendButtonMatchesSend(input: string, selected: Option<int>)
    requires Truthy(selected)
    ensures SendButtonShown(input) <==> CanSendText(input, selected)
  {
  }

  // ---------------------------------------------------------------------------
  // The composer state

  class Composer {
    var messageInput: string
    var showEmojiPicker: bool
    var showAttachMenu: bool
    var showPollCreator: bool
    var pollQuestion: string
    var pollOptions: seq<string>

    ghost predicate Valid()
      reads this
    {
      InRange(pollOptions)
    }

    /** The initial `useState` values. */
    constructor ()
      ensures Valid()
      ensures messageInput == "" && !showEmojiPicker && !showAttachMenu && !showPollCreator
      ensures pollQuestion == "" && pollOptions == EmptyDraft
    {
      messageInput := "";
      showEmojiPicker := false;
      showAttachMenu := false;
      showPollCreator := false;
      pollQuestion := "";
      pollOptions := EmptyDraft;
    }

    /** Which of the three renderings is shown. */
    function CurrentView(isRecordingAudio: bool, isRecordingVideo: bool): (v: View)
      reads this
      ensures v == RecordingView <==> isRecordingAudio || isRecordingVideo
      ensures v == PollCreatorView <==> !isRecordingAudio && !isRecordingVideo && showPollCreator
    {
      ViewOf(isRecordingAudio, isRecordingVideo, showPollCreator)
    }

    /** `handleEmojiClick`: the emoji goes at the end of the input. */
    method EmojiClick(emoji: string)
      modifies this
      ensures messageInput == old(messageInput) + emoji
      ensures showEmojiPicker == old(showEmojiPicker) && showAttachMenu == old(showAttachMenu)
      ensures showPollCreator == old(showPollCreator)
      ensures pollQuestion == old(pollQuestion) && pollOptions == old(pollOptions)
    {
      messageInput := messageInput + emoji;
    }

    /** The input line's `onChange`. */
    method SetInput(value: string)
      modifies this`messageInput
      ensures messageInput == value
    {
      messageInput := value;
    }

    /** The question field's `onChange`. */
    method SetQuestion(value: string)
      modifies this`pollQuestion
      ensures pollQuestion == value
    {
      pollQuestion := value;
    }

    /** The `onChange` of the input of option `i`. */
    method EditOption(i: nat, value: string)
      requires Valid() && i < |pollOptions|
      modifies this`pollOptions
      ensures Valid()
      ensures pollOptions == old(pollOptions)[i := value]
    {
      pollOptions := EditedOption(pollOptions, i, value);
    }

    /** The add button; disabled (no effect) at 10 options. */
    method AddOption()
      requires Valid()
      modifies this`pollOptions
      ensures Valid()
      ensures |old(pollOptions)| < MaxOptions ==> pollOptions == old(pollOptions) + [""]
      ensures |old(pollOptions)| >= MaxOptions ==> pollOptions == old(pollOptions)
    {
      pollOptions := WithBlankOption(pollOptions);
    }

    /** The remove button of option `i`; it exists only above 2 options. */
    method RemoveOption(i: nat)
      requires Valid() && i < |pollOptions|
      modifies this`pollOptions
      ensures Valid()
      ensures |old(pollOptions)| > MinOptions ==> pollOptions == old(pollOptions)[..i] + old(pollOptions)[i + 1..]
      ensures |old(pollOptions)| <= MinOptions ==> pollOptions == old(pollOptions)
    {
      pollOptions := RemovedOption(pollOptions, i);
    }

    /** The close button of the creator, and the reset after a poll is sent: the
        creator closes and the draft returns to an empty question and `['', '']`. */
    method ClosePollCreator()
      modifies this`showPollCreator, this`pollQuestion, this`pollOptions
      ensures Valid()
      ensures !showPollCreator && pollQuestion == "" && pollOptions == EmptyDraft
    {
      showPollCreator := false;
      pollQuestion := "";
      pollOptions := EmptyDraft;
    }

    /** "Опрос" in the attach menu: the creator opens, the menu closes. */
    method ChoosePoll()
      modifies this`showPollCreator, this`showAttachMenu
      ensures showPollCreator && !showAttachMenu
    {
      showPollCreator := true;
      showAttachMenu := false;
    }

    /** "Файл" in the attach menu: the file dialog opens (not modelled) and the menu
        closes. */
    method ChooseFile()
      requires Valid()
      modifies this`showAttachMenu
      ensures Valid()
      ensures !showAttachMenu
    {
      showAttachMenu := false;
    }

    /** The plus button. */
    method ToggleAttachMenu()
      modifies this`showAttachMenu
      ensures showAttachMenu == !old(showAttachMenu)
    {
      showAttachMenu := !showAttachMenu;
    }

    /** The smiley button. */
    method ToggleEmojiPicker()
      modifies this`showEmojiPicker
      ensures showEmojiPicker == !old(showEmojiPicker)
    {
      showEmojiPicker := !showEmojiPicker;
    }

    /** The reset after a text is sent: the input empties and the picker closes. */
    method ClearAfterSend()
      requires Valid()
      modifies this`messageInput, this`showEmojiPicker
      ensures Valid()
      ensures messageInput == "" && !showEmojiPicker
    {
      messageInput := "";
      showEmojiPicker := false;
    }
  }
}
