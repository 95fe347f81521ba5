/**
 * The storage screen of src/components/StorageView.tsx: an effect that counts the
 * messages of every chat by type with three counters, the derived per-category sizes,
 * the statistics panel (which recomputes the same counts with `reduce` and `filter`),
 * and the "clear cache" button.
 *
 * Sizes are in tenths of a megabyte, so the per-message constants 0.5, 2.5 and 1.8 MB,
 * the 3.2 MB cache and the 100 MB total are the integers 5, 25, 18, 32 and 1000.
 */
module Storage {
  import opened Optional
  import opened ChatTypes

  // ---------------------------------------------------------------------------
  // Counting messages by type

  /** The three counters of the effect, plus the messages none of them counts (polls
      and messages without a `type`). */
  datatype Category = TextMessages | MediaFiles | Files | Uncounted

  predicate InCategory(m: Message, c: Category) {
    match c
    case TextMessages => m.kind == Some(Text)
    case MediaFiles => m.kind == Some(Audio) || m.kind == Some(Video)
    case Files => m.kind == Some(File)
    case Uncounted => m.kind.None? || m.kind == Some(Poll)
  }

  /** `messages.filter(m => <m is in c>).length`. */
  function CountOf(ms: seq<Message>, c: Category): nat {
    if ms == [] then 0
    else CountOf(ms[..|ms| - 1], c) + (if InCategory(ms[|ms| - 1], c) then 1 else 0)
  }

  /** `chats.reduce((sum, chat) => sum + <count of c in chat.messages>, 0)`. */
  function Tally(chats: seq<Chat>, c: Category): nat {
    if chats == [] then 0
    else Tally(chats[..|chats| - 1], c) + CountOf(chats[|chats| - 1].messages, c)
  }

  /** `chats.reduce((sum, chat) => sum + chat.messages.length, 0)`. */
  function TotalMessages(chats: seq<Chat>): nat {
    if chats == [] then 0
    else TotalMessages(chats[..|chats| - 1]) + |chats[|chats| - 1].messages|
  }

  /** The counting loop of the effect: one pass over every chat and every message,
      bumping the counter of the message's type. Its results are the figures the
      statistics panel computes independently with `reduce`. */
  method CountMessages(chats: seq<Chat>) returns (messagesCount: nat, mediaCount: nat, filesCount: nat)
    ensures messagesCount == Tally(chats, TextMessages)
    ensures mediaCount == Tally(chats, MediaFiles)
    ensures filesCount == Tally(chats, Files)
  {
    messagesCount, mediaCount, filesCount := 0, 0, 0;
    var i := 0;
    while i < |chats|
      invariant 0 <= i <= |chats|
      invariant messagesCount == Tally(chats[..i], TextMessages)
      invariant mediaCount == Tally(chats[..i], MediaFiles)
      invariant filesCount == Tally(chats[..i], Files)
    {
      var msgs := chats[i].messages;
      var j := 0;
      while j < |msgs|
        invariant 0 <= j <= |msgs|
        invariant messagesCount == Tally(chats[..i], TextMessages) + CountOf(msgs[..j], TextMessages)
        invariant mediaCount == Tally(chats[..i], MediaFiles) + CountOf(msgs[..j], MediaFiles)
        invariant filesCount == Tally(chats[..i], Files) + CountOf(msgs[..j], Files)
      {
        var msg := msgs[j];
        if msg.kind == Some(Text) { messagesCount := messagesCount + 1; }
        if msg.kind == Some(Audio) || msg.kind == Some(Video) { mediaCount := mediaCount + 1; }
        if msg.kind == Some(File) { filesCount := filesCount + 1; }
        assert msgs[..j + 1][..j] == msgs[..j];
        j := j + 1;
      }
      assert msgs[..|msgs|] == msgs;
      assert chats[..i + 1][..i] == chats[..i];
      i := i + 1;
    }
    assert chats[..|chats|] == chats;
  }

  // ---------------------------------------------------------------------------
  // Properties of the counts

  /** Every message is in exactly one category, so the four counts of one message
      list add up to its length. */
  lemma {:induction false} CategoriesPartition(ms: seq<Message>)
    ensures CountOf(ms, TextMessages) + CountOf(ms, MediaFiles) + CountOf(ms, Files)
            + CountOf(ms, Uncounted) == |ms|
  {
    if ms != [] {
      var init, m := ms[..|ms| - 1], ms[|ms| - 1];
      CategoriesPartition(init);
      assert (if InCategory(m, TextMessages) then 1 else 0) + (if InCategory(m, MediaFiles) then 1 else 0)
             + (if InCategory(m, Files) then 1 else 0) + (if InCategory(m, Uncounted) then 1 else 0) == 1 by {
        match m.kind {
          case None =>
          case Some(k) =>
            match k {
              case Text =>
              case Audio =>
              case Video =>
              case File =>
              case Poll =>
            }
        }
      }
    }
  }

  /** A count is zero exactly when no message of the list is in the category. */
  lemma {:induction false} CountZeroIff(ms: seq<Message>, c: Category)
    ensures CountOf(ms, c) == 0 <==> forall i :: 0 <= i < |ms| ==> !InCategory(ms[i], c)
  {
    if ms != [] {
      var init := ms[..|ms| - 1];
      CountZeroIff(init, c);
      assert forall i :: 0 <= i < |init| ==> init[i] == ms[i];
    }
  }

  /** Over all chats, too, the four counts add up to the number of messages shown in
      the statistics panel. */
  lemma {:induction false} TalliesPartition(chats: seq<Chat>)
    ensures Tally(chats, TextMessages) + Tally(chats, MediaFiles) + Tally(chats, Files)
            + Tally(chats, Uncounted) == TotalMessages(chats)
  {
    if chats != [] {
      TalliesPartition(chats[..|chats| - 1]);
      CategoriesPartition(chats[|chats| - 1].messages);
    }
  }

  /** A tally is zero exactly when no chat has a message in the category. */
  lemma {:induction false} TallyZeroIff(chats: seq<Chat>, c: Category)
    ensures Tally(chats, c) == 0 <==>
            forall i, j :: 0 <= i < |chats| && 0 <= j < |chats[i].messages| ==>
              !InCategory(chats[i].messages[j], c)
  {
    if chats != [] {
      var init := chats[..|chats| - 1];
      TallyZeroIff(init, c);
      CountZeroIff(chats[|chats| - 1].messages, c);
      assert forall i :: 0 <= i < |init| ==> init[i] == chats[i];
    }
  }

  /** The text, media and file counters together never exceed the number of
      messages, and they reach it exactly when every message has the type text,
      audio, video or file (no poll and no untyped message). */
  lemma CountsBounded(chats: seq<Chat>)
    ensures Tally(chats, TextMessages) + Tally(chats, MediaFiles) + Tally(chats, Files)
            <= TotalMessages(chats)
    ensures Tally(chats, TextMessages) + Tally(chats, MediaFiles) + Tally(chats, Files)
            == TotalMessages(chats) <==>
            forall i, j :: 0 <= i < |chats| && 0 <= j < |chats[i].messages| ==>
              !InCategory(chats[i].messages[j], Uncounted)
  {
    TalliesPartition(chats);
    TallyZeroIff(chats, Uncounted);
  }

  // ---------------------------------------------------------------------------
  // The statistics panel

  /** The four figures of the statistics panel: chats, messages, media files and
      files. */
  datatype Statistics = Statistics(chatCount: nat, messageCount: nat, mediaCount: nat, fileCount: nat)

  /** The panel's figures: `chats.length` and the three `reduce` expressions. Media
      and files are among the messages, so together they never exceed them. */
  function ShownStatistics(chats: seq<Chat>): (s: Statistics)
    ensures s.chatCount == |chats|
    ensures s.messageCount == TotalMessages(chats)
    ensures s.mediaCount == Tally(chats, MediaFiles) && s.fileCount == Tally(chats, Files)
    ensures s.mediaCount + s.fileCount <= s.messageCount
  {
    CountsBounded(chats);
    Statistics(|chats|, TotalMessages(chats), Tally(chats, MediaFiles), Tally(chats, Files))
  }

  // ---------------------------------------------------------------------------
  // The storage record

  datatype Categories = Categories(messages: int, media: int, files: int, cache: int)

  /** `StorageData`, in tenths of a megabyte. */
  datatype StorageData = StorageData(total: int, used: int, categories: Categories)

  /** The record is consistent when `used` is the sum of the four categories. */
  predicate Consistent(d: StorageData) {
    d.used == d.categories.messages + d.categories.media + d.categories.files + d.categories.cache
  }

  /** The record set by the effect from the three counts: 0.5 MB per text message,
      2.5 MB per audio or video message, 1.8 MB per file, a fixed 3.2 MB cache and a
      100 MB total. */
  function Measured(messagesCount: nat, mediaCount: nat, filesCount: nat): (r: StorageData)
    ensures Consistent(r) && r.total == 1000 && r.categories.cache == 32
    ensures r.used == 32 <==> messagesCount == 0 && mediaCount == 0 && filesCount == 0
  {
    StorageData(1000, 5 * messagesCount + 25 * mediaCount + 18 * filesCount + 32,
                Categories(5 * messagesCount, 25 * mediaCount, 18 * filesCount, 32))
  }

  /** The updater passed to `setStorageData` by `handleClearCache`. It empties the
      cache and leaves everything else as it was. It keeps the record consistent, and
      on an empty cache (where the button is disabled) it changes nothing. */
  function ClearedCache(d: StorageData): (r: StorageData)
    ensures r.categories.cache == 0
    ensures r.used == d.used - d.categories.cache
    ensures r.total == d.total
    ensures r.categories.messages == d.categories.messages
    ensures r.categories.media == d.categories.media
    ensures r.categories.files == d.categories.files
    ensures Consistent(d) ==> Consistent(r)
    ensures d.categories.cache == 0 ==> r == d
  {
    d.(used := d.used - d.categories.cache, categories := d.categories.(cache := 0))
  }

  // ---------------------------------------------------------------------------
  // The component's state

  /** The `storageData` state of the component. */
  class StorageView {
    var storageData: StorageData

    ghost predicate Valid()
      reads this
    {
      Consistent(storageData)
    }

    /** The initial state: 100 MB total and nothing used. */
    constructor ()
      ensures storageData == StorageData(1000, 0, Categories(0, 0, 0, 0))
      ensures Valid()
    {
      storageData := StorageData(1000, 0, Categories(0, 0, 0, 0));
    }

    /** The effect that runs whenever `chats` changes: count, then store the sizes. */
    method Refresh(chats: seq<Chat>)
      modifies this
      ensures storageData == Measured(Tally(chats, TextMessages), Tally(chats, MediaFiles), Tally(chats, Files))
      ensures Valid()
    {
      var messagesCount, mediaCount, filesCount := CountMessages(chats);
      storageData := Measured(messagesCount, mediaCount, filesCount);
    }

    /** Whether the clear-cache button is enabled: a click on the disabled button
        would change nothing. */
    predicate CanClearCache()
      reads this
      ensures !CanClearCache() ==> ClearedCache(storageData) == storageData
    {
      storageData.categories.cache != 0
    }

    /** `handleClearCache`. */
    method ClearCache()
      modifies this
      ensures storageData == ClearedCache(old(storageData))
      ensures old(Valid()) ==> Valid()
      ensures !CanClearCache()
    {
      storageData := ClearedCache(storageData);
    }
  }
}
