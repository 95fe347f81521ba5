/**
 * The display logic of src/components/ChatWindow.tsx: the contact header (initials,
 * status line), which body a message renders, and the poll widget (total votes,
 * percentage per option, the chosen-option mark, the vote guard and when results show).
 */
module ChatWindow {
  import opened Optional
  import opened Text
  import opened ChatTypes

  // ---------------------------------------------------------------------------
  // Contact header

  /** `w[0]` joined into a string: the first character, or nothing for an empty word
      (`''[0]` is `undefined`, which `join('')` renders as the empty string). */
  function FirstChar(w: string): string {
    if w == [] then [] else [w[0]]
  }

  function InitialsOf(words: seq<string>): string
    decreases |words|
  {
    if words == [] then [] else FirstChar(words[0]) + InitialsOf(words[1..])
  }

  /** `name.split(' ').map(n => n[0]).join('')`: never longer than the name, and never
      a space in it. */
  function Initials(name: string): (r: string)
    ensures |r| <= |name| && ' ' !in r
  {
    ScanMatchesSplit(name);
    WordStartsBounded(name, true);
    InitialsOf(Split(name, ' '))
  }

  /** Reference definition of the initials by a single left-to-right scan: a character
      is kept when it is not a space and it starts a word (it comes first or right
      after a space). `atStart` says whether the previous character was a space. */
  function WordStarts(s: string, atStart: bool): string
    decreases |s|
  {
    if s == [] then []
    else if s[0] == ' ' then WordStarts(s[1..], true)
    else (if atStart then [s[0]] else []) + WordStarts(s[1..], false)
  }

  /** The initials are exactly the first characters of the words of the name, in
      order; runs of spaces contribute nothing. */
  lemma InitialsAreWordStarts(name: string)
    ensures Initials(name) == WordStarts(name, true)
  {
    ScanMatchesSplit(name);
  }

  lemma {:induction false} WordStartsBounded(s: string, atStart: bool)
    ensures |WordStarts(s, atStart)| <= |s| && ' ' !in WordStarts(s, atStart)
    decreases |s|
  {
    if s != [] {
      WordStartsBounded(s[1..], s[0] == ' ');
    }
  }

  lemma {:induction false} ScanMatchesSplit(t: string)
    ensures WordStarts(t, true) == InitialsOf(Split(t, ' '))
    ensures WordStarts(t, false) == InitialsOf(Split(t, ' ')[1..])
    decreases |t|
  {
    if t != [] {
      var rest := Split(t[1..], ' ');
      ScanMatchesSplit(t[1..]);
      if t[0] == ' ' {
        var ws := [""] + rest;
        assert Split(t, ' ') == ws;
        assert ws[1..] == rest;
        assert InitialsOf(ws) == FirstChar("") + InitialsOf(rest);
      } else {
        var ws := [[t[0]] + rest[0]] + rest[1..];
        assert Split(t, ' ') == ws;
        assert ws[1..] == rest[1..];
        assert FirstChar(ws[0]) == [t[0]];
        assert InitialsOf(ws) == [t[0]] + InitialsOf(rest[1..]);
      }
    }
  }

  /** The status line under the contact name: 'В сети' when online, otherwise the
      optional last-seen text (nothing is shown when it is absent). */
  function StatusLine(c: Contact): (r: Option<string>)
    ensures c.status == Online ==> r == Some("В сети")
    ensures c.status == Offline ==> r == c.lastSeen
    ensures r.None? <==> c.status.Offline? && c.lastSeen.None?
  {
    if c.status == Online then Some("В сети") else c.lastSeen
  }

  // ---------------------------------------------------------------------------
  // Message bodies

  /** The plain text body is rendered only for `type === 'text'`, so never together
      with the poll widget. */
  predicate TextBodyShown(m: Message)
    ensures TextBodyShown(m) ==> !PollShown(m)
  {
    m.kind == Some(Text)
  }

  /** The poll widget is rendered for `type === 'poll'` with options present. */
  predicate PollShown(m: Message)
    ensures PollShown(m) ==> m.kind.Some? && m.kind != Some(Text) && m.pollOptions.Some?
  {
    m.kind == Some(Poll) && m.pollOptions.Some?
  }

  /** A message without a `type`, like every seed message, shows no body at all:
      neither the text paragraph nor any media, file or poll block. */
  lemma UntypedShowsNoBody(m: Message)
    requires m.kind.None?
    ensures !TextBodyShown(m) && !PollShown(m)
  {
  }

  // ---------------------------------------------------------------------------
  // Poll widget

  /** `pollOptions.reduce((sum, opt) => sum + opt.votes, 0)`: zero exactly when no
      option has a vote. */
  function TotalVotes(opts: seq<PollOption>): (t: nat)
    ensures t == 0 <==> forall k :: 0 <= k < |opts| ==> opts[k].votes == 0
    decreases |opts|
  {
    if opts == [] then 0
    else
      assert forall k :: 0 < k < |opts| ==> opts[k] == opts[1..][k - 1];
      opts[0].votes + TotalVotes(opts[1..])
  }

  /** The total of a concatenation is the sum of the totals. */
  lemma {:induction false} TotalVotesAppend(a: seq<PollOption>, b: seq<PollOption>)
    ensures TotalVotes(a + b) == TotalVotes(a) + TotalVotes(b)
    decreases |a|
  {
    if a == [] {
      assert a + b == b;
    } else {
      assert (a + b)[0] == a[0];
      assert (a + b)[1..] == a[1..] + b;
      TotalVotesAppend(a[1..], b);
    }
  }

  /** No single option has more votes than the total. */
  lemma {:induction false} VotesAtMostTotal(opts: seq<PollOption>, k: nat)
    requires k < |opts|
    ensures opts[k].votes <= TotalVotes(opts)
    decreases k
  {
    if k > 0 {
      VotesAtMostTotal(opts[1..], k - 1);
    }
  }

  /** `totalVotes > 0 ? (option.votes / totalVotes) * 100 : 0`, as an exact rational
      (the rounding of `toFixed(0)` is not modelled). */
  function Percentage(opts: seq<PollOption>, k: nat): (p: real)
    requires k < |opts|
    ensures 0.0 <= p <= 100.0
    ensures TotalVotes(opts) == 0 ==> p == 0.0
    ensures TotalVotes(opts) > 0 ==> p * TotalVotes(opts) as real == opts[k].votes as real * 100.0
  {
    var total := TotalVotes(opts);
    VotesAtMostTotal(opts, k);
    if total > 0 then
      ShareBounds(opts[k].votes as real, total as real);
      (opts[k].votes as real / total as real) * 100.0
    else 0.0
  }

  /** A share of a positive total, times 100, lies in [0, 100] and scales back. */
  lemma ShareBounds(v: real, t: real)
    requires 0.0 <= v <= t && t > 0.0
    ensures 0.0 <= (v / t) * 100.0 <= 100.0
    ensures ((v / t) * 100.0) * t == v * 100.0
  {
    var q := v / t;
    assert q * t == v;
    assert 0.0 <= q <= 1.0;
    assert (q * 100.0) * t == (q * t) * 100.0;
  }

  /** The percentages of the first `n` options, added up. */
  function PercentageSum(opts: seq<PollOption>, n: nat): real
    requires n <= |opts|
  {
    if n == 0 then 0.0 else PercentageSum(opts, n - 1) + Percentage(opts, n - 1)
  }

  /** Once anybody has voted, the percentages of all options add up to 100. */
  lemma PercentagesAddUp(opts: seq<PollOption>)
    requires TotalVotes(opts) > 0
    ensures PercentageSum(opts, |opts|) == 100.0
  {
    var total := TotalVotes(opts) as real;
    PartialPercentages(opts, |opts|);
    assert opts[..|opts|] == opts;
    assert PercentageSum(opts, |opts|) == (total / total) * 100.0;
    WholeShare(total);
  }

  lemma WholeShare(t: real)
    requires t > 0.0
    ensures (t / t) * 100.0 == 100.0
  {
  }

  lemma {:induction false} PartialPercentages(opts: seq<PollOption>, n: nat)
    requires TotalVotes(opts) > 0 && n <= |opts|
    ensures PercentageSum(opts, n) == (TotalVotes(opts[..n]) as real / TotalVotes(opts) as real) * 100.0
    decreases n
  {
    var total := TotalVotes(opts) as real;
    if n == 0 {
      assert opts[..0] == [];
    } else {
      PartialPercentages(opts, n - 1);
      assert opts[..n] == opts[..n - 1] + [opts[n - 1]];
      TotalVotesAppend(opts[..n - 1], [opts[n - 1]]);
      assert TotalVotes([opts[n - 1]]) == opts[n - 1].votes;
      SharesAdd(TotalVotes(opts[..n - 1]) as real, opts[n - 1].votes as real, total);
    }
  }

  lemma SharesAdd(a: real, b: real, t: real)
    requires t > 0.0
    ensures (a / t) * 100.0 + (b / t) * 100.0 == ((a + b) / t) * 100.0
  {
  }

  /** `message.userVote === option.id`: the check mark beside the chosen option. It
      appears together with the results, except on an option whose id is 0. */
  predicate IsVoted(m: Message, opt: PollOption)
    ensures IsVoted(m, opt) ==> ResultsShown(m) || opt.id == 0
  {
    m.userVote == Some(opt.id)
  }

  /** Option ids are pairwise distinct. */
  predicate UniqueIds(opts: seq<PollOption>) {
    forall j, k :: 0 <= j < k < |opts| ==> opts[j].id != opts[k].id
  }

  /** With distinct ids at most one option carries the check mark, and it is the one
      whose id is the recorded vote. */
  lemma AtMostOneMarked(m: Message, opts: seq<PollOption>, j: nat, k: nat)
    requires UniqueIds(opts) && j < |opts| && k < |opts|
    requires IsVoted(m, opts[j]) && IsVoted(m, opts[k])
    ensures j == k && m.userVote == Some(opts[j].id)
  {
  }

  /** The vote guard `!message.userVote && handleVotePoll(...)`, which is also why the
      buttons are `disabled={!!message.userVote}`: a click dispatches a vote exactly
      when the recorded vote is falsy, that is absent or 0. */
  predicate VoteEnabled(m: Message)
    ensures VoteEnabled(m) <==> m.userVote.None? || m.userVote == Some(0)
  {
    !Truthy(m.userVote)
  }

  /** The bars, per-option percentages and total are shown under `message.userVote &&`:
      exactly when the vote buttons are disabled. */
  predicate ResultsShown(m: Message)
    ensures ResultsShown(m) <==> !VoteEnabled(m)
  {
    Truthy(m.userVote)
  }

  /** The guard the poll evidently intends: a vote is accepted only while none has
      been recorded. It differs from `VoteEnabled` only for a recorded vote of 0. */
  predicate VoteEnabledIntended(m: Message)
    ensures VoteEnabledIntended(m) ==> VoteEnabled(m)
  {
    m.userVote.None?
  }

  /** Results and vote buttons exclude each other; and the written guard and the
      intended one disagree exactly on a recorded vote for option id 0. */
  lemma GuardsCompared(m: Message)
    ensures ResultsShown(m) <==> !VoteEnabled(m)
    ensures VoteEnabled(m) != VoteEnabledIntended(m) <==> m.userVote == Some(0)
  {
  }
}
