/**
 * The live-token tracker of SocialViewImpl: the `mHashtagEditing` /
 * `mMentionEditing` state machine driven by the text watcher's
 * `beforeTextChanged` (deletions) and `onTextChanged` (insertions), and the
 * calls of the hashtag and mention text-changed watchers.
 */
module Tracker {
  import opened Wrappers
  import opened Kinds
  import opened Scan

  /** The two editing flags. */
  datatype EditContext = EditContext(hashtagEditing: bool, mentionEditing: bool) {
    /** Never both: the tracker is inside at most one open token. */
    predicate Exclusive() {
      !(hashtagEditing && mentionEditing)
    }
  }

  const Neutral := EditContext(false, false)
  const OpenHashtag := EditContext(true, false)
  const OpenMention := EditContext(false, true)

  /** The two watcher slots `mHashtagWatcher` and `mMentionWatcher`. */
  datatype Watchers = Watchers(hashtag: Option<Callback>, mention: Option<Callback>)

  /** What one hook does: the new editing flags, and the watcher call it makes, if any. */
  datatype Step = Step(context: EditContext, fired: Option<Invocation>)

  /** Some watcher is registered for a kind whose editing flag is on. */
  predicate Eligible(ctx: EditContext, w: Watchers) {
    (ctx.hashtagEditing && w.hashtag.Some?) || (ctx.mentionEditing && w.mention.Some?)
  }

  /** `call` goes to the watcher the hooks pick: the hashtag one first, else the mention one. */
  predicate PickedWatcher(ctx: EditContext, w: Watchers, call: Invocation) {
    call.WatcherCall? &&
    if ctx.hashtagEditing && w.hashtag.Some? then
      call.kind == Hashtag && call.callback == w.hashtag.value
    else
      ctx.mentionEditing && w.mention.Some? && call.kind == Mention && call.callback == w.mention.value
  }

  /**
   * Index `b` starts the open token that runs up to index `last`: every character
   * from `b` to `last` is a letter or digit, and the one before `b` is not, unless
   * `b` is 1 (index 0 is never inspected by the backward scan).
   */
  predicate TokenStartsAt(s: string, b: nat, last: nat, isLetterOrDigit: char -> bool)
    requires 1 <= b <= last + 1 <= |s|
  {
    (forall i :: b <= i <= last ==> isLetterOrDigit(s[i])) &&
    (b == 1 || !isLetterOrDigit(s[b - 1]))
  }

  /** Two starts of the open token ending at the same index coincide. */
  lemma TokenStartUnique(s: string, b1: nat, b2: nat, last: nat, isLetterOrDigit: char -> bool)
    requires 1 <= b1 <= last + 1 <= |s| && 1 <= b2 <= last + 1
    requires TokenStartsAt(s, b1, last, isLetterOrDigit) && TokenStartsAt(s, b2, last, isLetterOrDigit)
    ensures b1 == b2
  {
  }

  /** The start of the open token ending at `last`, found by `indexOfPreviousNonLetterDigit(s, 0, last) + 1`. */
  function TokenStart(s: string, last: nat, isLetterOrDigit: char -> bool): (b: nat)
    requires last < |s|
    ensures 1 <= b <= last + 1
    ensures TokenStartsAt(s, b, last, isLetterOrDigit)
  {
    IndexOfPreviousNonLetterDigit(s, 0, last, isLetterOrDigit) + 1
  }

  /** The `when` over registered watchers: hashtag watcher first, then mention watcher. */
  function Dispatch(ctx: EditContext, w: Watchers, token: string): (r: Option<Invocation>)
    ensures r.Some? <==> Eligible(ctx, w)
    ensures r.Some? ==> PickedWatcher(ctx, w, r.value) && r.value.text == token
  {
    if w.hashtag.Some? && ctx.hashtagEditing then Some(WatcherCall(Hashtag, w.hashtag.value, token))
    else if w.mention.Some? && ctx.mentionEditing then Some(WatcherCall(Mention, w.mention.value, token))
    else None
  }

  /** The three-way classification: `#` opens a hashtag, `@` a mention, another non-letter/digit resets. */
  function Classify(ctx: EditContext, delimiter: char, reset: char, isLetterOrDigit: char -> bool): EditContext {
    if delimiter == '#' then OpenHashtag
    else if delimiter == '@' then OpenMention
    else if !isLetterOrDigit(reset) then Neutral
    else ctx
  }

  /**
   * `beforeTextChanged(s, start, count, after)`: `count` characters at `start`
   * of the old text `s` are about to be replaced.
   */
  function BeforeTextChanged(ctx: EditContext, w: Watchers, s: string, start: nat, count: nat,
                             isLetterOrDigit: char -> bool): (r: Step)
    requires count > 0 && start > 0 ==> start <= |s|
    ensures ctx.Exclusive() ==> r.context.Exclusive()
    ensures !(count > 0 && start > 0) ==> r == Step(ctx, None)
    ensures count > 0 && start > 0 ==>
      var c := s[start - 1];
      (c == '#' ==> r == Step(OpenHashtag, None)) &&
      (c == '@' ==> r == Step(OpenMention, None)) &&
      (c != '#' && c != '@' && !isLetterOrDigit(c) ==> r == Step(Neutral, None)) &&
      (c != '#' && c != '@' && isLetterOrDigit(c) ==> r.context == ctx && (r.fired.Some? <==> Eligible(ctx, w)))
    ensures r.fired.Some? ==>
      var t := r.fired.value.text;
      PickedWatcher(ctx, w, r.fired.value) && r.context == ctx &&
      |t| < start <= |s| && TokenStartsAt(s, start - |t|, start - 1, isLetterOrDigit) &&
      t == s[start - |t|..start]
  {
    if !(count > 0 && start > 0) then Step(ctx, None)
    else
      var c := s[start - 1];
      var next := Classify(ctx, c, c, isLetterOrDigit);
      if c == '#' || c == '@' || !isLetterOrDigit(c) then Step(next, None)
      else Step(ctx, Dispatch(ctx, w, s[TokenStart(s, start - 1, isLetterOrDigit)..start]))
  }

  /**
   * `onTextChanged(s, start, before, count)` once `colorize()` has returned:
   * `count` characters now stand at `start` of the new text `s`. The delimiter is
   * read at `start + count - 1`, the reset test at `start`.
   */
  function OnTextChanged(ctx: EditContext, w: Watchers, s: string, start: nat, count: nat,
                         isLetterOrDigit: char -> bool): (r: Step)
    requires |s| > 0 && start < |s| ==> start + count <= |s|
    ensures ctx.Exclusive() ==> r.context.Exclusive()
    ensures (|s| == 0 || start >= |s| || start + count == 0) ==> r == Step(ctx, None)
    ensures |s| > 0 && start < |s| && start + count > 0 ==>
      var d := s[start + count - 1];
      (d == '#' ==> r == Step(OpenHashtag, None)) &&
      (d == '@' ==> r == Step(OpenMention, None)) &&
      (d != '#' && d != '@' && !isLetterOrDigit(s[start]) ==> r == Step(Neutral, None)) &&
      (d != '#' && d != '@' && isLetterOrDigit(s[start]) ==> r.context == ctx && (r.fired.Some? <==> Eligible(ctx, w)))
    ensures r.fired.Some? ==>
      var t := r.fired.value.text;
      var b := start + count - |t|;
      PickedWatcher(ctx, w, r.fired.value) && r.context == ctx &&
      start < |s| && start + count <= |s| && |t| <= start + count &&
      1 <= b <= start + 1 && TokenStartsAt(s, b, start, isLetterOrDigit) && t == s[b..start + count]
  {
    if |s| == 0 || start >= |s| || start + count == 0 then Step(ctx, None)
    else
      var d := s[start + count - 1];
      var next := Classify(ctx, d, s[start], isLetterOrDigit);
      if d == '#' || d == '@' || !isLetterOrDigit(s[start]) then Step(next, None)
      else Step(ctx, Dispatch(ctx, w, s[TokenStart(s, start, isLetterOrDigit)..start + count]))
  }

  /** One text-watcher notification. */
  datatype Hook =
    | Before(s: string, start: nat, count: nat)
    | After(s: string, start: nat, count: nat)

  /** The notification is one the host can send: every index the hook reads is in range. */
  predicate Admissible(h: Hook) {
    match h
    case Before(s, start, count) => count > 0 && start > 0 ==> start <= |s|
    case After(s, start, count) => |s| > 0 && start < |s| ==> start + count <= |s|
  }

  function Apply(ctx: EditContext, w: Watchers, h: Hook, isLetterOrDigit: char -> bool): Step
    requires Admissible(h)
  {
    match h
    case Before(s, start, count) => BeforeTextChanged(ctx, w, s, start, count, isLetterOrDigit)
    case After(s, start, count) => OnTextChanged(ctx, w, s, start, count, isLetterOrDigit)
  }

  /** The editing flags after a run of hooks, and the watcher calls made along the way, in order. */
  datatype Trace = Trace(context: EditContext, fired: seq<Invocation>)

  function Run(ctx: EditContext, w: Watchers, hooks: seq<Hook>, isLetterOrDigit: char -> bool): Trace
    requires forall i :: 0 <= i < |hooks| ==> Admissible(hooks[i])
    decreases |hooks|
  {
    if hooks == [] then Trace(ctx, [])
    else
      var step := Apply(ctx, w, hooks[0], isLetterOrDigit);
      var rest := Run(step.context, w, hooks[1..], isLetterOrDigit);
      Trace(rest.context, (if step.fired.Some? then [step.fired.value] else []) + rest.fired)
  }

  /** Starting from exclusive flags, no run of hooks makes both flags true. */
  lemma {:induction false} RunKeepsExclusive(ctx: EditContext, w: Watchers, hooks: seq<Hook>, isLetterOrDigit: char -> bool)
    requires forall i :: 0 <= i < |hooks| ==> Admissible(hooks[i])
    requires ctx.Exclusive()
    ensures Run(ctx, w, hooks, isLetterOrDigit).context.Exclusive()
    decreases |hooks|
  {
    if hooks != [] {
      var step := Apply(ctx, w, hooks[0], isLetterOrDigit);
      RunKeepsExclusive(step.context, w, hooks[1..], isLetterOrDigit);
    }
  }

  /** Each hook calls at most one watcher, and only a registered one, with a hashtag or mention kind. */
  lemma {:induction false} RunFiresRegisteredWatchers(ctx: EditContext, w: Watchers, hooks: seq<Hook>, isLetterOrDigit: char -> bool)
    requires forall i :: 0 <= i < |hooks| ==> Admissible(hooks[i])
    ensures var fired := Run(ctx, w, hooks, isLetterOrDigit).fired;
      |fired| <= |hooks| &&
      forall i :: 0 <= i < |fired| ==>
        fired[i].WatcherCall? &&
        ((fired[i].kind == Hashtag && w.hashtag == Some(fired[i].callback)) ||
         (fired[i].kind == Mention && w.mention == Some(fired[i].callback)))
    decreases |hooks|
  {
    if hooks != [] {
      var step := Apply(ctx, w, hooks[0], isLetterOrDigit);
      RunFiresRegisteredWatchers(step.context, w, hooks[1..], isLetterOrDigit);
    }
  }

  /**
   * Typing `#`, `a`, `b` and a space, one character at a time at the end of the
   * text, with only a hashtag watcher registered: the watcher receives "a" and then
   * "ab", and the space closes the hashtag.
   */
  lemma TypingHashtag(watcher: Callback, isLetterOrDigit: char -> bool)
    requires isLetterOrDigit('a') && isLetterOrDigit('b') && !isLetterOrDigit(' ')
    ensures Run(Neutral, Watchers(Some(watcher), None),
                [After("#", 0, 1), After("#a", 1, 1), After("#ab", 2, 1), After("#ab ", 3, 1)],
                isLetterOrDigit)
         == Trace(Neutral, [WatcherCall(Hashtag, watcher, "a"), WatcherCall(Hashtag, watcher, "ab")])
  {
    var w := Watchers(Some(watcher), None);
    var hooks := [After("#", 0, 1), After("#a", 1, 1), After("#ab", 2, 1), After("#ab ", 3, 1)];
    assert Apply(Neutral, w, hooks[0], isLetterOrDigit) == Step(OpenHashtag, None);
    assert "#a"[1] == 'a' && "#a"[1..2] == "a";
    assert TokenStartsAt("#a", 1, 1, isLetterOrDigit);
    TokenStartUnique("#a", TokenStart("#a", 1, isLetterOrDigit), 1, 1, isLetterOrDigit);
    assert Apply(OpenHashtag, w, hooks[1], isLetterOrDigit) == Step(OpenHashtag, Some(WatcherCall(Hashtag, watcher, "a")));
    assert "#ab"[1] == 'a' && "#ab"[2] == 'b' && "#ab"[1..3] == "ab";
    assert TokenStartsAt("#ab", 1, 2, isLetterOrDigit);
    TokenStartUnique("#ab", TokenStart("#ab", 2, isLetterOrDigit), 1, 2, isLetterOrDigit);
    assert Apply(OpenHashtag, w, hooks[2], isLetterOrDigit) == Step(OpenHashtag, Some(WatcherCall(Hashtag, watcher, "ab")));
    assert Apply(OpenHashtag, w, hooks[3], isLetterOrDigit) == Step(Neutral, None);
    assert hooks[1..][1..][1..][1..] == [];
  }

  /**
   * Deleting the trailing space of "#hello": the character before it is a letter,
   * so the flags stay as they are; the watcher receives "hello" only when a hashtag
   * was still open.
   */
  lemma DeletingAfterToken(watcher: Callback, ctx: EditContext, isLetterOrDigit: char -> bool)
    requires forall c :: c in "hello" ==> isLetterOrDigit(c)
    requires ctx == Neutral || ctx == OpenHashtag
    ensures BeforeTextChanged(ctx, Watchers(Some(watcher), None), "#hello ", 6, 1, isLetterOrDigit)
         == Step(ctx, if ctx == OpenHashtag then Some(WatcherCall(Hashtag, watcher, "hello")) else None)
  {
    var s := "#hello ";
    assert s[5] in "hello";
    var b := TokenStart(s, 5, isLetterOrDigit);
    forall i | 1 <= i <= 5 ensures isLetterOrDigit(s[i]) {
      assert s[i] in "hello";
    }
    TokenStartUnique(s, b, 1, 5, isLetterOrDigit);
    assert s[1..6] == "hello";
  }

  /**
   * A view created over the text "hi #": the `setText` at creation runs the insert
   * hook over the whole text before any watcher exists, and its last character
   * leaves a hashtag open. A hashtag watcher registered afterwards therefore
   * receives "a" when `a` is typed at the end.
   */
  lemma InitialTextEndingInHash(watcher: Callback, isLetterOrDigit: char -> bool)
    requires isLetterOrDigit('a') && !isLetterOrDigit('#')
    ensures OnTextChanged(Neutral, Watchers(None, None), "hi #", 0, 4, isLetterOrDigit).context == OpenHashtag
    ensures OnTextChanged(OpenHashtag, Watchers(Some(watcher), None), "hi #a", 4, 1, isLetterOrDigit)
         == Step(OpenHashtag, Some(WatcherCall(Hashtag, watcher, "a")))
  {
    var s := "hi #a";
    assert s[3] == '#' && s[4] == 'a' && s[4..5] == "a";
    assert TokenStartsAt(s, 4, 4, isLetterOrDigit);
    TokenStartUnique(s, TokenStart(s, 4, isLetterOrDigit), 4, 4, isLetterOrDigit);
  }
}
