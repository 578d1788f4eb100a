/**
 * `SocialViewImpl`: the state a social text view keeps, its setters, its
 * colorize pass and its text watcher.
 */
module SocialView {
  import opened Wrappers
  import opened Kinds
  import opened Flags
  import opened Scan
  import Tracker
  import opened Colorizer

  class SocialViewImpl {
    /** `Character.isLetterOrDigit`, left uninterpreted. */
    const isLetterOrDigit: char -> bool
    /** The matchers of `HASHTAG_PATTERN`, `MENTION_PATTERN` and `HYPERLINK_PATTERN`. */
    const find: Kind -> string -> seq<Match>

    // The host view's text buffer: its characters, whether it is a `Spannable`, and its spans.
    var text: string
    var spannable: bool
    var spans: seq<Span>
    /** The view's movement method is a `LinkMovementMethod`, so clickable spans get clicks. */
    var linkMovement: bool

    var flags: Word
    var hashtagColor: ColorStateList
    var mentionColor: ColorStateList
    var hyperlinkColor: ColorStateList
    var hashtagListener: Option<Callback>
    var mentionListener: Option<Callback>
    var hyperlinkListener: Option<Callback>
    var hashtagWatcher: Option<Callback>
    var mentionWatcher: Option<Callback>
    var hashtagEditing: bool
    var mentionEditing: bool

    /** Every call of a watcher or click listener, oldest first. */
    var log: seq<Invocation>

    function Config(): Config
      reads this`flags, this`hashtagColor, this`mentionColor, this`hyperlinkColor
      reads this`hashtagListener, this`mentionListener, this`hyperlinkListener
    {
      Colorizer.Config(flags, hashtagColor, mentionColor, hyperlinkColor, hashtagListener, mentionListener, hyperlinkListener)
    }

    function Context(): Tracker.EditContext
      reads this`hashtagEditing, this`mentionEditing
    {
      Tracker.EditContext(hashtagEditing, mentionEditing)
    }

    function Watchers(): Tracker.Watchers
      reads this`hashtagWatcher, this`mentionWatcher
    {
      Tracker.Watchers(hashtagWatcher, mentionWatcher)
    }

    /** The object invariant: never editing a hashtag and a mention at once. */
    ghost predicate Valid()
      reads this`hashtagEditing, this`mentionEditing
    {
      Context().Exclusive()
    }

    /**
     * The field initialisers: no listeners or watchers, neither editing flag, and
     * `mFlags` at the JVM default 0. The colours, read from the style sheet, are
     * set here too: nothing reads them before `init` assigns them, because
     * `mFlags` is 0 until then. Then the `init` block runs.
     */
    constructor (text: string, flagsAttribute: Option<Word>,
                 hashtagColor: ColorStateList, mentionColor: ColorStateList, hyperlinkColor: ColorStateList,
                 isLetterOrDigit: char -> bool, find: Kind -> string -> seq<Match>)
      ensures Valid()
      ensures this.text == text && spannable && !linkMovement
      ensures this.isLetterOrDigit == isLetterOrDigit && this.find == find
      ensures flags == flagsAttribute.GetOr(DefaultFlags)
      ensures this.hashtagColor == hashtagColor && this.mentionColor == mentionColor && this.hyperlinkColor == hyperlinkColor
      ensures hashtagListener == mentionListener == hyperlinkListener == None
      ensures hashtagWatcher == mentionWatcher == None
      ensures Context() == Tracker.OnTextChanged(Tracker.Neutral, Tracker.Watchers(None, None), text, 0, |text|, isLetterOrDigit).context
      ensures log == []
      ensures spans == Annotations(Config(), find, text)
    {
      this.isLetterOrDigit := isLetterOrDigit;
      this.find := find;
      this.text := text;
      spannable := false;
      spans := [];
      linkMovement := false;
      flags := {};
      this.hashtagColor := hashtagColor;
      this.mentionColor := mentionColor;
      this.hyperlinkColor := hyperlinkColor;
      hashtagListener, mentionListener, hyperlinkListener := None, None, None;
      hashtagWatcher, mentionWatcher := None, None;
      hashtagEditing, mentionEditing := false, false;
      log := [];
      new;
      Init(flagsAttribute);
    }

    /**
     * The `init` block. The text watcher is attached first, so the `setText(view.text,
     * SPANNABLE)` that follows notifies it with the flags as they are (0, from the
     * constructor): the insert hook can leave an editing flag on (a text ending in
     * `#` or `@`). Then `mFlags` comes from the style sheet (`flagsAttribute`, all
     * kinds when absent), and the text is colorized.
     */
    method Init(flagsAttribute: Option<Word>)
      requires Valid()
      modifies this`text, this`spannable, this`spans, this`hashtagEditing, this`mentionEditing, this`log, this`flags
      ensures Valid()
      ensures text == old(text) && spannable
      ensures flags == flagsAttribute.GetOr(DefaultFlags)
      ensures var step := Tracker.OnTextChanged(old(Context()), Watchers(), text, 0, |text|, isLetterOrDigit);
              Context() == step.context &&
              log == old(log) + (if step.fired.Some? then [step.fired.value] else [])
      ensures spans == Annotations(Config(), find, text)
    {
      SetTextSpannable(text);
      flags := flagsAttribute.GetOr(DefaultFlags);
      var ok := Colorize();
    }

    /** The host replaces its text buffer (`TextView.setText`), as a `Spannable` or not; the new buffer has no spans. */
    method SetText(t: string, asSpannable: bool)
      modifies this`text, this`spannable, this`spans
      ensures text == t && spannable == asSpannable && spans == []
    {
      text, spannable, spans := t, asSpannable, [];
    }

    /**
     * The host's `setText(t, SPANNABLE)` while the text watcher is attached: the
     * delete hook sees the old text with start 0, the buffer becomes a `Spannable`
     * holding `t`, and the insert hook sees `t` with start 0 and count `|t|`.
     */
    method SetTextSpannable(t: string)
      requires Valid()
      modifies this`text, this`spannable, this`spans, this`hashtagEditing, this`mentionEditing, this`log
      ensures Valid()
      ensures text == t && spannable
      ensures spans == if |t| == 0 then [] else Annotations(Config(), find, t)
      ensures var step := Tracker.OnTextChanged(old(Context()), Watchers(), t, 0, |t|, isLetterOrDigit);
              Context() == step.context &&
              log == old(log) + (if step.fired.Some? then [step.fired.value] else [])
    {
      BeforeTextChanged(text, 0, |text|);
      SetText(t, true);
      var ok := OnTextChanged(t, 0, |t|);
    }

    /**
     * `colorize()`. It fails (the Kotlin `check` throws, reported here as `ok ==
     * false`) before touching any span when the text is not a `Spannable`;
     * otherwise every old span is removed and the spans of the enabled kinds are
     * added, hashtags first, then mentions, then hyperlinks.
     */
    method Colorize() returns (ok: bool)
      modifies this`spans
      ensures ok == spannable
      ensures ok ==> spans == Annotations(Config(), find, text)
      ensures !ok ==> spans == old(spans)
    {
      if !spannable {
        return false;
      }
      spans := [];
      if IsEnabled(flags, Hashtag) {
        SpanPattern(Hashtag);
      }
      assert spans == Part(Config(), Hashtag, find(Hashtag)(text));
      if IsEnabled(flags, Mention) {
        SpanPattern(Mention);
      }
      assert spans == Part(Config(), Hashtag, find(Hashtag)(text)) + Part(Config(), Mention, find(Mention)(text));
      if IsEnabled(flags, Hyperlink) {
        SpanPattern(Hyperlink);
      }
      ok := true;
    }

    /** `spannable.span(pattern, factory)`: one span per match of kind `k`'s pattern, in match order. */
    method SpanPattern(k: Kind)
      modifies this`spans
      ensures spans == old(spans) + SpansFor(Config(), k, find(k)(text))
    {
      var ms := find(k)(text);
      var i := 0;
      while i < |ms|
        invariant 0 <= i <= |ms|
        invariant spans == old(spans) + SpansFor(Config(), k, ms[..i])
      {
        assert ms[..i + 1][..i] == ms[..i];
        spans := spans + [SpanOf(Config(), k, ms[i])];
        i := i + 1;
      }
      assert ms[..i] == ms;
    }

    /** The setters of `isHashtagEnabled`, `isMentionEnabled` and `isHyperlinkEnabled`, each followed by `colorize()`. */
    method SetEnabled(k: Kind, enabled: bool) returns (ok: bool)
      modifies this`flags, this`spans
      ensures flags == Flags.SetEnabled(old(flags), k, enabled)
      ensures IsEnabled(flags, k) == enabled
      ensures forall j :: j != k ==> IsEnabled(flags, j) == IsEnabled(old(flags), j)
      ensures ok == spannable
      ensures ok ==> spans == Annotations(Config(), find, text)
      ensures !ok ==> spans == old(spans)
    {
      flags := Flags.SetEnabled(flags, k, enabled);
      ok := Colorize();
    }

    /** The setters of `hashtagColor`, `mentionColor` and `hyperlinkColor`, each followed by `colorize()`. */
    method SetColor(k: Kind, color: ColorStateList) returns (ok: bool)
      modifies this`hashtagColor, this`mentionColor, this`hyperlinkColor, this`spans
      ensures Config().ColorOf(k) == color
      ensures forall j :: j != k ==> Config().ColorOf(j) == old(Config().ColorOf(j))
      ensures ok == spannable
      ensures ok ==> spans == Annotations(Config(), find, text)
      ensures !ok ==> spans == old(spans)
    {
      match k {
        case Hashtag => hashtagColor := color;
        case Mention => mentionColor := color;
        case Hyperlink => hyperlinkColor := color;
      }
      ok := Colorize();
    }

    /**
     * `setOnHashtagClickListener` and its siblings: the view gets a
     * `LinkMovementMethod`, the listener is stored, and the text is colorized.
     */
    method SetClickListener(k: Kind, listener: Option<Callback>) returns (ok: bool)
      modifies this`hashtagListener, this`mentionListener, this`hyperlinkListener, this`linkMovement, this`spans
      ensures linkMovement
      ensures Config().ListenerOf(k) == listener
      ensures forall j :: j != k ==> Config().ListenerOf(j) == old(Config().ListenerOf(j))
      ensures ok == spannable
      ensures ok ==> spans == Annotations(Config(), find, text)
      ensures !ok ==> spans == old(spans)
    {
      linkMovement := true;
      match k {
        case Hashtag => hashtagListener := listener;
        case Mention => mentionListener := listener;
        case Hyperlink => hyperlinkListener := listener;
      }
      ok := Colorize();
    }

    /** `setHashtagTextChangedListener`: no colorize. */
    method SetHashtagWatcher(watcher: Option<Callback>)
      modifies this`hashtagWatcher
      ensures hashtagWatcher == watcher
    {
      hashtagWatcher := watcher;
    }

    /** `setMentionTextChangedListener`: no colorize. */
    method SetMentionWatcher(watcher: Option<Callback>)
      modifies this`mentionWatcher
      ensures mentionWatcher == watcher
    {
      mentionWatcher := watcher;
    }

    /** The text watcher's `beforeTextChanged(s, start, count, after)`. */
    method BeforeTextChanged(s: string, start: nat, count: nat)
      requires Valid()
      requires count > 0 && start > 0 ==> start <= |s|
      modifies this`hashtagEditing, this`mentionEditing, this`log
      ensures Valid()
      ensures var step := Tracker.BeforeTextChanged(old(Context()), Watchers(), s, start, count, isLetterOrDigit);
              Context() == step.context &&
              log == old(log) + (if step.fired.Some? then [step.fired.value] else [])
    {
      if count > 0 && start > 0 {
        var c := s[start - 1];
        if c == '#' {
          hashtagEditing := true;
          mentionEditing := false;
        } else if c == '@' {
          hashtagEditing := false;
          mentionEditing := true;
        } else if !isLetterOrDigit(c) {
          hashtagEditing := false;
          mentionEditing := false;
        } else if hashtagWatcher.Some? && hashtagEditing {
          var b := IndexOfPreviousNonLetterDigit(s, 0, start - 1, isLetterOrDigit) + 1;
          log := log + [WatcherCall(Hashtag, hashtagWatcher.value, s[b..start])];
        } else if mentionWatcher.Some? && mentionEditing {
          var b := IndexOfPreviousNonLetterDigit(s, 0, start - 1, isLetterOrDigit) + 1;
          log := log + [WatcherCall(Mention, mentionWatcher.value, s[b..start])];
        }
      }
    }

    /**
     * The text watcher's `onTextChanged(s, start, before, count)`. On a non-empty
     * text it colorizes first; `ok == false` is the colorize failure, which ends the
     * hook before the editing flags are looked at.
     */
    method OnTextChanged(s: string, start: nat, count: nat) returns (ok: bool)
      requires Valid()
      requires |s| > 0 && start < |s| ==> start + count <= |s|
      modifies this`hashtagEditing, this`mentionEditing, this`log, this`spans
      ensures Valid()
      ensures ok == (|s| == 0 || spannable)
      ensures |s| == 0 ==> spans == old(spans)
      ensures |s| > 0 && spannable ==> spans == Annotations(Config(), find, text)
      ensures |s| > 0 && !spannable ==> spans == old(spans)
      ensures |s| == 0 || !spannable ==> Context() == old(Context()) && log == old(log)
      ensures |s| > 0 && spannable ==>
        var step := Tracker.OnTextChanged(old(Context()), Watchers(), s, start, count, isLetterOrDigit);
        Context() == step.context &&
        log == old(log) + (if step.fired.Some? then [step.fired.value] else [])
    {
      if |s| == 0 {
        return true;
      }
      ok := Colorize();
      if !ok {
        return;
      }
      if start < |s| {
        if start + count == 0 {
          return;
        }
        var d := s[start + count - 1];
        if d == '#' {
          hashtagEditing := true;
          mentionEditing := false;
        } else if d == '@' {
          hashtagEditing := false;
          mentionEditing := true;
        } else if !isLetterOrDigit(s[start]) {
          hashtagEditing := false;
          mentionEditing := false;
        } else if hashtagWatcher.Some? && hashtagEditing {
          var b := IndexOfPreviousNonLetterDigit(s, 0, start, isLetterOrDigit) + 1;
          log := log + [WatcherCall(Hashtag, hashtagWatcher.value, s[b..start + count])];
        } else if mentionWatcher.Some? && mentionEditing {
          var b := IndexOfPreviousNonLetterDigit(s, 0, start, isLetterOrDigit) + 1;
          log := log + [WatcherCall(Mention, mentionWatcher.value, s[b..start + count])];
        }
      }
    }

    /**
     * A click on the `i`-th span, which the `LinkMovementMethod` delivers only to
     * clickable spans: `onClick` calls the listener captured when the span was
     * made, with the matched text.
     */
    method OnClick(i: nat)
      requires i < |spans| && spans[i].style.Clickable?
      modifies this`log
      ensures log == old(log) + [ClickCall(spans[i].kind, spans[i].style.listener, spans[i].style.text)]
    {
      var sp := spans[i];
      log := log + [ClickCall(sp.kind, sp.style.listener, sp.style.text)];
    }
  }
}
