# SocialView core in Dafny

SocialView decorates an Android text view. It colours hashtags (`#news`),
mentions (`@bob`) and hyperlinks. It can make them clickable. It also tells
"text-changed watchers" the partial text of the hashtag or mention the user is
typing. This project models the core of `SocialViewImpl` and the `Mention`
value object with its builder, and proves properties of the model.

- `wrappers.dfy` (`Wrappers`): `Option`, for Kotlin's and Java's nullable references.
- `kinds.dfy` (`Kinds`): the three token kinds, callback identities, and the
  record of one callback call.
- `flags.dfy` (`Flags`): the enable-flag bitmask `mFlags`. A 32-bit `Int` is
  represented by the set of positions of its one-bits. So `or` is union and
  `and x.inv()` is difference, bit for bit. The getters test the kind's bit, which
  is proved equal to their `mFlags or FLAG == mFlags`.
- `scan.dfy` (`Scan`): the backward scan `indexOfPreviousNonLetterDigit`.
- `tracker.dfy` (`Tracker`): the live-token state machine (`mHashtagEditing`,
  `mMentionEditing`) of the two text-watcher hooks, as pure step functions.
  Also runs of hooks, and the properties of both.
- `colorizer.dfy` (`Colorizer`): the spans one colorize pass produces, as a
  function of the text, the flags, the colours and the click listeners.
- `social_view.dfy` (`SocialView`): the class `SocialViewImpl` itself. Its fields
  are updated in place by the setters, by `Colorize` (a loop per pattern) and by
  the two hooks. Each method is proved against the step functions and the
  colorize function above.
- `mention.dfy` (`Mentions`): `Mention` and `Mention.Builder` as classes.

Behaviour of the code that the model keeps as written:

- The backward scan returns its lower bound (0) when it finds nothing, so index 0
  is never inspected and the open token never includes index 0.
- `onTextChanged` reads the delimiter at `start + count - 1` but does the reset
  test on `start`.
- `onTextChanged` colorizes before its `start < s.length` guard. A failing colorize
  (the `check` that the text is a `Spannable`) ends the hook before the editing
  flags are looked at.
- `colorize` reads the view's own text buffer, not the `s` given to the hook.
  During an edit the host calls `BeforeTextChanged` with the old text, then
  replaces its buffer, then calls `OnTextChanged` with the new text. So the
  buffer `text` equals the hook's `s` when `OnTextChanged` colorizes.
  `SetTextSpannable` chains the three steps for a whole-text replacement.
- The plain (non-clickable) hyperlink span takes the mention colour. The clickable
  one takes the hyperlink colour.
- A clickable span captures the listener registered when it was made. A later
  listener change takes effect at the next colorize.
- The watcher is attached before `init` calls `setText(view.text, SPANNABLE)`.
  That call notifies it while `mFlags` is still 0 and no watcher is registered,
  so nothing is coloured yet, but a text ending in `#` or `@` leaves an editing
  flag on after creation.
- A failing colorize leaves the old spans untouched. The field assignment of the
  setter that called it has already happened.

## Model

| member | source | states |
|---|---|---|
| Scan.IndexOfPreviousNonLetterDigit | socialview-core/src/com/hendraanggrian/socialview/SocialViewImpl.kt:207 | the result is at least `start`; it is `start` or a non-letter/digit index at most `end`; every index above it up to `end` is a letter/digit (so it is the greatest such index in `(start, end]`, else `start`) |
| Flags.IsEnabledAsWritten | socialview-core/src/com/hendraanggrian/socialview/SocialViewImpl.kt:107-128 | the getters' test `mFlags or FLAG == mFlags` holds exactly when the kind's bit is set, i.e. when the flag's bits are a subset of the mask |
| Flags.SetEnabled | socialview-core/src/com/hendraanggrian/socialview/SocialViewImpl.kt:109-135 | after the setter the getter reads back the value set, the other two kinds read as before, and no bit other than the kind's own changes |
| Flags.DefaultAllEnabled | socialview-core/src/com/hendraanggrian/socialview/SocialViewImpl.kt:95 | the default mask enables all three kinds |
| Flags.SetEnabledUndo | socialview-core/src/com/hendraanggrian/socialview/SocialViewImpl.kt:107-135 | setting a kind back to its previous getter value restores the whole mask |
| Tracker.TokenStart | socialview-core/src/com/hendraanggrian/socialview/SocialViewImpl.kt:43-44 | `indexOfPreviousNonLetterDigit(s, 0, last) + 1` is a start of the open token ending at `last`: all letters/digits from it to `last`, and a non-letter/digit (or index 0) before it |
| Tracker.TokenStartUnique | socialview-core/src/com/hendraanggrian/socialview/SocialViewImpl.kt:207 | the start of the open token ending at a given index is unique |
| Tracker.Dispatch | socialview-core/src/com/hendraanggrian/socialview/SocialViewImpl.kt:69-70 | a watcher is called exactly when one is registered for a kind being edited; the hashtag watcher wins over the mention watcher; it receives the token text |
| Tracker.BeforeTextChanged | socialview-core/src/com/hendraanggrian/socialview/SocialViewImpl.kt:28-47 | nothing happens unless `count > 0 && start > 0`; then `s[start-1]` gives `#` -> (true,false), `@` -> (false,true), other non-letter/digit -> (false,false), all without a call; a letter/digit keeps the flags and calls the picked watcher iff one is eligible, with `s[b..start)` where `b` starts the open token ending at `start-1`; exclusive flags stay exclusive |
| Tracker.OnTextChanged | socialview-core/src/com/hendraanggrian/socialview/SocialViewImpl.kt:49-74 | nothing happens on empty text, `start >= |s|` or `start + count == 0`; otherwise the delimiter is `s[start+count-1]`, the reset test is on `s[start]`, and a call passes `s[b..start+count)` where `b` starts the open token ending at `start` (index bounds proved); exclusive flags stay exclusive |
| Tracker.RunKeepsExclusive | socialview-core/src/com/hendraanggrian/socialview/SocialViewImpl.kt:88-89 | from exclusive flags, no sequence of the two hooks makes `mHashtagEditing` and `mMentionEditing` both true |
| Tracker.RunFiresRegisteredWatchers | socialview-core/src/com/hendraanggrian/socialview/SocialViewImpl.kt:38-45 | a run makes at most one call per hook, and every call goes to a registered hashtag or mention watcher of its own kind |
| Tracker.TypingHashtag | socialview-core/src/com/hendraanggrian/socialview/SocialViewImpl.kt:49-74 | typing `#`, `a`, `b`, space gives the hashtag watcher "a" then "ab" and ends with both flags false |
| Tracker.DeletingAfterToken | socialview-core/src/com/hendraanggrian/socialview/SocialViewImpl.kt:28-47 | deleting the space after "#hello" keeps the flags; the watcher gets "hello" only if a hashtag was still open |
| Colorizer.SpansForAt | socialview-core/src/com/hendraanggrian/socialview/SocialViewImpl.kt:163-165 | `span(pattern, factory)` yields one span per match, in match order, over the match's range |
| Colorizer.AnnotationsOfKind | socialview-core/src/com/hendraanggrian/socialview/SocialViewImpl.kt:158-177 | after colorize the spans of kind `k` are exactly one per match of `k`'s pattern when `k` is enabled, and none when it is disabled |
| Colorizer.AnnotationsStyled | socialview-core/src/com/hendraanggrian/socialview/SocialViewImpl.kt:163-176 | every span is of an enabled kind; it is clickable exactly when that kind has a listener; it is underlined exactly for hyperlinks; a clickable span calls that listener in the kind's colour; a plain hyperlink span has the mention colour |
| Colorizer.AnnotationsOrdered | socialview-core/src/com/hendraanggrian/socialview/SocialViewImpl.kt:163-169 | hashtag spans precede mention spans, which precede hyperlink spans |
| Colorizer.AnnotationsDoNotOverlap | socialview-core/src/com/hendraanggrian/socialview/SocialViewImpl.kt:163-176 | when a kind's matches are ordered and disjoint, so are that kind's spans |
| Colorizer.DisableKind | socialview-core/src/com/hendraanggrian/socialview/SocialViewImpl.kt:127-135 | disabling a kind and colorizing again removes exactly that kind's spans and keeps the others unchanged, in order |
| SocialView.SocialViewImpl.constructor | socialview-core/src/com/hendraanggrian/socialview/SocialViewImpl.kt:79-101 | field defaults (no listeners or watchers, both editing flags off, `mFlags` 0), then `init`: the text ends spannable, the flags are the style sheet's or all kinds, the editing flags are what the insert hook leaves after reading the whole text with no watcher registered (not necessarily neutral), the log is empty, and the text is colorized |
| SocialView.SocialViewImpl.Init | socialview-core/src/com/hendraanggrian/socialview/SocialViewImpl.kt:91-101 | the watcher-notifying `setText` of the text onto itself moves the editing flags and the log as the insert hook over the whole text says; the flags become the style sheet's or all kinds; the spans are the annotations of the text |
| SocialView.SocialViewImpl.SetTextSpannable | socialview-core/src/com/hendraanggrian/socialview/SocialViewImpl.kt:92-93 | `setText(t, SPANNABLE)` with the watcher attached: the buffer holds `t` as a `Spannable`, its spans are the annotations of `t` (none for empty text), and the editing flags and log move as the insert hook with start 0 and count `|t|` says |
| Tracker.InitialTextEndingInHash | socialview-core/src/com/hendraanggrian/socialview/SocialViewImpl.kt:92-93 | a view created over "hi #" ends creation with a hashtag open, so a hashtag watcher registered later receives "a" when `a` is typed |
| SocialView.SocialViewImpl.SetText | socialview-core/src/com/hendraanggrian/socialview/SocialViewImpl.kt:93 | the host's buffer replacement alone, without the watcher: the buffer holds the new text, spannable or not, with no spans |
| SocialView.SocialViewImpl.Colorize | socialview-core/src/com/hendraanggrian/socialview/SocialViewImpl.kt:158-177 | fails, with spans unchanged, exactly when the text is not spannable; otherwise the spans become the annotations of the current flags, colours and listeners |
| SocialView.SocialViewImpl.SpanPattern | socialview-core/src/com/hendraanggrian/socialview/SocialViewImpl.kt:163-165 | appends, after the existing spans, one span per match of the kind's pattern |
| SocialView.SocialViewImpl.SetEnabled | socialview-core/src/com/hendraanggrian/socialview/SocialViewImpl.kt:107-135 | sets only the kind's bit, the getter reads back the value, other kinds unchanged, then colorize |
| SocialView.SocialViewImpl.SetColor | socialview-core/src/com/hendraanggrian/socialview/SocialViewImpl.kt:137-156 | stores the kind's colour, other colours unchanged, then colorize |
| SocialView.SocialViewImpl.SetClickListener | socialview-core/src/com/hendraanggrian/socialview/SocialViewImpl.kt:179-195 | installs link movement, stores the kind's listener, other listeners unchanged, then colorize |
| SocialView.SocialViewImpl.SetHashtagWatcher | socialview-core/src/com/hendraanggrian/socialview/SocialViewImpl.kt:197-199 | stores the hashtag watcher and nothing else, with no colorize |
| SocialView.SocialViewImpl.SetMentionWatcher | socialview-core/src/com/hendraanggrian/socialview/SocialViewImpl.kt:201-203 | stores the mention watcher and nothing else, with no colorize |
| SocialView.SocialViewImpl.BeforeTextChanged | socialview-core/src/com/hendraanggrian/socialview/SocialViewImpl.kt:28-47 | the flags and the call log move exactly as `Tracker.BeforeTextChanged` says; the flags stay exclusive |
| SocialView.SocialViewImpl.OnTextChanged | socialview-core/src/com/hendraanggrian/socialview/SocialViewImpl.kt:49-74 | empty text: nothing; otherwise colorize first; if it fails, flags and log are unchanged; else they move as `Tracker.OnTextChanged` says; the flags stay exclusive |
| SocialView.SocialViewImpl.OnClick | socialview-core/src/com/hendraanggrian/socialview/SocialViewImpl.kt:213-214 | clicking a clickable span calls its captured listener with its matched text |
| Mentions.Mention.constructor | socialview-commons/src/com/hendraanggrian/socialview/commons/Mention.java:15-21 | the username is the one given, and fixed (a `const`); display name and avatar start null |
| Mentions.Mention.SetDisplayname | socialview-commons/src/com/hendraanggrian/socialview/commons/Mention.java:33-35 | the display name becomes the argument; the avatar is not in the frame |
| Mentions.Mention.SetAvatar | socialview-commons/src/com/hendraanggrian/socialview/commons/Mention.java:42-44 | the avatar becomes the argument; nothing else changes |
| Mentions.Mention.SetAvatarDrawable | socialview-commons/src/com/hendraanggrian/socialview/commons/Mention.java:47-49 | the avatar slot holds the resource id; nothing else changes |
| Mentions.Mention.SetAvatarUrl | socialview-commons/src/com/hendraanggrian/socialview/commons/Mention.java:51-53 | a null URL clears the avatar slot; otherwise the slot holds that URL; nothing else changes |
| Mentions.Mention.SetAvatarUri | socialview-commons/src/com/hendraanggrian/socialview/commons/Mention.java:55-57 | a null Uri clears the avatar slot; otherwise the slot holds that Uri; nothing else changes |
| Mentions.Mention.SetAvatarFile | socialview-commons/src/com/hendraanggrian/socialview/commons/Mention.java:59-61 | a null File clears the avatar slot; otherwise the slot holds that File; nothing else changes |
| Mentions.Builder.constructor | socialview-commons/src/com/hendraanggrian/socialview/commons/Mention.java:66-68 | wraps a fresh mention with the given username |
| Mentions.Builder.SetDisplayname | socialview-commons/src/com/hendraanggrian/socialview/commons/Mention.java:71-74 | sets the wrapped mention's display name and returns the same builder |
| Mentions.Builder.SetAvatarDrawable | socialview-commons/src/com/hendraanggrian/socialview/commons/Mention.java:78-81 | sets the wrapped mention's avatar to the resource id and returns the same builder |
| Mentions.Builder.SetAvatarUrl | socialview-commons/src/com/hendraanggrian/socialview/commons/Mention.java:84-87 | clears the wrapped mention's avatar on a null URL, else sets it to the URL, and returns the same builder |
| Mentions.Builder.SetAvatarUri | socialview-commons/src/com/hendraanggrian/socialview/commons/Mention.java:90-93 | clears the wrapped mention's avatar on a null Uri, else sets it to the Uri, and returns the same builder |
| Mentions.Builder.SetAvatarFile | socialview-commons/src/com/hendraanggrian/socialview/commons/Mention.java:96-99 | clears the wrapped mention's avatar on a null File, else sets it to the File, and returns the same builder |
| Mentions.Builder.Build | socialview-commons/src/com/hendraanggrian/socialview/commons/Mention.java:102-104 | returns the wrapped mention itself |
| Mentions.BuildMention | socialview-commons/src/com/hendraanggrian/socialview/commons/Mention.java:63-104 | a builder chain yields a mention with the builder's username, the display name set, and the last avatar set |

## Left out

- `Character.isLetterOrDigit` is an uninterpreted `char -> bool` (a constant of
  the view). Its Unicode tables are not modelled.
- `HASHTAG_PATTERN`, `MENTION_PATTERN`, `HYPERLINK_PATTERN` and the
  `Spannable.span` extension are not part of this model. Each pattern is an
  abstract matcher `find(k)`. `span` is taken to add one span per match, in
  match order.
- Drawing (`TextPaint`, `updateDrawState`) is reduced to the colour and underline
  carried by each span. A `ColorStateList` is reduced to its default colour.
- `obtainStyledAttributes` becomes the constructor's flag and colour
  parameters. `addTextChangedListener` is implicit: the host calls the two hooks.
- `setLinkMovementMethodIfNotAlready` is one boolean, `linkMovement`.
- `indexOfNextNonLetterDigit` is defined but never called, so it is not modelled.
- `afterTextChanged` has an empty body. The hooks' unused `after` / `before`
  parameters are dropped.
- `getContext`, `getText` and the colour getters, and the `Mention` getters
  `getUsername`, `getDisplayname`, `getAvatar`, are plain field reads.
- What callbacks do is not modelled: watcher and click calls are recorded in
  `log`. Exceptions they throw are not modelled either.
- `start` and `count` are `nat`: the host never passes negative positions.
- A `string` stands for the `CharSequence`'s UTF-16 code units, one `char` per
  unit. Indices, lengths, `substring` and the host's `start` and `count` count those
  units. Texts with characters outside the Basic Multilingual Plane are not
  modelled: their surrogate pairs cannot be Dafny `char`s, and
  `Character.isLetterOrDigit(char)` sees each half of such a pair on its own.
- The two Java overloads `setAvatarUri(Uri)` and `setAvatarUri(File)` are
  `SetAvatarUri` and `SetAvatarFile`. `Uri` and `File` are opaque identities.
- Idempotence of colorize is not a separate lemma. `Colorize` sets the spans to a
  function of fields it does not change, so a second call gives the same spans.
