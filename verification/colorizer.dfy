/**
 * The colorize pass of SocialViewImpl, on values: which style spans a text gets
 * from the enabled kinds, their colours and their click listeners.
 */
module Colorizer {
  import opened Wrappers
  import opened Kinds
  import opened Flags

  /** One match of a kind's pattern: the half-open range `[start, end)` and the matched text. */
  datatype Match = Match(start: nat, end: nat, text: string)

  /** A `ColorStateList`, known here only by its default colour (an ARGB value). */
  datatype ColorStateList = ColorStateList(defaultColor: int)

  /**
   * The `CharacterStyle` put on a match: a `ForegroundColorSpan` (with the
   * underline that the hyperlink variant draws), or a `ClickableSpan` that calls
   * `listener` with `text` when clicked.
   */
  datatype Style =
    | Plain(color: int, underline: bool)
    | Clickable(color: int, underline: bool, listener: Callback, text: string)

  /** A style attached to `[start, end)`; `kind` records which pattern produced it. */
  datatype Span = Span(start: nat, end: nat, kind: Kind, style: Style)

  /** The fields of the view that colorize reads. */
  datatype Config = Config(
    flags: Word,
    hashtagColor: ColorStateList, mentionColor: ColorStateList, hyperlinkColor: ColorStateList,
    hashtagListener: Option<Callback>, mentionListener: Option<Callback>, hyperlinkListener: Option<Callback>)
  {
    function ColorOf(k: Kind): ColorStateList {
      match k
      case Hashtag => hashtagColor
      case Mention => mentionColor
      case Hyperlink => hyperlinkColor
    }

    function ListenerOf(k: Kind): Option<Callback> {
      match k
      case Hashtag => hashtagListener
      case Mention => mentionListener
      case Hyperlink => hyperlinkListener
    }
  }

  /**
   * The span factory given to `span` for kind `k`: `listener?.newClickableSpan(it, color)`
   * (underlined for hyperlinks), else a `ForegroundColorSpan`, whose hyperlink
   * variant takes the mention colour and draws an underline.
   */
  function StyleFor(cfg: Config, k: Kind, text: string): Style {
    match cfg.ListenerOf(k)
    case Some(l) => Clickable(cfg.ColorOf(k).defaultColor, k == Hyperlink, l, text)
    case None =>
      if k == Hyperlink then Plain(cfg.mentionColor.defaultColor, true)
      else Plain(cfg.ColorOf(k).defaultColor, false)
  }

  function SpanOf(cfg: Config, k: Kind, m: Match): Span {
    Span(m.start, m.end, k, StyleFor(cfg, k, m.text))
  }

  /** The spans `span(pattern, factory)` adds for the matches `ms`, in match order. */
  function SpansFor(cfg: Config, k: Kind, ms: seq<Match>): seq<Span>
    decreases |ms|
  {
    if ms == [] then [] else SpansFor(cfg, k, ms[..|ms| - 1]) + [SpanOf(cfg, k, ms[|ms| - 1])]
  }

  /** The spans of one kind: none when the kind is disabled. */
  function Part(cfg: Config, k: Kind, matches: seq<Match>): seq<Span> {
    if IsEnabled(cfg.flags, k) then SpansFor(cfg, k, matches) else []
  }

  /**
   * The spans a successful colorize leaves on the text: the old ones are gone, and
   * those of the enabled kinds follow in the order hashtag, mention, hyperlink.
   * `find(k)` is the matcher of kind `k`'s pattern.
   */
  function Annotations(cfg: Config, find: Kind -> string -> seq<Match>, text: string): seq<Span> {
    Part(cfg, Hashtag, find(Hashtag)(text)) + Part(cfg, Mention, find(Mention)(text)) + Part(cfg, Hyperlink, find(Hyperlink)(text))
  }

  /** The spans whose kind is in `ks`, in their order. */
  function Select(spans: seq<Span>, ks: set<Kind>): (r: seq<Span>)
    ensures |r| <= |spans|
    ensures forall i :: 0 <= i < |r| ==> r[i].kind in ks
  {
    if spans == [] then []
    else (if spans[0].kind in ks then [spans[0]] else []) + Select(spans[1..], ks)
  }

  /** A kind's style: clickable exactly when it has a listener, underlined exactly for hyperlinks. */
  predicate WellStyled(cfg: Config, sp: Span) {
    var st := sp.style;
    (st.Clickable? <==> cfg.ListenerOf(sp.kind).Some?) &&
    (st.underline <==> sp.kind == Hyperlink) &&
    (st.Clickable? ==> st.listener == cfg.ListenerOf(sp.kind).value && st.color == cfg.ColorOf(sp.kind).defaultColor) &&
    (st.Plain? ==> st.color == (if sp.kind == Hyperlink then cfg.mentionColor else cfg.ColorOf(sp.kind)).defaultColor)
  }

  /** The matches of one kind are in order and do not overlap. */
  predicate Ordered(ms: seq<Match>) {
    (forall i :: 0 <= i < |ms| ==> ms[i].start <= ms[i].end) &&
    (forall i, j :: 0 <= i < j < |ms| ==> ms[i].end <= ms[j].start)
  }

  /** The `i`-th span for matches `ms` covers the `i`-th match, with kind `k`'s style. */
  lemma {:induction false} SpansForAt(cfg: Config, k: Kind, ms: seq<Match>)
    ensures |SpansFor(cfg, k, ms)| == |ms|
    ensures forall i :: 0 <= i < |ms| ==> SpansFor(cfg, k, ms)[i] == SpanOf(cfg, k, ms[i])
    decreases |ms|
  {
    if ms != [] {
      SpansForAt(cfg, k, ms[..|ms| - 1]);
    }
  }

  lemma {:induction false} SelectAppend(a: seq<Span>, b: seq<Span>, ks: set<Kind>)
    ensures Select(a + b, ks) == Select(a, ks) + Select(b, ks)
    decreases |a|
  {
    if a == [] {
      assert a + b == b;
    } else {
      assert (a + b)[0] == a[0] && (a + b)[1..] == a[1..] + b;
      SelectAppend(a[1..], b, ks);
    }
  }

  /** Selecting kinds from the spans of one kind keeps all of them or none. */
  lemma {:induction false} SelectSpansFor(cfg: Config, k: Kind, ms: seq<Match>, ks: set<Kind>)
    ensures Select(SpansFor(cfg, k, ms), ks) == if k in ks then SpansFor(cfg, k, ms) else []
    decreases |ms|
  {
    if ms != [] {
      var last := SpanOf(cfg, k, ms[|ms| - 1]);
      SelectAppend(SpansFor(cfg, k, ms[..|ms| - 1]), [last], ks);
      SelectSpansFor(cfg, k, ms[..|ms| - 1], ks);
      assert Select([last], ks) == if k in ks then [last] else [];
    }
  }

  lemma SelectPart(cfg: Config, k: Kind, ms: seq<Match>, ks: set<Kind>)
    ensures Select(Part(cfg, k, ms), ks) == if k in ks then Part(cfg, k, ms) else []
  {
    if IsEnabled(cfg.flags, k) {
      SelectSpansFor(cfg, k, ms, ks);
    }
  }

  lemma SelectAnnotations(cfg: Config, find: Kind -> string -> seq<Match>, text: string, ks: set<Kind>)
    ensures Select(Annotations(cfg, find, text), ks)
         == (if Hashtag in ks then Part(cfg, Hashtag, find(Hashtag)(text)) else []) +
            (if Mention in ks then Part(cfg, Mention, find(Mention)(text)) else []) +
            (if Hyperlink in ks then Part(cfg, Hyperlink, find(Hyperlink)(text)) else [])
  {
    var h := Part(cfg, Hashtag, find(Hashtag)(text));
    var m := Part(cfg, Mention, find(Mention)(text));
    var y := Part(cfg, Hyperlink, find(Hyperlink)(text));
    SelectAppend(h + m, y, ks);
    SelectAppend(h, m, ks);
    SelectPart(cfg, Hashtag, find(Hashtag)(text), ks);
    SelectPart(cfg, Mention, find(Mention)(text), ks);
    SelectPart(cfg, Hyperlink, find(Hyperlink)(text), ks);
  }

  /**
   * The spans of kind `k` are exactly one per match of `k`'s pattern, in match
   * order, when `k` is enabled, and there are none when it is disabled.
   */
  lemma AnnotationsOfKind(cfg: Config, find: Kind -> string -> seq<Match>, text: string, k: Kind)
    ensures var sel := Select(Annotations(cfg, find, text), {k});
            var ms := find(k)(text);
            (IsEnabled(cfg.flags, k) ==> |sel| == |ms| && forall i :: 0 <= i < |ms| ==> sel[i] == SpanOf(cfg, k, ms[i])) &&
            (!IsEnabled(cfg.flags, k) ==> sel == [])
  {
    SelectOneKind(cfg, find, text, k);
    SpansForAt(cfg, k, find(k)(text));
  }

  /** Selecting one kind from the annotations gives back that kind's part. */
  lemma SelectOneKind(cfg: Config, find: Kind -> string -> seq<Match>, text: string, k: Kind)
    ensures Select(Annotations(cfg, find, text), {k}) == Part(cfg, k, find(k)(text))
  {
    SelectAnnotations(cfg, find, text, {k});
    match k {
      case Hashtag =>
        assert Mention !in {k} && Hyperlink !in {k};
      case Mention =>
        assert Hashtag !in {k} && Hyperlink !in {k};
      case Hyperlink =>
        assert Hashtag !in {k} && Mention !in {k};
    }
  }

  /** Every span is of an enabled kind and carries that kind's style. */
  lemma AnnotationsStyled(cfg: Config, find: Kind -> string -> seq<Match>, text: string)
    ensures forall sp :: sp in Annotations(cfg, find, text) ==> IsEnabled(cfg.flags, sp.kind) && WellStyled(cfg, sp)
  {
    forall k ensures forall sp :: sp in Part(cfg, k, find(k)(text)) ==> sp.kind == k && IsEnabled(cfg.flags, k) && WellStyled(cfg, sp) {
      SpansForAt(cfg, k, find(k)(text));
    }
  }

  function Rank(k: Kind): nat {
    match k
    case Hashtag => 0
    case Mention => 1
    case Hyperlink => 2
  }

  /** Hashtag spans come first, then mention spans, then hyperlink spans. */
  lemma AnnotationsOrdered(cfg: Config, find: Kind -> string -> seq<Match>, text: string)
    ensures var r := Annotations(cfg, find, text);
            forall i, j :: 0 <= i < j < |r| ==> Rank(r[i].kind) <= Rank(r[j].kind)
  {
    var h := Part(cfg, Hashtag, find(Hashtag)(text));
    var m := Part(cfg, Mention, find(Mention)(text));
    var y := Part(cfg, Hyperlink, find(Hyperlink)(text));
    SpansForAt(cfg, Hashtag, find(Hashtag)(text));
    SpansForAt(cfg, Mention, find(Mention)(text));
    SpansForAt(cfg, Hyperlink, find(Hyperlink)(text));
    assert forall i :: 0 <= i < |h| ==> h[i].kind == Hashtag;
    assert forall i :: 0 <= i < |m| ==> m[i].kind == Mention;
    assert forall i :: 0 <= i < |y| ==> y[i].kind == Hyperlink;
  }

  /** When a kind's matcher returns ordered, non-overlapping matches, that kind's spans do not overlap. */
  lemma AnnotationsDoNotOverlap(cfg: Config, find: Kind -> string -> seq<Match>, text: string, k: Kind)
    requires Ordered(find(k)(text))
    ensures var sel := Select(Annotations(cfg, find, text), {k});
            forall i, j :: 0 <= i < j < |sel| ==> sel[i].start <= sel[i].end <= sel[j].start
  {
    AnnotationsOfKind(cfg, find, text, k);
  }

  /**
   * Disabling a kind and colorizing again removes exactly that kind's spans and
   * leaves the other kinds' spans as they were.
   */
  lemma DisableKind(cfg: Config, find: Kind -> string -> seq<Match>, text: string, k: Kind)
    ensures Annotations(cfg.(flags := SetEnabled(cfg.flags, k, false)), find, text)
         == Select(Annotations(cfg, find, text), {Hashtag, Mention, Hyperlink} - {k})
  {
    var off := cfg.(flags := SetEnabled(cfg.flags, k, false));
    SelectAnnotations(cfg, find, text, {Hashtag, Mention, Hyperlink} - {k});
    forall j ensures Part(off, j, find(j)(text)) == if j == k then [] else Part(cfg, j, find(j)(text)) {
      SpansForIgnoresFlags(cfg, off, j, find(j)(text));
    }
  }

  /** The spans built for matches depend on colours and listeners, not on the flags. */
  lemma {:induction false} SpansForIgnoresFlags(cfg: Config, other: Config, k: Kind, ms: seq<Match>)
    requires other == cfg.(flags := other.flags)
    ensures SpansFor(other, k, ms) == SpansFor(cfg, k, ms)
    decreases |ms|
  {
    if ms != [] {
      SpansForIgnoresFlags(cfg, other, k, ms[..|ms| - 1]);
    }
  }
}
