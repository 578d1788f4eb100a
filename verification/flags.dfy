/**
 * The enable-flag bitmask `mFlags` of SocialViewImpl. A 32-bit Kotlin `Int` is
 * represented by the set of positions of its one-bits, so that `or` is union and
 * `and x.inv()` is difference, bit for bit.
 */
module Flags {
  import opened Kinds

  /** A 32-bit word, as the set of positions (0 = least significant) of its one-bits. */
  type Word = s: set<nat> | forall i :: i in s ==> i < 32

  /** Kotlin's `a or b`. */
  function Or(a: Word, b: Word): Word { a + b }

  /** Kotlin's `a and b.inv()`. */
  function AndInv(a: Word, b: Word): Word { a - b }

  /** The position of a kind's bit. */
  function BitOf(k: Kind): nat {
    match k
    case Hashtag => 0
    case Mention => 1
    case Hyperlink => 2
  }

  /** `FLAG_HASHTAG` (1), `FLAG_MENTION` (2) and `FLAG_HYPERLINK` (4): one bit each. */
  function FlagOf(k: Kind): (b: Word)
    ensures |b| == 1
  {
    {BitOf(k)}
  }

  /** The value of `mFlags` when the style sheet gives none: `FLAG_HASHTAG or FLAG_MENTION or FLAG_HYPERLINK`. */
  const DefaultFlags: Word := Or(Or(FlagOf(Hashtag), FlagOf(Mention)), FlagOf(Hyperlink))

  /** The getters `isHashtagEnabled`, `isMentionEnabled`, `isHyperlinkEnabled`: the kind's bit is set. */
  function IsEnabled(flags: Word, k: Kind): bool {
    BitOf(k) in flags
  }

  /** The getters' own test, `mFlags or FLAG == mFlags`, is the bit test. */
  lemma IsEnabledAsWritten(flags: Word, k: Kind)
    ensures IsEnabled(flags, k) <==> Or(flags, FlagOf(k)) == flags
    ensures IsEnabled(flags, k) <==> FlagOf(k) <= flags
  {
    if !IsEnabled(flags, k) {
      assert BitOf(k) in Or(flags, FlagOf(k));
    }
  }

  /** The matching setters: `mFlags or FLAG` to enable, `mFlags and FLAG.inv()` to disable. */
  function SetEnabled(flags: Word, k: Kind, enabled: bool): (r: Word)
    ensures IsEnabled(r, k) == enabled
    ensures forall j :: j != k ==> IsEnabled(r, j) == IsEnabled(flags, j)
    ensures r - FlagOf(k) == flags - FlagOf(k)
  {
    var f := FlagOf(k);
    var w := if enabled then Or(flags, f) else AndInv(flags, f);
    assert w - f == flags - f;
    assert forall j :: j != k ==> FlagOf(j) * f == {};
    w
  }

  /** Every kind is enabled by default. */
  lemma DefaultAllEnabled()
    ensures forall k :: IsEnabled(DefaultFlags, k)
  {
  }

  /** Setting a kind back to what its getter said restores the whole mask. */
  lemma SetEnabledUndo(flags: Word, k: Kind, enabled: bool)
    ensures SetEnabled(SetEnabled(flags, k, enabled), k, IsEnabled(flags, k)) == flags
  {
  }
}
