/*
 * Title truncation of the product card.
 *
 * The card shows a product's title cut to a maximum number of code units,
 * followed by an ellipsis when it had to be cut. A JavaScript string is a
 * sequence of UTF-16 code units, and `length` and `substring` count and cut
 * code units, so a title here is a sequence of 16-bit code units: a cut may
 * fall between the two halves of a surrogate pair, exactly as in the
 * browser. The limit is a JavaScript number;
 * the model takes it as an unbounded integer, so negative limits are
 * covered and fractional ones are not.
 */
module ProductCard {

  /** One UTF-16 code unit. */
  type CodeUnit = x: int | 0 <= x < 0x1_0000

  /** A JavaScript string: its UTF-16 code units in order. */
  type JsString = seq<CodeUnit>

  /** The marker appended to a title that was cut: three full stops (U+002E). */
  const Ellipsis: JsString := [0x2E, 0x2E, 0x2E]

  /** The limit used when the caller gives none. */
  const DefaultMaxLength: int := 50

  /** The largest of `0` and `i`. */
  function NonNeg(i: int): (r: nat)
    ensures r >= i
    ensures i >= 0 ==> r == i
    ensures i < 0 ==> r == 0
  {
    if i < 0 then 0 else i
  }

  /**
   * `s.substring(0, end)` as String.prototype.substring of ECMA-262 defines
   * it for a start of 0: the end index is clamped into `[0, |s|]` and the
   * code units before it are returned.
   */
  function SubstringFromStart(s: JsString, end: int): (r: JsString)
    ensures r <= s
    ensures |r| == if end < 0 then 0 else if end > |s| then |s| else end
  {
    if end < 0 then [] else if end > |s| then s else s[..end]
  }

  /**
   * `truncateTitle(title, maxLength = 50)`: the title itself when its length
   * is at most `maxLength`, otherwise its first `maxLength` code units
   * followed by "...".
   */
  function TruncateTitle(title: JsString, maxLength: int := DefaultMaxLength): JsString
  {
    if |title| > maxLength then SubstringFromStart(title, maxLength) + Ellipsis else title
  }

  /** A title that fits is shown unchanged. */
  lemma FitsUnchanged(title: JsString, maxLength: int)
    requires |title| <= maxLength
    ensures TruncateTitle(title, maxLength) == title
  {
  }

  /**
   * A title that does not fit is shown as exactly its first `maxLength`
   * code units (none when the limit is negative) followed by "...".
   */
  lemma TooLongIsCut(title: JsString, maxLength: int)
    requires |title| > maxLength
    ensures TruncateTitle(title, maxLength) == title[..NonNeg(maxLength)] + Ellipsis
  {
  }

  /**
   * The shown title is never longer than the limit plus the three ellipsis
   * code units, and for a non-negative limit it has exactly that length
   * precisely when it was cut.
   */
  lemma LengthBound(title: JsString, maxLength: int)
    ensures |TruncateTitle(title, maxLength)| <= NonNeg(maxLength) + 3
    ensures maxLength >= 0 ==>
              (|TruncateTitle(title, maxLength)| == maxLength + 3 <==> |title| > maxLength)
  {
  }

  /**
   * Cutting never alters the code units that are kept: the first
   * `min(|title|, maxLength)` code units of the shown title are those of
   * `title`, and whatever follows them is either nothing or "...".
   */
  lemma KeepsPrefix(title: JsString, maxLength: int)
    ensures var kept := if |title| <= maxLength then |title| else NonNeg(maxLength);
            var r := TruncateTitle(title, maxLength);
            kept <= |r| && r[..kept] == title[..kept] && (r[kept..] == [] || r[kept..] == Ellipsis)
  {
  }

  /**
   * Truncating to a limit and then to a limit no larger gives what
   * truncating straight to the smaller limit gives.
   */
  lemma TruncateTwice(title: JsString, first: int, second: int)
    requires second <= first
    ensures TruncateTitle(TruncateTitle(title, first), second) == TruncateTitle(title, second)
  {
  }

  /** Truncation is idempotent, for every limit. */
  lemma Idempotent(title: JsString, maxLength: int)
    ensures TruncateTitle(TruncateTitle(title, maxLength), maxLength) == TruncateTitle(title, maxLength)
  {
    TruncateTwice(title, maxLength, maxLength);
  }

  /**
   * The titles truncation leaves unchanged are exactly those that fit and
   * those that already consist of `maxLength` code units (none for a
   * negative limit) followed by "...".
   */
  lemma FixedPoints(title: JsString, maxLength: int)
    ensures TruncateTitle(title, maxLength) == title <==>
              |title| <= maxLength
              || (|title| == NonNeg(maxLength) + 3 && title[NonNeg(maxLength)..] == Ellipsis)
  {
  }

  /**
   * A limit that falls inside a surrogate pair keeps its high half alone:
   * U+1F600 is the pair D83D DE00, and a limit of 1 keeps D83D before "...".
   */
  lemma CutsThroughSurrogatePair()
    ensures TruncateTitle([0xD83D, 0xDE00], 1) == [0xD83D, 0x2E, 0x2E, 0x2E]
  {
  }

  /**
   * Without an explicit limit, titles of at most 50 code units are shown
   * unchanged and longer ones as their first 50 code units and "...", 53
   * code units in all.
   */
  lemma DefaultLimit(title: JsString)
    ensures |title| <= 50 ==> TruncateTitle(title) == title
    ensures |title| > 50 ==>
              |TruncateTitle(title)| == 53 && TruncateTitle(title)[..50] == title[..50]
              && TruncateTitle(title)[50..] == Ellipsis
  {
  }
}
