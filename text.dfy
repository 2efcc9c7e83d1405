/**
 * The string operations the calculator applies to its expression text:
 * `String.prototype.indexOf` and `String.prototype.split` with a non-empty
 * string separator, and `join` as the inverse partner of `split`.
 */
module Text {

  import opened Wrappers

  /** `sep` occurs in `text` starting at index `i`. */
  predicate OccursAt(text: string, sep: string, i: nat) {
    i + |sep| <= |text| && text[i..i + |sep|] == sep
  }

  /** `sep` occurs somewhere in `text`. */
  ghost predicate Contains(text: string, sep: string) {
    exists i: nat :: OccursAt(text, sep, i)
  }

  /** The first index at or after `from` where `sep` occurs (`text.indexOf(sep, from)`). */
  function IndexOf(text: string, sep: string, from: nat): (r: Option<nat>)
    decreases |text| - from
    ensures r.Some? ==> from <= r.value && OccursAt(text, sep, r.value)
    ensures forall j: nat :: from <= j && (r.None? || j < r.value) ==> !OccursAt(text, sep, j)
  {
    if from + |sep| > |text| then None
    else if text[from..from + |sep|] == sep then Some(from)
    else IndexOf(text, sep, from + 1)
  }

  /** An occurrence inside a prefix of `text` is an occurrence in `text`. */
  lemma OccursInPrefix(text: string, sep: string, n: nat, i: nat)
    requires n <= |text|
    requires OccursAt(text[..n], sep, i)
    ensures OccursAt(text, sep, i) && i + |sep| <= n
  {
  }

  /**
   * `text.split(sep)`: the pieces between successive non-overlapping
   * occurrences of `sep`, found from left to right. There is always at least
   * one piece, and no piece contains the separator.
   */
  function Split(text: string, sep: string): (parts: seq<string>)
    requires sep != ""
    decreases |text|
    ensures |parts| >= 1
    ensures forall k :: 0 <= k < |parts| ==> !Contains(parts[k], sep)
    ensures IndexOf(text, sep, 0).None? ==> parts == [text]
    ensures IndexOf(text, sep, 0).Some? ==>
              |parts| >= 2 && parts[0] == text[..IndexOf(text, sep, 0).value]
  {
    match IndexOf(text, sep, 0)
    case None => [text]
    case Some(i) =>
      var head := text[..i];
      assert !Contains(head, sep) by {
        forall j: nat | OccursAt(head, sep, j) ensures false {
          OccursInPrefix(text, sep, i, j);
        }
      }
      [head] + Split(text[i + |sep|..], sep)
  }

  /**
   * After the cut at the first occurrence, the remaining pieces are the
   * split of the text that follows that occurrence.
   */
  lemma SplitRest(text: string, sep: string)
    requires sep != "" && IndexOf(text, sep, 0).Some?
    ensures Split(text, sep)[1..] == Split(text[IndexOf(text, sep, 0).value + |sep|..], sep)
  {
  }

  /** `parts.join(sep)`. */
  function Join(parts: seq<string>, sep: string): string {
    if parts == [] then ""
    else if |parts| == 1 then parts[0]
    else parts[0] + sep + Join(parts[1..], sep)
  }

  /** Joining a first piece onto a non-empty rest puts one separator between them. */
  lemma JoinCons(head: string, tail: seq<string>, sep: string)
    requires tail != []
    ensures Join([head] + tail, sep) == head + sep + Join(tail, sep)
  {
  }

  /** Joining the pieces of a split with the same separator gives back the text. */
  lemma {:induction false} SplitThenJoin(text: string, sep: string)
    requires sep != ""
    decreases |text|
    ensures Join(Split(text, sep), sep) == text
  {
    match IndexOf(text, sep, 0)
    case None =>
    case Some(i) =>
      var rest := text[i + |sep|..];
      SplitThenJoin(rest, sep);
      JoinCons(text[..i], Split(rest, sep), sep);
      assert text == text[..i] + text[i..i + |sep|] + rest;
  }

  /** `sep` shares no character with `s`. */
  predicate Apart(s: string, sep: string) {
    forall c :: c in sep ==> c !in s
  }

  /** A text that shares no character with the separator does not contain it. */
  lemma ApartNotContains(s: string, sep: string)
    requires sep != "" && Apart(s, sep)
    ensures IndexOf(s, sep, 0).None?
  {
    forall j: nat | j + |sep| <= |s| ensures !OccursAt(s, sep, j) {
      assert sep[0] in sep && s[j] in s;
      assert s[j..j + |sep|][0] == s[j];
    }
  }

  /**
   * The expression the calculator builds — some text, the symbol padded with
   * one space on each side, more text — splits on the symbol into exactly
   * the two padded operand texts, provided no character of the symbol is a
   * space or appears in either operand text.
   */
  lemma SplitAroundSymbol(x: string, sep: string, y: string)
    requires sep != ""
    requires Apart(x + " " + y, sep)
    ensures Split(x + " " + sep + " " + y, sep) == [x + " ", " " + y]
  {
    var text := x + " " + sep + " " + y;
    var k := |x| + 1;
    assert OccursAt(text, sep, k) by {
      assert text[k..k + |sep|] == sep;
    }
    forall j: nat | j < k && j + |sep| <= |text| ensures !OccursAt(text, sep, j) {
      assert text[j] == (x + " " + y)[j];
      assert sep[0] in sep && (x + " " + y)[j] in x + " " + y;
      assert text[j..j + |sep|][0] == text[j];
    }
    var r := IndexOf(text, sep, 0);
    assert r == Some(k);
    var rest := text[k + |sep|..];
    assert rest == " " + y;
    ApartNotContains(rest, sep);
    assert text[..k] == x + " ";
  }
}
