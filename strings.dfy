/**
  The few JavaScript string operations the theme engine relies on:
  `split('.')`, `includes('.')`, `startsWith(prefix)` and template
  concatenation. Strings are sequences of characters; no encoding,
  normalisation or case folding is involved anywhere in the engine.
 */
module Strings {

  /** A string that `split('.')` leaves in one piece. */
  predicate DotFree(s: string) {
    forall i | 0 <= i < |s| :: s[i] != '.'
  }

  /** `s.includes('.')` */
  predicate HasDot(s: string) {
    exists i | 0 <= i < |s| :: s[i] == '.'
  }

  /** `s.startsWith(prefix)` */
  predicate StartsWith(s: string, prefix: string) {
    |prefix| <= |s| && s[..|prefix|] == prefix
  }

  /** `s.split('.')`: the maximal dot-free pieces between the dots, in order.
      Like JavaScript, it never returns an empty list, and a string with n dots
      gives n + 1 pieces, some of which may be empty. */
  function Split(s: string): (parts: seq<string>)
    ensures |parts| >= 1
    ensures forall i | 0 <= i < |parts| :: DotFree(parts[i])
    ensures Join(parts) == s
  {
    if |s| == 0 then [""]
    else
      var rest := Split(s[1..]);
      if s[0] == '.' then
        assert s == [s[0]] + s[1..];
        [""] + rest
      else
        var parts := [[s[0]] + rest[0]] + rest[1..];
        assert parts[1..] == rest[1..];
        parts
  }

  /** `parts.join('.')`, the inverse of Split. */
  function Join(parts: seq<string>): string
    decreases |parts|
  {
    if |parts| == 0 then ""
    else if |parts| == 1 then parts[0]
    else parts[0] + "." + Join(parts[1..])
  }

  /** Splitting a string that joins dot-free pieces gives the pieces back:
      Split and Join are inverse on dot-free pieces. */
  lemma {:induction false} SplitJoin(parts: seq<string>)
    requires |parts| >= 1
    requires forall i | 0 <= i < |parts| :: DotFree(parts[i])
    ensures Split(Join(parts)) == parts
  {
    if |parts| == 1 {
      SplitDotFree(parts[0]);
    } else {
      SplitJoin(parts[1..]);
      SplitPrefix(parts[0], Join(parts[1..]));
    }
  }

  /** A dot-free string is one piece. */
  lemma {:induction false} SplitDotFree(s: string)
    requires DotFree(s)
    ensures Split(s) == [s]
  {
    if |s| > 0 {
      SplitDotFree(s[1..]);
    }
  }

  /** The piece before the first dot comes off first. */
  lemma {:induction false} SplitPrefix(head: string, tail: string)
    requires DotFree(head)
    ensures Split(head + "." + tail) == [head] + Split(tail)
  {
    if |head| == 0 {
      assert head + "." + tail == ['.'] + tail;
      assert (['.'] + tail)[1..] == tail;
    } else {
      var s := head + "." + tail;
      assert s[1..] == head[1..] + "." + tail;
      SplitPrefix(head[1..], tail);
      var rest := Split(s[1..]);
      assert s[0] == head[0] && s[0] != '.';
      assert [s[0]] + rest[0] == head;
      assert rest[1..] == Split(tail);
    }
  }

  /** A qualified name `category.slot` splits into exactly its two parts. */
  lemma SplitQualified(category: string, slot: string)
    requires DotFree(category) && DotFree(slot)
    ensures Split(category + "." + slot) == [category, slot]
  {
    SplitPrefix(category, slot);
    SplitDotFree(slot);
  }

  /** `includes('.')` holds exactly when `split('.')` cuts the string. */
  lemma {:induction false} HasDotIffSplits(s: string)
    ensures HasDot(s) <==> |Split(s)| > 1
  {
    if |s| > 0 {
      HasDotIffSplits(s[1..]);
      if s[0] != '.' && HasDot(s) {
        var i :| 0 <= i < |s| && s[i] == '.';
        assert s[1..][i - 1] == '.';
      }
      if HasDot(s[1..]) {
        var i :| 0 <= i < |s[1..]| && s[1..][i] == '.';
        assert s[i + 1] == '.';
      }
    }
  }

  /** The template `${category}.${slot}`: a qualified name, which contains
      the separator and splits back into its two parts when they are
      dot-free. */
  function Qualify(category: string, slot: string): (path: string)
    ensures HasDot(path)
  {
    QualifiedHasDot(category, slot);
    category + "." + slot
  }

  /** A qualified name contains the separator. */
  lemma QualifiedHasDot(category: string, slot: string)
    ensures HasDot(category + "." + slot)
  {
    assert (category + "." + slot)[|category|] == '.';
  }
}
