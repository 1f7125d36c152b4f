/** String operations of the JavaScript standard library used when reading an
    `Authorization` header: `startsWith` and `split` on a one-character
    separator, with `Join` as the inverse of `Split`. */
module Text {

  /** `s.startsWith(prefix)`. */
  predicate StartsWith(s: string, prefix: string)
  {
    prefix <= s
  }

  /** `s.split(sep)` for a one-character separator: the maximal runs of
      characters between separators, including empty runs. */
  function Split(s: string, sep: char): (parts: seq<string>)
    ensures |parts| >= 1
    ensures forall i :: 0 <= i < |parts| ==> sep !in parts[i]
    decreases |s|
  {
    if |s| == 0 then [""]
    else
      var rest := Split(s[1..], sep);
      if s[0] == sep then [""] + rest
      else [[s[0]] + rest[0]] + rest[1..]
  }

  /** `parts.join(sep)`. */
  function Join(parts: seq<string>, sep: char): string
    decreases |parts|
  {
    if |parts| == 0 then ""
    else if |parts| == 1 then parts[0]
    else parts[0] + [sep] + Join(parts[1..], sep)
  }

  /** Splitting loses nothing: joining the parts with the separator gives the input back. */
  lemma {:induction false} JoinSplit(s: string, sep: char)
    ensures Join(Split(s, sep), sep) == s
    decreases |s|
  {
    if |s| > 0 {
      var rest := Split(s[1..], sep);
      JoinSplit(s[1..], sep);
      if s[0] == sep {
        assert Split(s, sep) == [""] + rest;
        assert ([""] + rest)[1..] == rest;
        assert s == [sep] + s[1..];
      } else {
        var parts := [[s[0]] + rest[0]] + rest[1..];
        assert Split(s, sep) == parts;
        if |rest| == 1 {
          assert s == [s[0]] + s[1..];
        } else {
          assert parts[1..] == rest[1..];
          assert Join(rest, sep) == rest[0] + [sep] + Join(rest[1..], sep);
          assert s == [s[0]] + s[1..];
        }
      }
    }
  }

  /** Splitting a separator-free list of parts joined by the separator gives the parts back. */
  lemma {:induction false} SplitJoin(parts: seq<string>, sep: char)
    requires |parts| >= 1
    requires forall i :: 0 <= i < |parts| ==> sep !in parts[i]
    ensures Split(Join(parts, sep), sep) == parts
    decreases |parts|
  {
    if |parts| > 1 {
      SplitJoin(parts[1..], sep);
      SplitAtFirstSeparator(parts[0], sep, Join(parts[1..], sep));
      assert parts == [parts[0]] + parts[1..];
    } else {
      SplitWithoutSeparator(parts[0], sep);
    }
  }

  /** A string without the separator splits into itself alone. */
  lemma {:induction false} SplitWithoutSeparator(s: string, sep: char)
    requires sep !in s
    ensures Split(s, sep) == [s]
    decreases |s|
  {
    if |s| > 0 {
      SplitWithoutSeparator(s[1..], sep);
      assert s == [s[0]] + s[1..];
    }
  }

  /** The text before the first separator is the first part; the remaining
      parts are those of the text after it. */
  lemma {:induction false} SplitAtFirstSeparator(pre: string, sep: char, rest: string)
    requires sep !in pre
    ensures Split(pre + [sep] + rest, sep) == [pre] + Split(rest, sep)
    decreases |pre|
  {
    var s := pre + [sep] + rest;
    if |pre| == 0 {
      assert s[1..] == rest;
    } else {
      assert s[1..] == pre[1..] + [sep] + rest;
      SplitAtFirstSeparator(pre[1..], sep, rest);
      assert [s[0]] + pre[1..] == pre;
    }
  }

  /** `w` is the first word of `s`: a separator-free prefix of `s` followed by
      a separator or by the end of `s`. */
  predicate IsFirstWord(s: string, w: string, sep: char)
  {
    w <= s && sep !in w && (|w| == |s| || s[|w|] == sep)
  }

  /** The first part of a split is the first word. */
  lemma {:induction false} SplitHead(s: string, sep: char)
    ensures IsFirstWord(s, Split(s, sep)[0], sep)
    decreases |s|
  {
    if |s| > 0 && s[0] != sep {
      SplitHead(s[1..], sep);
      var w := Split(s[1..], sep)[0];
      assert Split(s, sep)[0] == [s[0]] + w;
    }
  }

  /** A string has exactly one first word. */
  lemma FirstWordUnique(s: string, w1: string, w2: string, sep: char)
    requires IsFirstWord(s, w1, sep) && IsFirstWord(s, w2, sep)
    ensures w1 == w2
  {
  }
}
