/** The dotted binding paths of the executor are cut with C#'s `String.Split(char)`.
    That call keeps empty segments: `""` gives `[""]`, `"a."` gives `["a", ""]`,
    `"a..b"` gives `["a", "", "b"]`. `Split` models it; `Join` is its inverse. */
module DotPath {

  /** `s.Split(sep)`: the maximal separator-free pieces of `s`, in order. */
  function Split(s: string, sep: char): (parts: seq<string>)
    ensures |parts| >= 1
    ensures forall k :: 0 <= k < |parts| ==> sep !in parts[k]
    ensures Join(parts, sep) == s
    decreases |s|
  {
    if s == [] then [""]
    else
      var rest := Split(s[1..], sep);
      if s[0] == sep then
        [""] + rest
      else
        var parts := [[s[0]] + rest[0]] + rest[1..];
        assert parts[1..] == rest[1..];
        assert [s[0]] + s[1..] == s;
        parts
  }

  /** `String.Join(sep, parts)`. */
  function Join(parts: seq<string>, sep: char): (s: string)
    decreases |parts|
  {
    if parts == [] then ""
    else if |parts| == 1 then parts[0]
    else parts[0] + [sep] + Join(parts[1..], sep)
  }

  /** A separator-free string is a single segment. */
  lemma {:induction false} SplitNoSeparator(s: string, sep: char)
    requires sep !in s
    ensures Split(s, sep) == [s]
    decreases |s|
  {
    if s != [] {
      assert sep !in s[1..];
      SplitNoSeparator(s[1..], sep);
      assert [s[0]] + s[1..] == s;
    }
  }

  /** Splitting a string that starts with a separator-free `head` and a separator
      yields `head` followed by the segments of what comes after. */
  lemma {:induction false} SplitAfterHead(head: string, sep: char, tail: string)
    requires sep !in head
    ensures Split(head + [sep] + tail, sep) == [head] + Split(tail, sep)
    decreases |head|
  {
    var s := head + [sep] + tail;
    if head == [] {
      assert s[0] == sep && s[1..] == tail;
    } else {
      assert s[0] == head[0] && s[1..] == head[1..] + [sep] + tail;
      assert sep !in head[1..];
      SplitAfterHead(head[1..], sep, tail);
      assert [head[0]] + head[1..] == head;
    }
  }

  /** `Split` inverts `Join` on every non-empty list of separator-free segments:
      together with `Split`'s own `Join(Split(s)) == s`, the two are a bijection
      between strings and such lists. */
  lemma {:induction false} SplitJoin(parts: seq<string>, sep: char)
    requires |parts| >= 1
    requires forall k :: 0 <= k < |parts| ==> sep !in parts[k]
    ensures Split(Join(parts, sep), sep) == parts
    decreases |parts|
  {
    if |parts| == 1 {
      SplitNoSeparator(parts[0], sep);
    } else {
      SplitJoin(parts[1..], sep);
      SplitAfterHead(parts[0], sep, Join(parts[1..], sep));
      assert [parts[0]] + parts[1..] == parts;
    }
  }

  /** The first segment is empty exactly when the string is empty or starts
      with the separator. */
  lemma {:induction false} FirstSegmentEmpty(s: string, sep: char)
    ensures Split(s, sep)[0] == "" <==> (s == "" || s[0] == sep)
  {
    if s != [] && s[0] != sep {
      var rest := Split(s[1..], sep);
      assert Split(s, sep)[0] == [s[0]] + rest[0];
    }
  }

  /** A separator-free `head` followed by nothing or by a separator is the
      first segment, and the only one exactly when nothing follows it. */
  lemma {:induction false} HeadSegment(head: string, sep: char, tail: string)
    requires sep !in head
    requires tail == [] || tail[0] == sep
    ensures Split(head + tail, sep)[0] == head
    ensures |Split(head + tail, sep)| == 1 <==> tail == []
  {
    if tail == [] {
      assert head + tail == head;
      SplitNoSeparator(head, sep);
    } else {
      assert head + tail == head + [sep] + tail[1..];
      SplitAfterHead(head, sep, tail[1..]);
    }
  }
}
