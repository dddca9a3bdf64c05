/**
 * String helpers the handlers rely on: splitting at a separator character
 * (as `QString::split(char)` does, keeping empty parts), its inverse `Join`,
 * and an ASCII case-insensitive prefix test.
 */
module Text {

  /** The parts of `s` between occurrences of `sep`, empty parts included. */
  function Split(s: string, sep: char): (parts: seq<string>)
    ensures |parts| >= 1
    ensures forall i :: 0 <= i < |parts| ==> sep !in parts[i]
    decreases |s|
  {
    if |s| == 0 then [""]
    else if s[0] == sep then [""] + Split(s[1..], sep)
    else
      var rest := Split(s[1..], sep);
      assert sep !in rest[0];
      [[s[0]] + rest[0]] + rest[1..]
  }

  /** The parts glued back together with `sep` between consecutive parts. */
  function Join(parts: seq<string>, sep: char): string
  {
    if |parts| == 0 then ""
    else if |parts| == 1 then parts[0]
    else parts[0] + [sep] + Join(parts[1..], sep)
  }

  /** Splitting loses nothing: joining the parts gives back the input. */
  lemma {:induction false} JoinSplit(s: string, sep: char)
    ensures Join(Split(s, sep), sep) == s
    decreases |s|
  {
    if |s| == 0 {
    } else if s[0] == sep {
      JoinSplit(s[1..], sep);
      assert s == [sep] + s[1..];
    } else {
      var rest := Split(s[1..], sep);
      JoinSplit(s[1..], sep);
      if |rest| == 1 {
        assert s == [s[0]] + s[1..];
      } else {
        assert Join(rest, sep) == rest[0] + [sep] + Join(rest[1..], sep);
        var tail := rest[1..];
        assert Split(s, sep) == [[s[0]] + rest[0]] + tail;
        assert s == [s[0]] + s[1..];
      }
    }
  }

  /** A part free of `sep`, then `sep`, splits off exactly that part. */
  lemma {:induction false} SplitAfterFirst(x: string, sep: char, y: string)
    requires sep !in x
    ensures Split(x + [sep] + y, sep) == [x] + Split(y, sep)
    decreases |x|
  {
    if |x| == 0 {
      assert x + [sep] + y == [sep] + y;
      assert ([sep] + y)[1..] == y;
    } else {
      var s := x + [sep] + y;
      assert s[0] == x[0] && s[0] != sep;
      assert s[1..] == x[1..] + [sep] + y;
      SplitAfterFirst(x[1..], sep, y);
      assert [x[0]] + x[1..] == x;
    }
  }

  /** A string without `sep` is a single part. */
  lemma {:induction false} SplitWithoutSeparator(y: string, sep: char)
    requires sep !in y
    ensures Split(y, sep) == [y]
    decreases |y|
  {
    if |y| > 0 {
      SplitWithoutSeparator(y[1..], sep);
      assert [y[0]] + y[1..] == y;
    }
  }

  /** Splitting undoes joining, for parts that do not contain the separator. */
  lemma {:induction false} SplitJoin(parts: seq<string>, sep: char)
    requires |parts| >= 1
    requires forall i :: 0 <= i < |parts| ==> sep !in parts[i]
    ensures Split(Join(parts, sep), sep) == parts
    decreases |parts|
  {
    if |parts| == 1 {
      SplitWithoutSeparator(parts[0], sep);
    } else {
      SplitJoin(parts[1..], sep);
      SplitAfterFirst(parts[0], sep, Join(parts[1..], sep));
      assert [parts[0]] + parts[1..] == parts;
    }
  }

  /** A string splits into exactly two parts iff it holds exactly one separator. */
  lemma TwoParts(s: string, sep: char)
    ensures |Split(s, sep)| == 2 <==>
      exists x, y :: sep !in x && sep !in y && s == x + [sep] + y
    ensures |Split(s, sep)| == 2 ==> s == Split(s, sep)[0] + [sep] + Split(s, sep)[1]
  {
    var parts := Split(s, sep);
    JoinSplit(s, sep);
    if |parts| == 2 {
      assert Join(parts[1..], sep) == parts[1];
      assert s == parts[0] + [sep] + parts[1];
    }
    if exists x, y :: sep !in x && sep !in y && s == x + [sep] + y {
      var x, y :| sep !in x && sep !in y && s == x + [sep] + y;
      SplitJoin([x, y], sep);
      assert Join([x, y], sep) == x + [sep] + Join([y], sep);
    }
  }

  /** ASCII lower-casing of one character; every other character is kept. */
  function LowerAscii(c: char): (r: char)
    ensures 'A' <= c <= 'Z' ==> 'a' <= r <= 'z' && r as int - c as int == 32
    ensures !('A' <= c <= 'Z') ==> r == c
  {
    if 'A' <= c <= 'Z' then (c as int + 32) as char else c
  }

  /** `s` begins with `prefix` when letter case is ignored. */
  predicate StartsWithIgnoreCase(s: string, prefix: string)
  {
    |prefix| <= |s| && forall i :: 0 <= i < |prefix| ==> LowerAscii(s[i]) == LowerAscii(prefix[i])
  }
}
