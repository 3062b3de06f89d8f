/**
 * String helpers used by the search-path builder: prefix and suffix tests and
 * the split of a separator-delimited list (the role of `SplitByChar`).
 */
module Strings {

  predicate StartsWith(s: string, prefix: string)
  {
    |prefix| <= |s| && s[..|prefix|] == prefix
  }

  predicate EndsWith(s: string, suffix: string)
  {
    |suffix| <= |s| && s[|s| - |suffix|..] == suffix
  }

  /** `p` holds no `sep`. */
  predicate SeparatorFree(p: string, sep: char)
  {
    forall j :: 0 <= j < |p| ==> p[j] != sep
  }

  /**
   * The segments of `s` between occurrences of `sep`, read one character at
   * a time: a string with k separators has k + 1 segments, empty ones
   * included.
   */
  function Split(s: string, sep: char): (parts: seq<string>)
    ensures |parts| >= 1
    decreases |s|
  {
    if s == [] then [[]]
    else
      var rest := Split(s[1..], sep);
      if s[0] == sep then [[]] + rest
      else [[s[0]] + rest[0]] + rest[1..]
  }

  /** The segments glued back together, with `sep` between neighbours. */
  function Join(parts: seq<string>, sep: char): string
    requires |parts| >= 1
  {
    if |parts| == 1 then parts[0] else parts[0] + [sep] + Join(parts[1..], sep)
  }

  /** No segment holds the separator. */
  lemma {:induction false} SplitSegmentsSeparatorFree(s: string, sep: char)
    ensures forall i :: 0 <= i < |Split(s, sep)| ==> SeparatorFree(Split(s, sep)[i], sep)
    decreases |s|
  {
    if s != [] {
      var rest := Split(s[1..], sep);
      SplitSegmentsSeparatorFree(s[1..], sep);
      var parts := Split(s, sep);
      if s[0] != sep {
        var first := [s[0]] + rest[0];
        assert parts == [first] + rest[1..];
        assert SeparatorFree(rest[0], sep);
        assert SeparatorFree(first, sep) by {
          forall j | 0 <= j < |first| ensures first[j] != sep {
            if j > 0 { assert first[j] == rest[0][j - 1]; }
          }
        }
        forall i | 0 <= i < |parts| ensures SeparatorFree(parts[i], sep) {
          if i > 0 { assert parts[i] == rest[i]; }
        }
      } else {
        assert parts == [[]] + rest;
        forall i | 0 <= i < |parts| ensures SeparatorFree(parts[i], sep) {
          if i > 0 { assert parts[i] == rest[i - 1]; }
        }
      }
    }
  }

  /** Prefixing the first segment with a character prefixes the join with it. */
  lemma JoinConsFirst(c: char, parts: seq<string>, sep: char)
    requires |parts| >= 1
    ensures Join([[c] + parts[0]] + parts[1..], sep) == [c] + Join(parts, sep)
  {
    var q := [[c] + parts[0]] + parts[1..];
    if |parts| > 1 {
      assert q[1..] == parts[1..];
    }
  }

  /** Splitting loses nothing: joining the segments gives back the string. */
  lemma {:induction false} JoinSplit(s: string, sep: char)
    ensures Join(Split(s, sep), sep) == s
    decreases |s|
  {
    if s != [] {
      var rest := Split(s[1..], sep);
      JoinSplit(s[1..], sep);
      if s[0] == sep {
        assert ([[]] + rest)[1..] == rest;
        assert Join([[]] + rest, sep) == [] + [sep] + Join(rest, sep);
      } else {
        JoinConsFirst(s[0], rest, sep);
      }
      assert s == [s[0]] + s[1..];
    }
  }

  /** A separator-free segment followed by the separator splits off as the first segment. */
  lemma {:induction false} SplitAfterSegment(p: string, t: string, sep: char)
    requires SeparatorFree(p, sep)
    ensures Split(p + [sep] + t, sep) == [p] + Split(t, sep)
    decreases |p|
  {
    var s := p + [sep] + t;
    if p == [] {
      assert s[1..] == t;
    } else {
      assert s[1..] == p[1..] + [sep] + t;
      assert SeparatorFree(p[1..], sep) by {
        forall j | 0 <= j < |p[1..]| ensures p[1..][j] != sep { assert p[1..][j] == p[j + 1]; }
      }
      SplitAfterSegment(p[1..], t, sep);
      assert p == [p[0]] + p[1..];
    }
  }

  /** A separator-free string is a single segment. */
  lemma {:induction false} SplitSeparatorFree(p: string, sep: char)
    requires SeparatorFree(p, sep)
    ensures Split(p, sep) == [p]
    decreases |p|
  {
    if p != [] {
      assert SeparatorFree(p[1..], sep) by {
        forall j | 0 <= j < |p[1..]| ensures p[1..][j] != sep { assert p[1..][j] == p[j + 1]; }
      }
      SplitSeparatorFree(p[1..], sep);
      assert p == [p[0]] + p[1..];
    }
  }

  /** Splitting a join of separator-free segments gives back the segments. */
  lemma {:induction false} SplitJoin(parts: seq<string>, sep: char)
    requires |parts| >= 1
    requires forall i :: 0 <= i < |parts| ==> SeparatorFree(parts[i], sep)
    ensures Split(Join(parts, sep), sep) == parts
    decreases |parts|
  {
    if |parts| == 1 {
      SplitSeparatorFree(parts[0], sep);
    } else {
      SplitJoin(parts[1..], sep);
      SplitAfterSegment(parts[0], Join(parts[1..], sep), sep);
      assert parts == [parts[0]] + parts[1..];
    }
  }

  /** Joining several segments is joining all but the last, the separator, then the last. */
  lemma {:induction false} JoinSnoc(parts: seq<string>, sep: char)
    requires |parts| >= 2
    ensures Join(parts, sep) == Join(parts[..|parts| - 1], sep) + [sep] + parts[|parts| - 1]
    decreases |parts|
  {
    if |parts| > 2 {
      var init := parts[..|parts| - 1];
      JoinSnoc(parts[1..], sep);
      assert parts[1..][..|parts| - 2] == init[1..];
      assert parts[1..][|parts| - 2] == parts[|parts| - 1];
      assert Join(init, sep) == init[0] + [sep] + Join(init[1..], sep);
    } else {
      assert parts[1..] == [parts[1]];
    }
  }

  /** The last segment of `Split` is empty exactly when the string is empty or ends in the separator. */
  lemma SplitLastEmpty(s: string, sep: char)
    ensures var parts := Split(s, sep);
      parts[|parts| - 1] == [] <==> s == [] || s[|s| - 1] == sep
  {
    var parts := Split(s, sep);
    var last := parts[|parts| - 1];
    JoinSplit(s, sep);
    SplitSegmentsSeparatorFree(s, sep);
    assert SeparatorFree(last, sep);
    if |parts| >= 2 {
      JoinSnoc(parts, sep);
      var init := Join(parts[..|parts| - 1], sep);
      assert s == init + [sep] + last;
      if last != [] {
        assert s[|s| - 1] == last[|last| - 1];
      }
    } else {
      assert s == last;
    }
  }

  /**
   * The segments `SplitByChar` yields: those of `Split`, except that an
   * empty last segment is not produced. The empty string has no segments,
   * and a trailing separator adds none; empty segments elsewhere are kept.
   */
  function SplitByChar(s: string, sep: char): (parts: seq<string>)
    ensures parts <= Split(s, sep)
  {
    var all := Split(s, sep);
    if all[|all| - 1] == [] then all[..|all| - 1] else all
  }

  /**
   * Nothing but a trailing separator is lost: the empty string has no
   * segments, any other string is its segments joined with the separator,
   * followed by the separator when the string ends in one, and no segment
   * holds the separator.
   */
  lemma JoinSplitByChar(s: string, sep: char)
    ensures SplitByChar(s, sep) == [] <==> s == []
    ensures s != [] ==>
      Join(SplitByChar(s, sep), sep) + (if s[|s| - 1] == sep then [sep] else []) == s
    ensures forall i :: 0 <= i < |SplitByChar(s, sep)| ==> SeparatorFree(SplitByChar(s, sep)[i], sep)
  {
    var all := Split(s, sep);
    SplitLastEmpty(s, sep);
    JoinSplit(s, sep);
    SplitSegmentsSeparatorFree(s, sep);
    if s != [] && s[|s| - 1] == sep {
      assert |all| >= 2;
      JoinSnoc(all, sep);
      assert Join(all, sep) == Join(all[..|all| - 1], sep) + [sep];
    }
  }
}
