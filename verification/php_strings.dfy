/**
 * The PHP string built-ins the resolver relies on, over `seq<char>`:
 * `implode`, `explode`, `strrpos` and a suffix test.
 */
module PhpStrings {
  import opened Wrappers

  /** `p` is an initial segment of `s`. */
  predicate IsPrefix<T(==)>(p: seq<T>, s: seq<T>) {
    |p| <= |s| && s[..|p|] == p
  }

  /** `substr_compare($s, $suffix, -strlen($suffix)) === 0`: `s` ends with `suffix`. */
  predicate EndsWith(s: string, suffix: string) {
    |suffix| <= |s| && s[|s| - |suffix|..] == suffix
  }

  /** `s` ends with `suffix` exactly when `s` is some string followed by `suffix`. */
  lemma EndsWithIffConcat(s: string, suffix: string)
    ensures EndsWith(s, suffix) <==> exists p :: s == p + suffix
  {
    if EndsWith(s, suffix) {
      assert s == s[..|s| - |suffix|] + suffix;
    }
    if exists p :: s == p + suffix {
      var p :| s == p + suffix;
      assert s[|p|..] == suffix;
    }
  }

  /**
   * `implode($sep, $parts)`: the parts separated by `sep`, nothing before the first or after
   * the last. The result starts with the first part, and it is empty only for no parts or
   * one empty part.
   */
  function Implode(sep: char, parts: seq<string>): (r: string)
    ensures parts != [] ==> IsPrefix(parts[0], r)
    ensures r == [] <==> parts == [] || parts == [[]]
  {
    if parts == [] then ""
    else if |parts| == 1 then parts[0]
    else parts[0] + [sep] + Implode(sep, parts[1..])
  }

  /** `explode($sep, $s)`: the pieces of `s` between separators; the empty string gives `[""]`. */
  function Explode(sep: char, s: string): (pieces: seq<string>)
    ensures |pieces| >= 1
    ensures forall i | 0 <= i < |pieces| :: sep !in pieces[i]
    decreases |s|
  {
    if s == [] then [""]
    else
      var rest := Explode(sep, s[1..]);
      if s[0] == sep then [""] + rest
      else [[s[0]] + rest[0]] + rest[1..]
  }

  /** `strrpos($s, $c)`: the index of the last occurrence of `c`, or nothing (PHP's `false`). */
  function LastIndexOf(s: string, c: char): (r: Option<nat>)
    ensures r.Some? ==> r.value < |s| && s[r.value] == c && c !in s[r.value + 1..]
    ensures r.None? <==> c !in s
    decreases |s|
  {
    if s == [] then None
    else if s[|s| - 1] == c then Some(|s| - 1)
    else
      assert s == s[..|s| - 1] + [s[|s| - 1]];
      LastIndexOf(s[..|s| - 1], c)
  }

  lemma ImplodeCons(sep: char, head: string, tail: seq<string>)
    requires tail != []
    ensures Implode(sep, [head] + tail) == head + [sep] + Implode(sep, tail)
  {
    assert ([head] + tail)[1..] == tail;
  }

  lemma {:induction false} ExplodeNoSeparator(sep: char, p: string)
    requires sep !in p
    ensures Explode(sep, p) == [p]
    decreases |p|
  {
    if p != [] {
      ExplodeNoSeparator(sep, p[1..]);
      assert [p[0]] + p[1..] == p;
    }
  }

  lemma {:induction false} ExplodeSplitsAtSeparator(sep: char, p: string, t: string)
    requires sep !in p
    ensures Explode(sep, p + [sep] + t) == [p] + Explode(sep, t)
    decreases |p|
  {
    var s := p + [sep] + t;
    if p == [] {
      assert s[0] == sep && s[1..] == t;
    } else {
      assert s[0] == p[0];
      assert s[1..] == p[1..] + [sep] + t;
      ExplodeSplitsAtSeparator(sep, p[1..], t);
      assert [p[0]] + p[1..] == p;
    }
  }

  /** When no part holds the separator, a joined list holds exactly one separator between each two consecutive parts. */
  lemma {:induction false} ImplodeSeparatorCount(sep: char, parts: seq<string>)
    requires parts != []
    requires forall i | 0 <= i < |parts| :: sep !in parts[i]
    ensures multiset(Implode(sep, parts))[sep] == |parts| - 1
    decreases |parts|
  {
    if |parts| > 1 {
      ImplodeSeparatorCount(sep, parts[1..]);
      var rest := Implode(sep, parts[1..]);
      assert multiset(parts[0] + [sep] + rest) == multiset(parts[0]) + multiset([sep]) + multiset(rest);
    }
  }

  /** Splitting a joined list gives the list back, provided no part contains the separator. */
  lemma {:induction false} ExplodeImplode(sep: char, parts: seq<string>)
    requires parts != []
    requires forall i | 0 <= i < |parts| :: sep !in parts[i]
    ensures Explode(sep, Implode(sep, parts)) == parts
    decreases |parts|
  {
    if |parts| == 1 {
      ExplodeNoSeparator(sep, parts[0]);
    } else {
      ExplodeImplode(sep, parts[1..]);
      ExplodeSplitsAtSeparator(sep, parts[0], Implode(sep, parts[1..]));
      assert [parts[0]] + parts[1..] == parts;
    }
  }

  /** Joining the pieces of any string gives the string back. */
  lemma {:induction false} ImplodeExplode(sep: char, s: string)
    ensures Implode(sep, Explode(sep, s)) == s
    decreases |s|
  {
    if s != [] {
      var rest := Explode(sep, s[1..]);
      ImplodeExplode(sep, s[1..]);
      if s[0] == sep {
        ImplodeCons(sep, "", rest);
        assert [sep] + s[1..] == s;
      } else if |rest| == 1 {
        assert [s[0]] + s[1..] == s;
      } else {
        ImplodeCons(sep, [s[0]] + rest[0], rest[1..]);
        ImplodeCons(sep, rest[0], rest[1..]);
        assert [rest[0]] + rest[1..] == rest;
        assert [s[0]] + s[1..] == s;
      }
    }
  }
}
