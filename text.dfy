/**
 * The parts of Go's `strings` package that the middleware relies on, over
 * strings seen as sequences of runes.
 */
module Text {

  /** strings.Contains: `sub` occurs somewhere in `s` (the empty string occurs everywhere). */
  predicate Contains(s: string, sub: string)
    ensures Contains(s, sub) ==> |sub| <= |s|
  {
    exists i | 0 <= i <= |s| - |sub| :: OccursAt(s, sub, i)
  }

  /** `sub` occurs in `s` starting at position `i`. */
  predicate OccursAt(s: string, sub: string, i: int) {
    0 <= i <= |s| - |sub| && s[i..i + |sub|] == sub
  }

  /**
   * unicode.ToLower on one rune, as far as matching an ASCII needle goes:
   * ASCII upper-case letters, and the two non-ASCII runes whose simple
   * lower-case mapping lands in ASCII (U+0130 to 'i', KELVIN SIGN U+212A to 'k').
   * Every other rune is mapped to itself; Go maps some of them to other
   * non-ASCII runes, which never take part in an ASCII match.
   */
  function LowerRune(c: char): (d: char)
    ensures 'A' <= c <= 'Z' ==> d as int == c as int + 32
    ensures 'a' <= d <= 'z' ==> 'a' <= c <= 'z' || 'A' <= c <= 'Z' || c == '\U{0130}' || c == '\U{212A}'
    ensures !('A' <= c <= 'Z') && c != '\U{0130}' && c != '\U{212A}' ==> d == c
  {
    if 'A' <= c <= 'Z' then (c as int + 32) as char
    else if c == '\U{0130}' then 'i'
    else if c == '\U{212A}' then 'k'
    else c
  }

  /** strings.ToLower, rune by rune: the result is lower case, and a lower-case string is left alone. */
  function ToLower(s: string): (r: string)
    ensures |r| == |s|
    ensures forall i :: 0 <= i < |s| ==> r[i] == LowerRune(s[i])
    ensures IsLower(r)
    ensures IsLower(s) ==> r == s
  {
    seq(|s|, i requires 0 <= i < |s| => LowerRune(s[i]))
  }

  /** No rune of `s` is changed by lower-casing. */
  predicate IsLower(s: string) {
    forall i :: 0 <= i < |s| ==> LowerRune(s[i]) == s[i]
  }

  /** Lower-casing commutes with taking a slice. */
  lemma ToLowerSlice(s: string, i: int, j: int)
    requires 0 <= i <= j <= |s|
    ensures ToLower(s)[i..j] == ToLower(s[i..j])
  {
  }

  /** Lower-casing twice is lower-casing once. */
  lemma ToLowerIdempotent(s: string)
    ensures ToLower(ToLower(s)) == ToLower(s)
  {
    forall i | 0 <= i < |s| ensures LowerRune(LowerRune(s[i])) == LowerRune(s[i]) {
    }
  }

  /** A lower-case needle found in `s` is still found after `s` is lower-cased. */
  lemma {:induction false} ContainsLower(s: string, sub: string)
    requires IsLower(sub)
    requires Contains(s, sub)
    ensures Contains(ToLower(s), sub)
  {
    var i :| 0 <= i <= |s| - |sub| && OccursAt(s, sub, i);
    ToLowerSlice(s, i, i + |sub|);
    assert ToLower(sub) == sub;
    assert OccursAt(ToLower(s), sub, i);
  }

  /** Every rune of a needle that occurs in `s` is a rune of `s`. */
  lemma ContainsRunes(s: string, sub: string, k: int)
    requires Contains(s, sub) && 0 <= k < |sub|
    ensures sub[k] in s
  {
    var i :| 0 <= i <= |s| - |sub| && OccursAt(s, sub, i);
    assert s[i + k] == sub[k];
  }

  /** A string that is exactly as long as the needle contains it only if it is the needle. */
  lemma ContainsSameLength(s: string, sub: string)
    requires |s| == |sub|
    ensures Contains(s, sub) <==> s == sub
  {
    if s == sub {
      assert OccursAt(s, sub, 0);
    }
  }

  /** The total length of a list of strings. */
  function TotalLength(elems: seq<string>): nat {
    if elems == [] then 0 else |elems[0]| + TotalLength(elems[1..])
  }

  /** strings.Join: every element once, with one separator between neighbours. */
  function Join(elems: seq<string>, sep: string): (r: string)
    ensures |elems| == 1 ==> r == elems[0]
    ensures elems == [] ==> r == ""
    ensures elems != [] ==> |r| == TotalLength(elems) + (|elems| - 1) * |sep|
  {
    if |elems| == 0 then ""
    else if |elems| == 1 then elems[0]
    else elems[0] + sep + Join(elems[1..], sep)
  }

  /** Joining a concatenation is joining the two halves around one separator. */
  lemma {:induction false} JoinAppend(xs: seq<string>, ys: seq<string>, sep: string)
    requires xs != [] && ys != []
    ensures Join(xs + ys, sep) == Join(xs, sep) + sep + Join(ys, sep)
  {
    if |xs| == 1 {
      assert (xs + ys)[1..] == ys;
    } else {
      assert (xs + ys)[1..] == xs[1..] + ys;
      JoinAppend(xs[1..], ys, sep);
    }
  }

  /** Splitting at every occurrence of one rune; the specification partner of Join. */
  ghost function SplitOn(s: string, sep: char): (parts: seq<string>)
    ensures |parts| >= 1
  {
    if s == [] then [""]
    else
      var rest := SplitOn(s[1..], sep);
      if s[0] == sep then [""] + rest else [[s[0]] + rest[0]] + rest[1..]
  }

  /** A string without the separator splits into itself, and a separator after it starts a new part. */
  lemma {:induction false} SplitOnPrefix(x: string, sep: char, t: string)
    requires sep !in x
    ensures SplitOn(x, sep) == [x]
    ensures SplitOn(x + [sep] + t, sep) == [x] + SplitOn(t, sep)
  {
    if x == [] {
      assert x + [sep] + t == [sep] + t;
      assert ([sep] + t)[1..] == t;
    } else {
      assert (x + [sep] + t)[1..] == x[1..] + [sep] + t;
      SplitOnPrefix(x[1..], sep, t);
      assert [x[0]] + x[1..] == x;
    }
  }

  /** Joining with "," is undone by splitting at ',' when no element contains a comma. */
  lemma {:induction false} SplitJoin(xs: seq<string>)
    requires xs != []
    requires forall k :: 0 <= k < |xs| ==> ',' !in xs[k]
    ensures SplitOn(Join(xs, ","), ',') == xs
  {
    SplitOnPrefix(xs[0], ',', []);
    if |xs| > 1 {
      SplitJoin(xs[1..]);
      assert Join(xs, ",") == xs[0] + [','] + Join(xs[1..], ",");
      SplitOnPrefix(xs[0], ',', Join(xs[1..], ","));
    }
  }

  /** With a comma inside a value the joined form is ambiguous: two lists join to one string. */
  lemma JoinAmbiguousWithComma()
    ensures Join(["a,b"], ",") == Join(["a", "b"], ",")
    ensures Join([], ",") == Join([""], ",")
  {
    assert ["a", "b"][1..] == ["b"];
  }
}
