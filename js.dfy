/** The few JavaScript value and string operations the portal relies on,
    stated over Dafny strings. `trim` and `toLowerCase` are taken over the
    ASCII range only. */
module Js {

  /** A value that may be `null` or `undefined`. */
  datatype Option<+T> = None | Some(value: T)

  /** JavaScript truthiness of a string that may be absent: `""`, `null`
      and `undefined` are falsy. */
  predicate Truthy(v: Option<string>) {
    v.Some? && v.value != ""
  }

  /** `v || null` */
  function OrNull(v: Option<string>): (r: Option<string>)
    ensures r == None || (r == v && r.value != "")
    ensures r.Some? <==> Truthy(v)
  {
    if Truthy(v) then v else None
  }

  /** The whitespace `String.prototype.trim` removes, restricted to ASCII. */
  predicate IsSpace(c: char) {
    c == ' ' || c == '\t' || c == '\n' || c == '\r' || c == '\U{000B}' || c == '\U{000C}'
  }

  /** A string made only of whitespace (the empty string included). */
  predicate Blank(s: string) {
    forall i :: 0 <= i < |s| ==> IsSpace(s[i])
  }

  /** Every character of `s` from index `lo` up to `hi` is whitespace. */
  predicate SpacesIn(s: string, lo: int, hi: int)
    requires 0 <= lo && hi <= |s|
  {
    forall i :: lo <= i < hi ==> IsSpace(s[i])
  }

  /** The index of the first non-whitespace character at or after `i`, or
      the length of `s` when there is none. */
  function SpacesFrom(s: string, i: nat): (j: nat)
    requires i <= |s|
    ensures i <= j <= |s| && SpacesIn(s, i, j)
    ensures j < |s| ==> !IsSpace(s[j])
    decreases |s| - i
  {
    if i < |s| && IsSpace(s[i]) then SpacesFrom(s, i + 1) else i
  }

  /** The index just past the last non-whitespace character before `j`, or
      0 when there is none. */
  function SpacesBefore(s: string, j: nat): (i: nat)
    requires j <= |s|
    ensures i <= j && SpacesIn(s, i, j)
    ensures i > 0 ==> !IsSpace(s[i - 1])
    decreases j
  {
    if j > 0 && IsSpace(s[j - 1]) then SpacesBefore(s, j - 1) else j
  }

  /** `s.trim()`: the result is the part of `s` left once the whitespace at
      both ends is cut off. It has no whitespace at either end, and it is
      empty exactly when `s` is blank. */
  function Trim(s: string): (r: string)
    ensures exists lo, hi :: 0 <= lo <= hi <= |s| && r == s[lo..hi] && SpacesIn(s, 0, lo) && SpacesIn(s, hi, |s|)
    ensures r == [] || (!IsSpace(r[0]) && !IsSpace(r[|r| - 1]))
    ensures r == [] <==> Blank(s)
  {
    var lo := SpacesFrom(s, 0);
    var end := SpacesBefore(s, |s|);
    var hi := if end < lo then lo else end;
    assert SpacesIn(s, hi, |s|);
    if hi == lo then
      assert SpacesIn(s, 0, lo) && SpacesIn(s, lo, |s|);
      s[lo..hi]
    else
      assert lo < |s| && !IsSpace(s[lo]);
      s[lo..hi]
  }

  /** Trimming a trimmed string changes nothing. */
  lemma TrimIdempotent(s: string)
    ensures Trim(Trim(s)) == Trim(s)
  {
    var r := Trim(s);
    if r != [] {
      assert SpacesFrom(r, 0) == 0;
      assert SpacesBefore(r, |r|) == |r|;
      assert r[0..|r|] == r;
    }
  }

  /** ASCII `toLowerCase` of one character. */
  function LowerChar(c: char): (d: char)
    ensures 'A' <= c <= 'Z' ==> d as int == c as int + 32
    ensures !('A' <= c <= 'Z') ==> d == c
  {
    if 'A' <= c <= 'Z' then (c as int + 32) as char else c
  }

  /** ASCII `s.toLowerCase()`. */
  function Lower(s: string): (r: string)
    ensures |r| == |s|
    ensures forall i :: 0 <= i < |s| ==> r[i] == LowerChar(s[i])
  {
    seq(|s|, i requires 0 <= i < |s| => LowerChar(s[i]))
  }

  /** `s.startsWith(p)` */
  predicate StartsWith(s: string, p: string) {
    |p| <= |s| && s[..|p|] == p
  }

  /** `s.includes(p)`, searched left to right; true exactly when `p` occurs
      in `s` at some offset. */
  function Includes(s: string, p: string): (b: bool)
    ensures b <==> exists i :: 0 <= i <= |s| && StartsWith(s[i..], p)
    decreases |s|
  {
    if StartsWith(s, p) then
      assert s[0..] == s;
      true
    else if s == [] then false
    else
      var b := Includes(s[1..], p);
      assert forall i :: 1 <= i <= |s| ==> s[i..] == s[1..][i - 1..];
      b
  }

  /** `xs.join(sep)` */
  function Join(xs: seq<string>, sep: string): string
    decreases |xs|
  {
    if |xs| == 0 then ""
    else if |xs| == 1 then xs[0]
    else xs[0] + sep + Join(xs[1..], sep)
  }

  /** Joining a list with one more element in front puts that element and
      the separator in front of the joined rest. */
  lemma JoinCons(x: string, xs: seq<string>, sep: string)
    requires |xs| > 0
    ensures Join([x] + xs, sep) == x + sep + Join(xs, sep)
  {
    assert ([x] + xs)[1..] == xs;
  }

  /** Prepending a character to the first element of a list prepends it to
      the joined string. */
  lemma JoinPrepend(c: char, xs: seq<string>, sep: string)
    requires |xs| > 0
    ensures Join([[c] + xs[0]] + xs[1..], sep) == [c] + Join(xs, sep)
  {
    if |xs| > 1 {
      JoinCons(xs[0], xs[1..], sep);
      JoinCons([c] + xs[0], xs[1..], sep);
      assert xs == [xs[0]] + xs[1..];
    }
  }

  /** `s.split(sep)` for a one-character separator: the pieces between the
      separators, so joining them back with the separator gives `s` again. */
  function Split(s: string, sep: char): (parts: seq<string>)
    ensures |parts| >= 1
    ensures forall i :: 0 <= i < |parts| ==> sep !in parts[i]
    ensures Join(parts, [sep]) == s
    decreases |s|
  {
    if s == [] then [""]
    else
      var rest := Split(s[1..], sep);
      if s[0] == sep then
        JoinCons("", rest, [sep]);
        [""] + rest
      else
        JoinPrepend(s[0], rest, [sep]);
        [[s[0]] + rest[0]] + rest[1..]
  }

  /** The other direction of the round trip: splitting a join whose pieces
      hold no separator gives the pieces back. */
  lemma {:induction false} SplitJoin(xs: seq<string>, sep: char)
    requires |xs| >= 1
    requires forall i :: 0 <= i < |xs| ==> sep !in xs[i]
    ensures Split(Join(xs, [sep]), sep) == xs
    decreases |Join(xs, [sep])|, |xs[0]|
  {
    if |xs| == 1 {
      SplitPlain(xs[0], sep);
    } else if xs[0] == "" {
      JoinCons(xs[0], xs[1..], [sep]);
      var s := Join(xs, [sep]);
      assert s == [sep] + Join(xs[1..], [sep]);
      assert s[1..] == Join(xs[1..], [sep]);
      SplitJoin(xs[1..], sep);
    } else {
      var s := Join(xs, [sep]);
      var ys := [xs[0][1..]] + xs[1..];
      JoinCons(xs[0], xs[1..], [sep]);
      JoinCons(ys[0], xs[1..], [sep]);
      assert ys[1..] == xs[1..];
      assert s == [xs[0][0]] + Join(ys, [sep]);
      assert s[1..] == Join(ys, [sep]);
      assert xs[0] == [xs[0][0]] + xs[0][1..];
      assert sep !in ys[0] by { assert forall c :: c in ys[0] ==> c in xs[0]; }
      SplitJoin(ys, sep);
      assert [[xs[0][0]] + ys[0]] + ys[1..] == xs;
    }
  }

  /** A string with no separator splits into itself alone. */
  lemma {:induction false} SplitPlain(s: string, sep: char)
    requires sep !in s
    ensures Split(s, sep) == [s]
    decreases |s|
  {
    if s != [] {
      assert sep !in s[1..] by { assert forall c :: c in s[1..] ==> c in s; }
      SplitPlain(s[1..], sep);
    }
  }
}
