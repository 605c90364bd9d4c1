/** The two JavaScript string operations the logger relies on:
    `String.prototype.split` with a one-character separator, and
    `Array.prototype.join`, which is what interpolating an array into a
    template string does (with "," as the separator). */
module JsStrings {

  /** `s.split(d)` for a one-character separator `d`: the pieces between
      the separators, in order. The empty string gives `[""]`, never `[]`. */
  function Split(s: string, d: char): (parts: seq<string>)
    ensures |parts| == multiset(s)[d] + 1
    ensures forall i :: 0 <= i < |parts| ==> d !in parts[i]
    decreases |s|
  {
    if |s| == 0 then [""]
    else
      var rest := Split(s[1..], d);
      assert s == [s[0]] + s[1..];
      if s[0] == d then [""] + rest
      else [[s[0]] + rest[0]] + rest[1..]
  }

  /** `parts.join(sep)`. */
  function Join(parts: seq<string>, sep: string): string
  {
    if |parts| == 0 then ""
    else if |parts| == 1 then parts[0]
    else parts[0] + sep + Join(parts[1..], sep)
  }

  /** `s` with every occurrence of `from` replaced by `to`. */
  function Replace(s: string, from: char, to: char): (r: string)
    ensures |r| == |s|
    ensures forall i :: 0 <= i < |s| ==> r[i] == (if s[i] == from then to else s[i])
  {
    if |s| == 0 then ""
    else [if s[0] == from then to else s[0]] + Replace(s[1..], from, to)
  }

  lemma JoinCons(p: string, rest: seq<string>, sep: string)
    requires |rest| > 0
    ensures Join([p] + rest, sep) == p + sep + Join(rest, sep)
  {
    assert ([p] + rest)[1..] == rest;
  }

  /** Splitting on `d` and joining with `e` replaces every `d` by `e`. */
  lemma {:induction false} JoinSplitReplaces(s: string, d: char, e: char)
    ensures Join(Split(s, d), [e]) == Replace(s, d, e)
    decreases |s|
  {
    if |s| > 0 {
      JoinSplitReplaces(s[1..], d, e);
      JoinSplitStep(s, d, e);
    }
  }

  /** One step of the induction: the first character of `s` either closes a
      piece (it is `d`) or opens the first piece of the rest. */
  lemma JoinSplitStep(s: string, d: char, e: char)
    requires |s| > 0
    ensures Join(Split(s, d), [e]) == [if s[0] == d then e else s[0]] + Join(Split(s[1..], d), [e])
  {
    var rest := Split(s[1..], d);
    if s[0] == d {
      JoinCons("", rest, [e]);
    } else if |rest| > 1 {
      assert rest == [rest[0]] + rest[1..];
      JoinCons([s[0]] + rest[0], rest[1..], [e]);
      JoinCons(rest[0], rest[1..], [e]);
    }
  }

  /** Joining the pieces with the separator they were split on gives back the string. */
  lemma SplitJoinRoundTrip(s: string, d: char)
    ensures Join(Split(s, d), [d]) == s
  {
    JoinSplitReplaces(s, d, d);
    assert Replace(s, d, d) == s;
  }
}
