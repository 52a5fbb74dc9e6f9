/**
 * The two string operations the vendor/product extraction applies to a
 * CPE 2.3 match string: `String.prototype.split` on a one-character
 * separator, and `replace(/_/g, " ")`.
 */
module CpeStrings {

  /** Glues parts back together with `sep` between them (the inverse of Split). */
  function Join(parts: seq<string>, sep: char): string
    requires |parts| > 0
    decreases |parts|
  {
    if |parts| == 1 then parts[0] else parts[0] + [sep] + Join(parts[1..], sep)
  }

  /** Number of occurrences of `c` in `s`. */
  function Occurrences(s: string, c: char): nat
    decreases |s|
  {
    if |s| == 0 then 0 else (if s[0] == c then 1 else 0) + Occurrences(s[1..], c)
  }

  lemma {:induction false} JoinConsHead(c: char, ps: seq<string>, sep: char)
    requires |ps| > 0
    ensures Join([[c] + ps[0]] + ps[1..], sep) == [c] + Join(ps, sep)
  {
    var qs := [[c] + ps[0]] + ps[1..];
    if |ps| > 1 {
      assert qs[1..] == ps[1..];
      calc {
        Join(qs, sep);
        qs[0] + [sep] + Join(qs[1..], sep);
        ([c] + ps[0]) + [sep] + Join(ps[1..], sep);
        [c] + (ps[0] + [sep] + Join(ps[1..], sep));
      }
    }
  }

  /**
   * `s.split(sep)`: the pieces between the separators, in order. It always has
   * at least one piece, no piece contains the separator, and joining the pieces
   * gives back `s`; SplitOfJoin shows these three facts determine the result.
   */
  function Split(s: string, sep: char): (parts: seq<string>)
    ensures |parts| > 0
    ensures forall i :: 0 <= i < |parts| ==> sep !in parts[i]
    ensures Join(parts, sep) == s
    decreases |s|
  {
    if |s| == 0 then [""]
    else
      var rest := Split(s[1..], sep);
      if s[0] == sep then
        assert ([""] + rest)[1..] == rest;
        assert s == [s[0]] + s[1..];
        [""] + rest
      else
        JoinConsHead(s[0], rest, sep);
        assert s == [s[0]] + s[1..];
        [[s[0]] + rest[0]] + rest[1..]
  }

  /** Splitting a string gives one piece more than it has separators. */
  lemma {:induction false} SplitLength(s: string, sep: char)
    ensures |Split(s, sep)| == Occurrences(s, sep) + 1
    decreases |s|
  {
    if |s| > 0 {
      SplitLength(s[1..], sep);
    }
  }

  /** Split undoes Join whenever no piece contains the separator. */
  lemma {:induction false} SplitOfJoin(ps: seq<string>, sep: char)
    requires |ps| > 0
    requires forall i :: 0 <= i < |ps| ==> sep !in ps[i]
    ensures Split(Join(ps, sep), sep) == ps
    decreases |Join(ps, sep)|
  {
    var s := Join(ps, sep);
    if |ps| > 1 {
      assert s == ps[0] + [sep] + Join(ps[1..], sep);
    }
    if |s| == 0 {
      assert ps == [""];
    } else if ps[0] == "" {
      assert |ps| > 1;
      assert s == [sep] + Join(ps[1..], sep);
      assert s[1..] == Join(ps[1..], sep);
      SplitOfJoin(ps[1..], sep);
      assert [""] + ps[1..] == ps;
    } else {
      var c := ps[0][0];
      var t := ps[0][1..];
      assert ps[0] == [c] + t;
      assert c != sep by { assert c in ps[0]; }
      var qs := [t] + ps[1..];
      assert qs[1..] == ps[1..];
      assert [[c] + qs[0]] + qs[1..] == ps;
      JoinConsHead(c, qs, sep);
      assert s == [c] + Join(qs, sep);
      assert s[0] == c && s[1..] == Join(qs, sep);
      forall i | 0 <= i < |qs| ensures sep !in qs[i] {
        if i == 0 {
          assert forall x :: x in t ==> x in ps[0];
        } else {
          assert qs[i] == ps[i];
        }
      }
      SplitOfJoin(qs, sep);
    }
  }

  /** `s.replace(/_/g, " ")`: every underscore becomes a space, nothing else changes. */
  function ReplaceUnderscores(s: string): (r: string)
    ensures |r| == |s|
    ensures forall i :: 0 <= i < |s| ==> r[i] == (if s[i] == '_' then ' ' else s[i])
    decreases |s|
  {
    if |s| == 0 then "" else [if s[0] == '_' then ' ' else s[0]] + ReplaceUnderscores(s[1..])
  }
}
