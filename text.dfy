/** String operations of the JavaScript standard library that the
    application relies on, restricted to ASCII: `split` on one character,
    `join`, `replace(/c/g, with)`, `trim`, `toUpperCase`, and the `\s` class. */
module Text {

  /** ASCII members of the `\s` class (also what `trim` removes): space, tab,
      line feed, vertical tab, form feed, carriage return. */
  predicate IsSpace(c: char) {
    c == ' ' || c == '\t' || c == '\n' || c == '\U{000B}' || c == '\U{000C}' || c == '\r'
  }

  predicate IsLower(c: char) {
    'a' <= c <= 'z'
  }

  /** `parts.join(sep)`. This is a reference definition: its own contract
      says only that the first part is a prefix, and its value is pinned by
      `Split`'s contract and by `SplitJoin`, which make it the inverse of
      splitting. */
  function Join(parts: seq<string>, sep: string): (r: string)
    ensures |parts| >= 1 ==> parts[0] <= r
  {
    if |parts| == 0 then ""
    else if |parts| == 1 then parts[0]
    else parts[0] + sep + Join(parts[1..], sep)
  }

  /** Prepending a character to the first part prepends it to the joined string. */
  lemma JoinCons(c: char, parts: seq<string>, sep: string)
    requires |parts| >= 1
    ensures Join([[c] + parts[0]] + parts[1..], sep) == [c] + Join(parts, sep)
  {
    var q := [[c] + parts[0]] + parts[1..];
    assert q[1..] == parts[1..];
  }

  /** `s.split(sep)` for a one-character separator: the pieces between
      consecutive separators, so two adjacent separators give an empty piece
      and the empty string gives `[""]`. Joining the pieces back gives `s`. */
  function Split(s: string, sep: char): (parts: seq<string>)
    ensures |parts| >= 1
    ensures forall i :: 0 <= i < |parts| ==> sep !in parts[i]
    ensures Join(parts, [sep]) == s
    decreases |s|
  {
    if s == [] then [""]
    else
      var rest := Split(s[1..], sep);
      if s[0] == sep then
        assert Join([""] + rest, [sep]) == [sep] + Join(rest, [sep]) by {
          assert ([""] + rest)[1..] == rest;
        }
        [""] + rest
      else
        JoinCons(s[0], rest, [sep]);
        [[s[0]] + rest[0]] + rest[1..]
  }

  /** A string free of the separator splits into itself alone. */
  lemma {:induction false} SplitNoSeparator(w: string, sep: char)
    requires sep !in w
    ensures Split(w, sep) == [w]
    decreases |w|
  {
    if w != [] {
      SplitNoSeparator(w[1..], sep);
      assert [w[0]] + w[1..] == w;
    }
  }

  /** A separator-free word followed by the separator splits off as one piece. */
  lemma {:induction false} SplitFirstPiece(w: string, sep: char, t: string)
    requires sep !in w
    ensures Split(w + [sep] + t, sep) == [w] + Split(t, sep)
    decreases |w|
  {
    var s := w + [sep] + t;
    if w == [] {
      assert s[1..] == t;
    } else {
      assert s[1..] == w[1..] + [sep] + t;
      SplitFirstPiece(w[1..], sep, t);
      assert [w[0]] + w[1..] == w;
    }
  }

  /** Split undoes Join: joining separator-free pieces and splitting the
      result on the same separator gives the pieces back. */
  lemma {:induction false} SplitJoin(parts: seq<string>, sep: char)
    requires |parts| >= 1
    requires forall i :: 0 <= i < |parts| ==> sep !in parts[i]
    ensures Split(Join(parts, [sep]), sep) == parts
    decreases |parts|
  {
    if |parts| == 1 {
      SplitNoSeparator(parts[0], sep);
    } else {
      SplitJoin(parts[1..], sep);
      SplitFirstPiece(parts[0], sep, Join(parts[1..], [sep]));
      assert [parts[0]] + parts[1..] == parts;
    }
  }

  /** The first piece of a split is the longest separator-free prefix: it
      is a prefix of `s`, followed by the separator unless it is all of `s`. */
  lemma SplitHead(s: string, sep: char)
    ensures var p := Split(s, sep)[0];
      p <= s && (|p| < |s| ==> s[|p|] == sep) && (sep !in s ==> p == s)
  {
    var parts := Split(s, sep);
    if |parts| > 1 {
      assert s == parts[0] + [sep] + Join(parts[1..], [sep]);
    }
  }

  /** A join of separator-free pieces consists of separators only exactly
      when every piece is empty. */
  lemma {:induction false} JoinOnlySeparators(parts: seq<string>, sep: char)
    requires |parts| >= 1
    requires forall i :: 0 <= i < |parts| ==> sep !in parts[i]
    ensures (forall i :: 0 <= i < |parts| ==> parts[i] == "") <==>
            (forall k :: 0 <= k < |Join(parts, [sep])| ==> Join(parts, [sep])[k] == sep)
    decreases |parts|
  {
    var j := Join(parts, [sep]);
    if |parts| == 1 {
      if parts[0] != "" {
        assert j[0] == parts[0][0] && parts[0][0] in parts[0];
      }
    } else {
      var rest := parts[1..];
      JoinOnlySeparators(rest, sep);
      var jr := Join(rest, [sep]);
      assert j == parts[0] + [sep] + jr;
      if forall k :: 0 <= k < |jr| ==> jr[k] == sep {
        if parts[0] == "" {
          forall k | 0 <= k < |j|
            ensures j[k] == sep
          {
            if k > 0 {
              assert j[k] == jr[k - 1];
            }
          }
        } else {
          assert j[0] == parts[0][0] && parts[0][0] in parts[0];
          assert j[0] != sep;
          assert !(forall k :: 0 <= k < |j| ==> j[k] == sep);
        }
      } else {
        var k :| 0 <= k < |jr| && jr[k] != sep;
        assert j[|parts[0]| + 1 + k] == jr[k];
        assert !(forall i :: 0 <= i < |rest| ==> rest[i] == "");
        var i :| 0 <= i < |rest| && rest[i] != "";
        assert parts[i + 1] == rest[i];
        assert !(forall i :: 0 <= i < |parts| ==> parts[i] == "");
        assert !(forall k :: 0 <= k < |j| ==> j[k] == sep);
        assert j == Join(parts, [sep]);
        assert !(forall k :: 0 <= k < |Join(parts, [sep])| ==> Join(parts, [sep])[k] == sep);
      }
    }
  }

  /** `s.replace(/c/g, with)`: every occurrence of `c` becomes `with`. The result
      is the pieces of `s` between occurrences of `c`, joined with `with`. */
  function ReplaceAll(s: string, c: char, with: string): (r: string)
    ensures r == Join(Split(s, c), with)
    ensures c !in with ==> c !in r
    decreases |s|
  {
    if s == [] then ""
    else
      var rest := ReplaceAll(s[1..], c, with);
      var pieces := Split(s[1..], c);
      if s[0] == c then
        assert ([""] + pieces)[1..] == pieces;
        with + rest
      else
        JoinCons(s[0], pieces, with);
        [s[0]] + rest
  }

  /** `s.trimStart()` on ASCII whitespace. */
  function TrimStart(s: string): (r: string)
    ensures |r| <= |s| && r == s[|s| - |r|..]
    ensures r == [] || !IsSpace(r[0])
    ensures forall k :: 0 <= k < |s| - |r| ==> IsSpace(s[k])
    decreases |s|
  {
    if s != [] && IsSpace(s[0]) then TrimStart(s[1..]) else s
  }

  /** `s.trimEnd()` on ASCII whitespace. */
  function TrimEnd(s: string): (r: string)
    ensures |r| <= |s| && r == s[..|r|]
    ensures r == [] || !IsSpace(r[|r| - 1])
    ensures forall k :: |r| <= k < |s| ==> IsSpace(s[k])
    decreases |s|
  {
    if s != [] && IsSpace(s[|s| - 1]) then TrimEnd(s[..|s| - 1]) else s
  }

  /** `s.trim()`: the slice of `s` left after removing whitespace at both
      ends; it neither starts nor ends with whitespace. */
  function Trim(s: string): (r: string)
    ensures r == [] || (!IsSpace(r[0]) && !IsSpace(r[|r| - 1]))
    ensures exists i ::
              && 0 <= i <= |s| - |r| && r == s[i..][..|r|]
              && (forall k :: 0 <= k < i ==> IsSpace(s[k]))
              && (forall k :: i + |r| <= k < |s| ==> IsSpace(s[k]))
  {
    var t := TrimStart(s);
    var r := TrimEnd(t);
    var i := |s| - |t|;
    assert r == s[i..][..|r|];
    r
  }

  /** Leading whitespace before a string that does not start with whitespace
      is exactly what `trimStart` removes. */
  lemma {:induction false} TrimStartAfter(pre: string, x: string)
    requires forall k :: 0 <= k < |pre| ==> IsSpace(pre[k])
    requires x == [] || !IsSpace(x[0])
    ensures TrimStart(pre + x) == x
    decreases |pre|
  {
    if pre == [] {
      assert pre + x == x;
    } else {
      assert (pre + x)[1..] == pre[1..] + x;
      TrimStartAfter(pre[1..], x);
    }
  }

  /** Trailing whitespace after a string that does not end with whitespace
      is exactly what `trimEnd` removes. */
  lemma {:induction false} TrimEndBefore(x: string, post: string)
    requires forall k :: 0 <= k < |post| ==> IsSpace(post[k])
    requires x == [] || !IsSpace(x[|x| - 1])
    ensures TrimEnd(x + post) == x
    decreases |post|
  {
    if post == [] {
      assert x + post == x;
    } else {
      var p' := post[..|post| - 1];
      assert (x + post)[..|x + post| - 1] == x + p';
      TrimEndBefore(x, p');
    }
  }

  /** Trimming a string that has only whitespace around a core that neither
      starts nor ends with whitespace gives that core. */
  lemma TrimUnique(pre: string, core: string, post: string)
    requires forall k :: 0 <= k < |pre| ==> IsSpace(pre[k])
    requires forall k :: 0 <= k < |post| ==> IsSpace(post[k])
    requires core == [] || (!IsSpace(core[0]) && !IsSpace(core[|core| - 1]))
    ensures Trim(pre + core + post) == core
  {
    if core == [] {
      assert pre + core + post == (pre + post) + core;
      TrimStartAfter(pre + post, core);
      TrimEndBefore(core, []);
    } else {
      assert pre + core + post == pre + (core + post);
      TrimStartAfter(pre, core + post);
      TrimEndBefore(core, post);
    }
  }

  /** ASCII `toUpperCase` of one character. */
  function UpperChar(c: char): (u: char)
    ensures !IsLower(u)
    ensures IsLower(c) ==> u as int == c as int - 32
    ensures !IsLower(c) ==> u == c
  {
    if IsLower(c) then (c as int - 32) as char else c
  }

  /** ASCII `toUpperCase` of a string. */
  function Upper(s: string): (r: string)
    ensures |r| == |s|
    ensures forall k :: 0 <= k < |s| ==> r[k] == UpperChar(s[k])
  {
    seq(|s|, k requires 0 <= k < |s| => UpperChar(s[k]))
  }
}
