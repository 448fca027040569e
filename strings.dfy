/** The few string operations of Python's `str` that the drivers use, on ASCII text. */
module Strings {

  /** `c.lower()` for ASCII letters; every other character is left alone. */
  function LowerChar(c: char): char {
    if 'A' <= c <= 'Z' then (c as int + 32) as char else c
  }

  /** `s.lower()` restricted to ASCII. */
  function Lower(s: string): (r: string)
    ensures |r| == |s|
    ensures forall i :: 0 <= i < |s| ==> r[i] == LowerChar(s[i])
  {
    seq(|s|, i requires 0 <= i < |s| => LowerChar(s[i]))
  }

  lemma LowerIdempotent(s: string)
    ensures Lower(Lower(s)) == Lower(s)
  {
    assert forall i :: 0 <= i < |s| ==> LowerChar(LowerChar(s[i])) == LowerChar(s[i]);
  }

  predicate StartsWith(s: string, prefix: string) {
    |prefix| <= |s| && s[..|prefix|] == prefix
  }

  predicate EndsWith(s: string, suffix: string) {
    |suffix| <= |s| && s[|s| - |suffix|..] == suffix
  }

  /** `s.replace(a, b)` for single characters. */
  function ReplaceChar(s: string, a: char, b: char): (r: string)
    ensures |r| == |s|
    ensures forall i :: 0 <= i < |s| ==> r[i] == (if s[i] == a then b else s[i])
  {
    seq(|s|, i requires 0 <= i < |s| => if s[i] == a then b else s[i])
  }

  /** `s.replace(c, '')`. */
  function DeleteChar(s: string, c: char): (r: string)
    ensures c !in r
    ensures |r| <= |s|
    ensures forall x :: x in r <==> x in s && x != c
  {
    if s == [] then []
    else (if s[0] == c then [] else [s[0]]) + DeleteChar(s[1..], c)
  }

  /** The number of times `c` occurs in `s`. */
  function Occurrences(s: string, c: char): nat {
    if s == [] then 0 else (if s[0] == c then 1 else 0) + Occurrences(s[1..], c)
  }

  /** `s.isdigit()` restricted to ASCII: non-empty and every character a digit. */
  predicate IsDigits(s: string) {
    |s| > 0 && forall i :: 0 <= i < |s| ==> '0' <= s[i] <= '9'
  }

  /** Deleting a character from a concatenation deletes it from both parts. */
  lemma {:induction false} DeleteCharAppend(a: string, b: string, c: char)
    ensures DeleteChar(a + b, c) == DeleteChar(a, c) + DeleteChar(b, c)
  {
    if a != [] {
      assert (a + b)[1..] == a[1..] + b;
      DeleteCharAppend(a[1..], b, c);
    } else {
      assert a + b == b;
    }
  }

  /** Occurrences in a concatenation add up. */
  lemma {:induction false} OccurrencesAppend(a: string, b: string, c: char)
    ensures Occurrences(a + b, c) == Occurrences(a, c) + Occurrences(b, c)
  {
    if a != [] {
      assert (a + b)[1..] == a[1..] + b;
      OccurrencesAppend(a[1..], b, c);
    } else {
      assert a + b == b;
    }
  }

  /** Text without `c` loses nothing when `c` is deleted, and holds no `c`. */
  lemma {:induction false} WithoutChar(s: string, c: char)
    requires c !in s
    ensures DeleteChar(s, c) == s && Occurrences(s, c) == 0
  {
    if s != [] {
      assert forall x :: x in s[1..] ==> x in s;
      WithoutChar(s[1..], c);
      assert s == [s[0]] + s[1..];
    }
  }

  /** `s.split(c)`: the pieces between the occurrences of `c`, empty ones included. */
  function Split(s: string, c: char): (r: seq<string>)
    ensures |r| == Occurrences(s, c) + 1
    ensures forall i :: 0 <= i < |r| ==> c !in r[i]
  {
    if s == [] then [""]
    else
      var rest := Split(s[1..], c);
      if s[0] == c then [""] + rest else [[s[0]] + rest[0]] + rest[1..]
  }

  /** Text without the separator splits into itself alone. */
  lemma {:induction false} SplitWithout(s: string, c: char)
    requires c !in s
    ensures Split(s, c) == [s]
  {
    if s != [] {
      SplitWithout(s[1..], c);
      assert [s[0]] + s[1..] == s;
    }
  }

  /** `sep.join(parts)`. */
  function Join(sep: string, parts: seq<string>): string {
    if |parts| == 0 then ""
    else if |parts| == 1 then parts[0]
    else parts[0] + sep + Join(sep, parts[1..])
  }

  /** Joining the pieces of a split with the separator gives back the text. */
  lemma {:induction false} JoinSplit(s: string, c: char)
    ensures Join([c], Split(s, c)) == s
  {
    if s != [] {
      var rest := Split(s[1..], c);
      JoinSplit(s[1..], c);
      if s[0] == c {
        assert Split(s, c) == [""] + rest;
        assert ([""] + rest)[1..] == rest;
        assert s == [c] + s[1..];
      } else if |rest| == 1 {
        assert Split(s, c) == [[s[0]] + rest[0]];
        assert s == [s[0]] + s[1..];
      } else {
        var r := Split(s, c);
        assert r == [[s[0]] + rest[0]] + rest[1..];
        assert r[1..] == rest[1..];
        assert Join([c], rest) == rest[0] + [c] + Join([c], rest[1..]);
        assert s == [s[0]] + s[1..];
      }
    }
  }

  /** Splitting a text that starts with `x`. */
  lemma SplitCons(x: char, t: string, c: char)
    ensures Split([x] + t, c) ==
      if x == c then [""] + Split(t, c) else [[x] + Split(t, c)[0]] + Split(t, c)[1..]
  {
    assert ([x] + t)[1..] == t;
  }

  /** A piece free of the separator, then the separator and more text, splits
      into that piece and the pieces of the rest. */
  lemma {:induction false} SplitPiece(p: string, rest: string, c: char)
    requires c !in p
    ensures Split(p + [c] + rest, c) == [p] + Split(rest, c)
  {
    if p == [] {
      assert p + [c] + rest == [c] + rest;
      SplitCons(c, rest, c);
    } else {
      var x, p' := p[0], p[1..];
      PieceCons(p, rest, c);
      SplitPiece(p', rest, c);
      SplitCons(x, p' + [c] + rest, c);
      PieceOf(x, p', Split(rest, c));
    }
  }

  lemma PieceCons(p: string, rest: string, c: char)
    requires p != []
    ensures p == [p[0]] + p[1..]
    ensures p + [c] + rest == [p[0]] + (p[1..] + [c] + rest)
  {
  }

  lemma PieceOf(x: char, p: string, r: seq<string>)
    ensures [[x] + ([p] + r)[0]] + ([p] + r)[1..] == [[x] + p] + r
  {
    assert ([p] + r)[1..] == r;
  }

  /** Pieces free of the separator, joined, then the separator and more text,
      split into those pieces and the pieces of the rest. */
  lemma {:induction false} SplitJoinThen(parts: seq<string>, rest: string, c: char)
    requires |parts| > 0
    requires forall i :: 0 <= i < |parts| ==> c !in parts[i]
    ensures Split(Join([c], parts) + [c] + rest, c) == parts + Split(rest, c)
  {
    if |parts| == 1 {
      SplitPiece(parts[0], rest, c);
    } else {
      var tail := Join([c], parts[1..]);
      JoinThen(parts, rest, c);
      SplitPiece(parts[0], tail + [c] + rest, c);
      SplitJoinThen(parts[1..], rest, c);
      assert parts == [parts[0]] + parts[1..];
    }
  }

  lemma JoinThen(parts: seq<string>, rest: string, c: char)
    requires |parts| > 1
    ensures Join([c], parts) + [c] + rest == parts[0] + [c] + (Join([c], parts[1..]) + [c] + rest)
  {
    var head, tail := parts[0] + [c], Join([c], parts[1..]);
    assert Join([c], parts) == head + tail;
    AppendAssoc(head, tail, [c]);
    AppendAssoc(head, tail + [c], rest);
  }

  lemma AppendAssoc(a: string, b: string, d: string)
    ensures (a + b) + d == a + (b + d)
  {
  }

  /** Joining pieces free of the separator and splitting again gives the pieces back. */
  lemma {:induction false} SplitJoin(parts: seq<string>, c: char)
    requires |parts| > 0
    requires forall i :: 0 <= i < |parts| ==> c !in parts[i]
    ensures Split(Join([c], parts), c) == parts
  {
    if |parts| == 1 {
      SplitWithout(parts[0], c);
    } else {
      var tail := Join([c], parts[1..]);
      assert Join([c], parts) == parts[0] + [c] + tail;
      SplitPiece(parts[0], tail, c);
      SplitJoin(parts[1..], c);
      assert parts == [parts[0]] + parts[1..];
    }
  }

  /** `[p for p in parts if p]`. */
  function NonEmpty(parts: seq<string>): (r: seq<string>)
    ensures |r| <= |parts|
  {
    if parts == [] then []
    else NonEmpty(parts[..|parts| - 1]) + (if parts[|parts| - 1] != "" then [parts[|parts| - 1]] else [])
  }

  /** The kept parts are exactly the non-empty ones. */
  lemma {:induction false} NonEmptyMembers(parts: seq<string>)
    ensures forall p :: p in NonEmpty(parts) <==> p in parts && p != ""
  {
    if parts != [] {
      var init := parts[..|parts| - 1];
      NonEmptyMembers(init);
      assert parts == init + [parts[|parts| - 1]];
    }
  }

  /** `sep.join(a + b)` for non-empty `a` and `b`. */
  lemma {:induction false} JoinAppend(sep: string, a: seq<string>, b: seq<string>)
    requires a != [] && b != []
    ensures Join(sep, a + b) == Join(sep, a) + sep + Join(sep, b)
  {
    if |a| > 1 {
      assert (a + b)[1..] == a[1..] + b;
      JoinAppend(sep, a[1..], b);
    } else {
      assert (a + b)[1..] == b;
    }
  }

  /** Some character of `s` is not a dot. */
  predicate HasNonDot(s: string) {
    exists i :: 0 <= i < |s| && s[i] != '.'
  }

  /** The index of the last `c` in `s`, or -1. */
  function LastIndexOf(s: string, c: char): (r: int)
    ensures -1 <= r < |s|
    ensures r >= 0 ==> s[r] == c && c !in s[r + 1..]
    ensures r < 0 ==> c !in s
  {
    if s == [] then -1
    else if s[|s| - 1] == c then |s| - 1
    else
      var r := LastIndexOf(s[..|s| - 1], c);
      assert r >= 0 ==> s[r + 1..] == s[..|s| - 1][r + 1..] + [s[|s| - 1]];
      assert r < 0 ==> s == s[..|s| - 1] + [s[|s| - 1]];
      r
  }

  /** `os.path.splitext` applied to one file name: the extension starts at the
      last dot, provided some character before that dot is not a dot (so
      `.bashrc` and `..` have no extension). */
  function SplitExt(name: string): (string, string) {
    var d := LastIndexOf(name, '.');
    if d >= 0 && HasNonDot(name[..d]) then (name[..d], name[d..]) else (name, "")
  }

  /** The two pieces of `SplitExt` make up the name; a non-empty extension is
      one dot and no other after a non-dot character, and an empty one means
      that no dot qualifies. */
  lemma SplitExtSpec(name: string)
    ensures var r := SplitExt(name);
      && r.0 + r.1 == name
      && (r.1 != "" ==> r.1[0] == '.' && '.' !in r.1[1..] && HasNonDot(r.0))
      && (r.1 == "" ==> forall i :: 0 <= i < |name| && name[i] == '.' && '.' !in name[i + 1..] ==> !HasNonDot(name[..i]))
  {
    var d := LastIndexOf(name, '.');
    assert d >= 0 ==> name[..d] + name[d..] == name;
    assert d < 0 ==> forall i :: 0 <= i < |name| ==> name[i] != '.';
  }

  /** A stem with a non-dot character followed by an extension splits back into the two. */
  lemma SplitExtOfStem(stem: string, ext: string)
    requires HasNonDot(stem)
    requires |ext| > 0 && ext[0] == '.' && '.' !in ext[1..]
    ensures SplitExt(stem + ext) == (stem, ext)
  {
    var name := stem + ext;
    assert name[|stem|] == '.';
    assert name[|stem| + 1..] == ext[1..];
    var d := LastIndexOf(name, '.');
    assert d == |stem|;
    assert name[..d] == stem;
  }
}
