/** Small string operations the scorers rely on, with the meaning Python gives them:
    `str.lower()` on ASCII letters, `str.strip()` on ASCII whitespace, `str.split(',')`
    and the substring test `a in b`. */
module Text {

  /** Python's `str.isspace()` on the ASCII range: tab, line feed, vertical tab,
      form feed, carriage return, the four separators 0x1C-0x1F, and space. */
  predicate IsSpace(c: char) {
    c == ' ' || (9 <= c as int <= 13) || (28 <= c as int <= 31)
  }

  predicate IsUpper(c: char) {
    'A' <= c <= 'Z'
  }

  function LowerChar(c: char): (r: char)
    ensures !IsUpper(r)
    ensures !IsUpper(c) ==> r == c
  {
    if IsUpper(c) then (c as int + 32) as char else c
  }

  /** `s.lower()` */
  function Lower(s: string): (r: string)
    ensures |r| == |s|
  {
    seq(|s|, i requires 0 <= i < |s| => LowerChar(s[i]))
  }

  lemma LowerFacts(s: string)
    ensures forall i :: 0 <= i < |s| ==> !IsUpper(Lower(s)[i])
    ensures Lower(Lower(s)) == Lower(s)
  {
  }

  /** Leading whitespace removed. */
  function TrimLeft(s: string): (r: string)
    ensures |r| <= |s|
  {
    if s != [] && IsSpace(s[0]) then TrimLeft(s[1..]) else s
  }

  /** Trailing whitespace removed. */
  function TrimRight(s: string): (r: string)
    ensures |r| <= |s|
  {
    if s != [] && IsSpace(s[|s| - 1]) then TrimRight(s[..|s| - 1]) else s
  }

  /** What TrimLeft drops is all whitespace, and what it keeps is the rest of `s` and
      does not start with whitespace. */
  lemma {:induction false} TrimLeftFacts(s: string)
    ensures var r := TrimLeft(s);
      && r == s[|s| - |r|..]
      && (forall i :: 0 <= i < |s| - |r| ==> IsSpace(s[i]))
      && (r == [] || !IsSpace(r[0]))
  {
    if s != [] && IsSpace(s[0]) {
      TrimLeftFacts(s[1..]);
    }
  }

  /** What TrimRight drops is all whitespace, and what it keeps is the start of `s` and
      does not end with whitespace. */
  lemma {:induction false} TrimRightFacts(s: string)
    ensures var r := TrimRight(s);
      && r == s[..|r|]
      && (forall i :: |r| <= i < |s| ==> IsSpace(s[i]))
      && (r == [] || !IsSpace(r[|r| - 1]))
  {
    if s != [] && IsSpace(s[|s| - 1]) {
      TrimRightFacts(s[..|s| - 1]);
    }
  }

  /** `s.strip()`: whitespace cut from both ends. */
  function Strip(s: string): (r: string)
    ensures |r| <= |s|
  {
    TrimRight(TrimLeft(s))
  }

  /** The result of `strip()` is a slice of its argument with only whitespace around it,
      and it neither starts nor ends with whitespace. */
  lemma StripFacts(s: string)
    ensures var r := Strip(s);
      && r == s[|s| - |TrimLeft(s)|..][..|r|]
      && (forall i :: 0 <= i < |s| - |TrimLeft(s)| ==> IsSpace(s[i]))
      && (forall i :: |s| - |TrimLeft(s)| + |r| <= i < |s| ==> IsSpace(s[i]))
      && (r == [] || (!IsSpace(r[0]) && !IsSpace(r[|r| - 1])))
  {
    var t := TrimLeft(s);
    TrimLeftFacts(s);
    TrimRightFacts(t);
    var r := TrimRight(t);
    if r != [] {
      assert r[0] == t[0];
    }
  }

  lemma {:induction false} StripIdempotent(s: string)
    ensures Strip(Strip(s)) == Strip(s)
  {
    var t := Strip(s);
    StripFacts(s);
    assert TrimLeft(t) == t;
    TrimRightKeeps(t);
  }

  lemma TrimRightKeeps(s: string)
    requires s == [] || !IsSpace(s[|s| - 1])
    ensures TrimRight(s) == s
  {
  }

  /** `s.split(sep)`: the pieces between the separators, so there is always at least one
      piece and no piece holds the separator. */
  function Split(s: string, sep: char): (parts: seq<string>)
    ensures |parts| >= 1
    decreases |s|
  {
    if s == [] then [[]]
    else
      var rest := Split(s[1..], sep);
      if s[0] == sep then [[]] + rest
      else [[s[0]] + rest[0]] + rest[1..]
  }

  lemma {:induction false} SplitPiecesNoSep(s: string, sep: char)
    ensures forall k :: 0 <= k < |Split(s, sep)| ==> sep !in Split(s, sep)[k]
    decreases |s|
  {
    if s != [] {
      SplitPiecesNoSep(s[1..], sep);
    }
  }

  /** `sep.join(parts)`, the inverse of `Split`. */
  function Join(parts: seq<string>, sep: char): string
    requires |parts| >= 1
  {
    if |parts| == 1 then parts[0] else parts[0] + [sep] + Join(parts[1..], sep)
  }

  lemma {:induction false} JoinSplit(s: string, sep: char)
    ensures Join(Split(s, sep), sep) == s
    decreases |s|
  {
    if s != [] {
      var rest := Split(s[1..], sep);
      JoinSplit(s[1..], sep);
      if s[0] != sep {
        if |rest| == 1 {
          assert Split(s, sep) == [[s[0]] + rest[0]];
        } else {
          assert Split(s, sep)[1..] == rest[1..];
        }
      }
    }
  }

  lemma {:induction false} SplitJoin(parts: seq<string>, sep: char)
    requires |parts| >= 1
    requires forall k :: 0 <= k < |parts| ==> sep !in parts[k]
    ensures Split(Join(parts, sep), sep) == parts
    decreases |parts|, |parts[0]|
  {
    if parts[0] == [] {
      if |parts| > 1 {
        var tail := Join(parts[1..], sep);
        assert Join(parts, sep) == [sep] + tail;
        assert ([sep] + tail)[1..] == tail;
        SplitJoin(parts[1..], sep);
        assert parts == [[]] + parts[1..];
      }
    } else {
      var c := parts[0][0];
      var shorter := [parts[0][1..]] + parts[1..];
      assert c != sep by { assert c in parts[0]; }
      forall k | 0 <= k < |shorter| ensures sep !in shorter[k] {
        if k == 0 {
          assert forall x :: x in parts[0][1..] ==> x in parts[0];
        } else {
          assert shorter[k] == parts[k];
        }
      }
      SplitJoin(shorter, sep);
      JoinCons(parts, sep);
      assert [c] + parts[0][1..] == parts[0];
      assert parts == [parts[0]] + shorter[1..];
    }
  }

  lemma JoinCons(parts: seq<string>, sep: char)
    requires |parts| >= 1 && parts[0] != []
    ensures Join(parts, sep) == [parts[0][0]] + Join([parts[0][1..]] + parts[1..], sep)
  {
    var shorter := [parts[0][1..]] + parts[1..];
    assert shorter[1..] == parts[1..];
  }

  /** Python's `a in b` on strings. */
  predicate IsSubstring(a: string, b: string)
    decreases |b|
  {
    a <= b || (b != [] && IsSubstring(a, b[1..]))
  }

  /** The same test stated positionally: `a` occurs in `b` starting at offset `i`. */
  ghost predicate OccursAt(a: string, b: string, i: int) {
    0 <= i <= |b| && a <= b[i..]
  }

  lemma {:induction false} IsSubstringIffOccurs(a: string, b: string)
    ensures IsSubstring(a, b) <==> exists i :: OccursAt(a, b, i)
    decreases |b|
  {
    if IsSubstring(a, b) {
      SubstringOccurs(a, b);
    } else {
      forall i | OccursAt(a, b, i) ensures false {
        OccursSubstring(a, b, i);
      }
    }
  }

  lemma {:induction false} SubstringOccurs(a: string, b: string)
    requires IsSubstring(a, b)
    ensures exists i :: OccursAt(a, b, i)
    decreases |b|
  {
    if a <= b {
      assert b[0..] == b;
      assert OccursAt(a, b, 0);
    } else {
      SubstringOccurs(a, b[1..]);
      var i :| OccursAt(a, b[1..], i);
      assert b[1..][i..] == b[i + 1..];
      assert OccursAt(a, b, i + 1);
    }
  }

  lemma {:induction false} OccursSubstring(a: string, b: string, i: int)
    requires OccursAt(a, b, i)
    ensures IsSubstring(a, b)
    decreases i
  {
    if i == 0 {
      assert b[0..] == b;
    } else {
      assert b[1..][i - 1..] == b[i..];
      OccursSubstring(a, b[1..], i - 1);
    }
  }

  lemma SubstringRefl(a: string)
    ensures IsSubstring(a, a)
  {
  }
}
