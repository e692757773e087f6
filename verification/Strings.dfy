/** Splitting and joining strings, and ordering them by code points. */
module Strings {

  predicate StartsWith(s: string, prefix: string) {
    |prefix| <= |s| && s[..|prefix|] == prefix
  }

  /** Where `sep` occurs first in `s`; the length of `s` if it does not occur. */
  function IndexOf(s: string, sep: string): (i: nat)
    ensures i <= |s| && (i < |s| ==> StartsWith(s[i..], sep))
    ensures forall k :: 0 <= k < i ==> !StartsWith(s[k..], sep)
  {
    if s == [] || StartsWith(s, sep) then 0
    else
      var i := IndexOf(s[1..], sep);
      assert forall k :: 0 < k <= |s| ==> s[1..][k - 1..] == s[k..];
      i + 1
  }

  /** The pieces of `s` between the occurrences of `sep`, found from left to right. */
  function Split(s: string, sep: string): (words: seq<string>)
    requires sep != []
    ensures words != []
  {
    var i := IndexOf(s, sep);
    if i == |s| then [s] else [s[..i]] + Split(s[i + |sep|..], sep)
  }

  function Join(words: seq<string>, sep: string): string {
    if words == [] then []
    else if |words| == 1 then words[0]
    else words[0] + sep + Join(words[1..], sep)
  }

  lemma {:induction false} JoinFirst(word: string, words: seq<string>, sep: string)
    requires words != []
    ensures Join([word] + words, sep) == word + sep + Join(words, sep)
  {
    assert ([word] + words)[1..] == words;
  }

  lemma {:induction false} AroundSeparator(s: string, i: nat, sep: string)
    requires i <= |s| && StartsWith(s[i..], sep)
    ensures i + |sep| <= |s| && s == s[..i] + sep + s[i + |sep|..]
  {
    assert s[i..][..|sep|] == s[i..i + |sep|];
  }

  lemma {:induction false} JoinOfSplit(s: string, sep: string)
    requires sep != []
    ensures Join(Split(s, sep), sep) == s
  {
    hide IndexOf, StartsWith;
    var i := IndexOf(s, sep);
    if i < |s| {
      AroundSeparator(s, i, sep);
      var rest := s[i + |sep|..];
      JoinOfSplit(rest, sep);
      JoinFirst(s[..i], Split(rest, sep), sep);
    }
  }

  /** A piece goes up to the first occurrence of the separator. */
  lemma {:induction false} SplitFirst(word: string, rest: string, sep: string)
    requires sep != [] && IndexOf(word + sep + rest, sep) == |word|
    ensures Split(word + sep + rest, sep) == [word] + Split(rest, sep)
  {
    var s := word + sep + rest;
    assert s[..|word|] == word && s[|word| + |sep|..] == rest;
  }

  lemma SplitNone(word: string, sep: string)
    requires sep != [] && IndexOf(word, sep) == |word|
    ensures Split(word, sep) == [word]
  {
  }

  lemma {:induction false} StartsWithChar(s: string, c: char)
    requires s != []
    ensures StartsWith(s, [c]) <==> s[0] == c
  {
    assert s[..1] == [s[0]];
  }

  /** With a separator of one character, words without that character are found again. */
  lemma {:induction false} IndexOfChar(word: string, c: char, rest: string)
    requires c !in word
    ensures IndexOf(word, [c]) == |word| && IndexOf(word + [c] + rest, [c]) == |word|
  {
    hide StartsWith;
    var s := word + [c] + rest;
    StartsWithChar(s, c);
    if word != [] {
      StartsWithChar(word, c);
      IndexOfChar(word[1..], c, rest);
      assert s[1..] == word[1..] + [c] + rest;
    }
  }

  lemma {:induction false} SplitOfJoin(words: seq<string>, c: char)
    requires words != [] && forall w :: w in words ==> c !in w
    ensures Split(Join(words, [c]), [c]) == words
  {
    hide IndexOf, Split;
    if |words| == 1 {
      IndexOfChar(words[0], c, "");
      SplitNone(words[0], [c]);
    } else {
      SplitOfJoin(words[1..], c);
      IndexOfChar(words[0], c, Join(words[1..], [c]));
      SplitFirst(words[0], Join(words[1..], [c]), [c]);
      assert Join(words, [c]) == words[0] + [c] + Join(words[1..], [c]);
    }
  }

  /** The pieces never contain a separator of one character. */
  lemma {:induction false} SplitPieces(s: string, c: char)
    ensures forall w :: w in Split(s, [c]) ==> c !in w
  {
    var i := IndexOf(s, [c]);
    assert forall k :: 0 <= k < i ==> s[k] != c by {
      assert forall k :: 0 <= k < i ==> s[k..][..1] == [s[k]];
    }
    if i < |s| {
      SplitPieces(s[i + 1..], c);
    }
  }

  // ----- order -----

  /** Lexicographic order by code points. */
  predicate Leq(a: string, b: string) {
    a == [] || (b != [] && (a[0] < b[0] || (a[0] == b[0] && Leq(a[1..], b[1..]))))
  }

  lemma {:induction false} LeqTotal(a: string, b: string)
    ensures Leq(a, b) || Leq(b, a)
  {
    if a != [] && b != [] {
      LeqTotal(a[1..], b[1..]);
    }
  }

  lemma {:induction false} LeqAntisymmetric(a: string, b: string)
    requires Leq(a, b) && Leq(b, a)
    ensures a == b
  {
    if a != [] {
      LeqAntisymmetric(a[1..], b[1..]);
      assert a == [a[0]] + a[1..] && b == [b[0]] + b[1..];
    }
  }

  lemma {:induction false} LeqTransitive(a: string, b: string, c: string)
    requires Leq(a, b) && Leq(b, c)
    ensures Leq(a, c)
  {
    if a != [] && a[0] == b[0] == c[0] {
      LeqTransitive(a[1..], b[1..], c[1..]);
    }
  }

  /** The lesser of the least one and a further one. */
  lemma {:induction false} LeastOfMore(s: set<string>, m: string, y: string) returns (least: string)
    requires m in s && forall x :: x in s ==> Leq(m, x)
    ensures least in s + {y} && forall x :: x in s + {y} ==> Leq(least, x)
  {
    LeqTotal(m, y);
    LeqTotal(y, y);
    least := if Leq(m, y) then m else y;
    forall x | x in s
      ensures Leq(least, x)
    {
      if least == y {
        LeqTransitive(y, m, x);
      }
    }
  }

  lemma {:induction false} HasLeast(s: set<string>)
    requires s != {}
    ensures exists m :: m in s && forall x :: x in s ==> Leq(m, x)
  {
    var y :| y in s;
    if s == {y} {
      LeqTotal(y, y);
    } else {
      hide Leq;
      HasLeast(s - {y});
      var m :| m in s - {y} && forall x :: x in s - {y} ==> Leq(m, x);
      var least := LeastOfMore(s - {y}, m, y);
      assert s - {y} + {y} == s;
    }
  }
}
