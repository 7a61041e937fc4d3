/**
 * The string primitives the client's command parser is built on:
 * Java's String.split with a one-space separator and a positive limit,
 * the single-space join that undoes it, and String.toUpperCase restricted
 * to ASCII letters.
 */
module Text {
  import opened Optional

  const Space: char := ' '

  /** Position of the first space in s, if there is one (String.indexOf). */
  function IndexOfSpace(s: string): (r: Option<nat>)
    ensures r.Some? ==> r.value < |s| && s[r.value] == Space && Space !in s[..r.value]
    ensures r.None? <==> Space !in s
  {
    if |s| == 0 then None
    else if s[0] == Space then Some(0)
    else
      match IndexOfSpace(s[1..])
      case None => None
      case Some(i) =>
        assert s[..i + 1] == [s[0]] + s[1..][..i];
        Some(i + 1)
  }

  /**
   * s.split(" ", limit) for a positive limit: the separator is applied at
   * most limit - 1 times, each time at the first space still left, and the
   * last piece keeps everything after the last cut, spaces and trailing
   * empty pieces included. A string without a space is returned whole.
   */
  function Split(s: string, limit: nat): (parts: seq<string>)
    requires limit >= 1
    ensures 1 <= |parts| <= limit
    decreases limit
  {
    match IndexOfSpace(s)
    case None => [s]
    case Some(i) =>
      if limit == 1 then [s] else [s[..i]] + Split(s[i + 1..], limit - 1)
  }

  /** The pieces glued back together with one space between neighbours. */
  function Join(parts: seq<string>): string
    decreases |parts|
  {
    if |parts| == 0 then ""
    else if |parts| == 1 then parts[0]
    else parts[0] + [Space] + Join(parts[1..])
  }

  /**
   * The shape of a split into at most limit pieces: no piece but the last
   * holds a space (every cut is made at the first space left), and the last
   * holds none either unless the limit stopped the cutting.
   */
  ghost predicate IsSplitShape(parts: seq<string>, limit: nat)
  {
    && 1 <= |parts| <= limit
    && (forall i :: 0 <= i < |parts| - 1 ==> Space !in parts[i])
    && (|parts| < limit ==> Space !in parts[|parts| - 1])
  }

  /** An independent description of a split: pieces of that shape that join back to s. */
  ghost predicate IsSplitOf(s: string, limit: nat, parts: seq<string>)
  {
    IsSplitShape(parts, limit) && Join(parts) == s
  }

  /** The first space of `word + " " + rest` is the one after word. */
  lemma IndexOfSpaceAfterWord(word: string, rest: string)
    requires Space !in word
    ensures IndexOfSpace(word + [Space] + rest) == Some(|word|)
  {
    var s := word + [Space] + rest;
    assert s[..|word|] == word;
    assert s[|word|] == Space;
  }

  /** A string is the text before a space, the space, and the text after it. */
  lemma CutAtSpace(s: string, i: nat)
    requires i < |s| && s[i] == Space
    ensures s == s[..i] + [Space] + s[i + 1..]
  {
  }

  /** Joining a first piece onto a non-empty rest puts one space between. */
  lemma JoinCons(first: string, rest: seq<string>)
    requires |rest| >= 1
    ensures Join([first] + rest) == first + [Space] + Join(rest)
  {
    assert ([first] + rest)[1..] == rest;
  }

  /** Splitting after a space-free first word peels that word off. */
  lemma SplitAfterWord(s: string, word: string, rest: string, limit: nat, restParts: seq<string>)
    requires s == word + [Space] + rest
    requires Space !in word && limit >= 2
    requires restParts == Split(rest, limit - 1)
    ensures Split(s, limit) == [word] + restParts
  {
    IndexOfSpaceAfterWord(word, rest);
    assert s[..|word|] == word;
    assert s[|word| + 1..] == rest;
  }

  /** A space-free first piece in front of a split of the tail is a split. */
  lemma ConsIsSplitOf(first: string, tail: string, limit: nat, rest: seq<string>)
    requires limit >= 2 && Space !in first
    requires IsSplitOf(tail, limit - 1, rest)
    ensures IsSplitOf(first + [Space] + tail, limit, [first] + rest)
  {
    var parts := [first] + rest;
    JoinCons(first, rest);
    forall j | 0 <= j < |parts| - 1
      ensures Space !in parts[j]
    {
      if j > 0 {
        assert parts[j] == rest[j - 1];
      }
    }
    assert parts[|parts| - 1] == rest[|rest| - 1];
  }

  /** Split meets its description: it is a split of s. */
  lemma {:induction false} SplitIsSplitOf(s: string, limit: nat)
    requires limit >= 1
    ensures IsSplitOf(s, limit, Split(s, limit))
    decreases limit
  {
    var r := IndexOfSpace(s);
    if r.Some? && limit > 1 {
      var i := r.value;
      CutAtSpace(s, i);
      SplitIsSplitOf(s[i + 1..], limit - 1);
      ConsIsSplitOf(s[..i], s[i + 1..], limit, Split(s[i + 1..], limit - 1));
    }
  }

  /** Pieces of the right shape come back unchanged from splitting their join. */
  lemma {:induction false} SplitOfJoin(parts: seq<string>, limit: nat)
    requires limit >= 1 && IsSplitShape(parts, limit)
    ensures Split(Join(parts), limit) == parts
    decreases limit
  {
    if |parts| == 1 {
      assert IndexOfSpace(parts[0]).Some? ==> limit == 1;
    } else {
      var first, rest := parts[0], parts[1..];
      assert parts == [first] + rest;
      JoinCons(first, rest);
      assert Space !in first;
      forall j | 0 <= j < |rest| - 1
        ensures Space !in rest[j]
      {
        assert rest[j] == parts[j + 1];
      }
      assert rest[|rest| - 1] == parts[|parts| - 1];
      SplitOfJoin(rest, limit - 1);
      SplitAfterWord(Join(parts), first, Join(rest), limit, rest);
    }
  }

  /** The description determines the split: there is only one. */
  lemma SplitOfIsSplit(s: string, limit: nat, parts: seq<string>)
    requires limit >= 1
    requires IsSplitOf(s, limit, parts)
    ensures parts == Split(s, limit)
  {
    SplitOfJoin(parts, limit);
  }

  /** String.toUpperCase on one character, for the ASCII letters. */
  function UpperChar(c: char): char
  {
    if 'a' <= c <= 'z' then (c as int - 32) as char else c
  }

  /**
   * String.toUpperCase, character by character: the result has the same
   * length, no lower-case ASCII letter is left, each lower-case letter
   * becomes its capital and every other character stays as it was.
   */
  function ToUpper(s: string): (r: string)
    ensures |r| == |s|
    ensures forall i :: 0 <= i < |r| ==> !('a' <= r[i] <= 'z')
    ensures forall i :: 0 <= i < |s| && 'a' <= s[i] <= 'z' ==> r[i] as int - 'A' as int == s[i] as int - 'a' as int
    ensures forall i :: 0 <= i < |s| && !('a' <= s[i] <= 'z') ==> r[i] == s[i]
  {
    seq(|s|, i requires 0 <= i < |s| => UpperChar(s[i]))
  }

  /** Upper-casing twice is upper-casing once. */
  lemma ToUpperIdempotent(s: string)
    ensures ToUpper(ToUpper(s)) == ToUpper(s)
  {
  }

  /** Upper-casing never introduces or removes a space. */
  lemma ToUpperKeepsSpaces(s: string)
    ensures Space in ToUpper(s) <==> Space in s
  {
    if Space in s {
      var i :| 0 <= i < |s| && s[i] == Space;
      assert ToUpper(s)[i] == Space;
    }
  }
}
