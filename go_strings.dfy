/**
 * Go's `strings.Split` for a separator of one character, which the
 * middleware calls to cut its lookup specifier, built on `strings.Index`.
 * `strings.Join` is a reference definition: `Split` and `Join` are proved
 * inverse to each other, which pins down what `Split` computes.
 */
module GoStrings {

  /** Go's `strings.Index`: the position of the first `sep` in `s`, or -1. */
  function Index(s: string, sep: char): (i: int)
    ensures -1 <= i < |s|
    ensures i == -1 <==> sep !in s
    ensures 0 <= i ==> s[i] == sep && sep !in s[..i]
    decreases |s|
  {
    if s == [] then -1
    else if s[0] == sep then 0
    else
      var k := Index(s[1..], sep);
      if k < 0 then -1
      else
        assert s[..k + 1] == [s[0]] + s[1..][..k];
        k + 1
  }

  /**
   * Go's `strings.Split(s, sep)` for a non-empty separator: the pieces of `s`
   * between occurrences of `sep`, as many as there are separators plus one.
   * The empty string splits into one empty piece.
   */
  function Split(s: string, sep: char): (parts: seq<string>)
    ensures |parts| >= 1
    ensures |parts| == 1 <==> sep !in s
    decreases |s|
  {
    var i := Index(s, sep);
    if i < 0 then [s] else [s[..i]] + Split(s[i + 1..], sep)
  }

  /** Go's `strings.Join(parts, string(sep))`. */
  function Join(parts: seq<string>, sep: char): string
    decreases |parts|
  {
    if |parts| == 0 then ""
    else if |parts| == 1 then parts[0]
    else parts[0] + [sep] + Join(parts[1..], sep)
  }

  /** No piece produced by `Split` contains the separator. */
  lemma {:induction false} SplitPiecesAreFree(s: string, sep: char)
    ensures forall k :: 0 <= k < |Split(s, sep)| ==> sep !in Split(s, sep)[k]
    decreases |s|
  {
    var i := Index(s, sep);
    if 0 <= i {
      SplitPiecesAreFree(s[i + 1..], sep);
    }
  }

  /** Joining a piece in front of at least one more piece puts a separator between them. */
  lemma JoinCons(piece: string, rest: seq<string>, sep: char)
    requires |rest| >= 1
    ensures Join([piece] + rest, sep) == piece + [sep] + Join(rest, sep)
  {
    assert ([piece] + rest)[1..] == rest;
  }

  /** Joining the pieces again with the separator gives back the split string. */
  lemma {:induction false} JoinSplit(s: string, sep: char)
    ensures Join(Split(s, sep), sep) == s
    decreases |s|
  {
    var i := Index(s, sep);
    if 0 <= i {
      var head, tail := s[..i], s[i + 1..];
      assert s == head + [sep] + tail;
      JoinSplit(tail, sep);
      JoinCons(head, Split(tail, sep), sep);
    }
  }

  /** The first separator after a separator-free prefix is the one right after it. */
  lemma IndexAfterFreePrefix(prefix: string, sep: char, rest: string)
    requires sep !in prefix
    ensures Index(prefix + [sep] + rest, sep) == |prefix|
  {
    var s := prefix + [sep] + rest;
    assert s[..|prefix|] == prefix;
    assert s[|prefix|] == sep;
  }

  /** A separator-free piece followed by the separator splits off as one piece. */
  lemma SplitCons(piece: string, sep: char, tail: string)
    requires sep !in piece
    ensures Split(piece + [sep] + tail, sep) == [piece] + Split(tail, sep)
  {
    var s := piece + [sep] + tail;
    IndexAfterFreePrefix(piece, sep, tail);
    assert s[..|piece|] == piece;
    assert s[|piece| + 1..] == tail;
  }

  /**
   * Splitting a join of separator-free pieces gives back those pieces: `Split`
   * cuts exactly at the separators and nowhere else.
   */
  lemma {:induction false} SplitJoin(parts: seq<string>, sep: char)
    requires |parts| >= 1
    requires forall k :: 0 <= k < |parts| ==> sep !in parts[k]
    ensures Split(Join(parts, sep), sep) == parts
    decreases |parts|
  {
    if |parts| == 1 {
      assert Join(parts, sep) == parts[0];
    } else {
      var tail := parts[1..];
      assert parts == [parts[0]] + tail;
      JoinCons(parts[0], tail, sep);
      SplitCons(parts[0], sep, Join(tail, sep));
      forall k | 0 <= k < |tail| ensures sep !in tail[k] {
        assert tail[k] == parts[k + 1];
      }
      SplitJoin(tail, sep);
    }
  }

  /**
   * The first two pieces of a split are the text before the first separator
   * and the text between the first and the second separator (or the end).
   */
  lemma FirstTwoPieces(first: string, second: string, sep: char, rest: string)
    requires sep !in first && sep !in second
    requires rest == [] || rest[0] == sep
    ensures |Split(first + [sep] + second + rest, sep)| >= 2
    ensures Split(first + [sep] + second + rest, sep)[0] == first
    ensures Split(first + [sep] + second + rest, sep)[1] == second
  {
    var s := first + [sep] + second + rest;
    assert s == first + [sep] + (second + rest);
    IndexAfterFreePrefix(first, sep, second + rest);
    assert s[..|first|] == first;
    assert s[|first| + 1..] == second + rest;
    if rest == [] {
      assert second + rest == second;
    } else {
      assert second + rest == second + [sep] + rest[1..];
      IndexAfterFreePrefix(second, sep, rest[1..]);
      assert (second + rest)[..|second|] == second;
    }
  }

  /** A string cut at `i` and at `i + 1 + m` is the concatenation of its parts. */
  lemma Reassemble(s: string, i: nat, m: nat)
    requires i + 1 + m <= |s|
    ensures s == s[..i] + [s[i]] + s[i + 1..i + 1 + m] + s[i + 1 + m..]
  {
  }

  /**
   * A string holding a separator is the text before its first separator,
   * that separator, the text up to the next separator (or the end), and a
   * rest that is empty or starts with a separator.
   */
  lemma FirstFields(s: string, sep: char) returns (first: string, second: string, rest: string)
    requires sep in s
    ensures var i := Index(s, sep);
            var t := s[i + 1..];
            var j := Index(t, sep);
            first == s[..i] && second == (if j < 0 then t else t[..j])
    ensures sep !in first && sep !in second
    ensures rest == [] || rest[0] == sep
    ensures s == first + [sep] + second + rest
  {
    var i := Index(s, sep);
    var t := s[i + 1..];
    var j := Index(t, sep);
    var m := if j < 0 then |t| else j;
    first, second, rest := s[..i], s[i + 1..i + 1 + m], s[i + 1 + m..];
    assert second == t[..m];
    Reassemble(s, i, m);
  }

  /**
   * Conversely, whenever `s` holds a separator, its first two pieces are the
   * text before the first separator and the text from there up to the second
   * separator or the end of `s`.
   */
  lemma SplitFirstTwo(s: string, sep: char)
    requires sep in s
    ensures |Split(s, sep)| >= 2
    ensures var p := Split(s, sep);
            var n := |p[0]| + 1 + |p[1]|;
            && sep !in p[0] && sep !in p[1]
            && n <= |s| && s == p[0] + [sep] + p[1] + s[n..]
            && (s[n..] == [] || s[n..][0] == sep)
  {
    var first, second, rest := FirstFields(s, sep);
    FirstTwoPieces(first, second, sep, rest);
  }
}
