/** JavaScript's `String.prototype.split(",")` and `Array.prototype.join(",")`
    on strings, the two halves of the comma-separated list format used by the
    webhook payload. */
module CommaSplit {

  /** The one separator the webhook format uses. */
  const Comma: char := ','

  /** How many separators `s` contains. */
  function CommaCount(s: string): nat
  {
    multiset(s)[Comma]
  }

  /** No element of `parts` contains a separator. */
  ghost predicate CommaFree(parts: seq<string>)
  {
    forall k :: 0 <= k < |parts| ==> Comma !in parts[k]
  }

  /** Position of the first separator in `s`. */
  function FirstComma(s: string): (i: nat)
    requires Comma in s
    ensures i < |s| && s[i] == Comma
    ensures Comma !in s[..i]
  {
    if s[0] == Comma then 0
    else
      var j := FirstComma(s[1..]);
      assert s[..1 + j] == [s[0]] + s[1..][..j];
      1 + j
  }

  /** `s.split(",")`: the maximal comma-free runs between separators, in
      order. Splitting never yields an empty array, so `""` gives `[""]`, and
      nothing is trimmed. */
  function Split(s: string): (parts: seq<string>)
    ensures |parts| >= 1
    decreases |s|
  {
    if Comma !in s then [s]
    else
      var i := FirstComma(s);
      [s[..i]] + Split(s[i + 1..])
  }

  /** A split yields one more piece than the input has separators, and no
      piece contains one. */
  lemma {:induction false} SplitShape(s: string)
    ensures |Split(s)| == CommaCount(s) + 1
    ensures CommaFree(Split(s))
    decreases |s|
  {
    if Comma !in s {
      assert multiset(s)[Comma] == 0;
    } else {
      var i := FirstComma(s);
      var rest := Split(s[i + 1..]);
      SplitShape(s[i + 1..]);
      assert Split(s) == [s[..i]] + rest;
      assert s == s[..i] + [Comma] + s[i + 1..];
      assert multiset(s) == multiset(s[..i]) + multiset([Comma]) + multiset(s[i + 1..]);
      assert multiset(s[..i])[Comma] == 0;
    }
  }

  /** `parts.join(",")`. */
  function Join(parts: seq<string>): string
  {
    if |parts| == 0 then ""
    else if |parts| == 1 then parts[0]
    else parts[0] + [Comma] + Join(parts[1..])
  }

  /** Joining the pieces of a split gives back the input exactly. */
  lemma {:induction false} JoinSplit(s: string)
    ensures Join(Split(s)) == s
    decreases |s|
  {
    if Comma in s {
      var i := FirstComma(s);
      var rest := Split(s[i + 1..]);
      assert Split(s) == [s[..i]] + rest;
      assert (Split(s))[1..] == rest;
      JoinSplit(s[i + 1..]);
      assert s == s[..i] + [Comma] + s[i + 1..];
    }
  }

  /** The first separator of a joined list sits right after its first element. */
  lemma FirstCommaOfJoin(parts: seq<string>)
    requires |parts| >= 2 && CommaFree(parts)
    ensures Comma in Join(parts)
    ensures FirstComma(Join(parts)) == |parts[0]|
    ensures Join(parts)[|parts[0]| + 1..] == Join(parts[1..])
  {
    var s := Join(parts);
    var n := |parts[0]|;
    assert s == parts[0] + [Comma] + Join(parts[1..]);
    assert s[n] == Comma;
    assert s[..n] == parts[0];
  }

  /** Splitting a join of comma-free pieces gives back the pieces: `Split` is
      the exact inverse of `Join` on the lists it can produce. */
  lemma {:induction false} SplitJoin(parts: seq<string>)
    requires |parts| >= 1 && CommaFree(parts)
    ensures Split(Join(parts)) == parts
    decreases |parts|
  {
    if |parts| == 1 {
      assert Join(parts) == parts[0];
      assert Comma !in parts[0];
    } else {
      FirstCommaOfJoin(parts);
      var s := Join(parts);
      var n := |parts[0]|;
      assert s[..n] == parts[0];
      assert CommaFree(parts[1..]) by {
        forall k | 0 <= k < |parts[1..]|
          ensures Comma !in parts[1..][k]
        {
          assert parts[1..][k] == parts[k + 1];
        }
      }
      SplitJoin(parts[1..]);
      assert Split(s) == [parts[0]] + parts[1..];
    }
  }
}
