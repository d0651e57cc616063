/** The Python string operations the prompt is built with, on `seq<char>`. */
module Strings {

  /** Whether `sub` occurs in `s` at position `k`. */
  predicate OccursAt(sub: string, s: string, k: nat) {
    k + |sub| <= |s| && s[k..k + |sub|] == sub
  }

  /** An occurrence inside an occurrence is an occurrence. */
  lemma OccursWithin(sub: string, s: string, k: nat, p: string, j: nat)
    requires OccursAt(sub, s, k) && OccursAt(s, p, j)
    ensures OccursAt(sub, p, j + k)
  {
    forall i | 0 <= i < |sub| ensures p[j + k + i] == sub[i] {
      assert p[j + (k + i)] == s[k + i];
    }
  }

  /** The sum of the lengths of `parts`. */
  function TotalLength(parts: seq<string>): nat {
    if parts == [] then 0 else |parts[0]| + TotalLength(parts[1..])
  }

  /** `sep.join(parts)`: the parts in order with `sep` between neighbours. */
  function Join(sep: string, parts: seq<string>): (r: string)
    ensures parts == [] ==> r == ""
    ensures parts != [] ==> |r| == TotalLength(parts) + (|parts| - 1) * |sep|
  {
    if |parts| == 0 then ""
    else if |parts| == 1 then parts[0]
    else parts[0] + sep + Join(sep, parts[1..])
  }

  /** Joining two non-empty lists is joining each and putting one separator
      between the results. */
  lemma {:induction false} JoinSplit(sep: string, a: seq<string>, b: seq<string>)
    requires a != [] && b != []
    ensures Join(sep, a + b) == Join(sep, a) + sep + Join(sep, b)
  {
    assert (a + b)[0] == a[0];
    assert (a + b)[1..] == a[1..] + b;
    if |a| > 1 {
      JoinSplit(sep, a[1..], b);
    }
  }

  /** The first part opens the joined text. */
  lemma JoinHeadAt(sep: string, part: string, after: seq<string>)
    ensures OccursAt(part, Join(sep, [part] + after), 0)
  {
    if after != [] {
      assert ([part] + after)[1..] == after;
    }
  }

  /** Part `i` occurs verbatim in the joined text, right after the join of
      the parts before it and one separator. */
  lemma JoinEntryAt(sep: string, parts: seq<string>, i: nat)
    requires i < |parts|
    ensures OccursAt(parts[i], Join(sep, parts), if i == 0 then 0 else |Join(sep, parts[..i])| + |sep|)
  {
    var rest := [parts[i]] + parts[i + 1..];
    JoinHeadAt(sep, parts[i], parts[i + 1..]);
    if i == 0 {
      assert parts == rest;
    } else {
      assert parts == parts[..i] + rest;
      JoinSplit(sep, parts[..i], rest);
      OccursWithin(parts[i], Join(sep, rest), 0, Join(sep, parts), |Join(sep, parts[..i])| + |sep|);
    }
  }
}
