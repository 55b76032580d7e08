/** String helpers shared by the model: concatenation of many parts with no
    separator (what a loop of `text += part` builds), and substring search. */
module Strings {

  /** The parts joined in order with nothing between them, folded from the
      left as a loop of `acc += part` starting from "" folds them. */
  function Concat(parts: seq<string>): (r: string)
  {
    if parts == [] then "" else Concat(parts[..|parts| - 1]) + parts[|parts| - 1]
  }

  /** The sum of the lengths of the parts. */
  function TotalLength(parts: seq<string>): (r: nat)
  {
    if parts == [] then 0 else TotalLength(parts[..|parts| - 1]) + |parts[|parts| - 1]|
  }

  /** Where part `k` starts inside `Concat(parts)`. */
  function Offset(parts: seq<string>, k: nat): (r: nat)
    requires k <= |parts|
  {
    TotalLength(parts[..k])
  }

  /** `w` occurs inside `s` starting at index `k`. */
  predicate OccursAt(s: string, w: string, k: int)
  {
    0 <= k && k + |w| <= |s| && s[k..k + |w|] == w
  }

  /** `w` occurs somewhere inside `s` (Python's `w in s`). */
  predicate Contains(s: string, w: string)
  {
    exists k :: 0 <= k <= |s| && OccursAt(s, w, k)
  }

  /** `s` ends with `w` (Python's `s.endswith(w)`). */
  predicate EndsWith(s: string, w: string)
  {
    |w| <= |s| && s[|s| - |w|..] == w
  }

  lemma {:induction false} ConcatLength(parts: seq<string>)
    ensures |Concat(parts)| == TotalLength(parts)
  {
    if parts != [] {
      ConcatLength(parts[..|parts| - 1]);
    }
  }

  lemma {:induction false} ConcatAppend(a: seq<string>, b: seq<string>)
    ensures Concat(a + b) == Concat(a) + Concat(b)
    decreases |b|
  {
    if b == [] {
      assert a + b == a;
    } else {
      var b' := b[..|b| - 1];
      assert (a + b)[..|a + b| - 1] == a + b';
      ConcatAppend(a, b');
    }
  }

  lemma {:induction false} TotalLengthAppend(a: seq<string>, b: seq<string>)
    ensures TotalLength(a + b) == TotalLength(a) + TotalLength(b)
    decreases |b|
  {
    if b == [] {
      assert a + b == a;
    } else {
      var b' := b[..|b| - 1];
      assert (a + b)[..|a + b| - 1] == a + b';
      TotalLengthAppend(a, b');
    }
  }

  /** Part `k` appears, unchanged, at its offset: nothing is reordered,
      dropped or inserted between parts. */
  lemma {:induction false} PartAt(parts: seq<string>, k: nat)
    requires k < |parts|
    ensures Offset(parts, k) + |parts[k]| <= |Concat(parts)|
    ensures Concat(parts)[Offset(parts, k)..Offset(parts, k) + |parts[k]|] == parts[k]
  {
    var before, rest := parts[..k], parts[k + 1..];
    assert parts == before + [parts[k]] + rest;
    ConcatAppend(before + [parts[k]], rest);
    ConcatAppend(before, [parts[k]]);
    assert Concat([parts[k]]) == parts[k] by {
      assert [parts[k]][..0] == [];
    }
    ConcatLength(before);
    var whole := Concat(before) + parts[k] + Concat(rest);
    assert whole[|Concat(before)|..|Concat(before)| + |parts[k]|] == parts[k];
  }

  /** The concatenation starts with the first part and ends with the last. */
  lemma {:induction false} ConcatEnds(parts: seq<string>)
    requires |parts| > 0
    ensures |parts[0]| <= |Concat(parts)| && Concat(parts)[..|parts[0]|] == parts[0]
    ensures |parts[|parts| - 1]| <= |Concat(parts)|
    ensures Concat(parts)[|Concat(parts)| - |parts[|parts| - 1]|..] == parts[|parts| - 1]
  {
    PartAt(parts, 0);
    assert Offset(parts, 0) == 0 by {
      assert parts[..0] == [];
    }
  }

  lemma ContainsAt(s: string, w: string, k: nat)
    requires k + |w| <= |s| && s[k..k + |w|] == w
    ensures Contains(s, w)
  {
    assert OccursAt(s, w, k);
  }

  lemma ContainsPrepend(a: string, s: string, w: string)
    requires Contains(s, w)
    ensures Contains(a + s, w)
  {
    var k :| 0 <= k <= |s| && OccursAt(s, w, k);
    assert s[k..k + |w|] == w;
    assert (a + s)[|a| + k..|a| + k + |w|] == w;
    assert OccursAt(a + s, w, |a| + k);
  }

  lemma ContainsAppend(s: string, b: string, w: string)
    requires Contains(s, w)
    ensures Contains(s + b, w)
  {
    var k :| 0 <= k <= |s| && OccursAt(s, w, k);
    assert s[k..k + |w|] == w;
    assert (s + b)[k..k + |w|] == w;
    assert OccursAt(s + b, w, k);
  }

  /** Every part occurs inside the concatenation of the parts. */
  lemma {:induction false} ContainsPart(parts: seq<string>, w: string)
    requires w in parts
    ensures Contains(Concat(parts), w)
  {
    var k :| 0 <= k < |parts| && parts[k] == w;
    PartAt(parts, k);
    ContainsAt(Concat(parts), w, Offset(parts, k));
  }
}
