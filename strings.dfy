/** Text helpers shared by the templating stages: Rust's `join` on a list of
    strings, and the substring relation used to state what generated text holds. */
module Strings {

  /** `xs.join(sep)`: the items with `sep` between consecutive ones, "" when empty. */
  function Join(xs: seq<string>, sep: string): (r: string)
    ensures |xs| == 0 ==> r == ""
    ensures |xs| == 1 ==> r == xs[0]
  {
    if |xs| == 0 then ""
    else if |xs| == 1 then xs[0]
    else xs[0] + sep + Join(xs[1..], sep)
  }

  /** The separator goes between consecutive items: appending an item to a
      non-empty list appends the separator and then the item. */
  lemma {:induction false} JoinAppend(xs: seq<string>, sep: string, x: string)
    requires |xs| >= 1
    ensures Join(xs + [x], sep) == Join(xs, sep) + sep + x
  {
    if |xs| == 1 {
      assert (xs + [x])[1..] == [x];
    } else {
      JoinAppend(xs[1..], sep, x);
      assert (xs + [x])[1..] == xs[1..] + [x];
    }
  }

  /** `part` starts at index `k` of `text`. */
  ghost predicate OccursAt(text: string, part: string, k: int) {
    0 <= k <= |text| - |part| && text[k..k + |part|] == part
  }

  /** `part` occurs in `text` as a contiguous run of characters. */
  ghost predicate Contains(text: string, part: string) {
    exists k :: OccursAt(text, part, k)
  }

  lemma ContainsSelf(s: string)
    ensures Contains(s, s)
  {
    assert OccursAt(s, s, 0);
  }

  /** A part of the middle piece is a part of the whole. */
  lemma ContainsInMiddle(pre: string, mid: string, post: string, part: string)
    requires Contains(mid, part)
    ensures Contains(pre + mid + post, part)
  {
    var k :| OccursAt(mid, part, k);
    var whole := pre + mid + post;
    assert whole[|pre| + k..|pre| + k + |part|] == mid[k..k + |part|];
    assert OccursAt(whole, part, |pre| + k);
  }

  lemma ContainsAppend(s: string, t: string, part: string)
    requires Contains(s, part)
    ensures Contains(s + t, part)
  {
    var k :| OccursAt(s, part, k);
    assert (s + t)[k..k + |part|] == s[k..k + |part|];
    assert OccursAt(s + t, part, k);
  }

  lemma ContainsPrepend(t: string, s: string, part: string)
    requires Contains(s, part)
    ensures Contains(t + s, part)
  {
    var k :| OccursAt(s, part, k);
    assert (t + s)[|t| + k..|t| + k + |part|] == s[k..k + |part|];
    assert OccursAt(t + s, part, |t| + k);
  }

  /** Occurrence is transitive: a part of a part of `text` is a part of `text`. */
  lemma ContainsTransitive(text: string, mid: string, part: string)
    requires Contains(text, mid) && Contains(mid, part)
    ensures Contains(text, part)
  {
    var k :| OccursAt(text, mid, k);
    var j :| OccursAt(mid, part, j);
    forall t | 0 <= t < |part|
      ensures text[k + j + t] == part[t]
    {
      assert part[t] == mid[j..j + |part|][t] == mid[j + t];
      assert mid[j + t] == text[k..k + |mid|][j + t] == text[k + j + t];
    }
    assert text[k + j..k + j + |part|] == part;
    assert OccursAt(text, part, k + j);
  }

  /** Every item of a joined list occurs in the joined text. */
  lemma {:induction false} JoinContains(xs: seq<string>, sep: string, i: nat)
    requires i < |xs|
    ensures Contains(Join(xs, sep), xs[i])
  {
    if |xs| == 1 {
      ContainsSelf(xs[0]);
    } else if i == 0 {
      ContainsSelf(xs[0]);
      ContainsInMiddle("", xs[0], sep + Join(xs[1..], sep), xs[0]);
      assert "" + xs[0] + (sep + Join(xs[1..], sep)) == Join(xs, sep);
    } else {
      JoinContains(xs[1..], sep, i - 1);
      ContainsInMiddle(xs[0] + sep, Join(xs[1..], sep), "", xs[i]);
      assert xs[0] + sep + Join(xs[1..], sep) + "" == Join(xs, sep);
    }
  }
}
