/** Joining a sequence of strings with a delimiter between consecutive items,
    and the facts about the result that the properties serialiser relies on. */
module Joining {

  /** The delimiter the log sink writes between two serialised properties. */
  const CommaDelimiter: string := ","

  /** `xs[0] + sep + xs[1] + sep + ... + xs[|xs| - 1]`; the empty string for no items. */
  function Join(sep: string, xs: seq<string>): string
  {
    if |xs| == 0 then ""
    else if |xs| == 1 then xs[0]
    else xs[0] + sep + Join(sep, xs[1..])
  }

  /** Total length of the items, delimiters not counted. */
  function TotalLength(xs: seq<string>): nat
  {
    if |xs| == 0 then 0 else |xs[0]| + TotalLength(xs[1..])
  }

  /** Adding an item at the end of a non-empty list adds exactly one delimiter
      and then the item: the step the delimiter loop of the serialiser takes. */
  lemma {:induction false} JoinSnoc(sep: string, xs: seq<string>, x: string)
    requires |xs| > 0
    ensures Join(sep, xs + [x]) == Join(sep, xs) + sep + x
  {
    if |xs| == 1 {
      assert (xs + [x])[1..] == [x];
    } else {
      assert (xs + [x])[1..] == xs[1..] + [x];
      JoinSnoc(sep, xs[1..], x);
    }
  }

  /** Joining two non-empty lists puts exactly one delimiter at the seam. */
  lemma {:induction false} JoinAppend(sep: string, xs: seq<string>, ys: seq<string>)
    requires |xs| > 0 && |ys| > 0
    ensures Join(sep, xs + ys) == Join(sep, xs) + sep + Join(sep, ys)
  {
    if |xs| == 1 {
      assert (xs + ys)[1..] == ys;
    } else {
      assert (xs + ys)[1..] == xs[1..] + ys;
      JoinAppend(sep, xs[1..], ys);
    }
  }

  /** The joined string is as long as its items plus one delimiter per gap. */
  lemma {:induction false} JoinLength(sep: string, xs: seq<string>)
    ensures |xs| > 0 ==> |Join(sep, xs)| == TotalLength(xs) + (|xs| - 1) * |sep|
    ensures |xs| == 0 ==> Join(sep, xs) == ""
  {
    if |xs| > 1 {
      JoinLength(sep, xs[1..]);
    }
  }

  /** Where item `i` starts inside `Join(sep, xs)`. */
  function ItemOffset(sep: string, xs: seq<string>, i: nat): nat
    requires i < |xs|
  {
    if i == 0 then 0 else |Join(sep, xs[..i])| + |sep|
  }

  /** The join of the first `k` items is a prefix of the join of all items. */
  lemma JoinPrefix(sep: string, xs: seq<string>, k: nat)
    requires 0 < k <= |xs|
    ensures exists rest :: Join(sep, xs) == Join(sep, xs[..k]) + rest
  {
    if k < |xs| {
      JoinAppend(sep, xs[..k], xs[k..]);
      assert xs[..k] + xs[k..] == xs;
      assert Join(sep, xs) == Join(sep, xs[..k]) + (sep + Join(sep, xs[k..]));
    } else {
      assert xs[..k] == xs;
      assert Join(sep, xs) == Join(sep, xs[..k]) + "";
    }
  }

  /** Every item occurs, unchanged and in list order, at its offset, and every
      item but the first is preceded by exactly the delimiter. */
  lemma JoinItemAt(sep: string, xs: seq<string>, i: nat)
    requires i < |xs|
    ensures ItemOffset(sep, xs, i) + |xs[i]| <= |Join(sep, xs)|
    ensures Join(sep, xs)[ItemOffset(sep, xs, i) .. ItemOffset(sep, xs, i) + |xs[i]|] == xs[i]
    ensures i > 0 ==> Join(sep, xs)[ItemOffset(sep, xs, i) - |sep| .. ItemOffset(sep, xs, i)] == sep
  {
    var whole := Join(sep, xs);
    var off := ItemOffset(sep, xs, i);
    JoinPrefix(sep, xs, i + 1);
    var rest :| whole == Join(sep, xs[..i + 1]) + rest;
    if i == 0 {
      assert Join(sep, xs[..1]) == xs[0];
      assert whole == xs[0] + rest;
    } else {
      var before := Join(sep, xs[..i]);
      assert xs[..i + 1] == xs[..i] + [xs[i]];
      JoinSnoc(sep, xs[..i], xs[i]);
      assert whole == before + sep + xs[i] + rest;
      assert off == |before| + |sep|;
    }
  }
}
