/** Go's `strings.Join`, over strings of any element type (bytes, for Go strings). */
module Strings {

  /** The total length of all elements. */
  function TotalLength<T>(elems: seq<seq<T>>): nat {
    if elems == [] then 0 else |elems[0]| + TotalLength(elems[1..])
  }

  /** The elements with `sep` between each neighbouring pair: none before the first
      and none after the last. */
  function Join<T>(elems: seq<seq<T>>, sep: seq<T>): (r: seq<T>)
    ensures elems == [] ==> r == []
    ensures elems != [] ==> elems[0] <= r
  {
    if |elems| == 0 then []
    else if |elems| == 1 then elems[0]
    else elems[0] + sep + Join(elems[1..], sep)
  }

  /** The joined string holds all of the elements and one separator for each
      neighbouring pair. */
  lemma {:induction false} JoinLength<T>(elems: seq<seq<T>>, sep: seq<T>)
    ensures elems == [] ==> Join(elems, sep) == []
    ensures elems != [] ==> |Join(elems, sep)| + |sep| == TotalLength(elems) + |elems| * |sep|
    decreases |elems|
  {
    if |elems| > 1 {
      JoinLength(elems[1..], sep);
      assert |elems| * |sep| == (|elems| - 1) * |sep| + |sep|;
    }
  }

  /** Where element `i` starts in `Join(elems, sep)`. */
  function Offset<T>(elems: seq<seq<T>>, sep: seq<T>, i: nat): nat
    requires i <= |elems|
  {
    if i == 0 then 0 else |elems[0]| + |sep| + Offset(elems[1..], sep, i - 1)
  }

  /** Joining one more element appends the separator and that element, as the
      left-to-right build of `strings.Join` does. */
  lemma {:induction false} JoinAppend<T>(elems: seq<seq<T>>, sep: seq<T>, last: seq<T>)
    requires elems != []
    ensures Join(elems + [last], sep) == Join(elems, sep) + sep + last
    decreases |elems|
  {
    if |elems| > 1 {
      assert (elems + [last])[1..] == elems[1..] + [last];
      JoinAppend(elems[1..], sep, last);
    }
  }

  /** A slice that lies wholly in the second part of a concatenation. */
  lemma SliceOfSuffix<T>(a: seq<T>, b: seq<T>, lo: nat, hi: nat)
    requires |a| <= lo <= hi <= |a| + |b|
    ensures (a + b)[lo..hi] == b[lo - |a|..hi - |a|]
  {
  }

  /** Every element occurs verbatim in the joined string at its offset, and the last
      one ends the string. */
  lemma {:induction false} ElementInJoin<T>(elems: seq<seq<T>>, sep: seq<T>, i: nat)
    requires i < |elems|
    ensures Offset(elems, sep, i) + |elems[i]| <= |Join(elems, sep)|
    ensures Join(elems, sep)[Offset(elems, sep, i)..Offset(elems, sep, i) + |elems[i]|] == elems[i]
    ensures i + 1 == |elems| ==> Offset(elems, sep, i) + |elems[i]| == |Join(elems, sep)|
    decreases |elems|
  {
    if |elems| == 1 {
      assert Join(elems, sep)[0..|elems[0]|] == elems[0];
    } else {
      var head, rest := elems[0] + sep, elems[1..];
      var j := Join(rest, sep);
      assert Join(elems, sep) == head + j;
      if i == 0 {
        assert (head + j)[0..|elems[0]|] == elems[0];
      } else {
        ElementInJoin(rest, sep, i - 1);
        var o := Offset(rest, sep, i - 1);
        assert rest[i - 1] == elems[i];
        assert Offset(elems, sep, i) == |head| + o;
        SliceOfSuffix(head, j, |head| + o, |head| + o + |elems[i]|);
        assert |Join(elems, sep)| == |head| + |j|;
        assert i + 1 == |elems| ==> i - 1 + 1 == |rest|;
        assert (head + j)[|head| + o..|head| + o + |elems[i]|] == elems[i];
      }
    }
  }

  /** Between element `i` and element `i + 1` stands exactly one separator. */
  lemma {:induction false} SeparatorInJoin<T>(elems: seq<seq<T>>, sep: seq<T>, i: nat)
    requires i + 1 < |elems|
    ensures Offset(elems, sep, i + 1) == Offset(elems, sep, i) + |elems[i]| + |sep|
    ensures Offset(elems, sep, i + 1) <= |Join(elems, sep)|
    ensures Join(elems, sep)[Offset(elems, sep, i) + |elems[i]|..Offset(elems, sep, i + 1)] == sep
    decreases |elems|
  {
    var head, rest := elems[0] + sep, elems[1..];
    var j := Join(rest, sep);
    assert Join(elems, sep) == head + j;
    if i == 0 {
      assert Offset(elems, sep, 1) == |head|;
      assert (head + j)[|elems[0]|..|head|] == sep;
    } else {
      SeparatorInJoin(rest, sep, i - 1);
      var o, o' := Offset(rest, sep, i - 1), Offset(rest, sep, i);
      assert rest[i - 1] == elems[i];
      assert Offset(elems, sep, i) == |head| + o;
      assert Offset(elems, sep, i + 1) == |head| + o';
      SliceOfSuffix(head, j, |head| + o + |elems[i]|, |head| + o');
      assert (head + j)[|head| + o + |elems[i]|..|head| + o'] == sep;
    }
  }
}
