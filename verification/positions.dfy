/** Positional list updates as the store performs them: append at the end,
    and delete by filtering on position. */
module Positions {

  /** `after` is `before` with exactly `x` added at the end. */
  ghost predicate Appended<T>(before: seq<T>, after: seq<T>, x: T) {
    && |after| == |before| + 1
    && after[..|before|] == before
    && after[|before|] == x
  }

  /** Keeps every element whose position differs from `index`, where the
      first element of `s` sits at position `from` — the shape of
      `list.filter((_, i) => i !== index)`. */
  function KeepOthers<T>(s: seq<T>, index: int, from: int): (r: seq<T>)
    ensures |r| == if from <= index < from + |s| then |s| - 1 else |s|
    decreases |s|
  {
    if s == [] then []
    else (if from != index then [s[0]] else []) + KeepOthers(s[1..], index, from + 1)
  }

  /** The position filter is a splice: it removes exactly the element at
      `index - from` when that position exists, and nothing otherwise. */
  lemma {:induction false} KeepOthersSplices<T>(s: seq<T>, index: int, from: int)
    ensures from <= index < from + |s| ==>
              KeepOthers(s, index, from) == s[..index - from] + s[index - from + 1..]
    ensures !(from <= index < from + |s|) ==> KeepOthers(s, index, from) == s
    decreases |s|
  {
    if s != [] {
      KeepOthersSplices(s[1..], index, from + 1);
      if from == index {
        assert s[..0] + s[1..] == s[1..];
      } else if from < index < from + |s| {
        calc {
          KeepOthers(s, index, from);
          [s[0]] + KeepOthers(s[1..], index, from + 1);
          [s[0]] + (s[1..][..index - from - 1] + s[1..][index - from..]);
          { assert [s[0]] + s[1..][..index - from - 1] == s[..index - from]; }
          s[..index - from] + s[index - from + 1..];
        }
      } else {
        assert [s[0]] + s[1..] == s;
      }
    }
  }

  /** Deletes the element at `index`; an index outside the list deletes nothing. */
  function RemoveAt<T>(s: seq<T>, index: int): (r: seq<T>)
    ensures 0 <= index < |s| ==> |r| == |s| - 1
    ensures 0 <= index < |s| ==> forall j :: 0 <= j < index ==> r[j] == s[j]
    ensures 0 <= index < |s| ==> forall j :: index <= j < |r| ==> r[j] == s[j + 1]
    ensures !(0 <= index < |s|) ==> r == s
  {
    KeepOthersSplices(s, index, 0);
    KeepOthers(s, index, 0)
  }

  /** Every element that survives a deletion was in the list before. */
  lemma RemoveAtSubset<T>(s: seq<T>, index: int)
    ensures forall x :: x in RemoveAt(s, index) ==> x in s
  {
    var r := RemoveAt(s, index);
    forall x | x in r
      ensures x in s
    {
      var j :| 0 <= j < |r| && r[j] == x;
      if 0 <= index < |s| && index <= j {
        assert s[j + 1] == x;
      }
    }
  }
}
