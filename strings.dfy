/**
 * JavaScript's `Array.prototype.join` on an array of strings: the elements in
 * order, with the separator between each pair of neighbours, and the empty
 * string for an empty array.
 */
module Strings {

  /** The joined string holds every part and one separator between each pair of neighbours. */
  function Join(parts: seq<string>, sep: string): (r: string)
    ensures |parts| == 0 ==> r == ""
    ensures |parts| > 0 ==> |r| + |sep| == Offset(parts, sep, |parts|)
  {
    if |parts| == 0 then ""
    else if |parts| == 1 then parts[0]
    else parts[0] + sep + Join(parts[1..], sep)
  }

  /** Where `parts[i]` begins in `Join(parts, sep)`: every earlier part with its separator. */
  function Offset(parts: seq<string>, sep: string, i: nat): nat
    requires i <= |parts|
  {
    if i == 0 then 0 else |parts[0]| + |sep| + Offset(parts[1..], sep, i - 1)
  }

  /** The two short cases: no parts give "", one part gives that part unchanged. */
  lemma JoinShort(parts: seq<string>, sep: string)
    ensures |parts| == 0 ==> Join(parts, sep) == ""
    ensures |parts| == 1 ==> Join(parts, sep) == parts[0]
  {
  }

  /**
   * The layout of a join around part `i`: the part sits at
   * `Offset(parts, sep, i)`, the separator fills the gap up to the next part,
   * and the last part ends the string.
   */
  ghost predicate LaidOut(parts: seq<string>, sep: string, i: nat)
    requires i < |parts|
  {
    var j, o := Join(parts, sep), Offset(parts, sep, i);
    && o + |parts[i]| <= |j|
    && j[o..o + |parts[i]|] == parts[i]
    && (i + 1 < |parts| ==>
          && Offset(parts, sep, i + 1) == o + |parts[i]| + |sep|
          && Offset(parts, sep, i + 1) <= |j|
          && j[o + |parts[i]|..Offset(parts, sep, i + 1)] == sep)
    && (i + 1 == |parts| ==> o + |parts[i]| == |j|)
  }

  /** Every part of a join is laid out at its offset; together these determine the joined string. */
  lemma {:induction false} JoinAt(parts: seq<string>, sep: string, i: nat)
    requires i < |parts|
    ensures LaidOut(parts, sep, i)
  {
    if |parts| > 1 {
      if i == 0 {
        FirstLaidOut(parts, sep);
      } else {
        JoinAt(parts[1..], sep, i - 1);
        LaidOutShift(parts, sep, i);
      }
    }
  }

  /** The first of several parts begins the join and is followed by the separator. */
  lemma FirstLaidOut(parts: seq<string>, sep: string)
    requires |parts| > 1
    ensures LaidOut(parts, sep, 0)
  {
    var j, head := Join(parts, sep), parts[0] + sep;
    assert j == head + Join(parts[1..], sep);
    assert Offset(parts[1..], sep, 0) == 0;
    assert j[..|parts[0]|] == parts[0];
    assert j[|parts[0]|..|head|] == sep;
  }

  /** The layout of the join of the tail, shifted by the first part and a separator. */
  lemma LaidOutShift(parts: seq<string>, sep: string, i: nat)
    requires 0 < i < |parts|
    requires LaidOut(parts[1..], sep, i - 1)
    ensures LaidOut(parts, sep, i)
  {
    var rest, head := parts[1..], parts[0] + sep;
    var j := Join(parts, sep);
    assert j == head + Join(rest, sep);
    assert rest[i - 1] == parts[i];
    var o := Offset(rest, sep, i - 1);
    assert Offset(parts, sep, i) == |head| + o;
    assert j[|head| + o..|head| + o + |parts[i]|] == Join(rest, sep)[o..o + |parts[i]|];
    if i + 1 < |parts| {
      var o' := Offset(rest, sep, i);
      assert Offset(parts, sep, i + 1) == |head| + o';
      assert j[|head| + o + |parts[i]|..|head| + o'] == Join(rest, sep)[o + |parts[i]|..o'];
    }
  }

  /**
   * Appending one part extends the join by a separator and that part: the
   * left-to-right accumulation by which the language standard defines `join`.
   */
  lemma {:induction false} JoinAppend(parts: seq<string>, last: string, sep: string)
    requires |parts| > 0
    ensures Join(parts + [last], sep) == Join(parts, sep) + sep + last
  {
    if |parts| == 1 {
      assert parts + [last] == [parts[0], last];
      assert Join([last], sep) == last;
    } else {
      assert (parts + [last])[1..] == parts[1..] + [last];
      JoinAppend(parts[1..], last, sep);
    }
  }
}
