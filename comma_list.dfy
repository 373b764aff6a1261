/**
 * Comma-separated lists of custom-model specs, as JavaScript builds them with
 * `Array.prototype.join(",")` and reads them back with `String.prototype.split(",")`.
 */
module CommaList {

  const Comma: char := ','

  /** `parts.join(sep)`: the parts in order with `sep` between neighbours; `[]` joins to "". */
  function Join(parts: seq<string>, sep: string): (r: string)
    ensures |parts| == 1 ==> r == parts[0]
    ensures |parts| >= 1 ==> |parts[0]| <= |r| && r[..|parts[0]|] == parts[0]
  {
    if |parts| == 0 then ""
    else if |parts| == 1 then parts[0]
    else parts[0] + sep + Join(parts[1..], sep)
  }

  /** `s.split(",")`: the maximal comma-free segments of `s`, in order; never empty. */
  function Split(s: string): (r: seq<string>)
    ensures |r| >= 1
    ensures Comma !in s ==> r == [s]
  {
    if |s| == 0 then [""]
    else if s[0] == Comma then [""] + Split(s[1..])
    else
      var rest := Split(s[1..]);
      assert s == [s[0]] + s[1..];
      [[s[0]] + rest[0]] + rest[1..]
  }

  /** The two-element join puts exactly one separator between the elements, even when either is empty. */
  lemma JoinPair(a: string, b: string, sep: string)
    ensures Join([a, b], sep) == a + sep + b
    ensures |Join([a, b], sep)| == |a| + |sep| + |b|
  {
  }

  /** Splitting `a + "," + b` gives the segments of `a` followed by those of `b`. */
  lemma {:induction false} SplitAppend(a: string, b: string)
    ensures Split(a + [Comma] + b) == Split(a) + Split(b)
  {
    if |a| == 0 {
      assert a + [Comma] + b == [Comma] + b;
      assert ([Comma] + b)[1..] == b;
    } else {
      var s := a + [Comma] + b;
      assert s[0] == a[0];
      assert s[1..] == a[1..] + [Comma] + b;
      SplitAppend(a[1..], b);
    }
  }

  /** Joining the segments of `s` with commas gives `s` back. */
  lemma {:induction false} JoinSplit(s: string)
    ensures Join(Split(s), [Comma]) == s
  {
    if |s| == 0 {
    } else if s[0] == Comma {
      JoinSplit(s[1..]);
      var rest := Split(s[1..]);
      assert ([""] + rest)[1..] == rest;
      assert s == [Comma] + s[1..];
    } else {
      JoinSplit(s[1..]);
      var rest := Split(s[1..]);
      var r := Split(s);
      assert r == [[s[0]] + rest[0]] + rest[1..];
      if |rest| == 1 {
        assert rest == [s[1..]];
        assert s == [s[0]] + s[1..];
      } else {
        assert r[1..] == rest[1..];
        assert Join(rest, [Comma]) == rest[0] + [Comma] + Join(rest[1..], [Comma]);
        assert s == [s[0]] + s[1..];
      }
    }
  }

  /** Splitting a comma-join of comma-free parts gives the parts back. */
  lemma {:induction false} SplitJoin(parts: seq<string>)
    requires |parts| >= 1
    requires forall i :: 0 <= i < |parts| ==> Comma !in parts[i]
    ensures Split(Join(parts, [Comma])) == parts
  {
    if |parts| > 1 {
      SplitJoin(parts[1..]);
      SplitAppend(parts[0], Join(parts[1..], [Comma]));
      assert parts == [parts[0]] + parts[1..];
    }
  }
}
