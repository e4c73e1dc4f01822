/** The key order of a Python dict: keys in insertion order, each once. */
module OrderedKeys {

  /** No key occurs twice. */
  ghost predicate Distinct(s: seq<string>) {
    forall i, j :: 0 <= i < j < |s| ==> s[i] != s[j]
  }

  lemma DistinctCons(x: string, t: seq<string>)
    ensures x !in t && Distinct(t) ==> Distinct([x] + t)
  {
    if x !in t && Distinct(t) {
      forall i, j | 0 <= i < j < |[x] + t| ensures ([x] + t)[i] != ([x] + t)[j] {
        if i > 0 {
          assert ([x] + t)[i] == t[i - 1] && ([x] + t)[j] == t[j - 1];
        } else {
          assert ([x] + t)[j] == t[j - 1];
        }
      }
    }
  }

  /** A key list without repeats is as long as its set of keys. */
  lemma {:induction false} DistinctCard(s: seq<string>)
    requires Distinct(s)
    ensures |set k | k in s| == |s|
  {
    if s != [] {
      var t, x := s[..|s| - 1], s[|s| - 1];
      assert s == t + [x];
      assert Distinct(t);
      DistinctCard(t);
      assert x !in t;
      assert (set k | k in s) == (set k | k in t) + {x};
    }
  }

  /** `r` is `s` with its element at `i`, which is `x`, taken out. */
  predicate RemovedAt(s: seq<string>, i: int, x: string, r: seq<string>) {
    0 <= i < |s| && s[i] == x && r == s[..i] + s[i + 1..]
  }

  lemma RemovedAtCons(y: string, t: seq<string>, j: int, x: string, rest: seq<string>)
    requires RemovedAt(t, j, x, rest)
    ensures RemovedAt([y] + t, j + 1, x, [y] + rest)
  {
    var s := [y] + t;
    assert s[..j + 1] == [y] + t[..j];
    assert s[j + 2..] == t[j + 1..];
  }

  /** `s` with `x` deleted, the order of the rest kept. */
  function Without(s: seq<string>, x: string): (r: seq<string>)
    ensures forall y :: y in r <==> y in s && y != x
    ensures Distinct(s) ==> Distinct(r)
    ensures x !in s ==> r == s
    ensures Distinct(s) && x in s ==> exists i :: RemovedAt(s, i, x, r)
  {
    if s == [] then []
    else
      var rest := Without(s[1..], x);
      assert Distinct(s) ==> s[0] !in s[1..] && Distinct(s[1..]);
      if s[0] == x then
        assert Distinct(s) ==> RemovedAt(s, 0, x, rest);
        rest
      else
        DistinctCons(s[0], rest);
        assert s == [s[0]] + s[1..];
        assert Distinct(s) && x in s ==> exists i :: RemovedAt(s, i, x, [s[0]] + rest) by {
          if Distinct(s) && x in s {
            var j :| RemovedAt(s[1..], j, x, rest);
            RemovedAtCons(s[0], s[1..], j, x, rest);
          }
        }
        [s[0]] + rest
  }
}
