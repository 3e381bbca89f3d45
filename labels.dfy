/** The distinct class labels of a trial labelling, in the sorted order np.unique yields. */
module Labels {
  import opened Types

  ghost predicate StrictlyIncreasing(s: seq<Label>)
  {
    forall i, j :: 0 <= i < j < |s| ==> s[i] < s[j]
  }

  /** The set of labels that occur in a labelling. */
  function Classes(cl: seq<Label>): set<Label>
  {
    set c | c in cl
  }

  /** Puts x into its place in a strictly increasing sequence (no-op when it is there). */
  function Insert(x: Label, s: seq<Label>): (r: seq<Label>)
    requires StrictlyIncreasing(s)
    ensures StrictlyIncreasing(r)
    ensures Classes(r) == Classes(s) + {x}
  {
    if s == [] then [x]
    else if x < s[0] then [x] + s
    else if x == s[0] then s
    else
      assert Classes(s) == {s[0]} + Classes(s[1..]) by { assert s == [s[0]] + s[1..]; }
      var rest := Insert(x, s[1..]);
      assert forall k :: 0 <= k < |rest| ==> s[0] < rest[k] by {
        forall k | 0 <= k < |rest| ensures s[0] < rest[k] {
          assert rest[k] in Classes(rest);
        }
      }
      assert Classes([s[0]] + rest) == {s[0]} + Classes(rest) by {
        assert forall c :: c in [s[0]] + rest <==> c == s[0] || c in rest;
      }
      [s[0]] + rest
  }

  /** np.unique(cl): every label that occurs, once each, in increasing order. */
  function Unique(cl: seq<Label>): (r: seq<Label>)
    ensures StrictlyIncreasing(r)
    ensures Classes(r) == Classes(cl)
  {
    if cl == [] then []
    else
      assert Classes(cl) == Classes(cl[1..]) + {cl[0]} by { assert cl == [cl[0]] + cl[1..]; }
      Insert(cl[0], Unique(cl[1..]))
  }

  /** np.unique never repeats a label, so it lists exactly |Classes(cl)| of them. */
  lemma {:induction false} UniqueIsDuplicateFree(cl: seq<Label>)
    ensures forall i, j :: 0 <= i < j < |Unique(cl)| ==> Unique(cl)[i] != Unique(cl)[j]
    ensures |Unique(cl)| == |Classes(cl)|
  {
    var u := Unique(cl);
    DistinctCardinality(u);
  }

  /** A strictly increasing sequence has as many elements as its set. */
  lemma {:induction false} DistinctCardinality(u: seq<Label>)
    requires StrictlyIncreasing(u)
    ensures |Classes(u)| == |u|
  {
    if u != [] {
      assert StrictlyIncreasing(u[1..]);
      DistinctCardinality(u[1..]);
      assert Classes(u) == {u[0]} + Classes(u[1..]) by { assert u == [u[0]] + u[1..]; }
      assert u[0] !in Classes(u[1..]);
    }
  }

  /** The labels of a prefix of u, one more at a time: the step of a loop over np.unique. */
  lemma PrefixClassesStep(u: seq<Label>, j: nat)
    requires j < |u|
    ensures Classes(u[..j + 1]) == Classes(u[..j]) + {u[j]}
  {
    assert u[..j + 1] == u[..j] + [u[j]];
  }
}
