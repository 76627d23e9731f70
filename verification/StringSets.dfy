/** Lists of strings compared by way of sets of strings: sizes, membership, and what they say about the lists. */
module StringSets {

  function SetOf(values: seq<string>): set<string> {
    set v | v in values
  }

  lemma {:induction false} SetOfSize(values: seq<string>)
    ensures |SetOf(values)| <= |values|
    ensures |SetOf(values)| == |values| <==> forall v :: v in values ==> multiset(values)[v] == 1
  {
    if values == [] {
    } else {
      var last, rest := values[|values| - 1], values[..|values| - 1];
      assert values == rest + [last];
      SetOfSize(rest);
      assert multiset(values) == multiset(rest) + multiset{last};
      assert SetOf(values) == SetOf(rest) + {last};
      if last in rest {
        assert SetOf(values) == SetOf(rest);
        assert multiset(values)[last] >= 2;
      } else {
        assert |SetOf(values)| == |SetOf(rest)| + 1;
        assert multiset(rest)[last] == 0;
        if |SetOf(values)| == |values| {
          forall v | v in values ensures multiset(values)[v] == 1 {
            if v != last { assert v in rest; }
          }
        }
        if forall v :: v in values ==> multiset(values)[v] == 1 {
          forall v | v in rest ensures multiset(rest)[v] == 1 {
            assert v in values && v != last;
          }
        }
      }
    }
  }

  lemma SubsetOfSameSize(small: set<string>, big: set<string>)
    requires small <= big && |small| == |big|
    ensures small == big
  {
    assert big == small + (big - small);
    assert |big| == |small| + |big - small|;
  }

  predicate NoneTwice(values: seq<string>) {
    forall i, j :: 0 <= i < j < |values| ==> values[i] != values[j]
  }

  lemma NoneTwiceStep(rest: seq<string>, last: string)
    ensures NoneTwice(rest + [last]) <==> NoneTwice(rest) && last !in rest
  {
    var all := rest + [last];
    assert all[|rest|] == last && forall i :: 0 <= i < |rest| ==> all[i] == rest[i];
    if NoneTwice(all) {
      forall i | 0 <= i < |rest| ensures rest[i] != last { assert all[i] != all[|rest|]; }
    }
  }

  /** A set of the values is as large as their list exactly when none occurs twice. */
  lemma {:induction false} SizeMeansNoneTwice(values: seq<string>)
    ensures |SetOf(values)| == |values| <==> NoneTwice(values)
  {
    if values != [] {
      var last, rest := values[|values| - 1], values[..|values| - 1];
      assert values == rest + [last];
      SizeMeansNoneTwice(rest);
      SetOfSize(rest);
      NoneTwiceStep(rest, last);
      assert SetOf(values) == SetOf(rest) + {last};
      if last in rest { assert SetOf(values) == SetOf(rest); }
    }
  }

  lemma SamePlainSets(actual: seq<string>, expected: seq<string>)
    requires NoneTwice(expected) && |actual| == |expected| && forall v :: v in expected ==> v in actual
    ensures multiset(actual) == multiset(expected)
  {
    SizeMeansNoneTwice(expected);
    SetOfSize(actual);
    SetOfSize(expected);
    SubsetOfSize(SetOf(expected), SetOf(actual));
    SubsetOfSameSize(SetOf(expected), SetOf(actual));
    forall v ensures multiset(actual)[v] == multiset(expected)[v] {
      assert v in actual <==> v in SetOf(actual);
      assert v in expected <==> v in SetOf(expected);
    }
  }

  lemma SubsetOfSize(small: set<string>, big: set<string>)
    requires small <= big
    ensures |small| <= |big|
  {
    assert big == small + (big - small);
    assert |big| == |small| + |big - small|;
  }

  /** As many values, and every expected one among them: exactly the reorderings of the expected values. */
  lemma SameLengthAndMembers(actual: seq<string>, expected: seq<string>)
    requires NoneTwice(expected)
    ensures |actual| == |expected| && (forall v :: v in expected ==> v in actual)
       <==> multiset(actual) == multiset(expected)
  {
    if |actual| == |expected| && forall v :: v in expected ==> v in actual {
      SamePlainSets(actual, expected);
    }
    if multiset(actual) == multiset(expected) {
      assert |multiset(actual)| == |actual| && |multiset(expected)| == |expected|;
      forall v | v in expected ensures v in actual { assert v in multiset(expected); }
    }
  }

  // ----------------------------------------------------------------------------------- a string outside a finite set

  function Strokes(n: nat, c: char): string { seq(n, _ => c) }

  lemma {:induction false} StrokesCount(n: nat)
    ensures |set i | 0 <= i < n :: Strokes(i, 'x')| == n
  {
    if n > 0 {
      StrokesCount(n - 1);
      var fewer := set i | 0 <= i < n - 1 :: Strokes(i, 'x');
      assert (set i | 0 <= i < n :: Strokes(i, 'x')) == fewer + {Strokes(n - 1, 'x')};
      assert Strokes(n - 1, 'x') !in fewer by {
        assert forall s :: s in fewer ==> |s| < n - 1;
      }
    }
  }

  lemma LargerIsNotWithin(large: set<string>, small: set<string>)
    requires |large| > |small|
    ensures exists s :: s in large && s !in small
  {
    assert large == (large * small) + (large - small);
    assert small == (large * small) + (small - large);
    if large - small == {} { assert false; }
    var s :| s in large - small;
  }

  /** Among one more strings than a set holds, some string is not in it. */
  lemma SomeUnused(taken: set<string>)
    ensures exists n :: 0 <= n <= |taken| && Strokes(n, 'x') !in taken
  {
    var all := set i | 0 <= i < |taken| + 1 :: Strokes(i, 'x');
    StrokesCount(|taken| + 1);
    LargerIsNotWithin(all, taken);
    var s :| s in all && s !in taken;
  }

  method Unused(taken: set<string>) returns (s: string)
    ensures s !in taken
  {
    SomeUnused(taken);
    var n :| 0 <= n <= |taken| && Strokes(n, 'x') !in taken;
    s := Strokes(n, 'x');
  }
}
