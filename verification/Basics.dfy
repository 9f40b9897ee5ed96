/** Small vocabulary shared by the component models. */
module Basics {

  newtype byte = x: int | 0 <= x < 256

  datatype Option<+T> = None | Some(value: T)

  predicate LowerHex(c: char) {
    '0' <= c <= '9' || 'a' <= c <= 'f'
  }

  /** The canonical lower-case form of a UUID other than the nil one. */
  predicate CanonicalUuid(id: string) {
    && |id| == 36
    && (forall i :: 0 <= i < 36 ==> if i in {8, 13, 18, 23} then id[i] == '-' else LowerHex(id[i]))
    && (exists i :: 0 <= i < 36 && id[i] != '0' && id[i] != '-')
  }

  /** The pieces joined end to end. */
  function Concat<T>(pieces: seq<seq<T>>): seq<T> {
    if pieces == [] then [] else pieces[0] + Concat(pieces[1..])
  }

  lemma {:induction false} ConcatSplits<T>(a: seq<seq<T>>, b: seq<seq<T>>)
    ensures Concat(a + b) == Concat(a) + Concat(b)
  {
    if a == [] {
      assert a + b == b;
    } else {
      assert (a + b)[1..] == a[1..] + b;
      ConcatSplits(a[1..], b);
    }
  }

  lemma ConcatSnoc<T>(a: seq<seq<T>>, last: seq<T>)
    ensures Concat(a + [last]) == Concat(a) + last
  {
    ConcatSplits(a, [last]);
    assert Concat([last]) == last + Concat([last][1..]);
  }

  /** The distinct elements of a sequence. */
  function Elements<T>(s: seq<T>): set<T> {
    set x | x in s
  }

  predicate Distinct<T(==)>(s: seq<T>) {
    forall i, j :: 0 <= i < j < |s| ==> s[i] != s[j]
  }

  /** A sequence holds at most as many distinct elements as its length, and exactly that many when none repeats. */
  lemma {:induction false} ElementsSize<T>(s: seq<T>)
    ensures |Elements(s)| <= |s|
    ensures |Elements(s)| == |s| <==> Distinct(s)
  {
    if s == [] {
      assert Elements(s) == {};
    } else {
      var front, last := s[..|s| - 1], s[|s| - 1];
      ElementsSize(front);
      assert s == front + [last];
      if last in front {
        assert Elements(s) == Elements(front);
        assert !Distinct(s) by {
          var i :| 0 <= i < |front| && front[i] == last;
          assert s[i] == s[|s| - 1];
        }
      } else {
        assert Elements(s) == Elements(front) + {last};
        assert Distinct(s) <==> Distinct(front) by {
          if Distinct(s) {
            forall i, j | 0 <= i < j < |front| ensures front[i] != front[j] {
              assert front[i] == s[i] && front[j] == s[j];
            }
          }
          if Distinct(front) {
            forall i, j | 0 <= i < j < |s| ensures s[i] != s[j] {
              if j < |front| {
                assert front[i] == s[i] && front[j] == s[j];
              } else {
                assert s[i] == front[i] && front[i] in front;
              }
            }
          }
        }
      }
    }
  }

  /** A subset as large as the whole is the whole. */
  lemma {:induction false} FullSubset<T>(small: set<T>, large: set<T>)
    requires small <= large && |small| >= |large|
    ensures small == large
  {
    if x :| x in large && x !in small {
      SubsetSize(small, large - {x});
    }
  }

  lemma {:induction false} SubsetSize<T>(small: set<T>, large: set<T>)
    requires small <= large
    ensures |small| <= |large|
  {
    if small != {} {
      var x :| x in small;
      SubsetSize(small - {x}, large - {x});
    }
  }
}
