/** The assembler's sparse output: a map from address to byte (the
    `output_dict` of pyasm6502/assembler.py), and Python's `sorted` over its
    addresses. */
module Memory {
  import opened Bits

  type Mem = map<int, Byte>

  predicate StrictlyIncreasing(s: seq<int>)
  {
    forall i, j :: 0 <= i < j < |s| ==> s[i] < s[j]
  }

  lemma HasElement(s: set<int>)
    requires s != {}
    ensures exists m :: m in s
  {
    if forall m :: m !in s {
      assert false;
    }
  }

  lemma {:induction false} MinExists(s: set<int>)
    requires s != {}
    ensures exists m :: m in s && forall x :: x in s ==> m <= x
    decreases |s|
  {
    HasElement(s);
    var y :| y in s;
    var t := s - {y};
    if forall x :: x in s ==> x == y {
      assert forall x :: x in s ==> y <= x;
    } else {
      var z :| z in s && z != y;
      assert z in t;
      MinExists(t);
      var m :| m in t && forall x :: x in t ==> m <= x;
      if y < m {
        assert forall x :: x in s ==> y <= x by {
          forall x | x in s ensures y <= x { if x != y { assert x in t; } }
        }
      } else {
        assert forall x :: x in s ==> m <= x by {
          forall x | x in s ensures m <= x { if x != y { assert x in t; } }
        }
      }
    }
  }

  /** The least element of a non-empty set. */
  function Min(s: set<int>): (m: int)
    requires s != {}
    ensures m in s && forall x :: x in s ==> m <= x
  {
    MinExists(s);
    var m :| m in s && forall x :: x in s ==> m <= x;
    m
  }

  /** Python `sorted(s)`: the elements of a set in ascending order. */
  function Sorted(s: set<int>): (r: seq<int>)
    ensures StrictlyIncreasing(r)
    ensures |r| == |s|
    ensures forall x :: x in r <==> x in s
    decreases |s|
  {
    if s == {} then []
    else
      var m := Min(s);
      [m] + Sorted(s - {m})
  }

  /** `sorted(output_dict.keys())`. */
  function Addresses(m: Mem): (r: seq<int>)
    ensures StrictlyIncreasing(r)
    ensures |r| == |m|
    ensures forall a :: a in r <==> a in m
  {
    Sorted(m.Keys)
  }
}
