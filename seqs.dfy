/** Ordering facts shared by the planner's "if flag: list.append(x)" chains:
    a list whose ranks strictly increase follows a fixed canonical order. */
module Seqs {

  /** One `if test: lst.append(item)` block of such a chain. */
  datatype Block<T> = Block(test: bool, item: T)

  function Optional<T>(test: bool, item: T): seq<T> {
    if test then [item] else []
  }

  /** What running the blocks in order appends to an empty list. */
  function Appended<T>(bs: seq<Block<T>>): seq<T> {
    if |bs| == 0 then []
    else Appended(bs[..|bs| - 1]) + Optional(bs[|bs| - 1].test, bs[|bs| - 1].item)
  }

  /** An item is appended exactly when some block for it has a true test. */
  lemma {:induction false} AppendedMembers<T>(bs: seq<Block<T>>)
    ensures forall x :: x in Appended(bs) <==> exists k :: 0 <= k < |bs| && bs[k].test && bs[k].item == x
  {
    if |bs| > 0 {
      var init := bs[..|bs| - 1];
      AppendedMembers(init);
      forall x ensures x in Appended(bs) <==> exists k :: 0 <= k < |bs| && bs[k].test && bs[k].item == x {
        if exists k :: 0 <= k < |init| && init[k].test && init[k].item == x {
          var k :| 0 <= k < |init| && init[k].test && init[k].item == x;
          assert bs[k] == init[k];
        }
        if exists k :: 0 <= k < |bs| && bs[k].test && bs[k].item == x {
          var k :| 0 <= k < |bs| && bs[k].test && bs[k].item == x;
          if k < |init| { assert init[k] == bs[k]; }
        }
      }
    }
  }

  /** The ranks of the items strictly increase from block to block. */
  ghost predicate BlocksRanked<T>(bs: seq<Block<T>>, rank: T -> int) {
    forall i, j :: 0 <= i < j < |bs| ==> rank(bs[i].item) < rank(bs[j].item)
  }

  /** Blocks whose items rise in rank append a strictly ranked list, each
      entry ranking no higher than the last block's item. */
  lemma {:induction false} AppendedRanked<T>(bs: seq<Block<T>>, rank: T -> int)
    requires BlocksRanked(bs, rank)
    ensures StrictlyRanked(Appended(bs), rank)
    ensures |bs| > 0 ==> forall k :: 0 <= k < |Appended(bs)| ==> rank(Appended(bs)[k]) <= rank(bs[|bs| - 1].item)
  {
    if |bs| > 0 {
      var init := bs[..|bs| - 1];
      var last := bs[|bs| - 1];
      assert BlocksRanked(init, rank);
      AppendedRanked(init, rank);
      var p := Appended(init);
      if |init| > 0 {
        assert rank(init[|init| - 1].item) < rank(last.item);
      }
      if last.test {
        RankedSnoc(p, last.item, rank);
      } else {
        assert Appended(bs) == p;
      }
    }
  }

  /** The number of blocks whose test holds. */
  function Count<T>(bs: seq<Block<T>>): nat {
    if |bs| == 0 then 0 else Count(bs[..|bs| - 1]) + (if bs[|bs| - 1].test then 1 else 0)
  }

  /** Each block with a true test appends one entry. */
  lemma {:induction false} AppendedLength<T>(bs: seq<Block<T>>)
    ensures |Appended(bs)| == Count(bs)
  {
    if |bs| > 0 {
      AppendedLength(bs[..|bs| - 1]);
    }
  }

  /** Every element ranks strictly below every later one (so no element repeats). */
  ghost predicate StrictlyRanked<T>(s: seq<T>, rank: T -> int) {
    forall i, j :: 0 <= i < j < |s| ==> rank(s[i]) < rank(s[j])
  }

  /** An element of a strictly ranked list occurs exactly once. */
  lemma RankedHasNoRepeats<T>(s: seq<T>, rank: T -> int)
    requires StrictlyRanked(s, rank)
    ensures forall i, j :: 0 <= i < |s| && 0 <= j < |s| && i != j ==> s[i] != s[j]
  {
    forall i, j | 0 <= i < |s| && 0 <= j < |s| && i != j ensures s[i] != s[j] {
      if i < j { assert rank(s[i]) < rank(s[j]); } else { assert rank(s[j]) < rank(s[i]); }
    }
  }

  /** Appending an element that outranks everything keeps the list strictly ranked. */
  lemma RankedSnoc<T>(s: seq<T>, x: T, rank: T -> int)
    requires StrictlyRanked(s, rank)
    requires forall k :: 0 <= k < |s| ==> rank(s[k]) < rank(x)
    ensures StrictlyRanked(s + [x], rank)
  {
    var t := s + [x];
    forall i, j | 0 <= i < j < |t| ensures rank(t[i]) < rank(t[j]) {
      if j < |s| { assert t[i] == s[i] && t[j] == s[j]; } else { assert t[i] == s[i]; }
    }
  }

  /** Two strictly ranked lists with the same elements are the same list:
      the elements alone fix the order. */
  lemma {:induction false} RankedUnique<T>(a: seq<T>, b: seq<T>, rank: T -> int)
    requires StrictlyRanked(a, rank) && StrictlyRanked(b, rank)
    requires forall x :: x in a <==> x in b
    ensures a == b
    decreases |a|
  {
    if |a| == 0 {
      SameElementsSameEmptiness(a, b);
    } else {
      RankedHeads(a, b, rank);
      RankedTails(a, b, rank);
      RankedUnique(a[1..], b[1..], rank);
      assert a == [a[0]] + a[1..];
      assert b == [b[0]] + b[1..];
    }
  }

  /** Strictly ranked lists with the same elements start with the same element. */
  lemma RankedHeads<T>(a: seq<T>, b: seq<T>, rank: T -> int)
    requires StrictlyRanked(a, rank) && StrictlyRanked(b, rank)
    requires forall x :: x in a <==> x in b
    requires |a| > 0
    ensures |b| > 0 && a[0] == b[0]
  {
    assert a[0] in b;
    var j :| 0 <= j < |b| && b[j] == a[0];
    assert b[0] in a;
    var i :| 0 <= i < |a| && a[i] == b[0];
    var ra, rb := rank(a[0]), rank(b[0]);
    assert j != 0 ==> rb < ra;
    assert i != 0 ==> ra < rb;
  }

  /** Dropping a shared head from two strictly ranked lists with the same
      elements leaves tails with the same elements. */
  lemma RankedTails<T>(a: seq<T>, b: seq<T>, rank: T -> int)
    requires StrictlyRanked(a, rank) && StrictlyRanked(b, rank)
    requires forall x :: x in a <==> x in b
    requires |a| > 0 && |b| > 0 && a[0] == b[0]
    ensures StrictlyRanked(a[1..], rank) && StrictlyRanked(b[1..], rank)
    ensures forall x :: x in a[1..] <==> x in b[1..]
  {
    forall x ensures x in a[1..] ==> x in b[1..] {
      if x in a[1..] {
        var i :| 1 <= i < |a| && a[i] == x;
        assert rank(a[0]) < rank(x);
        assert x in a;
        var j :| 0 <= j < |b| && b[j] == x;
        assert b[1..][j - 1] == x;
      }
    }
    forall x ensures x in b[1..] ==> x in a[1..] {
      if x in b[1..] {
        var j :| 1 <= j < |b| && b[j] == x;
        assert rank(b[0]) < rank(x);
        assert x in b;
        var i :| 0 <= i < |a| && a[i] == x;
        assert a[1..][i - 1] == x;
      }
    }
  }

  lemma SameElementsSameEmptiness<T>(a: seq<T>, b: seq<T>)
    requires forall x :: x in a <==> x in b
    ensures |a| == 0 <==> |b| == 0
  {
    if |a| > 0 { assert a[0] in b; }
    if |b| > 0 { assert b[0] in a; }
  }
}
