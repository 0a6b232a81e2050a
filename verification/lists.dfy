/** The Option type used for values the source may fail to produce. */
module Wrappers {
  datatype Option<+T> = None | Some(value: T)
}

/**
 Facts about the ordered lists the scorers build: counting the flags that hold,
 keeping the entries of a fixed list whose flag holds, and lists whose entries
 appear in a fixed priority order.
 */
module Lists {

  /** The number of entries of `flags` that hold. */
  function Count(flags: seq<bool>): (n: nat)
    ensures n <= |flags|
  {
    if flags == [] then 0 else (if flags[0] then 1 else 0) + Count(flags[1..])
  }

  /** Count agrees with the number of occurrences of `true`. */
  lemma {:induction false} CountIsOccurrences(flags: seq<bool>)
    ensures Count(flags) == multiset(flags)[true]
  {
    if flags != [] {
      CountIsOccurrences(flags[1..]);
      assert flags == [flags[0]] + flags[1..];
      assert multiset(flags) == multiset([flags[0]]) + multiset(flags[1..]);
    }
  }

  /** The count reaches the length exactly when every flag holds. */
  lemma {:induction false} CountFull(flags: seq<bool>)
    ensures Count(flags) == |flags| <==> forall i :: 0 <= i < |flags| ==> flags[i]
  {
    if flags != [] {
      CountFull(flags[1..]);
      assert (forall i :: 0 <= i < |flags| ==> flags[i])
        <==> flags[0] && forall i :: 0 <= i < |flags[1..]| ==> flags[1..][i];
    }
  }

  /** The count is zero exactly when no flag holds. */
  lemma {:induction false} CountEmpty(flags: seq<bool>)
    ensures Count(flags) == 0 <==> forall i :: 0 <= i < |flags| ==> !flags[i]
  {
    if flags != [] {
      CountEmpty(flags[1..]);
      assert (forall i :: 0 <= i < |flags| ==> !flags[i])
        <==> !flags[0] && forall i :: 0 <= i < |flags[1..]| ==> !flags[1..][i];
    }
  }

  /** The count of a seven-entry list, spelled out entry by entry. */
  lemma CountSeven(c: seq<bool>)
    requires |c| == 7
    ensures Count(c) == (if c[0] then 1 else 0) + (if c[1] then 1 else 0) + (if c[2] then 1 else 0)
                      + (if c[3] then 1 else 0) + (if c[4] then 1 else 0) + (if c[5] then 1 else 0)
                      + (if c[6] then 1 else 0)
  {
    assert c[6..][1..] == [];
    assert Count(c[6..]) == (if c[6] then 1 else 0);
    assert c[5..][1..] == c[6..];
    assert Count(c[5..]) == (if c[5] then 1 else 0) + Count(c[6..]);
    assert c[4..][1..] == c[5..];
    assert Count(c[4..]) == (if c[4] then 1 else 0) + Count(c[5..]);
    assert c[3..][1..] == c[4..];
    assert Count(c[3..]) == (if c[3] then 1 else 0) + Count(c[4..]);
    assert c[2..][1..] == c[3..];
    assert Count(c[2..]) == (if c[2] then 1 else 0) + Count(c[3..]);
    assert c[1..][1..] == c[2..];
    assert Count(c[1..]) == (if c[1] then 1 else 0) + Count(c[2..]);
  }

  /** Turning one entry of a list of flags changes the count by at most that entry. */
  lemma {:induction false} CountUpdate(flags: seq<bool>, i: nat, b: bool)
    requires i < |flags|
    ensures Count(flags[i := b]) == Count(flags) - (if flags[i] then 1 else 0) + (if b then 1 else 0)
  {
    if i > 0 {
      CountUpdate(flags[1..], i - 1, b);
      assert flags[i := b][1..] == flags[1..][i - 1 := b];
    } else {
      assert flags[i := b][1..] == flags[1..];
    }
  }

  /** The entries of `xs` whose flag holds, in the order of `xs`. */
  function Select<T>(xs: seq<T>, flags: seq<bool>): (r: seq<T>)
    requires |flags| == |xs|
    ensures |r| == Count(flags)
    ensures forall x :: x in r ==> x in xs
  {
    if xs == [] then []
    else (if flags[0] then [xs[0]] else []) + Select(xs[1..], flags[1..])
  }

  /** An entry is selected exactly when it stands at a flagged position. */
  lemma {:induction false} SelectMembers<T>(xs: seq<T>, flags: seq<bool>, x: T)
    requires |flags| == |xs|
    ensures x in Select(xs, flags) <==> exists i :: 0 <= i < |xs| && xs[i] == x && flags[i]
  {
    if xs != [] {
      SelectMembers(xs[1..], flags[1..], x);
      if exists i :: 0 <= i < |xs| && xs[i] == x && flags[i] {
        var i :| 0 <= i < |xs| && xs[i] == x && flags[i];
        if i > 0 {
          assert xs[1..][i - 1] == x && flags[1..][i - 1];
        }
      }
      if x in Select(xs[1..], flags[1..]) {
        var i :| 0 <= i < |xs[1..]| && xs[1..][i] == x && flags[1..][i];
        assert xs[i + 1] == x && flags[i + 1];
      }
    }
  }

  /**
   The list holding `x` when `c` holds and nothing otherwise: appending it is
   the guarded append `if c then s + [x] else s` of the scorers.
   */
  function When<T>(c: bool, x: T): (r: seq<T>)
    ensures |r| == if c then 1 else 0
    ensures forall i :: 0 <= i < |r| ==> r[i] == x
  {
    if c then [x] else []
  }

  /** Entries that appear in strictly increasing order of `rank`. */
  predicate StrictlyRanked<T>(s: seq<T>, rank: T -> int) {
    forall i, j :: 0 <= i < j < |s| ==> rank(s[i]) < rank(s[j])
  }

  /** A strictly ranked list repeats no entry. */
  lemma RankedDistinct<T>(s: seq<T>, rank: T -> int)
    requires StrictlyRanked(s, rank)
    ensures forall i, j :: 0 <= i < j < |s| ==> s[i] != s[j]
  {
  }

  /** Keeping some entries of a strictly ranked list keeps it strictly ranked. */
  lemma {:induction false} SelectRanked<T>(xs: seq<T>, flags: seq<bool>, rank: T -> int)
    requires |flags| == |xs|
    requires StrictlyRanked(xs, rank)
    ensures StrictlyRanked(Select(xs, flags), rank)
  {
    if xs != [] {
      SelectRanked(xs[1..], flags[1..], rank);
      var rest := Select(xs[1..], flags[1..]);
      forall y | y in rest ensures rank(xs[0]) < rank(y) {
        SelectMembers(xs[1..], flags[1..], y);
        var i :| 0 <= i < |xs[1..]| && xs[1..][i] == y && flags[1..][i];
        assert xs[i + 1] == y;
      }
      if flags[0] {
        var r := Select(xs, flags);
        assert r == [xs[0]] + rest;
        forall i, j | 0 <= i < j < |r| ensures rank(r[i]) < rank(r[j]) {
          assert r[j] == rest[j - 1];
          if i > 0 { assert r[i] == rest[i - 1]; } else { assert rest[j - 1] in rest; }
        }
      }
    }
  }

  /** A non-empty list holds its first entry. */
  lemma FirstIsMember<T>(t: seq<T>)
    ensures t != [] ==> t[0] in t
  {
  }

  /**
   Two strictly ranked lists with the same entries are the same list: the
   entries and the ranking determine the order completely.
   */
  lemma {:induction false} RankedUnique<T>(s: seq<T>, t: seq<T>, rank: T -> int)
    requires StrictlyRanked(s, rank) && StrictlyRanked(t, rank)
    requires forall x :: x in s <==> x in t
    ensures s == t
  {
    if s == [] {
      FirstIsMember(t);
    } else {
      assert s[0] in t;
      assert t != [];
      assert t[0] in s;
      var k :| 0 <= k < |s| && s[k] == t[0];
      var m :| 0 <= m < |t| && t[m] == s[0];
      assert rank(t[0]) <= rank(t[m]) == rank(s[0]);
      assert rank(s[0]) <= rank(s[k]);
      forall x ensures x in s[1..] <==> x in t[1..] {
        if x in s[1..] {
          var i :| 0 <= i < |s[1..]| && s[1..][i] == x;
          assert rank(s[0]) < rank(s[i + 1]);
          assert x in t;
          var j :| 0 <= j < |t| && t[j] == x;
          assert j != 0;
          assert t[1..][j - 1] == x;
        }
        if x in t[1..] {
          var j :| 0 <= j < |t[1..]| && t[1..][j] == x;
          assert rank(t[0]) < rank(t[j + 1]);
          assert x in s;
          var i :| 0 <= i < |s| && s[i] == x;
          assert i != 0;
          assert s[1..][i - 1] == x;
        }
      }
      RankedUnique(s[1..], t[1..], rank);
      assert s == [s[0]] + s[1..] && t == [t[0]] + t[1..];
    }
  }

  /**
   A strictly ranked list whose ranks all lie in [lo, hi) has at most
   hi - lo entries.
   */
  lemma {:induction false} RankedLength<T>(s: seq<T>, rank: T -> int, lo: int, hi: int)
    requires lo <= hi
    requires StrictlyRanked(s, rank)
    requires forall x :: x in s ==> lo <= rank(x) < hi
    ensures |s| <= hi - lo
  {
    if s != [] {
      assert s[0] in s;
      forall x | x in s[1..] ensures rank(s[0]) + 1 <= rank(x) < hi {
        var i :| 0 <= i < |s[1..]| && s[1..][i] == x;
        assert s[i + 1] == x;
      }
      RankedLength(s[1..], rank, rank(s[0]) + 1, hi);
    }
  }

  /** The entry of least rank in a strictly ranked list stands first. */
  lemma RankedHead<T>(s: seq<T>, rank: T -> int, x: T)
    requires StrictlyRanked(s, rank)
    requires x in s
    requires forall y :: y in s ==> rank(x) <= rank(y)
    ensures s[0] == x
  {
    var k :| 0 <= k < |s| && s[k] == x;
    assert s[0] in s;
    assert rank(s[0]) <= rank(s[k]);
  }
}
