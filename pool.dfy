/**
 * The option pool: the configured sprite list with nulls skipped and
 * duplicates removed, first-seen order kept.
 */
module Pool {
  import opened Common
  import opened Sprites

  /** The pool built from the configured list s: each non-null sprite the first time it appears. */
  function Dedup(s: seq<Option<Sprite>>): seq<Sprite>
    decreases |s|
  {
    if s == [] then []
    else
      var p := Dedup(s[..|s| - 1]);
      match s[|s| - 1]
      case None => p
      case Some(x) => if x in p then p else p + [x]
  }

  /** The distinct non-null sprites of the configured list. */
  function Configured(s: seq<Option<Sprite>>): set<Sprite> {
    set i | 0 <= i < |s| && s[i].Some? :: s[i].value
  }

  /** The position where v first occurs in s, or |s| when it does not occur. */
  function FirstIndex<T(==)>(s: seq<T>, v: T): (i: nat)
    ensures i <= |s| && (i < |s| ==> s[i] == v) && (i == |s| ==> v !in s)
    ensures forall k :: 0 <= k < i ==> s[k] != v
  {
    if s == [] then 0 else if s[0] == v then 0 else 1 + FirstIndex(s[1..], v)
  }

  /** A sprite is in the pool exactly when some slot of the configured list holds it. */
  lemma {:induction false} DedupMembers(s: seq<Option<Sprite>>)
    ensures forall x :: x in Dedup(s) <==> Some(x) in s
  {
    if s != [] {
      var init := s[..|s| - 1];
      DedupMembers(init);
      assert s == init + [s[|s| - 1]];
    }
  }

  /** The pool holds no sprite twice. */
  lemma {:induction false} DedupDistinct(s: seq<Option<Sprite>>)
    ensures Distinct(Dedup(s))
  {
    if s != [] {
      DedupDistinct(s[..|s| - 1]);
    }
  }

  lemma FirstIndexAppend<T>(s: seq<T>, e: T, v: T)
    requires v in s
    ensures FirstIndex(s + [e], v) == FirstIndex(s, v) < |s|
  {
    var a, b := FirstIndex(s + [e], v), FirstIndex(s, v);
    assert (s + [e])[b] == v;
  }

  /** Pool order is first-seen order: earlier pool entries first occur earlier in the configured list. */
  lemma {:induction false} DedupFirstSeenOrder(s: seq<Option<Sprite>>)
    ensures forall i, j :: 0 <= i < j < |Dedup(s)| ==>
      FirstIndex(s, Some(Dedup(s)[i])) < FirstIndex(s, Some(Dedup(s)[j])) < |s|
  {
    if s != [] {
      var init, e := s[..|s| - 1], s[|s| - 1];
      assert s == init + [e];
      var p := Dedup(init);
      DedupFirstSeenOrder(init);
      DedupMembers(init);
      forall i | 0 <= i < |p|
        ensures FirstIndex(s, Some(p[i])) == FirstIndex(init, Some(p[i])) < |init|
      {
        FirstIndexAppend(init, e, Some(p[i]));
      }
      var r := Dedup(s);
      assert r == if e.Some? && e.value !in p then p + [e.value] else p;
      if e.Some? && e.value !in p {
        assert Some(e.value) !in init;
        assert FirstIndex(s, e) == |init|;
      }
      forall i, j | 0 <= i < j < |r|
        ensures FirstIndex(s, Some(r[i])) < FirstIndex(s, Some(r[j])) < |s|
      {
        assert r[i] == p[i];
        if j < |p| {
          assert r[j] == p[j];
        }
      }
    }
  }

  lemma {:induction false} DistinctCardinality<T>(p: seq<T>)
    requires Distinct(p)
    ensures |set x | x in p| == |p|
  {
    if p != [] {
      var init := p[..|p| - 1];
      DistinctCardinality(init);
      assert (set x | x in p) == (set x | x in init) + {p[|p| - 1]};
    }
  }

  /** The pool is as large as the number of distinct non-null sprites configured. */
  lemma DedupSize(s: seq<Option<Sprite>>)
    ensures |Dedup(s)| == |Configured(s)|
  {
    DedupMembers(s);
    DedupDistinct(s);
    DistinctCardinality(Dedup(s));
    forall x
      ensures x in Configured(s) <==> x in Dedup(s)
    {
      if x in Configured(s) {
        var i :| 0 <= i < |s| && s[i].Some? && s[i].value == x;
        assert s[i] == Some(x);
      }
    }
    assert (set x | x in Dedup(s)) == Configured(s);
  }
}
