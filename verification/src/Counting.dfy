/** How often something happens over a run that returns one list of actions per step. */
module Counting {
  /** The elements of `s` that satisfy `p`, counted. */
  function Count<A(!new)>(s: seq<A>, p: A -> bool): nat {
    if s == [] then 0 else (if p(s[0]) then 1 else 0) + Count(s[1..], p)
  }

  /** Everything returned over the run, in order. */
  function Everything<A>(lists: seq<seq<A>>): seq<A> {
    if lists == [] then [] else lists[0] + Everything(lists[1..])
  }

  lemma {:induction false} CountAppend<A(!new)>(s: seq<A>, t: seq<A>, p: A -> bool)
    ensures Count(s + t, p) == Count(s, p) + Count(t, p)
  {
    if s == [] {
      assert s + t == t;
    } else {
      CountAppend(s[1..], t, p);
      assert (s + t)[1..] == s[1..] + t;
    }
  }

  lemma {:induction false} Counted<A(!new)>(s: seq<A>, p: A -> bool)
    ensures Count(s, p) > 0 <==> exists i :: 0 <= i < |s| && p(s[i])
  {
    if s != [] {
      Counted(s[1..], p);
      if Count(s[1..], p) > 0 {
        var i :| 0 <= i < |s[1..]| && p(s[1..][i]);
        assert p(s[i + 1]);
      }
      if exists i :: 0 <= i < |s| && p(s[i]) {
        var i :| 0 <= i < |s| && p(s[i]);
        assert i > 0 ==> p(s[1..][i - 1]);
      }
    }
  }

  lemma ShortCounts<A(!new)>(p: A -> bool)
    ensures Count([], p) == 0
    ensures forall a :: Count([a], p) == if p(a) then 1 else 0
    ensures forall a, b :: Count([a, b], p) == (if p(a) then 1 else 0) + if p(b) then 1 else 0
  {
    forall a ensures Count([a], p) == if p(a) then 1 else 0 {
      assert [a][1..] == [];
    }
    forall a, b ensures Count([a, b], p) == (if p(a) then 1 else 0) + if p(b) then 1 else 0 {
      assert [a, b][1..] == [b] && [b][1..] == [];
    }
  }

  /** No step does it twice, and no two steps both do it. */
  ghost predicate Spread<A(!new)>(lists: seq<seq<A>>, p: A -> bool) {
    (forall k :: 0 <= k < |lists| ==> Count(lists[k], p) <= 1) &&
    (forall j, k :: 0 <= j < k < |lists| ==> Count(lists[j], p) == 0 || Count(lists[k], p) == 0)
  }

  lemma {:induction false} NoneAtAll<A(!new)>(lists: seq<seq<A>>, p: A -> bool)
    requires forall k :: 0 <= k < |lists| ==> Count(lists[k], p) == 0
    ensures Count(Everything(lists), p) == 0
  {
    if lists != [] {
      NoneAtAll(lists[1..], p);
      CountAppend(lists[0], Everything(lists[1..]), p);
    }
  }

  /** Then it happens at most once over the whole run. */
  lemma {:induction false} AtMostOnce<A(!new)>(lists: seq<seq<A>>, p: A -> bool)
    requires Spread(lists, p)
    ensures Count(Everything(lists), p) <= 1
  {
    if lists != [] {
      var rest := lists[1..];
      assert forall k :: 0 <= k < |rest| ==> rest[k] == lists[k + 1];
      CountAppend(lists[0], Everything(rest), p);
      if Count(lists[0], p) > 0 { NoneAtAll(rest, p); } else { AtMostOnce(rest, p); }
    }
  }
}
