/**
 The records the bookmark scheduler reads and builds: bookmarks, the payloads
 of the three time-based bookmark kinds, and the dispatch request handed to
 the workflow scheduler; and the selection of bookmarks by kind that both
 scheduler operations start with.
 */
module Bookmarks {

  /** The activity type that created a bookmark. `Delay`, `StartAt` and
      `Timer` are the time-based kinds this scheduler acts on; every other
      activity type (signals, events, HTTP endpoints, ...) is `Other`. */
  datatype Kind = Delay | StartAt | Timer | Other(name: string)

  predicate IsTimeBased(k: Kind) {
    !k.Other?
  }

  /** The position of a time-based kind in the order in which the scheduler
      processes the groups: delays, then start-ats, then timers. */
  function Rank(k: Kind): nat {
    match k
    case Delay => 0
    case StartAt => 1
    case Timer => 2
    case Other(_) => 3
  }

  /** A bookmark as the scheduler sees it: its id (the scheduling key), the
      kind of activity that created it and its serialized payload. */
  datatype Bookmark = Bookmark(id: string, kind: Kind, data: string)

  /** Payload of a `Delay` bookmark: the absolute time at which to resume. */
  datatype DelayPayload = DelayPayload(resumeAt: int)

  /** Payload of a `StartAt` bookmark: the absolute time at which to run. */
  datatype StartAtPayload = StartAtPayload(executeAt: int)

  /** Payload of a `Timer` bookmark: the absolute time of its next tick. */
  datatype TimerBookmarkPayload = TimerBookmarkPayload(resumeAt: int)

  /** The message that, when it fires, resumes the given workflow instance
      at the given bookmark. */
  datatype DispatchRequest = DispatchRequest(workflowInstanceId: string, bookmarkId: string)

  /** The bookmarks of `bs` whose kind is `k`, in input order. */
  function Filter(bs: seq<Bookmark>, k: Kind): (r: seq<Bookmark>)
    ensures |r| <= |bs|
    ensures forall b :: b in r ==> b in bs && b.kind == k
    ensures forall b :: b in bs && b.kind == k ==> b in r
  {
    if bs == [] then []
    else if bs[0].kind == k then [bs[0]] + Filter(bs[1..], k)
    else Filter(bs[1..], k)
  }

  /** The bookmarks both scheduler operations act on, in the order in which
      they act: every `Delay` bookmark, then every `StartAt` bookmark, then
      every `Timer` bookmark. */
  function Selected(bs: seq<Bookmark>): (r: seq<Bookmark>)
    ensures forall b :: b in r <==> b in bs && IsTimeBased(b.kind)
  {
    Filter(bs, Delay) + Filter(bs, StartAt) + Filter(bs, Timer)
  }

  /** The ids of the bookmarks of `bs` that the scheduler acts on. */
  function TimeBasedIds(bs: seq<Bookmark>): set<string> {
    set b | b in bs && IsTimeBased(b.kind) :: b.id
  }

  function Ids(bs: seq<Bookmark>): (r: seq<string>)
    ensures |r| == |bs|
    ensures forall j :: 0 <= j < |bs| ==> r[j] == bs[j].id
  {
    if bs == [] then [] else [bs[0].id] + Ids(bs[1..])
  }

  /** The ids of a prefix of `bs` are ids of `bs`; all of them, when the
      prefix is the whole. */
  lemma IdsPrefix(bs: seq<Bookmark>, keys: seq<string>)
    requires |keys| <= |bs|
    requires forall j :: 0 <= j < |keys| ==> keys[j] == bs[j].id
    ensures forall k :: k in keys ==> k in (set j | 0 <= j < |bs| :: bs[j].id)
    ensures |keys| == |bs| ==> forall k :: k in (set j | 0 <= j < |bs| :: bs[j].id) ==> k in keys
  {
    var ids := set j | 0 <= j < |bs| :: bs[j].id;
    forall k | k in keys ensures k in ids {
      var j :| 0 <= j < |keys| && keys[j] == k;
      assert bs[j].id == k;
    }
    if |keys| == |bs| {
      forall k | k in ids ensures k in keys {
        var j :| 0 <= j < |bs| && bs[j].id == k;
        assert keys[j] == k;
      }
    }
  }

  lemma {:induction false} FilterAppend(xs: seq<Bookmark>, ys: seq<Bookmark>, k: Kind)
    ensures Filter(xs + ys, k) == Filter(xs, k) + Filter(ys, k)
  {
    if xs == [] {
      assert xs + ys == ys;
    } else {
      assert (xs + ys)[0] == xs[0];
      assert (xs + ys)[1..] == xs[1..] + ys;
      FilterAppend(xs[1..], ys, k);
    }
  }

  /** Filtering by the kind that was already selected changes nothing;
      filtering by any other kind leaves nothing. */
  lemma {:induction false} FilterFilter(bs: seq<Bookmark>, k: Kind, k': Kind)
    ensures Filter(Filter(bs, k), k') == if k == k' then Filter(bs, k) else []
  {
    if bs != [] {
      FilterFilter(bs[1..], k, k');
      if bs[0].kind == k {
        var r := [bs[0]] + Filter(bs[1..], k);
        assert r[0] == bs[0] && r[1..] == Filter(bs[1..], k);
      }
    }
  }

  /** A bookmark occurs in `Filter(bs, k)` as often as in `bs` when it has
      kind `k`, and not at all otherwise. */
  lemma {:induction false} FilterCount(bs: seq<Bookmark>, k: Kind, b: Bookmark)
    ensures multiset(Filter(bs, k))[b] == if b.kind == k then multiset(bs)[b] else 0
  {
    if bs != [] {
      assert bs == [bs[0]] + bs[1..];
      FilterCount(bs[1..], k, b);
    }
  }

  /** Each bookmark occurs in `Selected(bs)` exactly as often as it occurs in
      `bs` when its kind is time-based, and not at all otherwise: one call
      per recognised bookmark, none for any other. */
  lemma SelectedCount(bs: seq<Bookmark>, b: Bookmark)
    ensures multiset(Selected(bs))[b] == if IsTimeBased(b.kind) then multiset(bs)[b] else 0
  {
    var d, s, t := Filter(bs, Delay), Filter(bs, StartAt), Filter(bs, Timer);
    assert multiset(Selected(bs)) == multiset(d) + multiset(s) + multiset(t);
    FilterCount(bs, Delay, b);
    FilterCount(bs, StartAt, b);
    FilterCount(bs, Timer, b);
  }

  /** The selection is grouped by kind: all delays come first, then all
      start-ats, then all timers, whatever the input order. */
  lemma SelectedGroupedByKind(bs: seq<Bookmark>)
    ensures forall i, j :: 0 <= i < j < |Selected(bs)| ==>
      Rank(Selected(bs)[i].kind) <= Rank(Selected(bs)[j].kind)
    ensures forall b :: b in Selected(bs) ==> IsTimeBased(b.kind)
  {
    var d, s, t := Filter(bs, Delay), Filter(bs, StartAt), Filter(bs, Timer);
    var r := Selected(bs);
    forall i | 0 <= i < |r|
      ensures Rank(r[i].kind) == if i < |d| then 0 else if i < |d| + |s| then 1 else 2
    {
      if i < |d| {
        assert r[i] == d[i] && d[i] in d;
      } else if i < |d| + |s| {
        assert r[i] == s[i - |d|] && s[i - |d|] in s;
      } else {
        assert r[i] == t[i - |d| - |s|] && t[i - |d| - |s|] in t;
      }
    }
  }

  /** Within each group the input order is kept: the bookmarks of a given
      time-based kind appear in the selection exactly as they appear in the
      input. */
  lemma SelectedKeepsInputOrder(bs: seq<Bookmark>, k: Kind)
    requires IsTimeBased(k)
    ensures Filter(Selected(bs), k) == Filter(bs, k)
  {
    var d, s, t := Filter(bs, Delay), Filter(bs, StartAt), Filter(bs, Timer);
    FilterAppend(d + s, t, k);
    FilterAppend(d, s, k);
    FilterFilter(bs, Delay, k);
    FilterFilter(bs, StartAt, k);
    FilterFilter(bs, Timer, k);
  }

  lemma {:induction false} FilterNone(bs: seq<Bookmark>, k: Kind)
    requires forall b :: b in bs ==> b.kind != k
    ensures Filter(bs, k) == []
  {
    if bs != [] {
      assert bs[0] in bs;
      FilterNone(bs[1..], k);
    }
  }

  /** Nothing is selected exactly when no bookmark has a time-based kind. */
  lemma SelectedEmpty(bs: seq<Bookmark>)
    ensures Selected(bs) == [] <==> forall b :: b in bs ==> !IsTimeBased(b.kind)
  {
    if exists b :: b in bs && IsTimeBased(b.kind) {
      var b :| b in bs && IsTimeBased(b.kind);
      SelectedCount(bs, b);
      assert b in multiset(bs);
    } else {
      FilterNone(bs, Delay);
      FilterNone(bs, StartAt);
      FilterNone(bs, Timer);
    }
  }

  /** The ids the scheduler acts on are exactly the ids of its selection. */
  lemma SelectedIds(bs: seq<Bookmark>)
    ensures (set j | 0 <= j < |Selected(bs)| :: Selected(bs)[j].id) == TimeBasedIds(bs)
  {
    var r := Selected(bs);
    forall b | b in bs && IsTimeBased(b.kind) ensures b in r {
      SelectedCount(bs, b);
      assert b in multiset(bs);
    }
    forall j | 0 <= j < |r| ensures r[j] in bs && IsTimeBased(r[j].kind) {
      SelectedCount(bs, r[j]);
      assert r[j] in multiset(r);
    }
    var lhs := set j | 0 <= j < |r| :: r[j].id;
    forall id | id in TimeBasedIds(bs) ensures id in lhs {
      var b :| b in bs && IsTimeBased(b.kind) && b.id == id;
      var j :| 0 <= j < |r| && r[j] == b;
    }
  }
}
