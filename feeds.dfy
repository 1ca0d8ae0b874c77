/**
 * Bounded feeds that keep the newest entries first: `[item, ...feed].slice(0, limit)`.
 * The SIGINT feed keeps 15 signals, the notification tray 5 alerts.
 */
module Feeds {

  function MinNat(a: nat, b: nat): (r: nat)
    ensures r <= a && r <= b && (r == a || r == b)
  {
    if a <= b then a else b
  }

  /** `[item, ...feed].slice(0, limit)`: the new item first, then the older ones, at most `limit` in all. */
  function Newest<T>(item: T, feed: seq<T>, limit: nat): (r: seq<T>)
    ensures |r| == MinNat(limit, |feed| + 1)
    ensures limit > 0 ==> r[0] == item
    ensures forall k :: 1 <= k < |r| ==> r[k] == feed[k - 1]
  {
    ([item] + feed)[..MinNat(limit, |feed| + 1)]
  }

  function Reverse<T>(s: seq<T>): (r: seq<T>)
    ensures |r| == |s|
    ensures forall k :: 0 <= k < |s| ==> r[k] == s[|s| - 1 - k]
  {
    if |s| == 0 then [] else [s[|s| - 1]] + Reverse(s[..|s| - 1])
  }

  /** The feed after the arrivals, oldest first, have been pushed one by one. */
  function Replay<T>(feed: seq<T>, arrivals: seq<T>, limit: nat): seq<T> {
    if |arrivals| == 0 then feed
    else Newest(arrivals[|arrivals| - 1], Replay(feed, arrivals[..|arrivals| - 1], limit), limit)
  }

  /**
   * However many pushes happen, the feed holds the most recent entries, newest
   * first: the reversed arrivals followed by the initial feed, cut at the limit.
   */
  lemma {:induction false} ReplayIsNewestFirst<T>(feed: seq<T>, arrivals: seq<T>, limit: nat)
    requires |feed| <= limit
    ensures Replay(feed, arrivals, limit) == (Reverse(arrivals) + feed)[..MinNat(limit, |arrivals| + |feed|)]
  {
    if |arrivals| == 0 {
      assert Reverse(arrivals) + feed == feed;
    } else {
      var init := arrivals[..|arrivals| - 1];
      var last := arrivals[|arrivals| - 1];
      ReplayIsNewestFirst(feed, init, limit);
      var before := Replay(feed, init, limit);
      var whole := Reverse(arrivals) + feed;
      assert Reverse(arrivals) == [last] + Reverse(init);
      assert whole == [last] + (Reverse(init) + feed);
      var r := Replay(feed, arrivals, limit);
      assert r == Newest(last, before, limit);
      assert |r| == MinNat(limit, |arrivals| + |feed|);
      forall k | 0 <= k < |r|
        ensures r[k] == whole[k]
      {
        if k > 0 {
          assert r[k] == before[k - 1];
        }
      }
    }
  }

  /** Once full, a feed stays at its limit; below it, each push adds exactly one entry. */
  lemma NewestLength<T>(item: T, feed: seq<T>, limit: nat)
    requires |feed| <= limit
    ensures |feed| == limit ==> |Newest(item, feed, limit)| == limit
    ensures |feed| < limit ==> |Newest(item, feed, limit)| == |feed| + 1
  {
  }
}
