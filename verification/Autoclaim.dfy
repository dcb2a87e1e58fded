/**
 Reclaiming abandoned messages: the sweep that pages through a group's pending entries with
 XAUTOCLAIM, and exactly when it reaches every entry that has been idle for long enough.
 */
module Autoclaim {
  import opened Collections

  /** A pending entry; `data` is false when the stream no longer holds the message itself. */
  datatype Pending = Pending(id: nat, idle: int, data: bool)

  /** The pending entries list is ordered by message id, and 0 stands for the cursor 0-0. */
  predicate Sorted(xs: seq<Pending>) {
    && (forall i | 0 <= i < |xs| :: 1 <= xs[i].id)
    && (forall i, j | 0 <= i < j < |xs| :: xs[i].id < xs[j].id)
  }

  // ---------------------------------------------------------------- XAUTOCLAIM

  /** The entries from the cursor on. */
  function From(xs: seq<Pending>, start: nat): seq<Pending> {
    if |xs| > 0 && xs[0].id < start then From(xs[1..], start) else xs
  }

  /** The entries before it. */
  function Before(xs: seq<Pending>, start: nat): seq<Pending> {
    if |xs| > 0 && xs[0].id < start then [xs[0]] + Before(xs[1..], start) else []
  }

  /** How many entries one call looks at: no more than `scan`, and no further than the last one it may claim. */
  function PageLen(xs: seq<Pending>, minIdle: int, scan: nat, count: nat): (n: nat)
    ensures n <= |xs| && (n == 0 <==> |xs| == 0 || scan == 0 || count == 0)
  {
    if |xs| == 0 || scan == 0 || count == 0 then 0
    else 1 + PageLen(xs[1..], minIdle, scan - 1, if xs[0].idle >= minIdle then count - 1 else count)
  }

  /** Redis looks at ten entries for every message it may return. */
  function Scanned(xs: seq<Pending>, minIdle: int, count: nat): (n: nat)
    requires 1 <= count
    ensures n <= |xs| && (n == 0 <==> |xs| == 0)
  {
    PageLen(xs, minIdle, 10 * count, count)
  }

  /** The entries that are idle for long enough, in order. */
  function Due(xs: seq<Pending>, minIdle: int): seq<Pending> {
    if |xs| == 0 then [] else (if xs[0].idle >= minIdle then [xs[0]] else []) + Due(xs[1..], minIdle)
  }

  /** Claiming an entry starts its idle time anew. */
  function Claimed(xs: seq<Pending>, minIdle: int): seq<Pending> {
    if |xs| == 0 then []
    else [if xs[0].idle >= minIdle then xs[0].(idle := 0) else xs[0]] + Claimed(xs[1..], minIdle)
  }

  function Dropped(xs: seq<Pending>, ids: set<nat>): seq<Pending> {
    if |xs| == 0 then [] else (if xs[0].id in ids then [] else [xs[0]]) + Dropped(xs[1..], ids)
  }

  class PendingList {
    var entries: seq<Pending>

    constructor (entries: seq<Pending>)
      ensures this.entries == entries
    {
      this.entries := entries;
    }

    /**
     XAUTOCLAIM: claims from the cursor on, and answers where the next call has to start, or 0 at the end of the
     list.
     */
    method AutoClaim(minIdle: int, start: nat, count: nat) returns (next: nat, page: seq<Pending>)
      requires 1 <= count
      modifies this
      ensures var tail := From(old(entries), start);
              var n := Scanned(tail, minIdle, count);
              && page == Due(tail[..n], minIdle)
              && next == (if n == |tail| then 0 else tail[n].id)
              && entries == Before(old(entries), start) + Claimed(tail[..n], minIdle) + tail[n..]
    {
      var tail := From(entries, start);
      var n := Scanned(tail, minIdle, count);
      page := Due(tail[..n], minIdle);
      next := if n == |tail| then 0 else tail[n].id;
      entries := Before(entries, start) + Claimed(tail[..n], minIdle) + tail[n..];
    }

    /** XACK. */
    method Acknowledge(id: nat)
      modifies this
      ensures entries == Dropped(old(entries), {id})
    {
      entries := Dropped(entries, {id});
    }
  }

  // ---------------------------------------------------------------- the sweep

  /** The notification forwarder passes over messages without data; the compensation consumer processes every one. */
  predicate Handles(needsData: bool, x: Pending) {
    needsData ==> x.data
  }

  function Ids(page: seq<Pending>, needsData: bool): seq<nat> {
    if |page| == 0 then [] else Ids(page[..|page| - 1], needsData) + LastId(page, needsData)
  }

  function LastId(page: seq<Pending>, needsData: bool): seq<nat>
    requires |page| > 0
  {
    if Handles(needsData, page[|page| - 1]) then [page[|page| - 1].id] else []
  }

  /** The processed messages of a page whose processing ends with an acknowledgement. */
  function Acked(page: seq<Pending>, needsData: bool, acks: set<nat>): set<nat> {
    set x | x in page && Handles(needsData, x) && x.id in acks :: x.id
  }

  /** What the sweep leaves of the entries it has paged through: claimed and acknowledged ones are gone. */
  function Remaining(xs: seq<Pending>, minIdle: int, needsData: bool, acks: set<nat>): seq<Pending> {
    Dropped(Claimed(xs, minIdle), Acked(Due(xs, minIdle), needsData, acks))
  }

  /** Processing this message raises an exception. */
  predicate Raises(needsData: bool, raises: set<nat>, x: Pending) {
    Handles(needsData, x) && x.id in raises
  }

  /** How many messages come before the first one that raises. */
  function Stop(page: seq<Pending>, needsData: bool, raises: set<nat>): (n: nat)
    ensures n <= |page|
  {
    if |page| == 0 || Raises(needsData, raises, page[0]) then 0 else 1 + Stop(page[1..], needsData, raises)
  }

  /**
   How far the sweep gets: to the end of the list, or of the first page that comes back empty or has a message that
   raises.
   */
  function SweptLen(xs: seq<Pending>, minIdle: int, count: nat, needsData: bool, raises: set<nat>): (n: nat)
    requires 1 <= count
    ensures n <= |xs|
  {
    var n := Scanned(xs, minIdle, count);
    if n == |xs| || EndsSweep(Due(xs[..n], minIdle), needsData, raises) then n
    else n + SweptLen(xs[n..], minIdle, count, needsData, raises)
  }

  predicate EndsSweep(page: seq<Pending>, needsData: bool, raises: set<nat>) {
    page == [] || Stop(page, needsData, raises) < |page|
  }

  function SweptFrom(xs: seq<Pending>, minIdle: int, count: nat, needsData: bool, raises: set<nat>, done: nat): nat
    requires 1 <= count && done <= |xs|
  {
    done + SweptLen(xs[done..], minIdle, count, needsData, raises)
  }

  /** The messages of a page are processed in turn, up to the first that raises. */
  method ProcessPage(list: PendingList, page: seq<Pending>, needsData: bool, acks: set<nat>, raises: set<nat>)
    returns (processed: seq<nat>, raised: bool)
    modifies list
    ensures var n := Stop(page, needsData, raises);
            && processed == Ids(page[..n], needsData) && raised == (n < |page|)
            && list.entries == Dropped(old(list.entries), Acked(page[..n], needsData, acks))
  {
    hide Dropped, Ids, Acked, Stop, Handles;
    processed, raised := [], false;
    DroppedNone(list.entries, {});
    NoneYet(page, needsData, acks);
    for k := 0 to |page|
      invariant processed == Ids(page[..k], needsData) && !raised
      invariant Stop(page, needsData, raises) == k + Stop(page[k..], needsData, raises)
      invariant list.entries == Dropped(old(list.entries), Acked(page[..k], needsData, acks))
    {
      OneMore(page, k, needsData, acks, raises);
      if Handles(needsData, page[k]) {
        if page[k].id in raises {
          raised := true;
          return;
        }
        processed := processed + [page[k].id];
        if page[k].id in acks {
          DroppedTwice(old(list.entries), Acked(page[..k], needsData, acks), {page[k].id});
          list.Acknowledge(page[k].id);
        }
      }
    }
    assert page[..|page|] == page;
    assert Stop(page[|page|..], needsData, raises) == 0;
  }

  lemma NoneYet(page: seq<Pending>, needsData: bool, acks: set<nat>)
    ensures page[0..] == page && Ids(page[..0], needsData) == [] && Acked(page[..0], needsData, acks) == {}
  {
  }

  /** What one more message adds, or that it is the first to raise. */
  lemma OneMore(page: seq<Pending>, k: nat, needsData: bool, acks: set<nat>, raises: set<nat>)
    requires k < |page|
    ensures var x := page[k];
            && Ids(page[..k + 1], needsData)
               == Ids(page[..k], needsData) + (if Handles(needsData, x) then [x.id] else [])
            && Acked(page[..k + 1], needsData, acks)
               == (if Handles(needsData, x) && x.id in acks then Acked(page[..k], needsData, acks) + {x.id}
                   else Acked(page[..k], needsData, acks))
            && Stop(page[k..], needsData, raises)
               == if Raises(needsData, raises, x) then 0 else 1 + Stop(page[k + 1..], needsData, raises)
  {
    assert page[..k + 1] == page[..k] + [page[k]] && page[..k + 1][..k] == page[..k];
    assert page[k..][0] == page[k] && page[k..][1..] == page[k + 1..];
  }

  /** The sweep has paged through the first `done` entries of xs, and `cursor` leads to the next one. */
  ghost predicate Paged(list: PendingList, xs: seq<Pending>, minIdle: int, needsData: bool, acks: set<nat>, done: nat,
      cursor: nat)
    reads list
  {
    && done <= |xs| && (if done == 0 then cursor == 0 else done < |xs| && cursor == xs[done].id)
    && list.entries == Remaining(xs[..done], minIdle, needsData, acks) + xs[done..]
  }

  method ClaimPage(list: PendingList, minIdle: int, count: nat, ghost needsData: bool, ghost acks: set<nat>,
      cursor: nat, ghost xs: seq<Pending>, ghost done: nat)
    returns (next: nat, page: seq<Pending>, ghost done': nat)
    requires 1 <= count && Sorted(xs) && Paged(list, xs, minIdle, needsData, acks, done, cursor)
    modifies list
    ensures done' == done + Scanned(xs[done..], minIdle, count) <= |xs|
    ensures page == Due(xs[done..done'], minIdle)
    ensures if done' == |xs| then next == 0 else next == xs[done'].id && 0 < next && done < done'
    ensures list.entries == Remaining(xs[..done], minIdle, needsData, acks) + Claimed(xs[done..done'], minIdle)
      + xs[done'..]
  {
    hide Due, Claimed, Dropped, From, Before, PageLen, Acked;
    done' := done + Scanned(xs[done..], minIdle, count);
    CursorFinds(xs, minIdle, needsData, acks, done, cursor);
    next, page := list.AutoClaim(minIdle, cursor, count);
    assert xs[done..][..done' - done] == xs[done..done'] && xs[done..][done' - done..] == xs[done'..];
  }

  /** One turn of the loop: a page is claimed, and its messages processed up to the first that raises. */
  method SweepPage(list: PendingList, minIdle: int, count: nat, needsData: bool, acks: set<nat>, raises: set<nat>,
      cursor: nat, ghost xs: seq<Pending>, ghost done: nat)
    returns (next: nat, claimed: nat, processed: seq<nat>, raised: bool, ghost done': nat)
    requires 1 <= count && Sorted(xs) && Paged(list, xs, minIdle, needsData, acks, done, cursor)
    modifies list
    ensures done' == done + Scanned(xs[done..], minIdle, count) <= |xs|
    ensures claimed == |Due(xs[done..done'], minIdle)|
    ensures raised == (Stop(Due(xs[done..done'], minIdle), needsData, raises) < claimed)
    ensures processed == Ids(Due(xs[done..done'], minIdle)[..Stop(Due(xs[done..done'], minIdle), needsData, raises)],
        needsData)
    ensures next == 0 <==> done' == |xs|
    ensures next != 0 && !raised ==> done < done' && Paged(list, xs, minIdle, needsData, acks, done', next)
    ensures list.entries == Leftover(xs, minIdle, needsData, acks, done, done',
        Stop(Due(xs[done..done'], minIdle), needsData, raises))
  {
    var page;
    next, page, done' := ClaimPage(list, minIdle, count, needsData, acks, cursor, xs, done);
    PageLeaves(xs, minIdle, needsData, acks, done, done', Stop(page, needsData, raises));
    claimed := |page|;
    processed, raised := ProcessPage(list, page, needsData, acks, raises);
    WholePage(xs, minIdle, needsData, acks, done, done');
  }

  /**
   The list when the first `done` entries are done with, those up to done' are claimed, and `stop` of these
   processed.
   */
  function Leftover(xs: seq<Pending>, minIdle: int, needsData: bool, acks: set<nat>, done: nat, done': nat,
      stop: nat): seq<Pending>
    requires done <= done' <= |xs| && stop <= |Due(xs[done..done'], minIdle)|
  {
    Dropped(Claimed(xs[..done'], minIdle),
            Acked(Due(xs[..done], minIdle) + Due(xs[done..done'], minIdle)[..stop], needsData, acks))
    + xs[done'..]
  }

  /**
   One sweep over a list that nobody else claims from.  `acks` are the messages whose processing ends with an
   acknowledgement, and `raises` those whose processing ends the sweep with an exception; the others stay pending,
   freshly claimed.
   */
  method Sweep(list: PendingList, minIdle: int, count: nat, needsData: bool, acks: set<nat>, raises: set<nat>)
    returns (processed: seq<nat>)
    requires 1 <= count && Sorted(list.entries)
    modifies list
    ensures var xs := old(list.entries);
            var n := SweptLen(xs, minIdle, count, needsData, raises);
            var due := Due(xs[..n], minIdle);
            var stop := Stop(due, needsData, raises);
            && processed == Ids(due[..stop], needsData)
            && list.entries == Dropped(Claimed(xs[..n], minIdle), Acked(due[..stop], needsData, acks)) + xs[n..]
  {
    hide Due, Ids, Stop, Dropped, Claimed, Acked, Leftover, SweptLen, Sorted, Scanned, Paged, Behind;
    ghost var xs := list.entries;
    ghost var done := 0;
    processed := [];
    var cursor := 0;
    NothingSwept(list, minIdle, count, needsData, acks, raises);
    while true
      invariant Paged(list, xs, minIdle, needsData, acks, done, cursor)
      invariant Behind(xs, minIdle, count, needsData, raises, done, processed)
      invariant done <= |xs|
      decreases |xs| - done
    {
      var next, claimed, ids, raised;
      ghost var done';
      next, claimed, ids, raised, done' := SweepPage(list, minIdle, count, needsData, acks, raises, cursor, xs, done);
      if raised || next == 0 || claimed == 0 {
        SweepEnds(xs, minIdle, count, needsData, acks, raises, done, done', processed);
        processed := processed + ids;
        return;
      }
      SweepGoesOn(xs, minIdle, count, needsData, acks, raises, done, done', processed);
      processed := processed + ids;
      done, cursor := done', next;
    }
  }

  /** The sweep has processed the idle messages of the first `done` entries, none of which ended it. */
  ghost predicate Behind(xs: seq<Pending>, minIdle: int, count: nat, needsData: bool, raises: set<nat>, done: nat,
      processed: seq<nat>)
    requires 1 <= count
  {
    && done <= |xs|
    && processed == Ids(Due(xs[..done], minIdle), needsData)
    && NoneRaises(Due(xs[..done], minIdle), needsData, raises)
    && SweptFrom(xs, minIdle, count, needsData, raises, done) == SweptLen(xs, minIdle, count, needsData, raises)
  }

  // ---------------------------------------------------------------- proof of the sweep

  lemma {:induction false} DroppedNone(xs: seq<Pending>, ids: set<nat>)
    requires forall x | x in xs :: x.id !in ids
    ensures Dropped(xs, ids) == xs
  {
    if |xs| > 0 {
      DroppedNone(xs[1..], ids);
    }
  }

  lemma {:induction false} DroppedTwice(xs: seq<Pending>, a: set<nat>, b: set<nat>)
    ensures Dropped(Dropped(xs, a), b) == Dropped(xs, a + b)
  {
    if |xs| > 0 {
      DroppedTwice(xs[1..], a, b);
      if xs[0].id in a {
        assert Dropped(xs, a) == Dropped(xs[1..], a);
      } else {
        assert Dropped(xs, a)[1..] == Dropped(xs[1..], a);
      }
    }
  }

  lemma {:induction false} DroppedConcat(xs: seq<Pending>, ys: seq<Pending>, ids: set<nat>)
    ensures Dropped(xs + ys, ids) == Dropped(xs, ids) + Dropped(ys, ids)
  {
    if |xs| == 0 {
      assert xs + ys == ys;
    } else {
      assert (xs + ys)[1..] == xs[1..] + ys;
      DroppedConcat(xs[1..], ys, ids);
    }
  }

  lemma {:induction false} DueConcat(xs: seq<Pending>, ys: seq<Pending>, minIdle: int)
    ensures Due(xs + ys, minIdle) == Due(xs, minIdle) + Due(ys, minIdle)
  {
    if |xs| == 0 {
      assert xs + ys == ys;
    } else {
      assert (xs + ys)[1..] == xs[1..] + ys;
      DueConcat(xs[1..], ys, minIdle);
    }
  }

  lemma {:induction false} ClaimedConcat(xs: seq<Pending>, ys: seq<Pending>, minIdle: int)
    ensures Claimed(xs + ys, minIdle) == Claimed(xs, minIdle) + Claimed(ys, minIdle)
  {
    if |xs| == 0 {
      assert xs + ys == ys;
    } else {
      assert (xs + ys)[1..] == xs[1..] + ys;
      ClaimedConcat(xs[1..], ys, minIdle);
    }
  }

  lemma {:induction false} IdsConcat(xs: seq<Pending>, ys: seq<Pending>, needsData: bool)
    ensures Ids(xs + ys, needsData) == Ids(xs, needsData) + Ids(ys, needsData)
  {
    if |ys| == 0 {
      assert xs + ys == xs;
    } else {
      assert (xs + ys)[..|xs + ys| - 1] == xs + ys[..|ys| - 1];
      IdsConcat(xs, ys[..|ys| - 1], needsData);
    }
  }

  /** The due entries are among the entries, and exactly the idle ones. */
  lemma {:induction false} DueMembers(xs: seq<Pending>, minIdle: int, x: Pending)
    ensures x in Due(xs, minIdle) <==> x in xs && x.idle >= minIdle
  {
    if |xs| > 0 {
      DueMembers(xs[1..], minIdle, x);
    }
  }

  /** Claiming and dropping leave no entry that was not there. */
  lemma {:induction false} LeftoverIds(xs: seq<Pending>, minIdle: int, ids: set<nat>, x: Pending)
    requires x in Dropped(Claimed(xs, minIdle), ids) || x in Claimed(xs, minIdle)
    ensures exists y :: y in xs && y.id == x.id
  {
    if |xs| > 0 {
      var zs := Claimed(xs, minIdle);
      assert zs[1..] == Claimed(xs[1..], minIdle);
      if x.id == xs[0].id {
        assert xs[0] in xs;
      } else {
        LeftoverIds(xs[1..], minIdle, ids, x);
      }
    }
  }

  lemma {:induction false} FromSkips(front: seq<Pending>, tail: seq<Pending>, start: nat)
    requires forall x | x in front :: x.id < start
    requires |tail| == 0 || start <= tail[0].id
    ensures From(front + tail, start) == tail && Before(front + tail, start) == front
  {
    if |front| == 0 {
      assert front + tail == tail;
    } else {
      assert (front + tail)[1..] == front[1..] + tail;
      FromSkips(front[1..], tail, start);
    }
  }

  /** The cursor leads back to the first entry not paged through yet. */
  lemma CursorFinds(xs: seq<Pending>, minIdle: int, needsData: bool, acks: set<nat>, done: nat, cursor: nat)
    requires Sorted(xs) && done <= |xs| && (if done == 0 then cursor == 0 else done < |xs| && cursor == xs[done].id)
    ensures var front := Remaining(xs[..done], minIdle, needsData, acks);
            From(front + xs[done..], cursor) == xs[done..] && Before(front + xs[done..], cursor) == front
  {
    var front := Remaining(xs[..done], minIdle, needsData, acks);
    forall x | x in front ensures x.id < cursor {
      LeftoverIds(xs[..done], minIdle, Acked(Due(xs[..done], minIdle), needsData, acks), x);
    }
    FromSkips(front, xs[done..], cursor);
  }

  /** Dropping the acknowledged messages of one page touches that page alone. */
  lemma PageLeaves(xs: seq<Pending>, minIdle: int, needsData: bool, acks: set<nat>, done: nat, done': nat, stop: nat)
    requires Sorted(xs) && done <= done' <= |xs| && stop <= |Due(xs[done..done'], minIdle)|
    ensures Dropped(Remaining(xs[..done], minIdle, needsData, acks) + Claimed(xs[done..done'], minIdle) + xs[done'..],
                    Acked(Due(xs[done..done'], minIdle)[..stop], needsData, acks))
            == Leftover(xs, minIdle, needsData, acks, done, done', stop)
  {
    var before, here, behind := xs[..done], xs[done..done'], xs[done'..];
    var page := Due(here, minIdle)[..stop];
    var old', new' := Acked(Due(before, minIdle), needsData, acks), Acked(page, needsData, acks);
    var front := Remaining(before, minIdle, needsData, acks);
    assert xs[..done'] == before + here;
    ClaimedConcat(before, here, minIdle);
    assert Acked(Due(before, minIdle) + page, needsData, acks) == old' + new';
    DroppedConcat(front + Claimed(here, minIdle), behind, new');
    DroppedConcat(front, Claimed(here, minIdle), new');
    DroppedConcat(Claimed(before, minIdle), Claimed(here, minIdle), old' + new');
    DroppedTwice(Claimed(before, minIdle), old', new');
    DroppedTwice(Claimed(here, minIdle), old', new');
    forall x | x in Claimed(here, minIdle) ensures x.id !in old' {
      Apart(xs, minIdle, needsData, acks, done, done', x);
    }
    DroppedNone(Claimed(here, minIdle), old');
    forall x | x in behind ensures x.id !in new' {
      assert forall y | y in page :: y in Due(here, minIdle);
      AckedAreListed(here, minIdle, needsData, acks, x.id);
    }
    DroppedNone(behind, new');
  }

  /** A page processed to its end is done with. */
  lemma WholePage(xs: seq<Pending>, minIdle: int, needsData: bool, acks: set<nat>, done: nat, done': nat)
    requires done <= done' <= |xs|
    ensures Leftover(xs, minIdle, needsData, acks, done, done', |Due(xs[done..done'], minIdle)|)
            == Remaining(xs[..done'], minIdle, needsData, acks) + xs[done'..]
  {
    var page := Due(xs[done..done'], minIdle);
    assert page[..|page|] == page && xs[..done'] == xs[..done] + xs[done..done'];
    DueConcat(xs[..done], xs[done..done'], minIdle);
  }

  predicate NoneRaises(page: seq<Pending>, needsData: bool, raises: set<nat>) {
    Stop(page, needsData, raises) == |page|
  }

  lemma {:induction false} StopConcat(a: seq<Pending>, b: seq<Pending>, needsData: bool, raises: set<nat>)
    requires NoneRaises(a, needsData, raises)
    ensures Stop(a + b, needsData, raises) == |a| + Stop(b, needsData, raises)
  {
    if |a| == 0 {
      assert a + b == b;
    } else {
      assert (a + b)[1..] == a[1..] + b;
      StopConcat(a[1..], b, needsData, raises);
    }
  }

  /** What has been processed after one more page, given that none raised before. */
  lemma PageProcessed(xs: seq<Pending>, minIdle: int, needsData: bool, acks: set<nat>, raises: set<nat>, done: nat,
      done': nat)
    requires done <= done' <= |xs| && NoneRaises(Due(xs[..done], minIdle), needsData, raises)
    ensures var due, page := Due(xs[..done'], minIdle), Due(xs[done..done'], minIdle);
            var stop, here := Stop(due, needsData, raises), Stop(page, needsData, raises);
            && Ids(due[..stop], needsData) == Ids(Due(xs[..done], minIdle), needsData) + Ids(page[..here], needsData)
            && due[..stop] == Due(xs[..done], minIdle) + page[..here]
            && (here == |page| ==> NoneRaises(due, needsData, raises) && due[..stop] == due)
  {
    hide Due, Ids, Stop;
    var page := Due(xs[done..done'], minIdle);
    var here := Stop(page, needsData, raises);
    assert xs[..done'] == xs[..done] + xs[done..done'];
    DueConcat(xs[..done], xs[done..done'], minIdle);
    StopConcat(Due(xs[..done], minIdle), page, needsData, raises);
    IdsConcat(Due(xs[..done], minIdle), page[..here], needsData);
    assert (Due(xs[..done], minIdle) + page)[..|Due(xs[..done], minIdle)| + here]
      == Due(xs[..done], minIdle) + page[..here];
  }

  lemma SweptStep(xs: seq<Pending>, minIdle: int, count: nat, needsData: bool, raises: set<nat>, done: nat, done': nat)
    requires 1 <= count && done <= |xs| && done' == done + Scanned(xs[done..], minIdle, count)
    ensures done' <= |xs|
    ensures SweptFrom(xs, minIdle, count, needsData, raises, done) ==
            if done' == |xs| || EndsSweep(Due(xs[done..done'], minIdle), needsData, raises) then done'
            else SweptFrom(xs, minIdle, count, needsData, raises, done')
  {
    assert xs[done..][..done' - done] == xs[done..done'] && xs[done..][done' - done..] == xs[done'..];
  }

  lemma NothingSwept(list: PendingList, minIdle: int, count: nat, needsData: bool, acks: set<nat>, raises: set<nat>)
    requires 1 <= count
    ensures Paged(list, list.entries, minIdle, needsData, acks, 0, 0)
    ensures Behind(list.entries, minIdle, count, needsData, raises, 0, [])
  {
    assert list.entries[..0] == [] && list.entries[0..] == list.entries;
  }

  lemma SweepEnds(xs: seq<Pending>, minIdle: int, count: nat, needsData: bool, acks: set<nat>, raises: set<nat>,
      done: nat, done': nat, processed: seq<nat>)
    requires 1 <= count && Behind(xs, minIdle, count, needsData, raises, done, processed)
    requires done' == done + Scanned(xs[done..], minIdle, count) <= |xs|
    requires done' == |xs| || EndsSweep(Due(xs[done..done'], minIdle), needsData, raises)
    ensures var due, page := Due(xs[..done'], minIdle), Due(xs[done..done'], minIdle);
            var stop, here := Stop(due, needsData, raises), Stop(page, needsData, raises);
            && done' == SweptLen(xs, minIdle, count, needsData, raises)
            && processed + Ids(page[..here], needsData) == Ids(due[..stop], needsData)
            && Leftover(xs, minIdle, needsData, acks, done, done', here)
               == Dropped(Claimed(xs[..done'], minIdle), Acked(due[..stop], needsData, acks)) + xs[done'..]
  {
    hide Ids, Due, Dropped, Claimed, Acked, SweptLen, Stop, EndsSweep, Scanned, NoneRaises;
    PageProcessed(xs, minIdle, needsData, acks, raises, done, done');
    SweptStep(xs, minIdle, count, needsData, raises, done, done');
  }

  lemma SweepGoesOn(xs: seq<Pending>, minIdle: int, count: nat, needsData: bool, acks: set<nat>, raises: set<nat>,
      done: nat, done': nat, processed: seq<nat>)
    requires 1 <= count && Behind(xs, minIdle, count, needsData, raises, done, processed)
    requires done' == done + Scanned(xs[done..], minIdle, count) < |xs|
    requires !EndsSweep(Due(xs[done..done'], minIdle), needsData, raises)
    ensures var page := Due(xs[done..done'], minIdle);
            Behind(xs, minIdle, count, needsData, raises, done',
                   processed + Ids(page[..Stop(page, needsData, raises)], needsData))
  {
    hide Ids, Due, Dropped, Claimed, Acked, SweptLen, Scanned;
    PageProcessed(xs, minIdle, needsData, acks, raises, done, done');
    SweptStep(xs, minIdle, count, needsData, raises, done, done');
  }

  lemma AckedAreListed(xs: seq<Pending>, minIdle: int, needsData: bool, acks: set<nat>, id: nat)
    ensures id in Acked(Due(xs, minIdle), needsData, acks) ==> exists y :: y in xs && y.id == id
  {
    if id in Acked(Due(xs, minIdle), needsData, acks) {
      var y :| y in Due(xs, minIdle) && y.id == id;
      DueMembers(xs, minIdle, y);
    }
  }

  lemma Apart(xs: seq<Pending>, minIdle: int, needsData: bool, acks: set<nat>, done: nat, done': nat, x: Pending)
    requires Sorted(xs) && done <= done' <= |xs| && x in Claimed(xs[done..done'], minIdle)
    ensures x.id !in Acked(Due(xs[..done], minIdle), needsData, acks)
  {
    LeftoverIds(xs[done..done'], minIdle, {}, x);
    AckedAreListed(xs[..done], minIdle, needsData, acks, x.id);
  }

  // ---------------------------------------------------------------- what a sweep reaches

  /** The pages that calls would return one after the other, up to the end of the list. */
  function Pages(xs: seq<Pending>, minIdle: int, count: nat): seq<seq<Pending>>
    requires 1 <= count
  {
    var n := Scanned(xs, minIdle, count);
    [Due(xs[..n], minIdle)] + if n == |xs| then [] else Pages(xs[n..], minIdle, count)
  }

  function Flatten(pages: seq<seq<Pending>>): seq<Pending> {
    if |pages| == 0 then [] else pages[0] + Flatten(pages[1..])
  }

  predicate AllEmpty(pages: seq<seq<Pending>>) {
    forall i | 0 <= i < |pages| :: pages[i] == []
  }

  /** No empty page has a non-empty one behind it. */
  predicate EmptyLast(pages: seq<seq<Pending>>) {
    forall i, j | 0 <= i < j < |pages| && pages[i] == [] :: pages[j] == []
  }

  lemma {:induction false} FlattenEmpty(pages: seq<seq<Pending>>)
    ensures Flatten(pages) == [] <==> AllEmpty(pages)
  {
    if |pages| > 0 {
      FlattenEmpty(pages[1..]);
      if AllEmpty(pages[1..]) && pages[0] == [] {
        assert forall i | 1 <= i < |pages| :: pages[i] == pages[1..][i - 1];
      }
      if AllEmpty(pages) {
        assert pages[0] == [];
      }
    }
  }

  /** Paging to the end claims every idle entry once, in order, wherever the pages fall. */
  lemma {:induction false} PagesCover(xs: seq<Pending>, minIdle: int, count: nat)
    requires 1 <= count
    ensures Flatten(Pages(xs, minIdle, count)) == Due(xs, minIdle)
  {
    var n := Scanned(xs, minIdle, count);
    var page := Due(xs[..n], minIdle);
    if n == |xs| {
      assert xs[..n] == xs;
      assert [page] + [] == [page];
      assert Flatten([page]) == page + Flatten([]);
    } else {
      PagesCover(xs[n..], minIdle, count);
      DueConcat(xs[..n], xs[n..], minIdle);
      assert xs[..n] + xs[n..] == xs;
      assert Pages(xs, minIdle, count)[1..] == Pages(xs[n..], minIdle, count);
    }
  }

  lemma EmptyLastStep(page: seq<Pending>, pages: seq<seq<Pending>>)
    ensures EmptyLast([page] + pages) <==> if page == [] then AllEmpty(pages) else EmptyLast(pages)
  {
    var all := [page] + pages;
    assert forall i | 0 <= i < |pages| :: all[i + 1] == pages[i];
    if EmptyLast(all) {
      assert all[0] == page;
      forall i, j | 0 <= i < j < |pages| && pages[i] == [] ensures pages[j] == [] {
        assert all[i + 1] == [];
        assert all[j + 1] == pages[j];
      }
    }
  }

  /** How far a sweep gets in which no message raises. */
  function Swept(xs: seq<Pending>, minIdle: int, count: nat): (n: nat)
    requires 1 <= count
    ensures n <= |xs|
  {
    SweptLen(xs, minIdle, count, false, {})
  }

  lemma {:induction false} NoRaises(xs: seq<Pending>, needsData: bool, raises: set<nat>)
    ensures NoneRaises(xs, needsData, raises) <==> forall x | x in xs :: !Raises(needsData, raises, x)
  {
    if |xs| > 0 {
      NoRaises(xs[1..], needsData, raises);
    }
  }

  /** The sweep gets as far with other messages to raise, as long as none of the idle ones does. */
  lemma {:induction false} SweptWithout(xs: seq<Pending>, minIdle: int, count: nat, needsData: bool, raises: set<nat>)
    requires 1 <= count && NoneRaises(Due(xs, minIdle), needsData, raises)
    ensures SweptLen(xs, minIdle, count, needsData, raises) == Swept(xs, minIdle, count)
  {
    var n := Scanned(xs, minIdle, count);
    var page := Due(xs[..n], minIdle);
    assert xs[..n] + xs[n..] == xs;
    DueConcat(xs[..n], xs[n..], minIdle);
    NoRaises(Due(xs, minIdle), needsData, raises);
    NoRaises(page, needsData, raises);
    NoRaises(page, false, {});
    NoRaises(Due(xs[n..], minIdle), needsData, raises);
    if n < |xs| && page != [] {
      SweptWithout(xs[n..], minIdle, count, needsData, raises);
    }
  }

  /**
   What a sweep leaves of the entries it has paged through: those that have not been acknowledged, an idle one with
   its idle time started anew.
   */
  lemma {:induction false} Leaves(xs: seq<Pending>, minIdle: int, ids: set<nat>, x: Pending)
    ensures x in Dropped(Claimed(xs, minIdle), ids) <==>
            && x.id !in ids
            && exists y :: y in xs && y.id == x.id && y.data == x.data
                           && x.idle == if y.idle >= minIdle then 0 else y.idle
  {
    if |xs| > 0 {
      Leaves(xs[1..], minIdle, ids, x);
      var zs := Claimed(xs, minIdle);
      assert zs[1..] == Claimed(xs[1..], minIdle);
      if y :| y in xs && y.id == x.id && y.data == x.data && x.idle == (if y.idle >= minIdle then 0 else y.idle) {
        assert y == xs[0] || y in xs[1..];
      }
      assert xs[0] in xs;
    }
  }

  /** Acknowledged are the messages of a page that were processed and whose processing ends with it. */
  lemma AckedMembers(page: seq<Pending>, needsData: bool, acks: set<nat>, id: nat)
    ensures id in Acked(page, needsData, acks) <==>
            id in acks && exists x :: x in page && (needsData ==> x.data) && x.id == id
  {
  }

  /** The messages before the first that raises: none of them does, and the next one does if there is one. */
  lemma {:induction false} StopExact(page: seq<Pending>, needsData: bool, raises: set<nat>)
    ensures var n := Stop(page, needsData, raises);
            && (forall x | x in page[..n] :: (needsData ==> x.data) ==> x.id !in raises)
            && (n < |page| ==> (needsData ==> page[n].data) && page[n].id in raises)
  {
    if |page| > 0 && !Raises(needsData, raises, page[0]) {
      StopExact(page[1..], needsData, raises);
      var n := Stop(page, needsData, raises);
      assert page[..n] == [page[0]] + page[1..][..n - 1];
    }
  }

  /**
   A page ends with the last message that it may claim, with the tenth entry for every message that it may claim, or
   with the list, whichever comes first.
   */
  lemma {:induction false} PageExact(xs: seq<Pending>, minIdle: int, scan: nat, count: nat)
    ensures var n := PageLen(xs, minIdle, scan, count);
            && n <= scan && |Due(xs[..n], minIdle)| <= count
            && (n < |xs| ==> n == scan || |Due(xs[..n], minIdle)| == count)
            && (0 < n ==> |Due(xs[..n - 1], minIdle)| < count)
  {
    if |xs| > 0 && scan > 0 && count > 0 {
      var count' := if xs[0].idle >= minIdle then count - 1 else count;
      PageExact(xs[1..], minIdle, scan - 1, count');
      var n := PageLen(xs, minIdle, scan, count);
      assert xs[..n] == [xs[0]] + xs[1..][..n - 1];
      if n > 1 {
        assert xs[..n - 1] == [xs[0]] + xs[1..][..n - 2];
      }
    }
  }

  /** A sweep reaches every idle entry exactly when no empty page has a non-empty one behind it. */
  lemma {:induction false} CompleteIff(xs: seq<Pending>, minIdle: int, count: nat)
    requires 1 <= count
    ensures Due(xs[..Swept(xs, minIdle, count)], minIdle) == Due(xs, minIdle) <==> EmptyLast(Pages(xs, minIdle, count))
  {
    hide Flatten, PageLen;
    var n := Scanned(xs, minIdle, count);
    var page := Due(xs[..n], minIdle);
    if n == |xs| {
      assert xs[..n] == xs;
      assert Pages(xs, minIdle, count) == [page];
    } else {
      var rest := Pages(xs[n..], minIdle, count);
      assert xs[..n] + xs[n..] == xs;
      DueConcat(xs[..n], xs[n..], minIdle);
      EmptyLastStep(page, rest);
      PagesCover(xs[n..], minIdle, count);
      FlattenEmpty(rest);
      if page != [] {
        NoRaises(page, false, {});
        CompleteIff(xs[n..], minIdle, count);
        SweptOn(xs, minIdle, n, Swept(xs[n..], minIdle, count));
      }
    }
  }

  lemma SweptOn(xs: seq<Pending>, minIdle: int, n: nat, m: nat)
    requires n + m <= |xs|
    ensures Due(xs[..n + m], minIdle) == Due(xs, minIdle) <==> Due(xs[n..][..m], minIdle) == Due(xs[n..], minIdle)
  {
    assert xs[..n] + xs[n..] == xs && xs[..n + m] == xs[..n] + xs[n..][..m];
    DueConcat(xs[..n], xs[n..], minIdle);
    DueConcat(xs[..n], xs[n..][..m], minIdle);
    Cancel(Due(xs[..n], minIdle), Due(xs[n..][..m], minIdle), Due(xs[n..], minIdle));
  }

  lemma Cancel(a: seq<Pending>, x: seq<Pending>, y: seq<Pending>)
    ensures a + x == a + y <==> x == y
  {
    assert x == (a + x)[|a|..] && y == (a + y)[|a|..];
  }

  /** A stretch of recently delivered entries as long as one scan hides every idle entry behind it. */
  lemma GapHides(xs: seq<Pending>, minIdle: int, count: nat)
    requires 1 <= count && 10 * count < |xs|
    requires forall i | 0 <= i < 10 * count :: xs[i].idle < minIdle
    ensures Due(xs[..Swept(xs, minIdle, count)], minIdle) == []
  {
    FreshPage(xs, minIdle, 10 * count, count);
  }

  lemma {:induction false} FreshPage(xs: seq<Pending>, minIdle: int, scan: nat, count: nat)
    requires 1 <= count && scan <= |xs|
    requires forall i | 0 <= i < scan :: xs[i].idle < minIdle
    ensures PageLen(xs, minIdle, scan, count) == scan && Due(xs[..scan], minIdle) == []
  {
    if scan > 0 {
      FreshPage(xs[1..], minIdle, scan - 1, count);
      assert xs[..scan][1..] == xs[1..][..scan - 1];
    }
  }

  lemma {:induction false} IdsMembers(xs: seq<Pending>, needsData: bool, id: nat)
    ensures id in Ids(xs, needsData) <==> exists x :: x in xs && Handles(needsData, x) && x.id == id
  {
    if |xs| > 0 {
      IdsMembers(xs[..|xs| - 1], needsData, id);
      assert xs == xs[..|xs| - 1] + [xs[|xs| - 1]];
    }
  }

  lemma {:induction false} IdsAscend(xs: seq<Pending>, needsData: bool)
    requires Sorted(xs)
    ensures forall i, j | 0 <= i < j < |Ids(xs, needsData)| :: Ids(xs, needsData)[i] < Ids(xs, needsData)[j]
  {
    if |xs| > 0 {
      var front, last := xs[..|xs| - 1], xs[|xs| - 1];
      IdsAscend(front, needsData);
      forall i | 0 <= i < |Ids(front, needsData)| ensures Ids(front, needsData)[i] < last.id {
        IdsMembers(front, needsData, Ids(front, needsData)[i]);
      }
    }
  }

  lemma {:induction false} DueSorted(xs: seq<Pending>, minIdle: int)
    requires Sorted(xs)
    ensures Sorted(Due(xs, minIdle))
  {
    if |xs| > 0 {
      DueSorted(xs[1..], minIdle);
      var due := Due(xs[1..], minIdle);
      forall k | 0 <= k < |due| ensures xs[0].id < due[k].id {
        DueMembers(xs[1..], minIdle, due[k]);
      }
      assert Sorted([xs[0]] + due);
    }
  }

  /**
   When no empty page has a non-empty one behind it and none of them raises, a sweep processes every entry that is
   idle for long enough, no other, and none twice.
   */
  lemma SweepExactlyOnce(xs: seq<Pending>, minIdle: int, count: nat, needsData: bool, raises: set<nat>, id: nat)
    requires 1 <= count && Sorted(xs) && EmptyLast(Pages(xs, minIdle, count))
    requires NoneRaises(Due(xs, minIdle), needsData, raises)
    ensures var due := Due(xs[..SweptLen(xs, minIdle, count, needsData, raises)], minIdle);
            var processed := Ids(due[..Stop(due, needsData, raises)], needsData);
            && (id in processed <==>
                  exists x :: x in xs && x.idle >= minIdle && (needsData ==> x.data) && x.id == id)
            && (forall i, j | 0 <= i < j < |processed| :: processed[i] < processed[j])
  {
    SweptWithout(xs, minIdle, count, needsData, raises);
    CompleteIff(xs, minIdle, count);
    assert Due(xs, minIdle)[..|Due(xs, minIdle)|] == Due(xs, minIdle);
    DueSorted(xs, minIdle);
    IdsMembers(Due(xs, minIdle), needsData, id);
    IdsAscend(Due(xs, minIdle), needsData);
    forall x ensures x in Due(xs, minIdle) <==> x in xs && x.idle >= minIdle {
      DueMembers(xs, minIdle, x);
    }
  }

  // ---------------------------------------------------------------- one page each period

  /** The transaction consumer claims this many messages each period. */
  const PERIOD_COUNT := 50

  /** The entries that a call from this cursor claims. */
  function PageAt(xs: seq<Pending>, minIdle: int, start: nat, count: nat): seq<Pending>
    requires 1 <= count
  {
    var tail := From(xs, start);
    Due(tail[..Scanned(tail, minIdle, count)], minIdle)
  }

  /** The cursor that it answers. */
  function NextCursor(xs: seq<Pending>, minIdle: int, start: nat, count: nat): nat
    requires 1 <= count
  {
    var tail := From(xs, start);
    var n := Scanned(tail, minIdle, count);
    if n == |tail| then 0 else tail[n].id
  }

  /** The list once the page is claimed. */
  function ListAfter(xs: seq<Pending>, minIdle: int, start: nat, count: nat): seq<Pending>
    requires 1 <= count
  {
    var tail := From(xs, start);
    var n := Scanned(tail, minIdle, count);
    Before(xs, start) + Claimed(tail[..n], minIdle) + tail[n..]
  }

  /** One period: the cursor moves on before the messages are processed, so that one that raises cannot hold it back. */
  method ReclaimPage(list: PendingList, minIdle: int, start: nat, acks: set<nat>, raises: set<nat>)
    returns (next: nat, processed: seq<nat>)
    modifies list
    ensures next == NextCursor(old(list.entries), minIdle, start, 50)
    ensures var xs := old(list.entries);
            var page := PageAt(xs, minIdle, start, 50);
            var done := page[..Stop(page, false, raises)];
            && processed == Ids(done, false)
            && list.entries == Dropped(ListAfter(xs, minIdle, start, 50), Acked(done, false, acks))
  {
    var page, raised;
    next, page := list.AutoClaim(minIdle, start, PERIOD_COUNT);
    processed, raised := ProcessPage(list, page, false, acks, raises);
  }

  /** Period by period, each call starts where the one before it ended; other calls may change the list in between. */
  predicate Periods(lists: seq<seq<Pending>>, cursors: seq<nat>, minIdle: int, count: nat)
    requires 1 <= count
  {
    && |cursors| == |lists| + 1
    && (forall i | 0 <= i < |lists| :: Sorted(lists[i]))
    && forall i | 0 <= i < |lists| :: cursors[i + 1] == NextCursor(lists[i], minIdle, cursors[i], count)
  }

  predicate IdleIn(xs: seq<Pending>, minIdle: int, id: nat) {
    exists x :: x in xs && x.id == id && x.idle >= minIdle
  }

  predicate ClaimedIn(lists: seq<seq<Pending>>, cursors: seq<nat>, minIdle: int, count: nat, id: nat, i: nat)
    requires 1 <= count && i < |lists| <= |cursors|
  {
    IdleIn(PageAt(lists[i], minIdle, cursors[i], count), minIdle, id)
  }

  /** The entry is pending and idle for long enough in every period up to the one that claims it. */
  predicate IdleUntilClaimed(lists: seq<seq<Pending>>, cursors: seq<nat>, minIdle: int, count: nat, id: nat)
    requires 1 <= count && |lists| <= |cursors|
  {
    forall i | 0 <= i < |lists| ::
      IdleIn(lists[i], minIdle, id) || exists j | 0 <= j < i :: ClaimedIn(lists, cursors, minIdle, count, id, j)
  }

  /** The listed ids between two. */
  function Between(xs: seq<Pending>, low: nat, high: nat): set<nat> {
    set x | x in xs && low <= x.id < high :: x.id
  }

  /** Only new messages, with greater ids than any before, are added to the list. */
  predicate NoneAddedBelow(lists: seq<seq<Pending>>, id: nat) {
    forall i | 0 < i < |lists| :: Between(lists[i], 0, id) <= Between(lists[i - 1], 0, id)
  }

  lemma {:induction false} FromBefore(xs: seq<Pending>, start: nat)
    requires Sorted(xs)
    ensures Before(xs, start) + From(xs, start) == xs
    ensures forall x | x in Before(xs, start) :: x.id < start
    ensures forall x | x in From(xs, start) :: start <= x.id
  {
    if |xs| > 0 && xs[0].id < start {
      FromBefore(xs[1..], start);
    } else if |xs| > 0 {
      assert forall x | x in xs :: xs[0].id <= x.id;
    }
  }

  /** A call that does not get to the end of the list looks at `count` entries at least. */
  lemma {:induction false} LooksAtCount(xs: seq<Pending>, minIdle: int, scan: nat, count: nat)
    ensures PageLen(xs, minIdle, scan, count) == |xs| ||
      PageLen(xs, minIdle, scan, count) >= if scan < count then scan else count
  {
    if |xs| > 0 && scan > 0 && count > 0 {
      LooksAtCount(xs[1..], minIdle, scan - 1, if xs[0].idle >= minIdle then count - 1 else count);
    }
  }

  /** An idle entry from the cursor on is claimed, or the answered cursor has not passed it. */
  lemma ClaimsUpToNext(xs: seq<Pending>, minIdle: int, start: nat, count: nat, id: nat)
    requires 1 <= count && Sorted(xs) && start <= id && IdleIn(xs, minIdle, id)
    ensures IdleIn(PageAt(xs, minIdle, start, count), minIdle, id) ||
      start < NextCursor(xs, minIdle, start, count) <= id
  {
    hide Sorted, From, Due, Scanned;
    var tail := From(xs, start);
    var n := Scanned(tail, minIdle, count);
    var x :| x in xs && x.id == id && x.idle >= minIdle;
    assert x in tail by {
      FromBefore(xs, start);
    }
    var k :| 0 <= k < |tail| && tail[k] == x;
    if k < n {
      assert tail[..n][k] == x;
      DueMembers(tail[..n], minIdle, x);
    } else {
      NextBetween(xs, minIdle, start, count, k);
    }
  }

  lemma NextBetween(xs: seq<Pending>, minIdle: int, start: nat, count: nat, k: nat)
    requires 1 <= count && Sorted(xs)
    requires var tail := From(xs, start); Scanned(tail, minIdle, count) <= k < |tail|
    ensures start < NextCursor(xs, minIdle, start, count) <= From(xs, start)[k].id
  {
    hide PageLen, From;
    var tail := From(xs, start);
    TailSorted(xs, start);
    assert start <= tail[0].id by {
      FromBefore(xs, start);
      assert tail[0] in tail;
    }
  }

  lemma {:induction false} TailSorted(xs: seq<Pending>, start: nat)
    requires Sorted(xs)
    ensures Sorted(From(xs, start))
  {
    if |xs| > 0 && xs[0].id < start {
      TailSorted(xs[1..], start);
    }
  }

  /** Each call that does not claim the entry brings the cursor nearer to it by `count` entries. */
  lemma Nearer(xs: seq<Pending>, minIdle: int, start: nat, count: nat, id: nat)
    requires 1 <= count && Sorted(xs) && start <= id
    requires var next := NextCursor(xs, minIdle, start, count); start < next <= id
    ensures |Between(xs, NextCursor(xs, minIdle, start, count), id)| + count <= |Between(xs, start, id)|
  {
    hide PageLen, From, Sorted, Between;
    TailSorted(xs, start);
    var tail := From(xs, start);
    var n := Scanned(tail, minIdle, count);
    LooksAtCount(tail, minIdle, 10 * count, count);
    assert forall x | x in tail :: x in xs && start <= x.id by {
      FromBefore(xs, start);
    }
    Passed(xs, tail, start, n, id);
  }

  lemma Passed(xs: seq<Pending>, tail: seq<Pending>, start: nat, n: nat, id: nat)
    requires Sorted(tail) && n < |tail| && start <= tail[n].id <= id && forall x | x in tail :: x in xs && start <= x.id
    ensures |Between(xs, tail[n].id, id)| + n <= |Between(xs, start, id)|
  {
    hide Sorted;
    var passed, ahead := IdSet(tail[..n]), Between(xs, tail[n].id, id);
    assert Sorted(tail[..n]) && forall x | x in tail[..n] :: x in tail && x.id < tail[n].id by {
      FrontSorted(tail, n);
    }
    IdsDistinct(tail[..n]);
    assert passed !! ahead;
    assert passed + ahead <= Between(xs, start, id);
    CardGrows(passed + ahead, Between(xs, start, id));
  }

  lemma FrontSorted(xs: seq<Pending>, n: nat)
    requires Sorted(xs) && n < |xs|
    ensures Sorted(xs[..n]) && forall x | x in xs[..n] :: x in xs && x.id < xs[n].id
  {
    forall x | x in xs[..n] ensures x in xs && x.id < xs[n].id {
      var k :| 0 <= k < n && xs[..n][k] == x;
      assert xs[k] == x;
    }
  }

  function IdSet(xs: seq<Pending>): set<nat> {
    set x | x in xs :: x.id
  }

  lemma {:induction false} IdsDistinct(xs: seq<Pending>)
    requires Sorted(xs)
    ensures |IdSet(xs)| == |xs|
  {
    hide Sorted;
    if |xs| > 0 {
      FirstApart(xs);
      IdsDistinct(xs[1..]);
    }
  }

  lemma FirstApart(xs: seq<Pending>)
    requires |xs| > 0 && Sorted(xs)
    ensures Sorted(xs[1..])
    ensures xs[0].id !in IdSet(xs[1..]) && IdSet(xs) == {xs[0].id} + IdSet(xs[1..])
  {
    assert forall x | x in xs :: x == xs[0] || x in xs[1..];
    assert forall j | 0 <= j < |xs| - 1 :: xs[0].id < xs[1..][j].id;
  }

  /** One turn through the list, however it changes on the way, claims every entry that stays idle in it. */
  lemma CycleReaches(lists: seq<seq<Pending>>, cursors: seq<nat>, minIdle: int, count: nat, id: nat)
    requires 1 <= count && |lists| > 0 && Periods(lists, cursors, minIdle, count)
    requires cursors[0] == 0 && cursors[|lists|] == 0
    requires IdleUntilClaimed(lists, cursors, minIdle, count, id)
    ensures exists i :: 0 <= i < |lists| && ClaimedIn(lists, cursors, minIdle, count, id, i)
  {
    var k := 0;
    while k < |lists|
      invariant k <= |lists| && cursors[k] <= id && (k == |lists| ==> cursors[k] != 0)
      invariant forall j | 0 <= j < k :: !ClaimedIn(lists, cursors, minIdle, count, id, j)
    {
      ClaimsUpToNext(lists[k], minIdle, cursors[k], count, id);
      if ClaimedIn(lists, cursors, minIdle, count, id, k) {
        return;
      }
      k := k + 1;
    }
  }

  /**
   With m entries between the cursor and it, an entry that stays idle is claimed within the next m / count + 1
   periods.
   */
  lemma ReachedWithin(lists: seq<seq<Pending>>, cursors: seq<nat>, minIdle: int, count: nat, id: nat)
    requires 1 <= count && |lists| > 0 && Periods(lists, cursors, minIdle, count)
    requires cursors[0] <= id && |Between(lists[0], cursors[0], id)| / count < |lists|
    requires NoneAddedBelow(lists, id) && IdleUntilClaimed(lists, cursors, minIdle, count, id)
    ensures exists i :: 0 <= i < |lists| && ClaimedIn(lists, cursors, minIdle, count, id, i)
  {
    hide NextCursor, Sorted, NoneAddedBelow, IdleUntilClaimed, ClaimedIn, Between;
    var m := |Between(lists[0], cursors[0], id)|;
    assert m < |lists| * count by {
      assert m == m / count * count + m % count;
      assert m / count * count <= (|lists| - 1) * count;
    }
    var k := 0;
    while true
      invariant k < |lists| && cursors[k] <= id
      invariant |Between(lists[k], cursors[k], id)| + k * count <= m
      invariant forall j | 0 <= j < k :: !ClaimedIn(lists, cursors, minIdle, count, id, j)
      decreases |lists| - k
    {
      if ClaimedIn(lists, cursors, minIdle, count, id, k) {
        return;
      }
      OnePeriod(lists, cursors, minIdle, count, id, k);
      assert (k + 1) * count == k * count + count;
      if k + 1 == |lists| {
        assert false;
      }
      k := k + 1;
    }
  }

  lemma OnePeriod(lists: seq<seq<Pending>>, cursors: seq<nat>, minIdle: int, count: nat, id: nat, k: nat)
    requires 1 <= count && k < |lists| && Periods(lists, cursors, minIdle, count) && cursors[k] <= id
    requires NoneAddedBelow(lists, id) && IdleUntilClaimed(lists, cursors, minIdle, count, id)
    requires forall j | 0 <= j <= k :: !ClaimedIn(lists, cursors, minIdle, count, id, j)
    ensures count <= |Between(lists[k], cursors[k], id)| && cursors[k + 1] <= id
    ensures k + 1 < |lists| ==>
      |Between(lists[k + 1], cursors[k + 1], id)| + count <= |Between(lists[k], cursors[k], id)|
  {
    hide NextCursor, PageAt, Sorted;
    assert !ClaimedIn(lists, cursors, minIdle, count, id, k);
    ClaimsUpToNext(lists[k], minIdle, cursors[k], count, id);
    Nearer(lists[k], minIdle, cursors[k], count, id);
    if k + 1 < |lists| {
      var low := cursors[k + 1];
      forall i | i in Between(lists[k + 1], low, id) ensures i in Between(lists[k], low, id) {
        assert i in Between(lists[k + 1], 0, id) && i in Between(lists[k], 0, id);
      }
      CardGrows(Between(lists[k + 1], low, id), Between(lists[k], low, id));
    }
  }
}
