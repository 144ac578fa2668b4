/**
 * The delivery walk of a `send_by_tag` command: every listed tag in order,
 * every connection filed under it in order, skipping a connection whose
 * `messageId` already equals the current message number.
 */
module Dispatch {
  import opened Common
  import opened SubscriptionIndex

  /** `$connection->messageId`, an unset property read as 0. */
  function Mark(marks: map<ConnId, nat>, x: ConnId): nat
  {
    if x in marks then marks[x] else 0
  }

  /** What a walk produced: the recipients in send order and the new messageId of every connection. */
  datatype Walk = Walk(sent: seq<ConnId>, marks: map<ConnId, nat>)

  /**
   * One visit of connection `x`: an unset messageId becomes 0; a connection
   * already marked with `n` is skipped, any other one is sent to and marked.
   */
  function Visit(w: Walk, x: ConnId, n: nat): Walk
  {
    var m := if x in w.marks then w.marks else w.marks[x := 0];
    if m[x] == n then Walk(w.sent, m) else Walk(w.sent + [x], m[x := n])
  }

  /** The inner loop over one tag's connections, for message number `n`. */
  function VisitList(ids: seq<ConnId>, marks: map<ConnId, nat>, n: nat): Walk
  {
    if ids == [] then Walk([], marks)
    else Visit(VisitList(ids[..|ids| - 1], marks, n), ids[|ids| - 1], n)
  }

  /** The outer loop over the command's tags; a tag missing from the index is skipped. */
  function VisitTags(idx: Index, tags: seq<string>, marks: map<ConnId, nat>, n: nat): Walk
  {
    if tags == [] then Walk([], marks)
    else
      var w := VisitTags(idx, tags[..|tags| - 1], marks, n);
      var t := tags[|tags| - 1];
      if t !in idx then w
      else
        var v := VisitList(idx[t], w.marks, n);
        Walk(w.sent + v.sent, v.marks)
  }

  /** One more connection of the inner loop. */
  lemma VisitListStep(ids: seq<ConnId>, marks: map<ConnId, nat>, n: nat, j: nat)
    requires j < |ids|
    ensures VisitList(ids[..j + 1], marks, n) == Visit(VisitList(ids[..j], marks, n), ids[j], n)
  {
    assert ids[..j + 1][..j] == ids[..j];
  }

  /** One more tag of the outer loop. */
  lemma VisitTagsStep(idx: Index, tags: seq<string>, marks: map<ConnId, nat>, n: nat, i: nat)
    requires i < |tags|
    ensures var w := VisitTags(idx, tags[..i], marks, n);
      VisitTags(idx, tags[..i + 1], marks, n) ==
        if tags[i] !in idx then w
        else Walk(w.sent + VisitList(idx[tags[i]], w.marks, n).sent, VisitList(idx[tags[i]], w.marks, n).marks)
  {
    assert tags[..i + 1][..i] == tags[..i];
  }

  /** The connections filed under at least one of `tags`. */
  ghost function Targets(idx: Index, tags: seq<string>): set<ConnId>
  {
    set k, x | k in tags && k in idx && x in idx[k] :: x
  }

  lemma NoDupAppend(a: seq<ConnId>, b: seq<ConnId>)
    requires NoDup(a) && NoDup(b)
    requires forall x :: x in a ==> x !in b
    ensures NoDup(a + b)
  {
    forall i, j | 0 <= i < j < |a + b| ensures (a + b)[i] != (a + b)[j] {
      if i < |a| && j >= |a| {
        assert (a + b)[i] in a && (a + b)[j] in b;
      }
    }
  }

  /**
   * One tag's walk sends to exactly the listed connections not yet marked with
   * `n`, each once, and leaves every listed connection marked with `n`.
   */
  lemma {:induction false} VisitListSpec(ids: seq<ConnId>, marks: map<ConnId, nat>, n: nat)
    ensures var w := VisitList(ids, marks, n);
      && NoDup(w.sent)
      && (forall x :: x in w.sent <==> x in ids && Mark(marks, x) != n)
      && (forall x :: x in w.marks <==> x in marks || x in ids)
      && (forall x :: x in w.marks ==> w.marks[x] == if x in ids then n else marks[x])
  {
    if ids != [] {
      var front := ids[..|ids| - 1];
      var x := ids[|ids| - 1];
      assert ids == front + [x];
      VisitListSpec(front, marks, n);
      var w := VisitList(front, marks, n);
      assert Mark(w.marks, x) == n <==> x in front || Mark(marks, x) == n;
      var m := if x in w.marks then w.marks else w.marks[x := 0];
      if m[x] != n {
        NoDupAppend(w.sent, [x]);
      }
    }
  }

  /**
   * The whole walk sends to exactly the targets not yet marked with `n`, each
   * once, and marks every target with `n`; all other marks are unchanged.
   */
  lemma {:induction false} VisitTagsSpec(idx: Index, tags: seq<string>, marks: map<ConnId, nat>, n: nat)
    ensures var w := VisitTags(idx, tags, marks, n);
      && NoDup(w.sent)
      && (forall x :: x in w.sent <==> x in Targets(idx, tags) && Mark(marks, x) != n)
      && (forall x :: x in w.marks <==> x in marks || x in Targets(idx, tags))
      && (forall x :: x in w.marks ==> w.marks[x] == if x in Targets(idx, tags) then n else marks[x])
  {
    if tags != [] {
      var front := tags[..|tags| - 1];
      var t := tags[|tags| - 1];
      assert tags == front + [t];
      VisitTagsSpec(idx, front, marks, n);
      var w := VisitTags(idx, front, marks, n);
      if t !in idx {
        assert Targets(idx, tags) == Targets(idx, front);
      } else {
        assert Targets(idx, tags) == Targets(idx, front) + set x | x in idx[t];
        VisitListSpec(idx[t], w.marks, n);
        var v := VisitList(idx[t], w.marks, n);
        forall x | x in v.sent ensures x !in w.sent && x !in Targets(idx, front) {
          assert Mark(w.marks, x) != n;
        }
        NoDupAppend(w.sent, v.sent);
      }
    }
  }

  lemma {:induction false} NoDupCount(s: seq<ConnId>, x: ConnId)
    requires NoDup(s)
    ensures multiset(s)[x] == if x in s then 1 else 0
  {
    if s != [] {
      var front := s[..|s| - 1];
      assert s == front + [s[|s| - 1]];
      NoDupCount(front, x);
    }
  }

  /**
   * When every mark is below the new message number, the walk delivers to each
   * target exactly once and to nobody else, and afterwards every target, and
   * only a target, carries the new number. The number must be positive: an
   * unset messageId reads as 0, so a command numbered 0 would skip every
   * connection never sent to.
   */
  lemma ByTagDeliversOnce(idx: Index, tags: seq<string>, marks: map<ConnId, nat>, n: nat)
    requires n > 0
    requires forall x :: x in marks ==> marks[x] < n
    ensures var w := VisitTags(idx, tags, marks, n);
      && (forall x :: multiset(w.sent)[x] == if x in Targets(idx, tags) then 1 else 0)
      && w.marks.Keys == marks.Keys + Targets(idx, tags)
      && (forall x :: x in w.marks ==> w.marks[x] == if x in Targets(idx, tags) then n else marks[x])
  {
    VisitTagsSpec(idx, tags, marks, n);
    var w := VisitTags(idx, tags, marks, n);
    forall x ensures multiset(w.sent)[x] == if x in Targets(idx, tags) then 1 else 0 {
      NoDupCount(w.sent, x);
    }
  }

  /** Every recorded messageId is at most `n`, on a connection below `limit`. */
  ghost predicate MarksBelow(marks: map<ConnId, nat>, n: nat, limit: nat)
  {
    forall x :: x in marks ==> marks[x] <= n && x < limit
  }

  /**
   * The walk keeps every mark at most `n` and marks only connections below
   * `limit` when every filed connection is below it.
   */
  lemma ByTagMarksBounded(idx: Index, tags: seq<string>, marks: map<ConnId, nat>, n: nat, limit: nat)
    requires MarksBelow(marks, n, limit)
    requires forall k, x: ConnId :: Holds(idx, k, x) ==> x < limit
    ensures MarksBelow(VisitTags(idx, tags, marks, n).marks, n, limit)
  {
    VisitTagsSpec(idx, tags, marks, n);
    var w := VisitTags(idx, tags, marks, n);
    forall x | x in w.marks ensures w.marks[x] <= n && x < limit {
      if x in Targets(idx, tags) {
        var k :| k in tags && k in idx && x in idx[k];
        assert Holds(idx, k, x);
      }
    }
  }

  /** A command whose tags are all missing from the index reaches nobody and marks nobody. */
  lemma UnknownTagsReachNobody(idx: Index, tags: seq<string>, marks: map<ConnId, nat>, n: nat)
    requires forall t :: t in tags ==> t !in idx
    ensures VisitTags(idx, tags, marks, n) == Walk([], marks)
  {
    VisitTagsSpec(idx, tags, marks, n);
    assert Targets(idx, tags) == {};
  }
}
