/**
 * The tag subscription index `_tagConnections`: for every tag, the ids of the
 * connections filed under it, in the order they were first filed (a PHP array
 * keyed by connection id keeps insertion order and holds each key once).
 */
module SubscriptionIndex {
  import opened Common

  type Index = map<string, seq<ConnId>>

  ghost predicate WellFormed(idx: Index)
  {
    forall k :: k in idx ==> NoDup(idx[k])
  }

  /** Connection `x` is filed under tag `k`. */
  predicate Holds(idx: Index, k: string, x: ConnId)
  {
    k in idx && x in idx[k]
  }

  /** One assignment `_tagConnections[$tag][$connection->id] = $connection`. */
  function Subscribe(idx: Index, id: ConnId, k: string): Index
  {
    if k !in idx then idx[k := [id]]
    else if id in idx[k] then idx
    else idx[k := idx[k] + [id]]
  }

  /** Filing one connection under each tag of a list, left to right. */
  function SubscribeAll(idx: Index, id: ConnId, tags: seq<string>): Index
  {
    if tags == [] then idx
    else Subscribe(SubscribeAll(idx, id, tags[..|tags| - 1]), id, tags[|tags| - 1])
  }

  /** One assignment adds the tag as a key, files the id under it and nowhere else, and only appends. */
  lemma SubscribeSpec(idx: Index, id: ConnId, t: string)
    ensures var r := Subscribe(idx, id, t);
      && (forall k :: k in r <==> k in idx || k == t)
      && (forall k, x :: Holds(r, k, x) <==> Holds(idx, k, x) || (x == id && k == t))
      && (forall k :: k in idx ==> idx[k] <= r[k])
      && (WellFormed(idx) ==> WellFormed(r))
  {
    if t in idx && id !in idx[t] {
      if NoDup(idx[t]) {
        NoDupSnoc(idx[t], id);
      }
    }
  }

  /**
   * Subscribing adds the listed tags as keys, files the connection under each
   * of them and under nothing else, keeps every existing entry as a prefix
   * (order of earlier subscribers is kept) and never files an id twice.
   */
  lemma {:induction false} SubscribeAllSpec(idx: Index, id: ConnId, tags: seq<string>)
    ensures var r := SubscribeAll(idx, id, tags);
      && (forall k :: k in r <==> k in idx || k in tags)
      && (forall k, x :: Holds(r, k, x) <==> Holds(idx, k, x) || (x == id && k in tags))
      && (forall k :: k in idx ==> idx[k] <= r[k])
      && (WellFormed(idx) ==> WellFormed(r))
  {
    if tags != [] {
      var front := tags[..|tags| - 1];
      var t := tags[|tags| - 1];
      assert forall u :: u in tags <==> u in front || u == t;
      SubscribeAllSpec(idx, id, front);
      var mid := SubscribeAll(idx, id, front);
      SubscribeSpec(mid, id, t);
      var r := SubscribeAll(idx, id, tags);
      assert r == Subscribe(mid, id, t);
      forall k | k in idx ensures idx[k] <= r[k] {
        assert idx[k] <= mid[k] <= r[k];
      }
    }
  }

  /** Subscribing to one more tag is one more `Subscribe`. */
  lemma SubscribeAllStep(idx: Index, id: ConnId, tags: seq<string>, t: string)
    ensures SubscribeAll(idx, id, tags + [t]) == Subscribe(SubscribeAll(idx, id, tags), id, t)
  {
    assert (tags + [t])[..|tags|] == tags;
  }

  /** Subscribing to tags the connection already holds changes nothing. */
  lemma {:induction false} SubscribeAllHeld(idx: Index, id: ConnId, tags: seq<string>)
    requires forall t :: t in tags ==> Holds(idx, t, id)
    ensures SubscribeAll(idx, id, tags) == idx
  {
    if tags != [] {
      var front := tags[..|tags| - 1];
      assert forall t :: t in front ==> t in tags;
      SubscribeAllHeld(idx, id, front);
      assert Holds(idx, tags[|tags| - 1], id);
    }
  }

  /** Repeating a subscribe message leaves the index as the first one left it. */
  lemma SubscribeAllRepeat(idx: Index, id: ConnId, tags: seq<string>)
    ensures SubscribeAll(SubscribeAll(idx, id, tags), id, tags) == SubscribeAll(idx, id, tags)
  {
    SubscribeAllSpec(idx, id, tags);
    SubscribeAllHeld(SubscribeAll(idx, id, tags), id, tags);
  }

  /** A tag repeated inside one message adds nothing the first occurrence did not. */
  lemma RepeatedTagIsNoop(idx: Index, id: ConnId, tags: seq<string>, t: string)
    requires t in tags
    ensures SubscribeAll(idx, id, tags + [t]) == SubscribeAll(idx, id, tags)
  {
    SubscribeAllStep(idx, id, tags, t);
    SubscribeAllSpec(idx, id, tags);
    assert Holds(SubscribeAll(idx, id, tags), t, id);
  }

  /** `s` with `x` taken out, everything else in its order. */
  function Without(s: seq<ConnId>, x: ConnId): (r: seq<ConnId>)
    ensures forall y :: y in r <==> y in s && y != x
    ensures x !in s ==> r == s
    ensures NoDup(s) ==> NoDup(r)
  {
    if s == [] then []
    else
      var front := s[..|s| - 1];
      var y := s[|s| - 1];
      assert s == front + [y];
      assert NoDup(s) ==> NoDup(front) && y !in front;
      Without(front, x) + (if y == x then [] else [y])
  }

  /** One `unset($this->_tagConnections[$tag][$connection->id])`: a missing tag is left missing. */
  function Unsubscribe(idx: Index, id: ConnId, k: string): Index
  {
    if k in idx then idx[k := Without(idx[k], id)] else idx
  }

  /** The close handler's loop over the connection's recorded tags. */
  function UnsubscribeAll(idx: Index, id: ConnId, tags: seq<string>): Index
  {
    if tags == [] then idx
    else Unsubscribe(UnsubscribeAll(idx, id, tags[..|tags| - 1]), id, tags[|tags| - 1])
  }

  /**
   * Unsubscribing keeps every key (emptied entries are not pruned), takes the
   * id out of the entry of each listed tag, leaves other entries alone and
   * touches no other connection.
   */
  lemma {:induction false} UnsubscribeAllSpec(idx: Index, id: ConnId, tags: seq<string>)
    ensures var r := UnsubscribeAll(idx, id, tags);
      && r.Keys == idx.Keys
      && (forall k :: k in idx ==> r[k] == if k in tags then Without(idx[k], id) else idx[k])
      && (forall k :: k in tags ==> !Holds(r, k, id))
      && (forall k, x :: x != id ==> (Holds(r, k, x) <==> Holds(idx, k, x)))
      && (WellFormed(idx) ==> WellFormed(r))
  {
    if tags != [] {
      var front := tags[..|tags| - 1];
      assert forall u :: u in tags <==> u in front || u == tags[|tags| - 1];
      UnsubscribeAllSpec(idx, id, front);
    }
  }

  /** Walking one more recorded tag is one more `Unsubscribe`. */
  lemma UnsubscribeAllStep(idx: Index, id: ConnId, tags: seq<string>, i: nat)
    requires i < |tags|
    ensures UnsubscribeAll(idx, id, tags[..i + 1]) == Unsubscribe(UnsubscribeAll(idx, id, tags[..i]), id, tags[i])
  {
    assert tags[..i + 1][..i] == tags[..i];
  }

  /**
   * As written, subscribing never records the tags on the connection, so the
   * close handler walks an empty tag list and the closed id stays filed.
   */
  lemma CloseWithoutRecordedTagsKeepsSubscriber(idx: Index, id: ConnId, tags: seq<string>, t: string)
    requires t in tags
    ensures Holds(UnsubscribeAll(SubscribeAll(idx, id, tags), id, []), t, id)
  {
    SubscribeAllSpec(idx, id, tags);
  }

  /**
   * When every tag a connection is filed under is recorded on it, closing with
   * the recorded tags plus the new ones leaves it filed under no tag at all.
   */
  lemma RecordedCloseRemovesSubscriber(idx: Index, id: ConnId, recorded: seq<string>, tags: seq<string>)
    requires forall k :: Holds(idx, k, id) ==> k in recorded
    ensures forall k :: !Holds(UnsubscribeAll(SubscribeAll(idx, id, tags), id, recorded + tags), k, id)
  {
    var mid := SubscribeAll(idx, id, tags);
    SubscribeAllSpec(idx, id, tags);
    UnsubscribeAllSpec(mid, id, recorded + tags);
    forall k ensures !Holds(UnsubscribeAll(mid, id, recorded + tags), k, id) {
      if Holds(mid, k, id) {
        assert k in recorded + tags;
      }
    }
  }
}
