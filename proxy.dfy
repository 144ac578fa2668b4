/**
 * The gateway process: a class whose handlers are the event callbacks of the
 * PHP `Proxy` worker, each run as one atomic step of the event loop.
 */
module Gateway {
  import opened Common
  import opened TagText
  import opened SubscriptionIndex
  import opened Dispatch
  import opened Wire
  import opened Effects

  /** A client message: a text frame, or an array of named fields. */
  datatype ClientData = Text(text: string) | Record(fields: map<string, string>)

  /** The `tags` field of a client message, after a non-empty `$_GET` has replaced the message. */
  function TagsField(data: ClientData, get: map<string, string>): (r: Option<string>)
    ensures get != map[] ==> r == if "tags" in get then Some(get["tags"]) else None
    ensures get == map[] && data.Text? ==> r == None
    ensures get == map[] && data.Record? ==>
      r == if "tags" in data.fields then Some(data.fields["tags"]) else None
  {
    var effective := if get != map[] then Record(get) else data;
    if effective.Record? && "tags" in effective.fields then Some(effective.fields["tags"]) else None
  }

  /** PHP's truth value of a string: "" and "0" are false. */
  predicate PhpTruthy(s: string)
  {
    s != "" && s != "0"
  }

  /**
   * Only the empty string and "0" are false: every other one-character string
   * and every longer string, "00" and " " included, sends the heartbeat.
   */
  lemma PhpTruthyCases(s: string)
    ensures |s| >= 2 ==> PhpTruthy(s)
    ensures |s| == 1 ==> (PhpTruthy(s) <==> s[0] != '0')
    ensures |s| == 0 ==> !PhpTruthy(s)
  {
    if |s| == 1 && s[0] != '0' {
      assert s != "0";
    }
  }

  /** `$connection->tags`, an unset property read as no tags. */
  function TagsOf(connTags: map<ConnId, seq<string>>, c: ConnId): seq<string>
  {
    if c in connTags then connTags[c] else []
  }

  function LinkSet(link: Option<LinkId>): set<LinkId>
  {
    if link.Some? then {link.value} else {}
  }

  /** What `connectWorker` does to the link: close the old one, if any, then open a new one. */
  function Reconnection(previous: Option<LinkId>, newLink: LinkId, address: string): seq<Effect>
  {
    (if previous.Some? then [LinkClose(previous.value)] else []) + [LinkOpen(newLink, address)]
  }

  /** The open connections are distinct and all below `limit`. */
  ghost predicate OpenBelow(conns: seq<ConnId>, limit: nat)
  {
    NoDup(conns) && forall x :: x in conns ==> x < limit
  }

  /** Every connection with recorded tags is below `limit`. */
  ghost predicate TaggedBelow(connTags: map<ConnId, seq<string>>, limit: nat)
  {
    forall x :: x in connTags ==> x < limit
  }

  /** The index is well formed and files only ids below `limit`. */
  ghost predicate IndexBelow(idx: Index, limit: nat)
  {
    WellFormed(idx) && forall k, x: ConnId :: Holds(idx, k, x) ==> x < limit
  }

  /** Filing a connection below `limit` keeps the index well formed and below `limit`. */
  lemma FilingBelow(idx: Index, c: ConnId, tags: seq<string>, limit: nat)
    requires IndexBelow(idx, limit) && c < limit
    ensures IndexBelow(SubscribeAll(idx, c, tags), limit)
  {
    SubscribeAllSpec(idx, c, tags);
    var r := SubscribeAll(idx, c, tags);
    forall k, x: ConnId | Holds(r, k, x) ensures x < limit {
      if x != c {
        assert Holds(idx, k, x);
      }
    }
  }

  /**
   * Every filed connection is open and has the tag it is filed under among
   * its recorded tags: the property that lets the close handler clean up.
   */
  ghost predicate Recorded(idx: Index, conns: seq<ConnId>, connTags: map<ConnId, seq<string>>)
  {
    forall k, x: ConnId :: Holds(idx, k, x) ==> x in conns && k in TagsOf(connTags, x)
  }

  /**
   * Filing an open connection under `tags` and appending them to its recorded
   * tags keeps every subscription recorded.
   */
  lemma RecordedFiling(idx: Index, conns: seq<ConnId>, connTags: map<ConnId, seq<string>>,
                       c: ConnId, tags: seq<string>)
    requires Recorded(idx, conns, connTags) && c in conns
    ensures Recorded(SubscribeAll(idx, c, tags), conns, connTags[c := TagsOf(connTags, c) + tags])
  {
    SubscribeAllSpec(idx, c, tags);
    var r := SubscribeAll(idx, c, tags);
    var recorded := connTags[c := TagsOf(connTags, c) + tags];
    forall k, x: ConnId | Holds(r, k, x) ensures x in conns && k in TagsOf(recorded, x) {
      if !Holds(idx, k, x) {
        assert x == c && k in tags;
      } else if x == c {
        assert k in TagsOf(connTags, c);
      }
    }
  }

  /**
   * Closing a connection with its recorded tags keeps every remaining
   * subscription recorded and leaves the closed connection filed nowhere.
   */
  lemma RecordedClose(idx: Index, conns: seq<ConnId>, connTags: map<ConnId, seq<string>>, c: ConnId)
    requires Recorded(idx, conns, connTags)
    ensures var r := UnsubscribeAll(idx, c, TagsOf(connTags, c));
      && Recorded(r, Without(conns, c), connTags)
      && (forall k :: !Holds(r, k, c))
  {
    var tags := TagsOf(connTags, c);
    UnsubscribeAllSpec(idx, c, tags);
    var r := UnsubscribeAll(idx, c, tags);
    forall k ensures !Holds(r, k, c) {
      if Holds(idx, k, c) {
        assert k in tags;
      }
    }
    forall k, x: ConnId | Holds(r, k, x) ensures x in Without(conns, c) && k in TagsOf(connTags, x) {
      assert Holds(idx, k, x);
    }
  }

  /** Dropping a connection from the open list keeps it duplicate-free and below `limit`. */
  lemma ClosingBelow(conns: seq<ConnId>, c: ConnId, limit: nat)
    requires OpenBelow(conns, limit)
    ensures OpenBelow(Without(conns, c), limit)
  {
  }

  /** Unsubscribing files no new id and keeps the index well formed. */
  lemma UnfilingBelow(idx: Index, c: ConnId, tags: seq<string>, limit: nat)
    requires IndexBelow(idx, limit)
    ensures IndexBelow(UnsubscribeAll(idx, c, tags), limit)
  {
    UnsubscribeAllSpec(idx, c, tags);
    forall k, x: ConnId | Holds(UnsubscribeAll(idx, c, tags), k, x) ensures x < limit {
      assert Holds(idx, k, x);
    }
  }

  /**
   * The command `sendByTag` writes, as written, reaches nobody once the worker
   * relays it back: it decodes to an empty tag list, and the walk over an
   * empty tag list sends nothing and marks nobody.
   */
  lemma ByTagMessageReachesNobody(idx: Index, content: string, marks: map<ConnId, nat>, n: nat)
    ensures var c := Decode(Some(ByTagMessage(content)));
      c.SendByTag? && VisitTags(idx, c.tags, marks, n) == Walk([], marks)
  {
  }

  /** One more piece of the subscribe loop: file under its trim, unless that is empty. */
  lemma FileStep(idx: Index, c: ConnId, pieces: seq<string>, i: nat)
    requires i < |pieces|
    ensures SubscribeAll(idx, c, Clean(pieces[..i + 1])) ==
      if Trim(pieces[i]) == [] then SubscribeAll(idx, c, Clean(pieces[..i]))
      else Subscribe(SubscribeAll(idx, c, Clean(pieces[..i])), c, Trim(pieces[i]))
  {
    CleanStep(pieces, i);
    if Trim(pieces[i]) == [] {
      assert Clean(pieces[..i + 1]) == Clean(pieces[..i]);
    } else {
      SubscribeAllStep(idx, c, Clean(pieces[..i]), Trim(pieces[i]));
    }
  }

  /** The result of `sendToAll` / `sendByTag`: written to the link, or "inner connection not ready". */
  datatype SendOutcome = Written | NotReady

  class Proxy {
    const workerAddress: string
    const pingData: string
    /** Whether the user set onWorkerStart / onMessage / onClose before `run()` took them over. */
    const hasOnWorkerStart: bool
    const hasOnMessage: bool
    const hasOnClose: bool

    var tagIndex: Index                          // _tagConnections
    var conns: seq<ConnId>                       // the framework's $this->connections
    var nextConnId: ConnId                       // the framework's connection id counter
    var connTags: map<ConnId, seq<string>>       // $connection->tags
    var lastMsgId: map<ConnId, nat>              // $connection->messageId
    var messageId: nat                           // _messageId
    var link: Option<LinkId>                     // _workerConnection
    var nextLink: LinkId
    var trace: seq<Effect>

    ghost predicate Valid()
      reads this`conns, this`tagIndex, this`nextConnId, this`connTags, this`lastMsgId,
            this`messageId, this`link, this`nextLink, this`trace
    {
      Consistent() && HeldLinks(trace) == LinkSet(link)
    }

    /** The invariant of the registry, the index, the counters and the link slot. */
    ghost predicate Consistent()
      reads this`conns, this`tagIndex, this`nextConnId, this`connTags, this`lastMsgId,
            this`messageId, this`link, this`nextLink
    {
      && OpenBelow(conns, nextConnId)
      && IndexBelow(tagIndex, nextConnId)
      && MarksBelow(lastMsgId, messageId, nextConnId)
      && TaggedBelow(connTags, nextConnId)
      && (link.Some? ==> link.value < nextLink)
    }

    /**
     * Every filed connection is open and has the tag it is filed under among
     * its recorded tags: the property that lets the close handler clean up.
     */
    ghost predicate SubscriptionsRecorded()
      reads this`tagIndex, this`conns, this`connTags
    {
      Recorded(tagIndex, conns, connTags)
    }

    /** `run()`: the user's callbacks are kept aside and the counters start empty. */
    constructor (workerAddress: string, pingData: string,
                 hasOnWorkerStart: bool, hasOnMessage: bool, hasOnClose: bool)
      ensures Valid() && SubscriptionsRecorded()
      ensures this.workerAddress == workerAddress && this.pingData == pingData
      ensures this.hasOnWorkerStart == hasOnWorkerStart
      ensures this.hasOnMessage == hasOnMessage && this.hasOnClose == hasOnClose
      ensures tagIndex == map[] && conns == [] && connTags == map[] && lastMsgId == map[]
      ensures messageId == 0 && link == None && trace == []
    {
      this.workerAddress := workerAddress;
      this.pingData := pingData;
      this.hasOnWorkerStart := hasOnWorkerStart;
      this.hasOnMessage := hasOnMessage;
      this.hasOnClose := hasOnClose;
      tagIndex := map[];
      conns := [];
      nextConnId := 1;
      connTags := map[];
      lastMsgId := map[];
      messageId := 0;
      link := None;
      nextLink := 0;
      trace := [];
    }

    /** The framework accepts a client: a new connection object with a never-used id. */
    method AcceptClient() returns (c: ConnId)
      requires Valid()
      modifies this`conns, this`nextConnId
      ensures Valid()
      ensures c == old(nextConnId) && nextConnId == c + 1
      ensures conns == old(conns) + [c]
      ensures c !in lastMsgId && c !in connTags && forall k :: !Holds(tagIndex, k, c)
      ensures old(SubscriptionsRecorded()) ==> SubscriptionsRecorded()
    {
      c := nextConnId;
      assert c !in conns;
      NoDupSnoc(conns, c);
      nextConnId := nextConnId + 1;
      conns := conns + [c];
    }

    /** `connectWorker`: close the current link, if any, then open a new one to the worker. */
    method ConnectWorker()
      requires Valid()
      modifies this`link, this`nextLink, this`trace
      ensures Valid()
      ensures link == Some(old(nextLink)) && nextLink == old(nextLink) + 1
      ensures trace == old(trace) + Reconnection(old(link), old(nextLink), workerAddress)
      ensures HeldLinks(trace) == {old(nextLink)}
    {
      if link.Some? {
        var t := trace;
        trace := trace + [LinkClose(link.value)];
        assert trace[..|trace| - 1] == t;
      }
      var newLink := nextLink;
      nextLink := nextLink + 1;
      link := Some(newLink);
      var t := trace;
      trace := trace + [LinkOpen(newLink, workerAddress)];
      assert trace[..|trace| - 1] == t;
    }

    /** `onWorkerStart`: connect to the worker first, then run the user's callback. */
    method OnWorkerStart()
      requires Valid()
      modifies this`link, this`nextLink, this`trace
      ensures Valid()
      ensures link == Some(old(nextLink)) && nextLink == old(nextLink) + 1
      ensures trace == old(trace) + Reconnection(old(link), old(nextLink), workerAddress)
                       + (if hasOnWorkerStart then [UserOnWorkerStart] else [])
    {
      ConnectWorker();
      if hasOnWorkerStart {
        Emit(UserOnWorkerStart);
      }
    }

    /**
     * The subscribe loop: split the field at commas and file `c` under every
     * piece that does not trim to nothing, in order.
     */
    method FileUnderTags(c: ConnId, field: string)
      requires IndexBelow(tagIndex, nextConnId) && c < nextConnId
      modifies this`tagIndex
      ensures tagIndex == SubscribeAll(old(tagIndex), c, ParseTags(field))
      ensures IndexBelow(tagIndex, nextConnId)
    {
      var pieces := Explode(field);
      var i := 0;
      while i < |pieces|
        invariant 0 <= i <= |pieces|
        invariant tagIndex == SubscribeAll(old(tagIndex), c, Clean(pieces[..i]))
      {
        var tag := Trim(pieces[i]);
        FileStep(old(tagIndex), c, pieces, i);
        if tag != [] {
          tagIndex := Subscribe(tagIndex, c, tag);
        }
        i := i + 1;
      }
      assert pieces[..|pieces|] == pieces;
      FilingBelow(old(tagIndex), c, ParseTags(field), nextConnId);
    }

    /** Append an effect that neither opens nor closes a link: a callback, a delivery, a timer. */
    method Emit(e: Effect)
      requires !e.TouchesLink()
      modifies this`trace
      ensures trace == old(trace) + [e]
      ensures HeldLinks(trace) == HeldLinks(old(trace))
    {
      HeldLinksIgnoresOthers(trace, [e]);
      trace := trace + [e];
    }

    /**
     * `onClientMessage`, as written: a message with a `tags` field files the
     * connection under each of its tags and then runs the user's callback; a
     * message without one does nothing at all. The tags are not recorded on
     * the connection.
     */
    method OnClientMessage(c: ConnId, data: ClientData, get: map<string, string>)
      requires Valid() && c in conns
      modifies this`tagIndex, this`trace
      ensures Valid()
      ensures TagsField(data, get).None? ==> tagIndex == old(tagIndex) && trace == old(trace)
      ensures TagsField(data, get).Some? ==>
        && tagIndex == SubscribeAll(old(tagIndex), c, ParseTags(TagsField(data, get).value))
        && trace == old(trace) + (if hasOnMessage then [UserOnMessage(c, tagIndex)] else [])
    {
      var field := TagsField(data, get);
      if field.None? {
        return;
      }
      FileUnderTags(c, field.value);
      if hasOnMessage {
        Emit(UserOnMessage(c, tagIndex));
      }
    }

    /**
     * `onClientMessage` as evidently intended: the same, and the tags it files
     * the connection under are also added to `$connection->tags`, so that the
     * close handler can find them.
     */
    method OnClientMessageRecordingTags(c: ConnId, data: ClientData, get: map<string, string>)
      requires Valid() && c in conns && SubscriptionsRecorded()
      modifies this`tagIndex, this`connTags, this`trace
      ensures Valid() && SubscriptionsRecorded()
      ensures TagsField(data, get).None? ==>
        tagIndex == old(tagIndex) && connTags == old(connTags) && trace == old(trace)
      ensures TagsField(data, get).Some? ==>
        var tags := ParseTags(TagsField(data, get).value);
        && tagIndex == SubscribeAll(old(tagIndex), c, tags)
        && connTags == old(connTags)[c := TagsOf(old(connTags), c) + tags]
        && trace == old(trace) + (if hasOnMessage then [UserOnMessage(c, tagIndex)] else [])
    {
      var field := TagsField(data, get);
      if field.None? {
        return;
      }
      FileUnderTags(c, field.value);
      RecordedFiling(old(tagIndex), conns, connTags, c, ParseTags(field.value));
      connTags := connTags[c := TagsOf(connTags, c) + ParseTags(field.value)];
      if hasOnMessage {
        Emit(UserOnMessage(c, tagIndex));
      }
    }

    /**
     * The close handler's loop: take `c` out of the entry of each of its
     * recorded tags, in order. The index stays well formed; when every
     * subscription was recorded, `c` ends up filed nowhere and every other
     * subscription stays recorded.
     */
    method DropSubscriptions(c: ConnId)
      requires IndexBelow(tagIndex, nextConnId)
      modifies this`tagIndex
      ensures tagIndex == UnsubscribeAll(old(tagIndex), c, TagsOf(connTags, c))
      ensures IndexBelow(tagIndex, nextConnId)
      ensures old(Recorded(tagIndex, conns, connTags)) ==>
        Recorded(tagIndex, Without(conns, c), connTags) && forall k :: !Holds(tagIndex, k, c)
    {
      var tags := TagsOf(connTags, c);
      var i := 0;
      while i < |tags|
        invariant 0 <= i <= |tags|
        invariant tagIndex == UnsubscribeAll(old(tagIndex), c, tags[..i])
      {
        UnsubscribeAllStep(old(tagIndex), c, tags, i);
        tagIndex := Unsubscribe(tagIndex, c, tags[i]);
        i := i + 1;
      }
      assert tags[..|tags|] == tags;
      UnfilingBelow(old(tagIndex), c, tags, nextConnId);
      if old(Recorded(tagIndex, conns, connTags)) {
        RecordedClose(old(tagIndex), conns, connTags, c);
      }
    }

    /**
     * `onClientClose`: take the connection out of the entry of every tag in
     * `$connection->tags` (emptied entries stay), run the user's callback;
     * the framework drops the connection from its list.
     */
    method OnClientClose(c: ConnId)
      requires Valid()
      modifies this`tagIndex, this`conns, this`trace
      ensures Valid()
      ensures tagIndex == UnsubscribeAll(old(tagIndex), c, TagsOf(connTags, c))
      ensures conns == Without(old(conns), c)
      ensures trace == old(trace) + (if hasOnClose then [UserOnClose(c, tagIndex)] else [])
      ensures old(SubscriptionsRecorded()) ==>
        SubscriptionsRecorded() && forall k :: !Holds(tagIndex, k, c)
    {
      DropSubscriptions(c);
      ClosingBelow(conns, c, nextConnId);
      conns := Without(conns, c);
      if hasOnClose {
        Emit(UserOnClose(c, tagIndex));
      }
    }

    /** The `send_to_all` loop: deliver `payload` to every open connection, in order. */
    method DeliverToAll(payload: string)
      modifies this`trace
      ensures trace == old(trace) + Delivers(conns, payload)
    {
      var i := 0;
      while i < |conns|
        invariant 0 <= i <= |conns|
        invariant trace == old(trace) + Delivers(conns[..i], payload)
      {
        DeliversStep(conns, i, payload);
        AppendAssoc(old(trace), Delivers(conns[..i], payload), [Deliver(conns[i], payload)]);
        trace := trace + [Deliver(conns[i], payload)];
        i := i + 1;
      }
      assert conns[..|conns|] == conns;
    }

    /** The inner `send_by_tag` loop over the connections filed under one tag. */
    method DeliverToListed(ids: seq<ConnId>, payload: string)
      modifies this`trace, this`lastMsgId
      ensures var v := VisitList(ids, old(lastMsgId), messageId);
        trace == old(trace) + Delivers(v.sent, payload) && lastMsgId == v.marks
    {
      var n := messageId;
      var marks: map<ConnId, nat> := lastMsgId;
      var out: seq<Effect> := trace;
      ghost var marks0, out0 := marks, out;
      ghost var sent: seq<ConnId> := [];
      var j := 0;
      while j < |ids|
        invariant 0 <= j <= |ids|
        invariant VisitList(ids[..j], marks0, n) == Walk(sent, marks)
        invariant out == out0 + Delivers(sent, payload)
      {
        var x := ids[j];
        VisitListStep(ids, marks0, n, j);
        if x !in marks {
          marks := marks[x := 0];
        }
        if marks[x] != n {
          DeliversSnoc(sent, x, payload);
          AppendAssoc(out0, Delivers(sent, payload), [Deliver(x, payload)]);
          out := out + [Deliver(x, payload)];
          marks := marks[x := n];
          sent := sent + [x];
        }
        j := j + 1;
      }
      assert ids[..|ids|] == ids;
      lastMsgId, trace := marks, out;
    }

    /** The outer `send_by_tag` loop over the command's tags; a tag nobody is filed under is skipped. */
    method DeliverByTags(tags: seq<string>, payload: string)
      modifies this`trace, this`lastMsgId
      ensures var w := VisitTags(tagIndex, tags, old(lastMsgId), messageId);
        trace == old(trace) + Delivers(w.sent, payload) && lastMsgId == w.marks
    {
      ghost var marks0, trace0 := lastMsgId, trace;
      ghost var sent: seq<ConnId> := [];
      var i := 0;
      while i < |tags|
        invariant 0 <= i <= |tags|
        invariant VisitTags(tagIndex, tags[..i], marks0, messageId) == Walk(sent, lastMsgId)
        invariant trace == trace0 + Delivers(sent, payload)
      {
        var tag := tags[i];
        VisitTagsStep(tagIndex, tags, marks0, messageId, i);
        if tag in tagIndex {
          ghost var v := VisitList(tagIndex[tag], lastMsgId, messageId);
          DeliverToListed(tagIndex[tag], payload);
          DeliversAppend(sent, v.sent, payload);
          AppendAssoc(trace0, Delivers(sent, payload), Delivers(v.sent, payload));
          sent := sent + v.sent;
        }
        i := i + 1;
      }
      assert tags[..|tags|] == tags;
    }

    /** A numbered `send_to_all` command: deliver to every open connection, mark nobody. */
    method BroadcastCommand(payload: string)
      requires Valid()
      modifies this`trace
      ensures Valid()
      ensures trace == old(trace) + Delivers(conns, payload)
    {
      DeliverToAll(payload);
      DeliveriesKeepLinks(old(trace), conns, payload);
    }

    /**
     * A numbered `send_by_tag` command: the walk over the listed tags, which
     * keeps the gateway's invariant.
     */
    method ByTagCommand(tags: seq<string>, payload: string)
      requires Consistent() && HeldLinks(trace) == LinkSet(link)
      requires messageId > 0 && forall x :: x in lastMsgId ==> lastMsgId[x] < messageId
      modifies this`trace, this`lastMsgId
      ensures Valid()
      ensures var w := VisitTags(tagIndex, tags, old(lastMsgId), messageId);
        trace == old(trace) + Delivers(w.sent, payload) && lastMsgId == w.marks
    {
      DeliverByTags(tags, payload);
      ByTagMarksBounded(tagIndex, tags, old(lastMsgId), messageId, nextConnId);
      DeliveriesKeepLinks(old(trace), VisitTags(tagIndex, tags, old(lastMsgId), messageId).sent, payload);
    }

    /**
     * `onWorkerMessage`: number the command, then deliver it. `send_to_all`
     * goes to every open connection and marks nobody; `send_by_tag` walks the
     * listed tags, skipping connections already marked with this number; any
     * other command sends nothing.
     */
    method OnWorkerMessage(data: Option<Fields>)
      requires Valid()
      modifies this`messageId, this`lastMsgId, this`trace
      ensures Valid()
      ensures messageId == old(messageId) + 1
      ensures Decode(data).SendToAll? ==>
        trace == old(trace) + Delivers(conns, Decode(data).content) && lastMsgId == old(lastMsgId)
      ensures Decode(data).SendByTag? ==>
        var w := VisitTags(tagIndex, Decode(data).tags, old(lastMsgId), messageId);
        && trace == old(trace) + Delivers(w.sent, Decode(data).content)
        && lastMsgId == w.marks
        && lastMsgId.Keys == old(lastMsgId).Keys + Targets(tagIndex, Decode(data).tags)
        && (forall x :: multiset(w.sent)[x] == if x in Targets(tagIndex, Decode(data).tags) then 1 else 0)
        && (forall x :: x in lastMsgId ==>
              lastMsgId[x] == if x in Targets(tagIndex, Decode(data).tags) then messageId else old(lastMsgId)[x])
      ensures Decode(data).Unknown? ==> trace == old(trace) && lastMsgId == old(lastMsgId)
    {
      messageId := messageId + 1;
      var command := Decode(data);
      match command
      case SendToAll(payload) =>
        BroadcastCommand(payload);
      case SendByTag(tags, payload) =>
        ByTagCommand(tags, payload);
        ByTagDeliversOnce(tagIndex, tags, old(lastMsgId), messageId);
      case Unknown =>
    }

    /** `onWorkerError`: schedule `connectWorker` after the fixed delay, whichever link failed. */
    method OnWorkerError(source: LinkId, code: int, message: string)
      requires Valid()
      modifies this`trace
      ensures Valid()
      ensures trace == old(trace) + [ScheduleReconnect(ReconnectDelay)]
    {
      Emit(ScheduleReconnect(ReconnectDelay));
    }

    /** `onWorkerClose`: schedule `connectWorker` after the fixed delay, whichever link closed. */
    method OnWorkerClose(source: LinkId)
      requires Valid()
      modifies this`trace
      ensures Valid()
      ensures trace == old(trace) + [ScheduleReconnect(ReconnectDelay)]
    {
      Emit(ScheduleReconnect(ReconnectDelay));
    }

    /** `sendToAll`: write one `send_to_all` command to the link, or report that there is none. */
    method SendToAll(content: string) returns (outcome: SendOutcome)
      requires Valid()
      modifies this`trace
      ensures Valid()
      ensures link.None? ==> outcome == NotReady && trace == old(trace)
      ensures link.Some? ==>
        outcome == Written && trace == old(trace) + [LinkWrite(link.value, ToAllMessage(content))]
    {
      if link.None? {
        return NotReady;
      }
      Emit(LinkWrite(link.value, ToAllMessage(content)));
      outcome := Written;
    }

    /**
     * `sendByTag`, as written: the same, with a `send_by_tag` command that
     * leaves the tag argument out.
     */
    method SendByTag(tag: TagArgument, content: string) returns (outcome: SendOutcome)
      requires Valid()
      modifies this`trace
      ensures Valid()
      ensures link.None? ==> outcome == NotReady && trace == old(trace)
      ensures link.Some? ==>
        outcome == Written && trace == old(trace) + [LinkWrite(link.value, ByTagMessage(content))]
    {
      if link.None? {
        return NotReady;
      }
      Emit(LinkWrite(link.value, ByTagMessage(content)));
      outcome := Written;
    }

    /** `sendByTag` as evidently intended: the command carries `(array)$tag`. */
    method SendByTagWithTags(tag: TagArgument, content: string) returns (outcome: SendOutcome)
      requires Valid()
      modifies this`trace
      ensures Valid()
      ensures link.None? ==> outcome == NotReady && trace == old(trace)
      ensures link.Some? ==>
        outcome == Written && trace == old(trace) + [LinkWrite(link.value, ByTagMessageWithTags(TagList(tag), content))]
    {
      if link.None? {
        return NotReady;
      }
      Emit(LinkWrite(link.value, ByTagMessageWithTags(TagList(tag), content)));
      outcome := Written;
    }

    /** `ping`: send the heartbeat to every open connection, unless it is PHP-false. */
    method Ping()
      requires Valid()
      modifies this`trace
      ensures Valid()
      ensures trace == old(trace) + (if PhpTruthy(pingData) then Delivers(conns, pingData) else [])
    {
      ghost var trace0 := trace;
      var i := 0;
      while i < |conns|
        invariant 0 <= i <= |conns|
        invariant trace == trace0 + (if PhpTruthy(pingData) then Delivers(conns[..i], pingData) else [])
      {
        DeliversStep(conns, i, pingData);
        if PhpTruthy(pingData) {
          AppendAssoc(trace0, Delivers(conns[..i], pingData), [Deliver(conns[i], pingData)]);
          trace := trace + [Deliver(conns[i], pingData)];
        }
        i := i + 1;
      }
      assert conns[..|conns|] == conns;
      if PhpTruthy(pingData) {
        DeliveriesKeepLinks(trace0, conns, pingData);
      } else {
        assert trace == trace0 + [];
      }
    }
  }

  /** The field "a" parses to the single tag "a". */
  lemma SingleTagField()
    ensures ParseTags("a") == ["a"]
  {
    ExplodeNoComma("a");
    assert TrimLeft("a") == "a";
    assert Trim("a") == "a";
    assert Clean(["a"]) == Clean([]) + ["a"];
  }

  /** Closing with the recorded tag "a" empties the entry of "a". */
  lemma SingleTagUnfiled(c: ConnId)
    ensures UnsubscribeAll(map["a" := [c]], c, ["a"]) == map["a" := []]
  {
    assert ["a"][..0] == [];
    assert Without([c], c) == [];
  }

  /**
   * As written: a client subscribes with `tags=a` and closes. Nothing recorded
   * the tag on the connection, so the close handler walks no tag, and the
   * closed connection stays filed under "a".
   */
  method ClosedSubscriberStaysFiled() returns (c: ConnId, index: Index, recorded: map<ConnId, seq<string>>, open: seq<ConnId>)
    ensures c !in open && recorded == map[]
    ensures index == map["a" := [c]]
  {
    var p := new Proxy("127.0.0.1:2015", "", false, false, false);
    c := p.AcceptClient();
    SingleTagField();
    p.OnClientMessage(c, Record(map["tags" := "a"]), map[]);
    assert p.tagIndex == map["a" := [c]];
    p.OnClientClose(c);
    c, index, recorded, open := c, p.tagIndex, p.connTags, p.conns;
  }

  /**
   * Corrected: the same session with the subscribe handler that records its
   * tags; the close handler then takes the connection out of "a".
   */
  method ClosedSubscriberIsUnfiled() returns (c: ConnId, index: Index, recorded: map<ConnId, seq<string>>, open: seq<ConnId>)
    ensures c !in open && recorded == map[c := ["a"]]
    ensures index == map["a" := []]
  {
    var p := new Proxy("127.0.0.1:2015", "", false, false, false);
    c := p.AcceptClient();
    SingleTagField();
    p.OnClientMessageRecordingTags(c, Record(map["tags" := "a"]), map[]);
    assert p.tagIndex == map["a" := [c]];
    assert p.connTags == map[c := ["a"]];
    SingleTagUnfiled(c);
    p.OnClientClose(c);
    c, index, recorded, open := c, p.tagIndex, p.connTags, p.conns;
  }
}
