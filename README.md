# Proxy gateway, modelled in Dafny

This project models the `Proxy` worker of a Workerman-based push gateway.
Clients connect to the proxy and subscribe to tags with a message carrying a
comma-separated `tags` field. The proxy holds one TCP link to a backend
worker. The worker sends JSON commands back over that link: `send_to_all`
goes to every open client connection, and `send_by_tag` goes to every client
filed under one of the listed tags, at most once per command. Application
code calls `sendToAll` / `sendByTag` to write such a command to the link.
When the link fails or closes, a reconnect is scheduled after one second.
`ping` sends the heartbeat text to every client.

The model is the class `Gateway.Proxy` (proxy.dfy). Its fields are the
proxy's state:

- the tag index `_tagConnections`, a map from tag to an ordered list of
  connection ids (PHP arrays keep insertion order);
- the open connections;
- each connection's `tags` and `messageId` properties;
- the command counter `_messageId`;
- the slot holding the worker link.

Each event handler is a method that runs as one atomic step of the event
loop. Its loops carry invariants, and it is proved against pure functions
defined in separate modules:

- `TagText`: PHP `explode(',')` and `trim()`, and the tag list they yield.
- `SubscriptionIndex`: subscribing and unsubscribing as folds over the tag
  list.
- `Dispatch`: the de-duplicating walk of `send_by_tag`.
- `Wire`: the fields of a decoded worker command and the `switch` on its
  type.
- `Effects`: an append-only trace of effects that stands in for all I/O.
  Effects are a delivery to a client, opening, closing or writing the worker
  link, scheduling a reconnect timer, and running a user callback.
  `HeldLinks(trace)` is the set of links opened and not closed. The class
  invariant ties it to the link slot: the proxy holds exactly the link it
  remembers.

The framework hands out connection ids from a counter; `AcceptClient` stands
in for that. The class invariant keeps every id that is open, filed, marked
or tagged below the counter.

## Model

A row for a `...Spec` lemma also stands for the function it is about, whose
properties it states: `TrimSpec` for `Trim`, `ParseTagsSpec` for
`ParseTags`, `SubscribeSpec` for `Subscribe`, `SubscribeAllSpec` for
`SubscribeAll`, `UnsubscribeAllSpec` for `Unsubscribe` and `UnsubscribeAll`,
`VisitListSpec` for `Visit` and `VisitList`, `VisitTagsSpec` for `VisitTags`.

| member | source | states |
|---|---|---|
| TagText.Explode | Proxy.php:163 | splitting yields at least one piece and no piece contains a comma |
| TagText.JoinExplode | Proxy.php:163 | joining the pieces with commas gives back the field |
| TagText.ExplodeJoin | Proxy.php:163 | splitting a comma-join of comma-free pieces gives back those pieces |
| TagText.TrimSpec | Proxy.php:167 | the trim of a string is an infix of it: everything cut away on either side is whitespace or NUL, and what is kept neither starts nor ends with it |
| TagText.TrimIdempotent | Proxy.php:167 | trimming twice is trimming once |
| TagText.TrimEmptyIff | Proxy.php:167-172 | a piece is dropped (trims to '') exactly when every character of it is a trim character |
| TagText.ParseTagsSpec | Proxy.php:163-172 | every tag filed is non-empty, trimmed and comma-free; a string is filed exactly when it is the non-empty trim of some piece of the field |
| TagText.BlankFieldHasNoTags | Proxy.php:163-172 | a field made only of commas and whitespace files the connection under no tag |
| SubscriptionIndex.SubscribeSpec | Proxy.php:173 | one assignment adds the tag as a key, files the id under it and nothing else, keeps the earlier entry as a prefix and never files an id twice |
| SubscriptionIndex.SubscribeAllSpec | Proxy.php:165-174 | the subscribe loop adds exactly the listed tags as keys, files the id under exactly those tags, keeps every earlier entry as a prefix and keeps every entry duplicate-free |
| SubscriptionIndex.SubscribeAllHeld | Proxy.php:173 | subscribing to tags the id is already filed under leaves the index unchanged |
| SubscriptionIndex.SubscribeAllRepeat | Proxy.php:163-174 | sending the same tags twice has the effect of sending them once |
| SubscriptionIndex.RepeatedTagIsNoop | Proxy.php:165-174 | a tag repeated in the field changes nothing the second time |
| SubscriptionIndex.Without | Proxy.php:192 | removing an id from an entry keeps exactly the other ids and keeps the entry duplicate-free |
| SubscriptionIndex.UnsubscribeAllSpec | Proxy.php:188-194 | the close loop keeps every key, removes the id from exactly the listed tags' entries and leaves every other connection's subscriptions alone |
| SubscriptionIndex.CloseWithoutRecordedTagsKeepsSubscriber | Proxy.php:163-194 | as written: after subscribing, closing with the tags never recorded on the connection leaves it filed under each tag it subscribed to |
| SubscriptionIndex.RecordedCloseRemovesSubscriber | Proxy.php:186-194 | when the connection's recorded tags cover all it was filed under, closing with them plus the newly recorded ones leaves it filed nowhere |
| Dispatch.VisitListSpec | Proxy.php:230-245 | one tag's inner loop sends to exactly the listed connections whose messageId is not the current number, each once, and marks every listed connection with it |
| Dispatch.VisitTagsSpec | Proxy.php:224-246 | the outer loop sends to exactly the targets of the listed tags not yet marked, each once, marks every target, and leaves every other mark alone; unknown tags are skipped |
| Dispatch.ByTagDeliversOnce | Proxy.php:223-247 | with every mark below the new number, each target gets the content exactly once and nobody else gets it; afterwards exactly the targets carry the new number |
| Dispatch.ByTagMarksBounded | Proxy.php:232-244 | the walk sets marks only to the current number and only on filed connections |
| Dispatch.UnknownTagsReachNobody | Proxy.php:226-229 | a command whose tags are all absent from the index sends nothing and marks nobody |
| Effects.DeliversAt | Proxy.php:218-221 | the delivery loop produces one delivery per connection, in order, and none of them touches the worker link |
| Effects.DeliveriesKeepLinks | Proxy.php:218-221 | delivering to clients leaves the set of held worker links unchanged |
| Wire.Decode | Proxy.php:211-214 | a command is `send_to_all` / `send_by_tag` exactly when it decodes and its type is that string; its content is the sent one, or '' when absent; a present tag list is kept |
| Wire.ToAllMessage | Proxy.php:266-274 | the command `sendToAll` writes decodes back to a broadcast of the same content |
| Wire.ByTagMessage | Proxy.php:284-292 | as written: the command `sendByTag` writes carries no tag list and decodes to a by-tag command over no tags |
| Wire.ByTagMessageWithTags | Proxy.php:284-292 | the corrected command decodes back to a by-tag command over the given tags with the same content |
| Wire.OneTagIsOneElementArray | Proxy.php:281-292 | corrected command: one tag passed as a string and as a one-element array write the same command, which decodes to a by-tag command over exactly that tag |
| Gateway.TagsField | Proxy.php:153-161 | a non-empty GET replaces the message; the `tags` field is present exactly when the effective message is an array with that key, and is its value; a text frame without GET has none |
| Gateway.PhpTruthyCases | Proxy.php:316 | only '' and '0' are false as heartbeat data: every other one-character string and every longer one is true |
| Gateway.FilingBelow | Proxy.php:173 | filing a connection below the id counter keeps the index well formed and below the counter |
| Gateway.UnfilingBelow | Proxy.php:192 | unsubscribing keeps the index well formed and files no new id |
| Gateway.ClosingBelow | Proxy.php:186-199 | dropping a closed connection from the open list keeps it duplicate-free and below the counter |
| Gateway.RecordedFiling | Proxy.php:173 | filing an open connection and appending the tags to its recorded tags keeps every subscription recorded |
| Gateway.RecordedClose | Proxy.php:186-194 | closing with the recorded tags keeps every other subscription recorded and leaves the closed id filed nowhere |
| Gateway.ByTagMessageReachesNobody | Proxy.php:284-292 | as written: a command written by `sendByTag` and relayed back by the worker reaches no client and marks none |
| Gateway.ClosedSubscriberStaysFiled | Proxy.php:150-199 | as written: a client that sends `tags=a` and then closes has no recorded tags and stays filed under `a` after it is gone from the open list |
| Gateway.ClosedSubscriberIsUnfiled | Proxy.php:150-199 | corrected: the same session with the recording subscribe handler leaves the entry of `a` empty |
| Gateway.Proxy.constructor | Proxy.php:99-117 | `run()`: the user's callbacks are kept aside, the index and counters start empty, no link is held, and the invariant holds |
| Gateway.Proxy.ConnectWorker | Proxy.php:132-143 | the old link, if any, is closed before a new one to the worker address is opened; afterwards exactly the new link is held |
| Gateway.Proxy.OnWorkerStart | Proxy.php:123-130 | the worker link is opened before the user's start callback runs, which runs only when one was set |
| Gateway.Proxy.FileUnderTags | Proxy.php:163-174 | the subscribe loop leaves the index equal to subscribing the connection to the parsed tags, in order |
| Gateway.Proxy.OnClientMessage | Proxy.php:150-180 | as written: a message with no `tags` field (after a non-empty GET replaces it) changes nothing and runs no callback; otherwise the connection is filed under the parsed tags, and the user's callback, if set, runs against the updated index |
| Gateway.Proxy.OnClientMessageRecordingTags | Proxy.php:150-180 | corrected: the same, and the parsed tags are appended to the connection's recorded tags, so every subscription stays recorded; the callback runs against the updated index |
| Gateway.Proxy.DropSubscriptions | Proxy.php:188-194 | the close loop removes the connection from each of its recorded tags' entries; when every subscription was recorded, it is then filed nowhere |
| Gateway.Proxy.OnClientClose | Proxy.php:186-199 | the connection leaves its recorded tags' entries and the open list; the user's close callback, if set, runs against the index with those entries already updated; every subscription stays recorded |
| Gateway.Proxy.DeliverToAll | Proxy.php:217-222 | the broadcast loop delivers the content to every open connection, in order |
| Gateway.Proxy.DeliverToListed | Proxy.php:230-245 | the inner loop over one tag's connections does exactly the walk of that list: deliveries and marks |
| Gateway.Proxy.DeliverByTags | Proxy.php:224-246 | the outer loop over the command's tags does exactly the walk over the tags |
| Gateway.Proxy.BroadcastCommand | Proxy.php:217-222 | a broadcast delivers to every open connection, marks nobody and keeps the invariant |
| Gateway.Proxy.ByTagCommand | Proxy.php:223-247 | a by-tag command does the walk over its tags and keeps the invariant |
| Gateway.Proxy.OnWorkerMessage | Proxy.php:208-249 | every command gets a new number; `send_to_all` delivers to every open connection; `send_by_tag` delivers once to each target and to nobody else and marks exactly the targets with the new number; anything else sends nothing |
| Gateway.Proxy.OnWorkerError | Proxy.php:257-260 | an error on the link schedules a reconnect after one second and changes nothing else |
| Gateway.Proxy.OnWorkerClose | Proxy.php:301-304 | a close of the link schedules a reconnect after one second and changes nothing else |
| Gateway.Proxy.SendToAll | Proxy.php:266-277 | with a link, one `send_to_all` command with the content is written to it; without one, nothing is written and "not ready" is reported |
| Gateway.Proxy.SendByTag | Proxy.php:284-295 | as written: the same with a `send_by_tag` command that carries no tags |
| Gateway.Proxy.SendByTagWithTags | Proxy.php:284-295 | corrected: the `send_by_tag` command carries `$tag` as a tag list, a single tag string becoming a one-element list |
| Gateway.Proxy.Ping | Proxy.php:311-321 | the heartbeat goes to every open connection, in order, when it is PHP-true, and to nobody when it is '' or '0' |

## Left out

- JSON text is not modelled. A worker message is its decoded record (`Wire.Fields`), and an undecodable message is `None`.
- The `switch` on the command type is modelled as an exact string match. PHP's loose comparison of a non-string `type` (`true`, `0`) against the case strings is not modelled.
- A worker command whose `type` or `content` is not a string (a number, an array, null) is not modelled; both are strings or absent. A tag list that is not an array, and non-string tags, are not modelled. A missing tag list under `send_by_tag` is walked as an empty one, and a missing content is sent as ''.
- `$_GET` is a parameter of the message handler, a map from names to strings. The HTTP parsing that fills it is not modelled, and so neither is an array-valued `tags[]=` query parameter, which `explode` would reject.
- `Timer::add` is an effect in the trace. The timer firing later and calling `connectWorker` again is left to the caller, who can call `ConnectWorker`.
- Whether closing the old link makes the framework fire `onWorkerClose` is framework behaviour and is not modelled.
- `run()` swapping the callback slots is reduced to three flags that say whether the user set each callback. The user callbacks appear only as trace entries. The start time and the parent `Worker::run()` are not modelled.
- `echo "inner connection not ready"` is the outcome `NotReady`. The return value of the link's `send` is the outcome `Written`, because the framework's buffering is not modelled.
- Accepting and removing client connections is framework code. `AcceptClient` stands in for the accept, and `OnClientClose` drops the connection from the open list on the framework's behalf.
- Gateway.Proxy.DeliverToListed: the per-connection `messageId` updates are made on a local copy and written back after each tag's list. Each handler is atomic, so no observer can tell the difference.
- Gateway.Proxy.OnWorkerMessage: `_messageId` is an unbounded natural number. PHP's integer would turn into a float at `PHP_INT_MAX` and stop changing, after which `send_by_tag` would skip every connection it had already reached; that many commands are out of reach in practice.
- `$connection->tags` can also be set by user code in the callbacks. No operation here models such a write.
- Client data is never forwarded to the worker. The class comment (Proxy.php:21-22) says the gateway hands client data to the worker for processing, but `onClientMessage` only files tags and calls the user's callback; the model follows the code.
- The code does not do these, and neither does the model: it does not broadcast when a `send_by_tag` command lists no tag; it does not clean up a recipient whose send fails; it does not prune emptied index entries. It reports "not ready" only when no link object exists, even when that link is not yet connected.

## Findings

| source | as written | input that shows it | evidently intended | confidence | as-written member | corrected member |
|---|---|---|---|---|---|---|
| Proxy.php:163-193 | the subscribe handler files the connection under its tags but never records them in `$connection->tags`, which the close handler reads | a client sends `tags=a` and then closes: its id stays filed under `a`, and later `send_by_tag` commands for `a` are sent to a closed connection | the parsed tags are added to `$connection->tags`, so closing removes the connection from every tag | not executed | Gateway.ClosedSubscriberStaysFiled | Gateway.Proxy.OnClientMessageRecordingTags |
| Proxy.php:284-292 | `sendByTag($tag, $content)` builds the command from the type and the content only, and `$tag` is dropped | `sendByTag(['a'], 'x')` with a client filed under `a`: the command written has no tags, so if the worker relays it unchanged it reaches nobody | the command carries `'tags' => (array)$tag` | not executed | Wire.ByTagMessage | Gateway.Proxy.SendByTagWithTags |
