# A Dafny model of aws-c-mqtt

The project models the parts of the MQTT 3.1.1 client library that carry its hardest obligations and proves what they keep:

- **The subscription tree** (`Topics`, `Matching`, `NodeStore`, `Pruning`, `TopicTree`). Nodes name their level by a slice of somebody's filter string, and strings are shared, handed on and released by hand. The model keeps nodes and strings in explicit heaps (maps from addresses), so that releasing twice, reading after release and losing a string are all visible: a release demands a string that is there, and follows the C code step by step: transactions, commit, pruning, repointing, roll back, dispatch. The abstract value of a tree is a map from filters to subscriptions.
- **The codec** (`Bytes`, `Wire`, `FixedHeader`, `Packets`, `PublishSend`): remaining length, fixed header, CONNECT, PUBLISH, acknowledgements, SUBSCRIBE and UNSUBSCRIBE, both directions, over bounded buffers and cursors, and a PUBLISH sent in several messages. `Wire` says what packets look like, byte by byte and in plain numbers, apart from the code that writes and reads them.
- **The reader** (`Reader`): packets put together from the messages of a channel.
- **The outstanding requests** (`Requests`): a state machine of atomic steps over the table, the channel's tasks, the waiting list and the running tasks. Where a request is and what is marked on it is proved, on every run, to be what the steps of the run say.
- **The connection** (`Connection`): a state machine of channel and user events, the grammar of the calls to the user, and the waits between attempts. What is open, tried, scheduled, queued and waited is proved, on every run, to be what the events of the run say.

Code that updates things in place is modelled by classes and methods, each proved against a function of the old state. The theorems about those functions are lemmas.

What turned out to differ from the documentation or from the MQTT standard is stated exactly:

- Dispatch misses the parent level of a filter `g/#`, and does not hide topics that begin with `$` (`DispatchVersusStandard`, `ParentLevelIsMissed`, `DollarIsNotHidden`).
- A message that ends inside a fixed header loses the packet (`Reassembly`, `CutPingResponse`). A packet that is cut by the end of a channel spoils the next channel, because nothing clears what is pending (`NextChannel`).
- An UNSUBSCRIBE or a SUBSCRIBE whose packet is larger than its message can be cut and reported as a success; for each it is said at which capacities. In a message of the capacity that is asked for, a packet fits exactly up to a remaining length of 16383: above it an UNSUBSCRIBE is cut, and a SUBSCRIBE fails, until it needs five bytes of header and is cut too (`PacketFitsMessage`, `UnsubscribeIsCut`, `SubscribeIsCut`, `SubscribeInItsMessage`).
- A second will leaves the size of the first in the running length (`ConnectPacket.AddWill`).
- A PUBLISH with an empty payload is written but not read back (`PublishRoundTrip`).
- The calls to the user follow their grammar exactly on the runs without three kinds of events: an unsent CONNECT once the connection was open, the end of or an answer on a first channel whose CONNECT was not sent, and a CONNACK while connected (`GrammarOverRuns`, with a run for each).
- The waits follow the doubling law exactly when the minimum is not above the maximum (`WaitClosedForm`).
- A request whose table entry is cleared before its task is cancelled is never given back, and no other is lost (`StrandedExactly`, `StrandedForEver`, `StrandingRun`).
- A callback runs twice exactly when a request that is done is acknowledged again (`NotifiedOverRuns`, `RepeatedCallback`).
- A disconnect that is accepted while there is no slot is never carried out by the client: the next attempt is made all the same and its channel is left open (`DisconnectWithoutSlot`, `UnansweredDisconnect`).
- The task that shuts a channel down reads the slot of the connection, which is gone when the channel ended first; it always finds one on runs in which no channel ends before such a task has run, and whenever a channel does end so early it can find none (`OrderlyRunsKeepSlot`, `EarlyEndCrashes`).
- mqtt_create_request reads the identifier that it returns from a request that may already be back in the pool (`CreateRequest`, `LiveUntilGivenBack`).
- A failed subscribe request forgets the string of each filter that is not subscribed and begins a subscribed filter or an earlier one of the request, and no other (`SubscribeAll`, `ForgetString`).
- A subscribe request for a filter that is already subscribed encodes its packet from a string that was released (`SubscribeAll`).
- Removing a filter that was never subscribed, but that a subscribed one continues, releases that one's string (`Unsubscribe`, `RemoveBeginning`). This and the remove of a filter without a node are about builds without assertions; with them, the one can stop at source/topic_tree.c:431 and the other stops at source/topic_tree.c:273.

## Model

| member | source | states |
|---|---|---|
| Topics.JoinSplit | source/topic_tree.c:545-552 | splitting a filter on '/' loses nothing: joining the levels gives it back |
| Topics.SplitJoin | source/topic_tree.c:545-552 | levels without '/' are recovered from the joined string, so paths and filters correspond one to one |
| Topics.LevelInJoin | source/topic_tree.c:592-608 | the slice at the offset that a path gives holds exactly that level's text |
| Topics.LevelsAndCharacters | source/mqtt.c:47-84 | the rule level by level and the rule of section 4.7.1 of MQTT 3.1.1 character by character accept the same strings |
| Topics.IsValidTopic | source/mqtt.c:24-84 | the loop accepts exactly the nonempty NUL-free strings of at most 65535 characters whose wildcards fill a level, '#' only the last, and none in topic names |
| Matching.ReachesClosedForm | source/topic_tree.c:777-821 | the recursion of dispatch, said without recursion: equal length and levels that match, or '#' over at least one level |
| Matching.DispatchVersusStandard | source/topic_tree.c:777-821 | against section 4.7 of MQTT 3.1.1: dispatch misses exactly the parent level of g/#, and only that when the topic does not begin with '$' |
| Matching.ParentLevelIsMissed | source/topic_tree.c:798-806 | the standard's own example sport/# and sport |
| Matching.DollarIsNotHidden | source/topic_tree.c:777-821 | section 4.7.2 of MQTT 3.1.1 is not kept: # is called for $SYS |
| Matching.AcceptedPaths | source/mqtt.c:24-84 | validation accepts exactly the strings, within its limits, whose levels the tree and dispatch are proved for |
| Matching.HitsOfLevel | source/topic_tree.c:787-820 | the three ways down from a node cover all filters that can match, and never the same one twice |
| NodeStore.NodesArePrefixes | source/topic_tree.c:336-385 | in every committed tree the nodes are exactly the prefixes of subscribed filters |
| NodeStore.ShapeIsCanonical | source/topic_tree.c:336-385 | two trees with the same subscriptions have the same paths, names, ownership and children, however they came about |
| NodeStore.HashIsLeaf | source/topic_tree.c:798-806 | a '#' node is a subscription without children, as dispatch asserts |
| NodeStore.BackedReads | source/topic_tree.c:29-42 | a node's topic reads exactly its level, inside a live string |
| Pruning.PruneStep | source/topic_tree.c:339-375 | unhooking a bare node and releasing it keeps all other nodes in place, linked and reachable |
| Pruning.AnotherString | source/topic_tree.c:415-423 | while an ancestor still reads the departing string, a node below it reads another, so the search succeeds as asserted |
| Pruning.UsersAreAncestors | source/topic_tree.c:402-436 | only nodes on the path to a subscription read its string, so walking up that path repoints all of them |
| Pruning.Removed | source/topic_tree.c:307-448 | after pruning and repointing, the tree without the departing string is sound, every other string still has its one owner, and one subscription is gone |
| TopicTrees.TopicTree.constructor | source/topic_tree.c:199-213 | a tree of a root only, no subscriptions, no strings |
| TopicTrees.TopicTree.FindOrCreate | source/topic_tree.c:554-590 | walking down a filter finds its node or grows one fresh chain, which cutting off again would undo |
| TopicTrees.TopicTree.TransactionInsert | source/topic_tree.c:506-611 | nothing changes for dispatch; the new action carries the string, or released it if the filter is subscribed; it is an update exactly when the node was there |
| TopicTrees.TopicTree.CommitInserts | source/topic_tree.c:276-305 | any list of waiting inserts commits to the map updated by all of them; each userdata is charged once and the replaced one cleaned |
| TopicTrees.TopicTree.RollBackInserts | source/topic_tree.c:463-500 | undone in reverse order, any list of inserts leaves every node exactly as before the first; strings of added nodes are released, those of updates forgotten |
| TopicTrees.TopicTree.TransactionRollBack | source/topic_tree.c:722-733 | a list of inserts, or a remove, which changes nothing |
| TopicTrees.WaitingPrefixes | source/topic_tree.c:554-590 | while inserts wait, the nodes are exactly the prefixes of what is subscribed or waits |
| TopicTrees.TopicTree.TransactionRemove | source/topic_tree.c:617-699 | the action names the node at the path and the nodes above it, or no node exactly when the path is not there |
| TopicTrees.TopicTree.Prune | source/topic_tree.c:333-385 | releases exactly the bare nodes at the end of the path and stops at the first that is kept |
| TopicTrees.TopicTree.FindString | source/topic_tree.c:241-268 | finds a string other than the given one below a node, unless every node there reads it |
| TopicTrees.TopicTree.Repoint | source/topic_tree.c:387-443 | every node on the path that read the departing string reads a live one at the same offset, and the string is released at most once |
| TopicTrees.TopicTree.CommitRemove | source/topic_tree.c:307-448 | one subscription less, its string released exactly once, its userdata cleaned once, and a sound tree again |
| TopicTrees.TopicTree.TransactionCommit | source/topic_tree.c:705-716 | what commit does to the map, for a list of inserts and for one remove; a remove leaves a sound tree if and only if its filter was subscribed or has no node |
| TopicTrees.TopicTree.DestroyNode | source/topic_tree.c:173-197 | releases exactly the nodes of a subtree and the strings they own, and cleans what they hold |
| TopicTrees.TopicTree.CleanUp | source/topic_tree.c:219-230 | everything is released, and each committed userdata has been cleaned as often as it was committed |
| TopicTrees.TopicTree.Subscribe | source/topic_tree.c:735-755 | the map with one filter updated |
| TopicTrees.TopicTree.Unsubscribe | source/topic_tree.c:757-771 | for every filter: the tree is sound afterwards if and only if the filter was subscribed or has no node, and then it is the map without the filter |
| TopicTrees.RemoveBeginning | source/topic_tree.c:307-448 | the other case happens: a removed after a/b was subscribed |
| TopicTrees.TopicTree.SubscribeThenUnsubscribe | source/topic_tree.c:735-771 | a fresh filter inserted and removed gives back the same paths, names, ownership and children |
| TopicTrees.TopicTree.SubscribeAll | source/client.c:801-891 | the transaction of a subscribe request: all filters take effect, or none and every node is as before; a sent one commits its userdata; a failed one forgets exactly as many strings as it has filters that begin another without being subscribed; the strings that the packet is encoded from are all live exactly when no filter was subscribed before |
| TopicTrees.ForgetString | source/topic_tree.c:484-496 | a run in which a string outlives the tree: a failed request for a with a/b subscribed |
| TopicTrees.TopicTree.UnsubscribeRequest | source/client.c:1160-1232 | the transaction of an unsubscribe request: the remove takes effect, or nothing changes |
| TopicTrees.TopicTree.StartCleanSession | source/client.c:685-690 | an empty tree again, with every committed userdata cleaned and forgotten strings still forgotten |
| TopicTrees.TopicTree.BooksAre | source/topic_tree.c:173-190 | in every committed tree each committed userdata is held by one subscription or has been cleaned, exactly as often as it was committed |
| TopicTrees.TopicTree.PublishRecurse | source/topic_tree.c:777-821 | from any node, calls exactly the filters below it that match the rest of the topic, each once |
| TopicTrees.TopicTree.Publish | source/topic_tree.c:823-839 | calls exactly the subscriptions whose filter reaches the topic, each once, with their current callback and userdata |
| TopicTrees.Replay | source/topic_tree.c:270-457 | any run of sent and failed subscribes and unsubscribes and of clean sessions leaves the tree of the simple map; each userdata handed over by the run is held by one subscription of that map or has been cleaned, exactly as often as it was handed over; and the run forgot exactly as many strings as its failed requests say |
| TopicTrees.ReplayAndCleanUp | source/topic_tree.c:219-230 | after any run and clean-up, the cleanup calls are exactly the userdata that the run handed over, and only the forgotten strings are left |
| TopicTrees.ReplayAndPublish | source/topic_tree.c:777-839 | after any run a published topic reaches exactly the filters of the simple map that match, each once, with what was subscribed last |
| TopicTrees.InnerStringIsOwnedBelow | source/topic_tree.c:387-443 | a node that is not a subscription reads a string that a node strictly below owns |
| TopicTrees.TopicTree.CommitRemoveInner | source/topic_tree.c:307-448 | the other half of when a remove keeps the tree: on a node that is not a subscription it releases the string of a filter below, and the tree is never sound afterwards |
| TopicTrees.InnerRemoveBreaks | source/topic_tree.c:387-443 | releasing that string, as a remove of such a node would, leaves no sound tree |
| Bytes.BigEndian | source/packets.c:37-45 | a number of two bytes is written and read with the most significant first |
| FixedHeaders.LengthLayout | source/fixed_header.c:24-40 | the size field, byte by byte: seven bits of each, the first the least significant, and the top bit of all but the last set |
| FixedHeaders.LengthTable | source/fixed_header.c:24-40 | the bytes at the limits of one, two and three bytes that section 2.2.3 of MQTT 3.1.1 tabulates, and of its example |
| FixedHeaders.LengthRoundTrip | source/fixed_header.c:24-68 | for all n, decoding the encoding gives n and its size exactly below 2^28, and refuses larger ones, whatever follows |
| FixedHeaders.EncodingIsShortest | source/fixed_header.c:24-40 | no accepted size field of the same value is shorter |
| FixedHeaders.LengthSize | source/fixed_header.c:24-40 | one, two and four bytes suffice exactly below 128, 16384 and 2^28 |
| FixedHeaders.EncodeRemainingLength | source/fixed_header.c:24-40 | writes the encoding if it fits, and says so |
| FixedHeaders.DecodeRemainingLength | source/fixed_header.c:42-68 | reads what the specification reads, at most four bytes, and the part that was there when bytes run out |
| FixedHeaders.HeaderRoundTrip | source/fixed_header.c:103-154 | a written header reads back, or as short with the exact size of the packet to come |
| FixedHeaders.HeaderLayout | source/fixed_header.c:103-125 | the first byte is sixteen times the type and the flags, then comes the size field |
| FixedHeaders.PacketTypes | source/fixed_header.c:74-101 | the types as numbers, and that exactly 3, 6, 8 and 10 have flags |
| FixedHeaders.HeaderRefused | source/fixed_header.c:127-154 | a header with flags that its type does not have is refused once its packet is all there |
| FixedHeaders.EncodeHeader | source/fixed_header.c:103-125 | succeeds exactly when the flags are allowed and the header fits |
| FixedHeaders.DecodeHeader | source/fixed_header.c:127-154 | header, shortage or error, and how far the cursor went |
| Packets.EncodeBuffer | source/packets.c:30-50 | writes length and bytes exactly when they have at most 65535 bytes and fit |
| Packets.BufferRoundTrip | source/packets.c:30-67 | a written field reads back |
| Packets.BufferLayout | source/packets.c:30-50 | wherever it stands, a field is two bytes of length, the most significant first, and its data |
| Packets.BufferRead | source/packets.c:52-67 | a field is read by its length, and reads as an empty one when its bytes are not all there |
| Packets.ConnectPacket.constructor | source/packets.c:139-159 | the running length is the size of the packet |
| Packets.ConnectPacket.AddCredentials | source/packets.c:161-195 | however often called, the running length stays exact |
| Packets.ConnectPacket.AddWill | source/packets.c:197-213 | exact the first time; each further will leaves the size of the one it replaces |
| Packets.EncodeConnect | source/packets.c:215-293 | succeeds exactly when credentials, field sizes and capacity allow, and then writes the packet of section 3.1 of MQTT 3.1.1, said by the places of its bytes |
| Packets.ConnectRoundTrip | source/packets.c:215-391 | with any will and credentials, decoding the encoding gives the packet back and stops behind it; a password without a username is refused |
| Packets.ConnectLayout | source/packets.c:215-293 | the bytes by their places and as numbers: 16, the size field, the name MQTT, level 4, each flag by its bit, the keep-alive, and the fields in the order of section 3.1.3 of MQTT 3.1.1 |
| Packets.ConnectAccepted | source/packets.c:295-391 | only the name MQTT and level 4 are accepted; every flag and the keep-alive are taken from their places |
| Packets.ConnectRefused | source/packets.c:310-333 | another name and another level are refused, each with its error |
| Packets.DecodeConnect | source/packets.c:295-391 | reads what the specification reads, with its errors |
| Packets.NewPublish | source/packets.c:476-506 | the running length is the size behind the fixed header, and the flags are eight for dup, twice the QoS, and one for retain |
| Packets.EncodePublish | source/packets.c:508-553 | succeeds exactly when it fits, and writes the whole packet, said by the places of its bytes |
| Packets.PublishLayout | source/packets.c:508-553 | the bytes by their places: 48 and the flags, the size field, the topic, the identifier exactly if there is a QoS, and the payload to the end |
| Packets.PublishRoundTrip | source/packets.c:508-598 | reads back exactly when the payload is not empty |
| Packets.DecodePublish | source/packets.c:555-598 | reads what the specification reads although the size is computed modulo 2^64 |
| Packets.AckRoundTrip | source/packets.c:72-134 | every acknowledgement the client makes reads back |
| Packets.AckLayout | source/packets.c:72-105 | the four bytes of each acknowledgement |
| Packets.AckRead | source/packets.c:107-134 | with any good header and identifier: read back exactly when the flags are what the type demands, else refused |
| Packets.EncodeAck | source/packets.c:84-105 | succeeds exactly when the flags are allowed and it fits |
| Packets.DecodeAck | source/packets.c:107-134 | reads what the specification reads, refusing wrong reserved bits |
| Packets.SubscribePacket.AddTopic | source/packets.c:675-694 | the running length stays exact for any number of filters |
| Packets.SubscribePacket.Encode | source/packets.c:696-734 | writes the whole packet exactly when every filter and the packet fit; otherwise fails or writes less than the length it announced; a success exactly when every QoS byte gets in, said by how full the buffer is |
| Packets.SubscribeRoundTrip | source/packets.c:696-786 | any number of filters read back exactly when every QoS is valid |
| Packets.SubscribeLayout | source/packets.c:696-734 | the bytes by their places: 130, the size field, the identifier, then each filter with its length and one byte of QoS |
| Packets.SubscriptionRead | source/packets.c:749-781 | the byte behind a filter is its QoS; 3 is refused as no QoS, and above that for its reserved bits |
| Packets.DecodeSubscribe | source/packets.c:736-786 | reads what the specification reads and ends on every input, even if the running length wraps |
| Packets.UnsubscribePacket.AddTopic | source/packets.c:833-848 | the running length stays exact for any number of filters |
| Packets.UnsubscribePacket.Encode | source/packets.c:850-883 | succeeds exactly when the identifier fits, and writes the whole packet exactly when everything does |
| Packets.UnsubscribeRoundTrip | source/packets.c:850-921 | any number of filters read back |
| Packets.UnsubscribeLayout | source/packets.c:850-883 | the bytes by their places: 162, the size field, the identifier, then each filter with its length |
| Packets.DecodeUnsubscribe | source/packets.c:885-921 | reads what the specification reads and ends on every input, even if the running length wraps |
| Packets.PacketFitsMessage | source/client_channel_handler.c:493-499 | a message of three bytes more than the remaining length holds the packet exactly when that is at most 16383 |
| Packets.UnsubscribeIsCut | source/client.c:1160-1232 | one valid filter in a message of any capacity: a success exactly when the identifier fits, whole exactly when all fits; at the capacity that is asked for, always a success, and whole exactly below 16380 bytes |
| Packets.SubscribeIsCut | source/packets.c:696-734 | one valid filter in a message of any capacity: exactly when it succeeds and when it is whole; at the capacity that is asked for, a success is a whole packet |
| Packets.SubscribeInItsMessage | source/packets.c:696-734 | any number of filters in a message of the capacity that is asked for: whole up to three bytes of header, a failure at four, and at five a success that is cut unless the last filter has one byte |
| Publishing.Send | source/client.c:1301-1374 | for any message capacities the loop ends, and the messages together are the one-buffer encoding, or a proper beginning of it when a message is not taken; no message is empty, and each but the last is full |
| Readers.Reader.ProcessRead | source/client_channel_handler.c:315-418 | one message does what the specification of a message says, and the pending buffer never overflows |
| Readers.BetweenMessages | source/client_channel_handler.c:330-410 | after each message, exactly the whole packets were handed over and the rest is pending with its full size, or the run is beyond saving |
| Readers.Reassembly | source/client_channel_handler.c:315-418 | for any packets and any split of their bytes, the reader hands over exactly those packets if and only if no message is empty and every packet that a message ends in has its header whole by then and is accepted |
| Readers.RefusedPacketIsLast | source/client_channel_handler.c:357-369 | the first packet in several messages that the handler refuses is the last to be handed over, whatever else is in the message that completes it |
| Readers.BytesAreKept | source/client_channel_handler.c:315-418 | for all messages and whatever was pending: as long as none fails, what was handed over and what is pending are, in order, the bytes that came |
| Readers.NextChannel | source/client.c:68-165 | a channel that begins with leftovers of another hands over exactly its own packets if and only if nothing was pending and its messages are cut well |
| Readers.EncodedIsPacket | source/fixed_header.c:103-154 | what the encoder writes is a packet to the reader |
| Readers.CutPingResponse | source/client_channel_handler.c:385-396 | a ping response cut after its first byte is handed over as that byte |
| Requests.FreeId | source/client_channel_handler.c:600-611 | the smallest free identifier, and zero exactly when all others are taken |
| Requests.RequestTable.MakeRequest | source/client_channel_handler.c:584-621 | a new request under the smallest free identifier, which no live request that was not cancelled has |
| Requests.RequestTable.Queue | source/client_channel_handler.c:623-642 | the new request waits, runs or is scheduled, each exactly when WhereaboutsOverRuns says |
| Requests.RequestTable.CreateRequest | source/client_channel_handler.c:584-646 | where the identifier is read to be returned, the request is live exactly unless it was run at once and is done |
| Requests.RequestTable.OnTaskRun | source/client_channel_handler.c:505-525 | a cancelled or completed request is given back, another begins to run |
| Requests.RequestTable.OnTaskCancelled | source/client_channel_handler.c:509-513 | the request is left to the table, or to nobody if the table let go of it before |
| Requests.RequestTable.OnSent | source/client_channel_handler.c:527-548 | an error or a completion is reported to the user once |
| Requests.RequestTable.FinishTask | source/client_channel_handler.c:549-581 | the request is given back, scheduled again, or waits for a connection |
| Requests.RequestTable.CleanUp | source/client_channel_handler.c:551-566 | the entry to remove is there, as asserted, and is the request itself |
| Requests.RequestTable.BeginAck | source/client_channel_handler.c:648-662 | the callback of an outstanding request is called, done or not |
| Requests.RequestTable.EndAck | source/client_channel_handler.c:663-666 | the request is still live when it is marked as completed |
| Requests.RequestTable.DestroyEntry | source/client.c:324-334 | a cancelled request is given back, another is told to free itself |
| Requests.RequestTable.ClearTable | source/client.c:112-113 | afterwards every live request is cancelled, and exactly the cancelled entries are gone |
| Requests.RequestTable.FlushPending | source/client_channel_handler.c:107-129 | all that waited is scheduled |
| Requests.StepSound | source/client_channel_handler.c:505-666 | every step keeps the invariant |
| Requests.RunsAreSound | source/client_channel_handler.c:505-666 | every interleaving of steps keeps it, and nothing given back, notified or stranded is taken back |
| Requests.CustodyOverRuns | source/client_channel_handler.c:505-666 | on every interleaving: a live request that was not cancelled is the table's entry for its identifier and in exactly one place; no two share an identifier; whatever was made is live or was given back exactly once; exactly the stranded requests are out of reach |
| Requests.WhereaboutsOverRuns | source/client_channel_handler.c:505-646 | on every interleaving a request waits for a connection exactly when it was last queued, or put back by its task, while the connection was not online, and the list was not flushed since; and so, by the steps alone, when it is with its creator, with the channel, or being run |
| Requests.MarksOverRuns | source/client_channel_handler.c:505-666 | on every interleaving a live request is completed, cancelled or initiated exactly when a step made it so, and has a callback exactly when it was made with one |
| Requests.CallsOverRuns | source/client_channel_handler.c:527-548 | on every interleaving the callbacks that were called are exactly those of the requests that were done or acknowledged, in order |
| Requests.MadeOverRuns | source/client_channel_handler.c:584-621 | requests are numbered as they are made, and the connection is online exactly when it was last said to be |
| Requests.RunsGoOn | source/client_channel_handler.c:505-666 | which steps can come next, exactly, by the steps so far |
| Requests.StrandedExactly | source/client.c:324-334 | on every interleaving a request is stranded if and only if its entry was cleared before its task was cancelled |
| Requests.StrandedForEver | source/client_channel_handler.c:509-513 | a stranded request stays out of reach and is never given back, whatever follows |
| Requests.StrandingRun | source/client_channel_handler.c:509-513 | a run of five steps that strands a request |
| Requests.NotifiedOverRuns | source/client_channel_handler.c:648-666 | on every interleaving no callback is called twice if and only if no request that is done is acknowledged |
| Requests.RepeatedCallback | source/client_channel_handler.c:648-666 | a run of seven steps in which a callback runs twice |
| Requests.LiveUntilGivenBack | source/client_channel_handler.c:505-646 | over any run, a request is live exactly until a step gives it back, the steps being said by the state before them |
| Requests.IdStaysTaken | source/client_channel_handler.c:550-565 | over any run, an identifier, acknowledged or not, is not free again before its task gives it back or its entry is cleared |
| Connections.Connection.constructor | source/client.c:576-666 | the first attempt is under way and nothing was called |
| Connections.Connection.OnInitError | source/client.c:183-187 | a failed attempt is treated as a shutdown |
| Connections.Connection.OnInit | source/client.c:175-271 | the wait starts again at the minimum and the channel is open; an unsent CONNECT is reported (over runs: BackoffOverRuns, ChannelOverRuns) |
| Connections.Connection.OnShutdown | source/client.c:68-165 | what the end of a channel does in every phase, with the asserted phases and a reconnect task that is there |
| Connections.Connection.AttemptReconnect | source/client.c:273-314 | the wait is used and then doubled or capped, without leaving 64 bits; a cancelled task, or one that was let go of, is freed |
| Connections.Connection.OnTask | source/client.c:273-311 | the same when its time has come, keeping the invariant |
| Connections.Connection.OnTaskCancelled | source/client.c:311-313 | a cancelled task frees itself, once |
| Connections.Connection.OnConnack | source/client_channel_handler.c:76-137 | the phase, a completion or a resumption reported to the user, and a disconnect queued for a refusal (over runs: ClosingOverRuns) |
| Connections.Connection.UserDisconnects | source/client.c:726-747 | accepted exactly when connected or reconnecting |
| Connections.Connection.OnOtherPacket | source/client_channel_handler.c:292-303 | a packet before the CONNACK is refused and queues a disconnect |
| Connections.Connection.OnDisconnectTask | source/client_channel_handler.c:673-697 | the reconnect task is let go of and freed once, and the slot is there |
| Connections.Connection.OnLateDisconnectTask | source/client_channel_handler.c:673-697 | the same task when its channel is gone: sound exactly when a later channel has a slot |
| Connections.RunsKeepCore | source/client.c:68-165 | on every run, whatever is sent or answered: nothing is under way once disconnected, and the reconnect task is freed at most once and live whenever it is scheduled |
| Connections.OrderlyRunsKeepSlot | source/client_channel_handler.c:694 | on every run in which no channel ends before a task that was to shut it down, such tasks always find a slot |
| Connections.EarlyEndCrashes | source/client_channel_handler.c:694 | in every state in which a channel does end early, the task can find none |
| Connections.DisconnectWithSlot | source/client.c:726-747 | an accepted disconnect queues a task exactly when there is a slot, and the task, with the end of the channel, leads to disconnected and the call |
| Connections.DisconnectWithoutSlot | source/client.c:726-747 | without one, on any run, nothing asks for the end and no call comes until a channel or an attempt ends by itself |
| Connections.UnansweredDisconnect | source/client.c:726-747 | a run that leaves a channel open after an accepted disconnect |
| Connections.NothingFollows | source/client.c:106-115 | after disconnected, on every run, there is no call and nothing changes but for late disconnect tasks, the first of which finds no slot |
| Connections.ChannelOverRuns | source/client.c:175-271 | on every run a channel is open, has a slot and has an unsent CONNECT exactly when its events opened it so and did not end it |
| Connections.AttemptsOverRuns | source/client.c:106-164 | on every run an attempt is under way, or one is scheduled, exactly when an event began it or put it off; one that fails while reconnecting is made again |
| Connections.ClosingOverRuns | source/client_channel_handler.c:80-137 | on every run whatever asks for the end of a channel (a CONNACK that refuses, another packet before it, an accepted disconnect with a slot) queues one task, and none is lost: those that were asked for ran, are queued, or are late |
| Connections.RefusedConnackEnds | source/client_channel_handler.c:131-137 | in every state in which a refusal can come, its task can run and the channel end |
| Connections.TaskOverRuns | source/client_channel_handler.c:673-697 | on every run the reconnect task is kept until it is cancelled or a disconnect task runs while disconnecting, and is freed then |
| Connections.RunsGoOn | source/client.c:68-314 | which events can come next, exactly, by the events so far |
| Connections.GrammarOverRuns | source/client.c:68-271 | on every run the calls follow the grammar if and only if no event of the run breaks them, the breaking events being guards on the state before the event |
| Connections.GrammarOfPrefix | source/client.c:68-271 | every beginning of calls that follow the grammar follows it, so a broken run is not repaired |
| Connections.UnsentFirst | source/client.c:241-270 | a first CONNECT that is not sent: complete(error), then interrupted |
| Connections.UnsentLater | source/client.c:241-270 | a later one that is not sent: complete(ok), interrupted, complete(error) |
| Connections.AnsweredTwice | source/client_channel_handler.c:92-105 | a second CONNACK: complete(ok) twice |
| Connections.WaitClosedForm | source/client.c:292-298 | the k-th wait is the minimum doubled k times, capped by the maximum, for all k exactly when the minimum is not above the maximum |
| Connections.WaitFits | source/client.c:292-298 | neither a wait nor its doubling leaves 64 bits |
| Connections.StaysAtMax | source/client.c:292-298 | once at the maximum, at every later attempt |
| Connections.BackoffOverRuns | source/client.c:194-195 | on every run there are as many waits as attempts since a channel was last opened, and the k-th is the minimum doubled k times, or the maximum if that is less |
| Connections.AttemptWaits | source/client.c:284-298 | each attempt is followed by the wait that its number since the last opening says, the first after any reopening by the minimum |

## Left out

- Sockets, TLS, the bootstrap, event loops and channels: they appear only as events, message capacities and whether a message is taken.
- The containers, byte buffers and the memory pool of aws-c-common: replaced by maps, sequences and small contracts.
- Failing allocations and failing table insertions, and what they leave behind.
- `aws_mqtt_client_connection_subscribe_multiple`, the setters for will, login and host, pings, read windows, logging and error tables.
- CONNACK, PINGREQ, PINGRESP and DISCONNECT encoding and decoding, which would repeat the acknowledgements.
- QoS 2 delivery and the DUP flag on retries: the code keeps nothing to prove them from.
- TopicTrees.TopicTree.TransactionInsert: not a filter that is already in the transaction, because no client path puts one there.
- TopicTrees.TopicTree.TransactionCommit: not inserts and removes in one transaction, because no client path makes one.
- TopicTrees.TopicTree.SubscribeAll: the first attempt only; a resend encodes the packet again from strings that the tree may have released since.
- TopicTrees.TopicTree.Publish: topics without wildcards, as the header requires.
- Requests.RequestTable.BeginAck: not of an identifier that is not in the table, which the code asserts, nor of a request that was not sent yet.
- Requests.RequestTable.CreateRequest: without steps of others in between; with them, LiveUntilGivenBack says how long the request lives.
- Connections: what becomes of a late disconnect task after the connection was destroyed or connected again.
- TopicTrees.TopicTree.Unsubscribe: a build without assertions, because with them a filter without a node and an inner one can stop at source/topic_tree.c:273 and 431.
- FixedHeaders.DecodeHeader: packet types 0 and 15 are read as types without flags, which is what a build without assertions does.
- Packets.DecodePublish: cursors of less than 2^62 bytes, which no memory exceeds.
- Packets.SubscribePacket.Encode: packets whose remaining length has 32 bits, as the encoder's assertion demands.
- Requests: callbacks of the user are steps of their own; the memory of the user's arguments is not modelled.
