/**
 * The voice-chat relay consumer: one object per WebSocket connection, a
 * process-wide set of connected channel names, and the channel layer's
 * groups.
 *
 * Inbound frames arrive already parsed into JSON objects. The channel layer
 * is abstract: a map from group name to the set of member channels, and for
 * each channel the queue of group events waiting for its consumer. Each
 * handler runs as one atomic step.
 */
module VoiceChat {
  import opened Wrappers

  /** The name of one connection on the channel layer. */
  type Channel = string

  datatype Json =
    | JNull
    | JBool(b: bool)
    | JNum(n: int)
    | JStr(s: string)
    | JArray(items: seq<Json>)
    | JObject(fields: map<string, Json>)

  /** The single group every connection joins, whatever tent its URL names. */
  const RoomGroupName: string := "voice_chat_tent_1"

  /** The event type that the consumer's broadcast handler answers to. */
  const ConfigEventType: string := "voice_chat_config"

  /** A group event: its type, the relayed message and who sent it. */
  datatype Event = Event(kind: string, data: map<string, Json>, senderChannel: Channel)

  /** Whether an inbound message is a heartbeat: its "type" is the string
      "ping". A message without a "type" is never one. */
  predicate IsPing(msg: map<string, Json>)
    ensures "type" !in msg ==> !IsPing(msg)
    ensures IsPing(msg) ==> msg["type"].JStr? && msg["type"].s == "ping"
  {
    "type" in msg && msg["type"] == JStr("ping")
  }

  /** The reply to a heartbeat. */
  function Pong(msg: map<string, Json>): (reply: Json)
    ensures reply.JObject? && reply.fields.Keys == {"type", "ts"}
    ensures reply.fields["type"] == JStr("pong")
    ensures "ts" in msg ==> reply.fields["ts"] == msg["ts"]
    ensures "ts" !in msg ==> reply.fields["ts"] == JNull
  {
    JObject(map["type" := JStr("pong"), "ts" := if "ts" in msg then msg["ts"] else JNull])
  }

  /** The frames a member sends its client when it handles `event`: the
      relayed message, unless the member is the one that sent it. */
  function Forwarded(self: Channel, event: Event): (frames: seq<Json>)
    ensures |frames| <= 1
    ensures frames == [] <==> event.senderChannel == self
    ensures frames != [] ==> frames[0] == JObject(event.data)
  {
    if event.senderChannel != self then [JObject(event.data)] else []
  }

  /** The frames a member sends its client when it handles `events` in order. */
  function Frames(self: Channel, events: seq<Event>): (frames: seq<Json>)
    ensures |frames| <= |events|
  {
    if events == [] then []
    else Frames(self, events[..|events| - 1]) + Forwarded(self, events[|events| - 1])
  }

  /** Handling a queue in two parts sends the frames of the first part,
      then those of the second. */
  lemma {:induction false} FramesAppend(self: Channel, first: seq<Event>, second: seq<Event>)
    ensures Frames(self, first + second) == Frames(self, first) + Frames(self, second)
  {
    if second != [] {
      var init := second[..|second| - 1];
      assert (first + second)[..|first + second| - 1] == first + init;
      FramesAppend(self, first, init);
    } else {
      assert first + second == first;
    }
  }

  /** A member never forwards its own messages: handling events it sent
      itself sends its client nothing. */
  lemma {:induction false} OwnEventsSendNothing(self: Channel, events: seq<Event>)
    requires forall i :: 0 <= i < |events| ==> events[i].senderChannel == self
    ensures Frames(self, events) == []
  {
    if events != [] {
      OwnEventsSendNothing(self, events[..|events| - 1]);
    }
  }

  /** The events waiting for channel `c` in the queue map `queues`. */
  function QueueIn(queues: map<Channel, seq<Event>>, c: Channel): (q: seq<Event>)
  {
    if c in queues then queues[c] else []
  }

  /** End to end: when a non-ping message from `sender` has been group-sent
      (the queues go from `before` to `after` as `Receive` promises), each
      member of the group other than the sender gets the message exactly once
      more when it handles its queue, and the sender and every channel
      outside the group get nothing more. */
  lemma {:induction false} BroadcastReachesOthersOnce(
    members: set<Channel>, sender: Channel, msg: map<string, Json>,
    before: map<Channel, seq<Event>>, after: map<Channel, seq<Event>>)
    requires forall c :: QueueIn(after, c) ==
               if c in members then QueueIn(before, c) + [Event(ConfigEventType, msg, sender)] else QueueIn(before, c)
    ensures forall c :: Frames(c, QueueIn(after, c)) ==
              Frames(c, QueueIn(before, c)) + (if c in members && c != sender then [JObject(msg)] else [])
  {
    forall c | c in members
      ensures Frames(c, QueueIn(after, c)) == Frames(c, QueueIn(before, c)) + Forwarded(c, Event(ConfigEventType, msg, sender))
    {
      var q := QueueIn(before, c);
      assert (q + [Event(ConfigEventType, msg, sender)])[..|q|] == q;
    }
  }

  /** The channel layer: group membership and the events queued for each channel. */
  class ChannelLayer {
    var groups: map<string, set<Channel>>
    var queues: map<Channel, seq<Event>>

    constructor ()
      ensures groups == map[] && queues == map[]
    {
      groups := map[];
      queues := map[];
    }

    function Members(group: string): (members: set<Channel>)
      reads this
    {
      if group in groups then groups[group] else {}
    }

    function Queue(c: Channel): (q: seq<Event>)
      reads this
    {
      QueueIn(queues, c)
    }

    method GroupAdd(group: string, c: Channel)
      modifies this
      ensures groups == old(groups)[group := old(Members(group)) + {c}]
      ensures queues == old(queues)
    {
      groups := groups[group := Members(group) + {c}];
    }

    method GroupDiscard(group: string, c: Channel)
      modifies this
      ensures groups == old(groups)[group := old(Members(group)) - {c}]
      ensures queues == old(queues)
    {
      groups := groups[group := Members(group) - {c}];
    }

    /** Queues `event` once for every channel in the group at the time of
        the call, and for no other channel. */
    method GroupSend(group: string, event: Event)
      modifies this
      ensures groups == old(groups)
      ensures forall c :: Queue(c) == if c in old(Members(group)) then old(Queue(c)) + [event] else old(Queue(c))
    {
      var members := Members(group);
      queues := map c | c in queues.Keys + members :: if c in members then Queue(c) + [event] else queues[c];
    }
  }

  /** The process-wide set of connected channel names, shared by every consumer. */
  class ConnectedUsers {
    var channels: set<Channel>

    constructor ()
      ensures channels == {}
    {
      channels := {};
    }
  }

  /** The shared state is consistent when the connected set and the room
      group hold the same channels. */
  ghost predicate Consistent(layer: ChannelLayer, users: ConnectedUsers)
    reads layer, users
  {
    users.channels == layer.Members(RoomGroupName)
  }

  class VoiceChatConsumer {
    const channelName: Channel
    /** The tent id the connection's URL carried; the consumer never uses it. */
    const tentId: string
    const layer: ChannelLayer
    const connectedUsers: ConnectedUsers
    var roomGroupName: Option<string>
    var accepted: bool
    /** The frames sent to this connection's client, oldest first. */
    var sent: seq<Json>

    ghost predicate Valid()
      reads this
    {
      roomGroupName == None || roomGroupName == Some(RoomGroupName)
    }

    constructor (channelName: Channel, tentId: string, layer: ChannelLayer, connectedUsers: ConnectedUsers)
      ensures Valid()
      ensures this.channelName == channelName && this.tentId == tentId
      ensures this.layer == layer && this.connectedUsers == connectedUsers
      ensures roomGroupName == None && !accepted && sent == []
    {
      this.channelName := channelName;
      this.tentId := tentId;
      this.layer := layer;
      this.connectedUsers := connectedUsers;
      roomGroupName := None;
      accepted := false;
      sent := [];
    }

    /** Joins the fixed room group and the connected set, then accepts. */
    method Connect()
      modifies this, layer, connectedUsers
      ensures Valid()
      ensures roomGroupName == Some(RoomGroupName) && accepted && sent == old(sent)
      ensures layer.groups == old(layer.groups)[RoomGroupName := old(layer.Members(RoomGroupName)) + {channelName}]
      ensures layer.queues == old(layer.queues)
      ensures connectedUsers.channels == old(connectedUsers.channels) + {channelName}
      ensures old(Consistent(layer, connectedUsers)) ==> Consistent(layer, connectedUsers)
    {
      roomGroupName := Some(RoomGroupName);
      layer.GroupAdd(RoomGroupName, channelName);
      connectedUsers.channels := connectedUsers.channels + {channelName};
      accepted := true;
    }

    /** Leaves the room group and the connected set; leaving what one is
        not a member of changes nothing. */
    method Disconnect(closeCode: int)
      requires Valid() && roomGroupName.Some?
      modifies layer, connectedUsers
      ensures layer.groups == old(layer.groups)[RoomGroupName := old(layer.Members(RoomGroupName)) - {channelName}]
      ensures layer.queues == old(layer.queues)
      ensures connectedUsers.channels == old(connectedUsers.channels) - {channelName}
      ensures old(Consistent(layer, connectedUsers)) ==> Consistent(layer, connectedUsers)
    {
      layer.GroupDiscard(roomGroupName.value, channelName);
      connectedUsers.channels := connectedUsers.channels - {channelName};
    }

    /** A ping is answered to the sender alone; every other message is sent
        to the room group, tagged with the sender's channel. Membership and
        the connected set are never changed. */
    method Receive(msg: map<string, Json>)
      requires Valid() && roomGroupName.Some?
      modifies this`sent, layer
      ensures layer.groups == old(layer.groups)
      ensures connectedUsers.channels == old(connectedUsers.channels)
      ensures IsPing(msg) ==> sent == old(sent) + [Pong(msg)] && layer.queues == old(layer.queues)
      ensures !IsPing(msg) ==>
                && sent == old(sent)
                && forall c :: layer.Queue(c) ==
                     if c in old(layer.Members(RoomGroupName))
                     then old(layer.Queue(c)) + [Event(ConfigEventType, msg, channelName)]
                     else old(layer.Queue(c))
    {
      if IsPing(msg) {
        sent := sent + [Pong(msg)];
        return;
      }
      layer.GroupSend(roomGroupName.value, Event(ConfigEventType, msg, channelName));
    }

    /** The handler for a room event: forward the relayed message to this
        client unless this connection sent it. */
    method VoiceChatConfig(event: Event)
      modifies this`sent
      ensures sent == old(sent) + Forwarded(channelName, event)
    {
      if event.senderChannel != channelName {
        sent := sent + [JObject(event.data)];
      }
    }
  }

  /** Connecting a channel that was not connected and then disconnecting it
      restores the connected set and the room group's members. */
  method ConnectThenDisconnect(consumer: VoiceChatConsumer)
    requires consumer.channelName !in consumer.connectedUsers.channels
    requires consumer.channelName !in consumer.layer.Members(RoomGroupName)
    modifies consumer, consumer.layer, consumer.connectedUsers
    ensures consumer.connectedUsers.channels == old(consumer.connectedUsers.channels)
    ensures consumer.layer.Members(RoomGroupName) == old(consumer.layer.Members(RoomGroupName))
  {
    consumer.Connect();
    consumer.Disconnect(1000);
  }

  /** The connected set is a set: a second connect of the same channel adds
      nothing beyond what the first one added. */
  method ConnectTwice(consumer: VoiceChatConsumer)
    modifies consumer, consumer.layer, consumer.connectedUsers
    ensures consumer.connectedUsers.channels == old(consumer.connectedUsers.channels) + {consumer.channelName}
  {
    consumer.Connect();
    consumer.Connect();
  }
}
