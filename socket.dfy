/** The real-time coordinator: the `onlineUsers` registry, the presence
    broadcast, the message router and the signal relay. Each socket event
    handler is one atomic step over three pieces of state: the registry, the
    message collection and the outbox of pushed events. */
module Socket {
  import opened JsText
  import opened Identity
  import opened Outcomes
  import opened MessageModel
  import opened Presence
  import opened Gate

  /** An admitted socket: the user the gate attached, and the socket's id. */
  datatype Connection = Connection(user: User, socketId: Text)

  /** What holds of every admitted socket: its user id is a printed
      ObjectId (`socket.user._id.toString()`) and its socket id is not
      empty. */
  predicate IsLive(c: Connection) {
    IsCanonicalId(c.user.id) && c.socketId != []
  }

  /** Where a push goes: every connected socket, or one socket. */
  datatype Target = Everyone | SocketOf(socketId: Text)

  /** The events the server pushes, with their payloads. */
  datatype Signal =
    | OnlineUsers(userIds: seq<Text>)
    | ReceiveMessage(message: Message)
    | Typing(senderId: Text, username: Text)
    | StopTyping(senderId: Text)
    | MessagesRead(reader: Text)  // payload `{ by }`
    | Error(text: Text)  // payload `{ message }`

  datatype Push = Push(to: Target, signal: Signal)

  /** The message of the `error` event a failed send produces. */
  const SendFailure: Text := Units("Failed to send message")

  /** The payload of `send_message`; either field may be missing. */
  datatype SendRequest = SendRequest(receiverId: Option<Text>, message: Option<Text>)

  /** The verdict of the send handler's checks: drop silently, fail because
      there is no payload to read the fields from, or go on to store
      `message` for `receiverId`. */
  datatype Screening = Dropped | Unreadable | Accepted(receiverId: Text, message: Text)

  /** A missing or empty receiver, or a missing or all-blank message. */
  predicate LacksFields(req: SendRequest) {
    || req.receiverId.None? || req.receiverId.value == []
    || req.message.None? || IsBlank(req.message.value)
  }

  /** Longer than the handler allows, measured before trimming. */
  predicate TooLong(req: SendRequest) {
    req.message.Some? && |req.message.value| > MaxBodyLength
  }

  /** The checks of the send handler as the source writes them: the self
      check compares the receiver id text with the sender's id text. */
  function ScreenAsWritten(userId: Text, data: Option<SendRequest>): (s: Screening)
    ensures s.Unreadable? <==> data.None?
    ensures s.Dropped? <==>
              && data.Some?
              && (LacksFields(data.value) || data.value.receiverId == Some(userId)
                  || TooLong(data.value))
    ensures s.Accepted? ==> data == Some(SendRequest(Some(s.receiverId), Some(s.message)))
  {
    match data
    case None => Unreadable
    case Some(req) =>
      if LacksFields(req) then Dropped
      else if req.receiverId.value == userId then Dropped
      else if |req.message.value| > MaxBodyLength then Dropped
      else Accepted(req.receiverId.value, req.message.value)
  }

  /** The checks of the send handler with the self check made on the id the
      store will record: a receiver id that casts to the sender's own
      ObjectId is dropped whatever the case of its letters. */
  function Screen(userId: Text, data: Option<SendRequest>): (s: Screening)
    ensures s.Unreadable? <==> data.None?
    ensures s.Dropped? <==>
              && data.Some?
              && (LacksFields(data.value)
                  || (data.value.receiverId.Some? && CastObjectId(data.value.receiverId.value) == Some(userId))
                  || TooLong(data.value))
    ensures s.Accepted? ==>
              && data == Some(SendRequest(Some(s.receiverId), Some(s.message)))
              && s.receiverId != [] && !IsBlank(s.message) && |s.message| <= MaxBodyLength
              && CastObjectId(s.receiverId) != Some(userId)
  {
    match data
    case None => Unreadable
    case Some(req) =>
      if LacksFields(req) then Dropped
      else if CastObjectId(req.receiverId.value) == Some(userId) then Dropped
      else if |req.message.value| > MaxBodyLength then Dropped
      else Accepted(req.receiverId.value, req.message.value)
  }

  /** The record the store builds for a screened send. */
  function SendRecord(id: nat, userId: Text, receiverId: Text, message: Text, now: int)
    : Result<Message, set<FieldError>>
  {
    NewRecord(id, Some(userId), Some(receiverId), Some(message), now)
  }

  /** For a screened send the schema can only object to the receiver id:
      the handler's own checks (non-blank, at most 2000 code units before
      trimming, hence after) imply the schema's. The record then holds the
      trimmed message, unseen, and is never addressed to its sender. */
  lemma ScreenedSendRecord(userId: Text, data: Option<SendRequest>, id: nat, now: int)
    requires IsCanonicalId(userId)
    requires Screen(userId, data).Accepted?
    ensures var s := Screen(userId, data);
            var r := SendRecord(id, userId, s.receiverId, s.message, now);
            && (r.Success? <==> IsObjectIdText(s.receiverId))
            && (r.Failure? ==> r.error == {ReceiverCast})
            && (r.Success? ==> && r.value.sender == userId && r.value.receiver != userId
                               && r.value.body == Trim(s.message) && !r.value.seen)
  {
    CanonicalCastsToItself(userId);
  }

  /** The self check as written lets a message to oneself through: a
      receiver id that spells the sender's ObjectId in capitals differs
      from it as text, but the store casts it to the same id, so the record
      is addressed to its own sender. */
  lemma SelfSendSlipsPastRawCheck()
    ensures var me: Text := seq(24, _ => 0x61);   // "aaaaaaaaaaaaaaaaaaaaaaaa"
            var shout: Text := seq(24, _ => 0x41); // "AAAAAAAAAAAAAAAAAAAAAAAA"
            var hi: Text := [0x68, 0x69];          // "hi"
            var data := Some(SendRequest(Some(shout), Some(hi)));
            && IsCanonicalId(me)
            && ScreenAsWritten(me, data) == Accepted(shout, hi)
            && Screen(me, data) == Dropped
            && SendRecord(0, me, shout, hi, 0).Success?
            && SendRecord(0, me, shout, hi, 0).value.sender == me
            && SendRecord(0, me, shout, hi, 0).value.receiver == me
  {
    var me: Text := seq(24, _ => 0x61);
    var shout: Text := seq(24, _ => 0x41);
    var hi: Text := [0x68, 0x69];
    assert !IsBlank(hi) by { assert !IsJsSpace(hi[0]); }
    assert IsObjectIdText(shout);
    CanonicalCastsToItself(me);
    CastIgnoresCase(shout, me);
    assert shout != me by { assert shout[0] != me[0]; }
  }

  /** Every `receive_message` push carries a record that is in the store:
      same id, sender, receiver, body and timestamp (`seen` may have been
      raised since). Persistence happens before delivery. */
  predicate DeliveredFromStore(outbox: seq<Push>, records: seq<Message>) {
    forall i :: 0 <= i < |outbox| && outbox[i].signal.ReceiveMessage? ==>
      var m := outbox[i].signal.message;
      m.id < |records| && records[m.id] == m.(seen := records[m.id].seen)
  }

  /** Raising `seen` flags, or storing more records, keeps every earlier
      delivery backed by the store. */
  lemma DeliveredSurvivesStoreChange(outbox: seq<Push>, before: seq<Message>, after: seq<Message>)
    requires DeliveredFromStore(outbox, before)
    requires SeenOnlyRises(before, after)
    ensures DeliveredFromStore(outbox, after)
  {
  }

  /** Pushing a record the store holds keeps every delivery backed. */
  lemma DeliveredAfterPush(outbox: seq<Push>, records: seq<Message>, more: seq<Push>)
    requires DeliveredFromStore(outbox, records)
    requires forall p :: p in more && p.signal.ReceiveMessage? ==>
               var m := p.signal.message; m.id < |records| && records[m.id] == m
    ensures DeliveredFromStore(outbox + more, records)
  {
    var all := outbox + more;
    forall i | 0 <= i < |all| && all[i].signal.ReceiveMessage?
      ensures var m := all[i].signal.message;
              m.id < |records| && records[m.id] == m.(seen := records[m.id].seen)
    {
      if i >= |outbox| {
        assert all[i] in more;
      }
    }
  }

  /** The pushes of a stored message: to the receiver's socket when the
      receiver is online, then the same payload back to the sender. */
  function Deliveries(m: Message, receiverSocket: Option<Text>, senderSocket: Text): (ps: seq<Push>)
    ensures forall p :: p in ps ==> p.signal == ReceiveMessage(m)
    ensures |ps| == if receiverSocket.Some? then 2 else 1
    ensures ps[|ps| - 1].to == SocketOf(senderSocket)
    ensures receiverSocket.Some? ==> ps[0].to == SocketOf(receiverSocket.value)
  {
    (if receiverSocket.Some? then [Push(SocketOf(receiverSocket.value), ReceiveMessage(m))] else [])
    + [Push(SocketOf(senderSocket), ReceiveMessage(m))]
  }

  /** How the store answers the send handler: both the create and the
      read-back of the created record succeed, the create fails, or the
      create succeeds and the read-back (`populate`) fails. */
  datatype StoreFault = NoFault | CreateFails | PopulateFails

  class ChatServer {
    /** `onlineUsers`: user id to the socket id of the latest `join`. */
    var online: map<Text, Text>
    /** The order in which `onlineUsers.keys()` lists the users. */
    var keys: seq<Text>
    /** Every event pushed so far, oldest first. */
    var outbox: seq<Push>
    /** The message store. */
    const messages: MessageCollection
    /** The connections the gate has admitted and that have not yet
        disconnected: the only ones whose events reach a handler. */
    ghost var admitted: set<Connection>

    ghost predicate Valid()
      reads this, messages
    {
      && messages.Valid()
      && NoDuplicates(keys)
      && (forall u :: u in keys <==> u in online)
      && (forall u :: u in online ==> online[u] != [])
      && (forall c :: c in admitted ==> IsLive(c))
      && RegisteredWereAdmitted()
      && DeliveredFromStore(outbox, messages.records)
    }

    /** Every registered user joined through an admitted connection, and
        the registry holds that connection's socket: a refused connection
        is never registered. */
    ghost predicate RegisteredWereAdmitted()
      reads this
    {
      forall u :: u in online ==> exists c :: c in admitted && c.user.id == u && c.socketId == online[u]
    }

    /** The receiver's socket, as `onlineUsers.get(id)` followed by the
        truthiness test finds it. */
    function SocketFor(id: Text): (r: Option<Text>)
      reads this
      ensures r.Some? <==> id in online && online[id] != []
      ensures r.Some? ==> r.value == online[id]
    {
      if id in online && online[id] != [] then Some(online[id]) else None
    }

    constructor (store: MessageCollection)
      requires store.Valid()
      ensures Valid()
      ensures messages == store && online == map[] && keys == [] && outbox == []
      ensures admitted == {}
    {
      messages := store;
      online := map[];
      keys := [];
      outbox := [];
      admitted := {};
    }

    /** The connection middleware: run the gate on the handshake token and,
        when it admits, attach the user found to the new socket. A refused
        socket never reaches a handler. The store's users all have printed
        ObjectIds, and socket ids are never empty. */
    method Connect(token: Option<Text>, verify: Text -> Option<Text>,
                   findById: Text -> Lookup, socketId: Text)
      returns (r: Result<Connection, AuthError>)
      requires Valid() && socketId != []
      requires forall id :: findById(id).Found? ==> IsCanonicalId(findById(id).user.id)
      modifies this
      ensures Valid()
      ensures online == old(online) && keys == old(keys) && outbox == old(outbox)
      ensures r.Success? <==> Admit(token, verify, findById).Success?
      ensures r.Failure? ==> r.error == Admit(token, verify, findById).error && admitted == old(admitted)
      ensures r.Success? ==> && r.value == Connection(Admit(token, verify, findById).value, socketId)
                             && admitted == old(admitted) + {r.value}
    {
      match Admit(token, verify, findById)
      case Failure(e) =>
        r := Failure(e);
      case Success(user) =>
        r := Success(Connection(user, socketId));
        admitted := admitted + {r.value};
    }

    /** `join`: register this socket as the user's connection, replacing
        any earlier one, and broadcast the online user ids to everyone. */
    method Join(c: Connection)
      requires Valid() && c in admitted
      modifies this
      ensures Valid() && admitted == old(admitted)
      ensures online == Apply(old(online), Register(c.user.id, c.socketId))
      ensures keys == KeysAfterSet(old(keys), c.user.id)
      ensures outbox == old(outbox) + [Push(Everyone, OnlineUsers(keys))]
    {
      online := online[c.user.id := c.socketId];
      keys := KeysAfterSet(keys, c.user.id);
      outbox := outbox + [Push(Everyone, OnlineUsers(keys))];
    }

    /** `disconnect`: remove the user's entry, whichever socket it holds,
        and broadcast the online user ids to everyone. */
    method Disconnect(c: Connection)
      requires Valid() && c in admitted
      modifies this
      ensures Valid() && admitted == old(admitted) - {c}
      ensures online == Apply(old(online), Unregister(c.user.id))
      ensures keys == KeysAfterDelete(old(keys), c.user.id)
      ensures outbox == old(outbox) + [Push(Everyone, OnlineUsers(keys))]
    {
      online := online - {c.user.id};
      keys := KeysAfterDelete(keys, c.user.id);
      admitted := admitted - {c};
      outbox := outbox + [Push(Everyone, OnlineUsers(keys))];
    }

    /** Push ps, whose `receive_message` payloads are stored records. */
    method Emit(ps: seq<Push>)
      requires Valid()
      requires forall p :: p in ps && p.signal.ReceiveMessage? ==>
                 var m := p.signal.message;
                 m.id < |messages.records| && messages.records[m.id] == m
      modifies this
      ensures Valid() && admitted == old(admitted)
      ensures online == old(online) && keys == old(keys)
      ensures outbox == old(outbox) + ps
    {
      DeliveredAfterPush(outbox, messages.records, ps);
      outbox := outbox + ps;
    }

    /** `send_message`: screen the request with the checks as the code
        makes them, store one record, push the stored record to the
        receiver when online and back to the sender; a store failure sends
        only an `error` to the sender. */
    method SendMessage(c: Connection, data: Option<SendRequest>, now: int, fault: StoreFault)
      requires Valid() && c in admitted
      modifies this, messages
      ensures Valid() && admitted == old(admitted)
      ensures online == old(online) && keys == old(keys)
      ensures SeenOnlyRises(old(messages.records), messages.records)
      ensures match ScreenAsWritten(c.user.id, data)
              case Dropped =>
                messages.records == old(messages.records) && outbox == old(outbox)
              case Unreadable =>
                && messages.records == old(messages.records)
                && outbox == old(outbox) + [Push(SocketOf(c.socketId), Error(SendFailure))]
              case Accepted(receiverId, message) =>
                StoreAndDeliverEffect(old(messages.records), old(outbox), messages.records, outbox,
                                      c, receiverId, message, now, fault)
    {
      var s := ScreenAsWritten(c.user.id, data);
      match s
      case Dropped =>
      case Unreadable =>
        Emit([Push(SocketOf(c.socketId), Error(SendFailure))]);
      case Accepted(receiverId, message) =>
        StoreAndDeliver(c, receiverId, message, now, fault);
    }

    /** What storing and delivering a screened message does: on a schema
        error or a failed create, no record and an `error` to the sender;
        otherwise exactly one new record, then either an `error` (the
        read-back failed) or the deliveries of that record. */
    ghost predicate StoreAndDeliverEffect(
      records0: seq<Message>, outbox0: seq<Push>, records1: seq<Message>, outbox1: seq<Push>,
      c: Connection, receiverId: Text, message: Text, now: int, fault: StoreFault)
      reads this
    {
      match SendRecord(|records0|, c.user.id, receiverId, message, now)
      case Failure(_) =>
        records1 == records0 && outbox1 == outbox0 + [Push(SocketOf(c.socketId), Error(SendFailure))]
      case Success(m) =>
        if fault == CreateFails then
          records1 == records0 && outbox1 == outbox0 + [Push(SocketOf(c.socketId), Error(SendFailure))]
        else
          && records1 == records0 + [m]
          && outbox1 == outbox0 +
               if fault == PopulateFails then [Push(SocketOf(c.socketId), Error(SendFailure))]
               else Deliveries(m, SocketFor(receiverId), c.socketId)
    }

    /** The part of `send_message` after the checks: `Message.create`, the
        read-back, and the pushes. */
    method StoreAndDeliver(c: Connection, receiverId: Text, message: Text, now: int, fault: StoreFault)
      requires Valid() && c in admitted
      modifies this, messages
      ensures Valid() && admitted == old(admitted)
      ensures online == old(online) && keys == old(keys)
      ensures StoreAndDeliverEffect(old(messages.records), old(outbox), messages.records, outbox,
                                    c, receiverId, message, now, fault)
    {
      ghost var before := messages.records;
      var created := messages.Create(Some(c.user.id), Some(receiverId), Some(message),
                                     now, fault == CreateFails);
      DeliveredSurvivesStoreChange(outbox, before, messages.records);
      if created.Failure? || fault == PopulateFails {
        Emit([Push(SocketOf(c.socketId), Error(SendFailure))]);
      } else {
        var m := created.value;
        assert messages.records == before + [m];
        Emit(Deliveries(m, SocketFor(receiverId), c.socketId));
      }
    }

    /** `typing`: tell the receiver, when online, that this user is typing. */
    method Typing(c: Connection, receiverId: Option<Text>)
      requires Valid() && c in admitted
      modifies this
      ensures Valid() && admitted == old(admitted)
      ensures online == old(online) && keys == old(keys)
      ensures outbox == old(outbox) +
                if receiverId.Some? && receiverId.value in online
                then [Push(SocketOf(online[receiverId.value]), Signal.Typing(c.user.id, c.user.username))]
                else []
    {
      if receiverId.Some? && SocketFor(receiverId.value).Some? {
        var to := SocketFor(receiverId.value).value;
        Emit([Push(SocketOf(to), Signal.Typing(c.user.id, c.user.username))]);
      }
    }

    /** `stop_typing`: tell the receiver, when online, that this user
        stopped typing. */
    method StopTyping(c: Connection, receiverId: Option<Text>)
      requires Valid() && c in admitted
      modifies this
      ensures Valid() && admitted == old(admitted)
      ensures online == old(online) && keys == old(keys)
      ensures outbox == old(outbox) +
                if receiverId.Some? && receiverId.value in online
                then [Push(SocketOf(online[receiverId.value]), Signal.StopTyping(c.user.id))]
                else []
    {
      if receiverId.Some? && SocketFor(receiverId.value).Some? {
        var to := SocketFor(receiverId.value).value;
        Emit([Push(SocketOf(to), Signal.StopTyping(c.user.id))]);
      }
    }

    /** `mark_as_read`: mark every message from `senderId` to this user as
        seen, then tell the sender, when online, who read them. A failed
        update (an id that is not an ObjectId, or the store) only logs. */
    method MarkAsRead(c: Connection, senderId: Text, fault: bool)
      requires Valid() && c in admitted
      modifies this, messages
      ensures Valid() && admitted == old(admitted)
      ensures online == old(online) && keys == old(keys)
      ensures SeenOnlyRises(old(messages.records), messages.records)
      ensures IsObjectIdText(senderId) && !fault ==>
                && messages.records == MarkSeen(old(messages.records), CastObjectId(senderId).value, c.user.id)
                && outbox == old(outbox) +
                     if senderId in online
                     then [Push(SocketOf(online[senderId]), MessagesRead(c.user.id))]
                     else []
      ensures !IsObjectIdText(senderId) || fault ==>
                messages.records == old(messages.records) && outbox == old(outbox)
    {
      CanonicalCastsToItself(c.user.id);
      ghost var before := messages.records;
      var updated := messages.UpdateManySeen(senderId, c.user.id, fault);
      DeliveredSurvivesStoreChange(outbox, before, messages.records);
      if updated.Success? {
        var to := SocketFor(senderId);
        if to.Some? {
          Emit([Push(SocketOf(to.value), MessagesRead(c.user.id))]);
        }
      }
    }
  }
}
