/** The two HTTP routes that read users and messages: the user list, and a
    conversation's history, which also marks the other party's messages to
    the caller as seen. The caller's id `me` comes from the authentication
    middleware. */
module UserRoutes {
  import opened JsText
  import opened Identity
  import opened Outcomes
  import opened Sorting
  import opened MessageModel

  /** An HTTP answer: status 200 with a JSON body, 400, or 500. */
  datatype Response<T> = Json(body: T) | BadRequest(error: Text) | ServerError(error: Text)

  const InvalidUserId: Text := Units("Invalid user ID")
  const StoreError: Text := Units("Server error")

  // ---------------------------------------------------------------- users

  /** Code-unit order on texts, shortest first among texts that are
      prefixes of each other: how the store compares string keys. */
  predicate TextLe(a: Text, b: Text) {
    if a == [] then true
    else if b == [] then false
    else if a[0] != b[0] then a[0] < b[0]
    else TextLe(a[1..], b[1..])
  }

  lemma {:induction false} TextLeTotal(a: Text, b: Text)
    ensures TextLe(a, b) || TextLe(b, a)
  {
    if a != [] && b != [] && a[0] == b[0] {
      TextLeTotal(a[1..], b[1..]);
    }
  }

  lemma {:induction false} TextLeTransitive(a: Text, b: Text, c: Text)
    requires TextLe(a, b) && TextLe(b, c)
    ensures TextLe(a, c)
  {
    if a != [] && b != [] && c != [] && a[0] == b[0] && b[0] == c[0] {
      TextLeTransitive(a[1..], b[1..], c[1..]);
    }
  }

  predicate ByUsername(u: User, v: User) {
    TextLe(u.username, v.username)
  }

  lemma ByUsernameIsTotalPreorder()
    ensures TotalPreorder(ByUsername)
  {
    forall u: User, v: User ensures ByUsername(u, v) || ByUsername(v, u) {
      TextLeTotal(u.username, v.username);
    }
    forall u: User, v: User, w: User | ByUsername(u, v) && ByUsername(v, w)
      ensures ByUsername(u, w)
    {
      TextLeTransitive(u.username, v.username, w.username);
    }
  }

  /** The users `{ _id: { $ne: me } }` matches, in stored order. */
  function OtherUsers(users: seq<User>, me: Text): (r: seq<User>)
    ensures forall u :: u in r <==> u in users && u.id != me
    ensures forall u: User :: u.id != me ==> multiset(r)[u] == multiset(users)[u]
    ensures forall u: User :: u.id == me ==> multiset(r)[u] == 0
  {
    if users == [] then []
    else
      assert users == [users[0]] + users[1..];
      (if users[0].id != me then [users[0]] else []) + OtherUsers(users[1..], me)
  }

  /** `GET /users`: every user except the caller, by ascending username;
      `storeFails` stands for a failing query. */
  function ListUsers(users: seq<User>, me: Text, storeFails: bool): (r: Response<seq<User>>)
    ensures storeFails <==> r == ServerError(StoreError)
    ensures !storeFails ==> r.Json?
    ensures r.Json? ==> multiset(r.body) == multiset(OtherUsers(users, me))
    ensures r.Json? ==> forall u :: u in r.body <==> u in users && u.id != me
    ensures r.Json? ==> SortedBy(r.body, ByUsername)
  {
    if storeFails then ServerError(StoreError)
    else
      var r := SortBy(OtherUsers(users, me), ByUsername);
      ByUsernameIsTotalPreorder();
      SortBySorted(OtherUsers(users, me), ByUsername);
      assert forall u :: u in r <==> u in multiset(r);
      Json(r)
  }

  // ------------------------------------------------------------- messages

  /** m belongs to the conversation between a and b, in either direction. */
  predicate Between(m: Message, a: Text, b: Text) {
    Addressed(m, a, b) || Addressed(m, b, a)
  }

  /** The records `{ $or: [{ sender: me, receiver: other },
      { sender: other, receiver: me }] }` matches, in stored order. */
  function Conversation(rs: seq<Message>, me: Text, other: Text): (r: seq<Message>)
    ensures forall m :: m in r <==> m in rs && Between(m, me, other)
    ensures forall m :: Between(m, me, other) ==> multiset(r)[m] == multiset(rs)[m]
    ensures forall m :: !Between(m, me, other) ==> multiset(r)[m] == 0
  {
    if rs == [] then []
    else
      assert rs == [rs[0]] + rs[1..];
      (if Between(rs[0], me, other) then [rs[0]] else []) + Conversation(rs[1..], me, other)
  }

  predicate EarlierOrSame(m: Message, n: Message) {
    m.timestamp <= n.timestamp
  }

  /** The history the route answers with: the conversation sorted by
      `timestamp: 1`. */
  function History(rs: seq<Message>, me: Text, other: Text): (r: seq<Message>)
    ensures multiset(r) == multiset(Conversation(rs, me, other))
    ensures forall m :: m in r <==> m in rs && Between(m, me, other)
    ensures SortedBy(r, EarlierOrSame)
  {
    var r := SortBy(Conversation(rs, me, other), EarlierOrSame);
    SortBySorted(Conversation(rs, me, other), EarlierOrSame);
    assert forall m :: m in r <==> m in multiset(r);
    r
  }

  /** What can go wrong in the store during the history route: the query
      fails, or the query succeeds and the update after it fails. */
  datatype HistoryFault = NoFault | FindFails | UpdateFails

  /** `GET /messages/:userId`: check the id, read the conversation sorted
      by time, then mark the other party's messages to the caller as
      seen. The answer is read before the update, so it shows the `seen`
      flags as they were. */
  method GetMessages(db: MessageCollection, me: Text, userId: Text, fault: HistoryFault)
    returns (r: Response<seq<Message>>)
    requires db.Valid() && IsCanonicalId(me)
    modifies db
    ensures db.Valid()
    ensures SeenOnlyRises(old(db.records), db.records)
    ensures !IsObjectIdText(userId) ==>
              r == BadRequest(InvalidUserId) && db.records == old(db.records)
    ensures IsObjectIdText(userId) && fault != NoFault ==>
              r == ServerError(StoreError)
    ensures IsObjectIdText(userId) && fault == FindFails ==>
              db.records == old(db.records)
    ensures IsObjectIdText(userId) && fault == UpdateFails ==>
              db.records == old(db.records)
    ensures IsObjectIdText(userId) && fault == NoFault ==>
              && r == Json(History(old(db.records), me, CastObjectId(userId).value))
              && db.records == MarkSeen(old(db.records), CastObjectId(userId).value, me)
  {
    if !IsObjectIdText(userId) {
      return BadRequest(InvalidUserId);
    }
    if fault == FindFails {
      return ServerError(StoreError);
    }
    var other := CastObjectId(userId).value;
    var messages := History(db.records, me, other);
    var updated := db.UpdateManySeen(userId, me, fault == UpdateFails);
    CanonicalCastsToItself(me);
    if updated.Failure? {
      return ServerError(StoreError);
    }
    r := Json(messages);
  }

  /** A message to a receiver who was offline stays in the store; when the
      receiver later opens the conversation, the answer contains it as
      still unseen, and afterwards it is seen. */
  lemma UnreadMessageReachesHistory(rs: seq<Message>, me: Text, other: Text, i: nat)
    requires i < |rs| && Addressed(rs[i], other, me) && !rs[i].seen
    ensures rs[i] in History(rs, me, other)
    ensures MarkSeen(rs, other, me)[i].seen
  {
    MarkSeenAt(rs, other, me, i);
  }
}
