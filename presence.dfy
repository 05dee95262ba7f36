/** The session registry as values: the `onlineUsers` map from a user id
    to the socket id of that user's latest `join`, and the order in which a
    JavaScript `Map` lists its keys (first insertion; re-setting a key keeps
    its place, deleting it forgets the place). */
module Presence {
  import opened JsText
  import opened Outcomes

  predicate NoDuplicates<T(==)>(s: seq<T>) {
    forall i, j :: 0 <= i < j < |s| ==> s[i] != s[j]
  }

  /** The key order of a Map after `set(u, ...)`: a new key goes last, an
      existing key keeps its place. */
  function KeysAfterSet(keys: seq<Text>, u: Text): (r: seq<Text>)
    ensures forall x :: x in r <==> x in keys || x == u
    ensures NoDuplicates(keys) ==> NoDuplicates(r)
    ensures keys <= r
  {
    if u in keys then keys else keys + [u]
  }

  /** The key order of a Map after `delete(u)`: u is gone, the others keep
      their relative order. */
  function KeysAfterDelete(keys: seq<Text>, u: Text): (r: seq<Text>)
    ensures forall x :: x in r <==> x in keys && x != u
    ensures NoDuplicates(keys) ==> NoDuplicates(r)
    ensures |r| <= |keys|
    ensures u !in keys ==> r == keys
  {
    if keys == [] then []
    else
      var rest := KeysAfterDelete(keys[1..], u);
      assert forall x :: x in keys <==> x == keys[0] || x in keys[1..];
      if keys[0] == u then rest
      else
        assert NoDuplicates(keys) ==> keys[0] !in keys[1..];
        [keys[0]] + rest
  }

  /** Deleting a key that sits at position k removes exactly that position:
      the remaining keys keep their relative order, so the broadcast after a
      `disconnect` lists the others as before. */
  lemma {:induction false} KeysAfterDeleteKeepsOrder(keys: seq<Text>, u: Text, k: nat)
    requires NoDuplicates(keys) && k < |keys| && keys[k] == u
    ensures KeysAfterDelete(keys, u) == keys[..k] + keys[k + 1..]
  {
    if k == 0 {
      assert u !in keys[1..];
    } else {
      assert NoDuplicates(keys[1..]);
      KeysAfterDeleteKeepsOrder(keys[1..], u, k - 1);
      assert keys[..k] == [keys[0]] + keys[1..][..k - 1];
      assert keys[k + 1..] == keys[1..][k..];
    }
  }

  /** One change to the registry: a `join` or a `disconnect`. */
  datatype RegistryOp = Register(user: Text, socket: Text) | Unregister(user: Text)

  function Apply(online: map<Text, Text>, op: RegistryOp): map<Text, Text> {
    match op
    case Register(u, s) => online[u := s]
    case Unregister(u) => online - {u}
  }

  /** The registry after the changes ops, in order, starting from online. */
  function Replay(online: map<Text, Text>, ops: seq<RegistryOp>): map<Text, Text> {
    if ops == [] then online
    else Apply(Replay(online, ops[..|ops| - 1]), ops[|ops| - 1])
  }

  /** The last change in ops that concerns user u, if any. */
  function LastChange(ops: seq<RegistryOp>, u: Text): (r: Option<RegistryOp>)
    ensures r.Some? ==> r.value in ops && r.value.user == u
  {
    if ops == [] then None
    else if ops[|ops| - 1].user == u then Some(ops[|ops| - 1])
    else LastChange(ops[..|ops| - 1], u)
  }

  /** After any sequence of joins and disconnects, a user is online exactly
      when the last change concerning them was a join (or, with no change,
      when they were online before), and their entry holds the socket of
      that last join: the latest connection wins. */
  lemma {:induction false} ReplayOnline(online: map<Text, Text>, ops: seq<RegistryOp>, u: Text)
    ensures match LastChange(ops, u)
            case None => (u in Replay(online, ops) <==> u in online)
                         && (u in online ==> Replay(online, ops)[u] == online[u])
            case Some(op) => (u in Replay(online, ops) <==> op.Register?)
                             && (op.Register? ==> Replay(online, ops)[u] == op.socket)
  {
    if ops != [] {
      ReplayOnline(online, ops[..|ops| - 1], u);
    }
  }
}
