/** The Message model: the schema's field constraints (required sender and
    receiver, a required trimmed body of at most 2000 code units, a
    timestamp and a `seen` flag with defaults), the collection that stores
    the records, and its bulk "mark as seen" update. */
module MessageModel {
  import opened JsText
  import opened Identity
  import opened Outcomes

  /** `maxlength` of the message body. */
  const MaxBodyLength := 2000

  /** A stored message. `id` is the record's ObjectId, modelled as its
      position in the collection; `timestamp` is the clock value at
      creation. */
  datatype Message = Message(
    id: nat,
    sender: Text,
    receiver: Text,
    body: Text,
    timestamp: int,
    seen: bool)

  /** What the schema guarantees of every stored record. */
  predicate IsValidRecord(m: Message) {
    && IsCanonicalId(m.sender)
    && IsCanonicalId(m.receiver)
    && m.body != []
    && Trim(m.body) == m.body
    && |m.body| <= MaxBodyLength
  }

  /** One failing path of a validation error. */
  datatype FieldError =
    | SenderRequired | SenderCast
    | ReceiverRequired | ReceiverCast
    | MessageRequired | MessageTooLong

  function IdErrors(v: Option<Text>, required: FieldError, cast: FieldError): set<FieldError> {
    if v.None? then {required}
    else if !IsObjectIdText(v.value) then {cast}
    else {}
  }

  /** The failing paths of the document `{ sender, receiver, message }`
      with the body trimmed: every one is reported, as in a validation
      error. */
  function RecordErrors(sender: Option<Text>, receiver: Option<Text>, message: Option<Text>)
    : (errs: set<FieldError>)
    ensures SenderRequired in errs <==> sender.None?
    ensures SenderCast in errs <==> sender.Some? && !IsObjectIdText(sender.value)
    ensures ReceiverRequired in errs <==> receiver.None?
    ensures ReceiverCast in errs <==> receiver.Some? && !IsObjectIdText(receiver.value)
    ensures MessageRequired in errs <==> message.None? || IsBlank(message.value)
    ensures MessageTooLong in errs <==> message.Some? && |Trim(message.value)| > MaxBodyLength
  {
    var body := if message.Some? then Trim(message.value) else [];
    IdErrors(sender, SenderRequired, SenderCast)
    + IdErrors(receiver, ReceiverRequired, ReceiverCast)
    + (if body == [] then {MessageRequired} else {})
    + (if |body| > MaxBodyLength then {MessageTooLong} else {})
  }

  /** Builds the document for `Message.create({ sender, receiver, message })`
      and validates it: ids are cast to ObjectIds, the body goes through the
      `trim` setter, `timestamp` defaults to the clock and `seen` to false.
      Every failing path is reported, as in a validation error. */
  function NewRecord(id: nat, sender: Option<Text>, receiver: Option<Text>,
                     message: Option<Text>, now: int): (r: Result<Message, set<FieldError>>)
    ensures r.Success? <==> && sender.Some? && IsObjectIdText(sender.value)
                            && receiver.Some? && IsObjectIdText(receiver.value)
                            && message.Some? && !IsBlank(message.value)
                            && |Trim(message.value)| <= MaxBodyLength
    ensures r.Failure? ==> r.error != {}
    ensures r.Failure? ==> (SenderRequired in r.error <==> sender.None?)
    ensures r.Failure? ==> (SenderCast in r.error <==> sender.Some? && !IsObjectIdText(sender.value))
    ensures r.Failure? ==> (ReceiverRequired in r.error <==> receiver.None?)
    ensures r.Failure? ==> (ReceiverCast in r.error <==> receiver.Some? && !IsObjectIdText(receiver.value))
    ensures r.Failure? ==> (MessageRequired in r.error <==> message.None? || IsBlank(message.value))
    ensures r.Failure? ==> (MessageTooLong in r.error <==> message.Some? && |Trim(message.value)| > MaxBodyLength)
    ensures r.Success? ==> IsValidRecord(r.value)
    ensures r.Success? ==> && sender.Some? && CastObjectId(sender.value) == Some(r.value.sender)
                           && receiver.Some? && CastObjectId(receiver.value) == Some(r.value.receiver)
                           && message.Some? && r.value.body == Trim(message.value)
    ensures r.Success? ==> r.value.id == id && r.value.timestamp == now && !r.value.seen
  {
    var errors := RecordErrors(sender, receiver, message);
    if errors == {} then
      assert SenderRequired !in errors && SenderCast !in errors;
      assert ReceiverRequired !in errors && ReceiverCast !in errors;
      assert MessageRequired !in errors && MessageTooLong !in errors;
      TrimIdempotent(message.value);
      Success(Message(id, CastObjectId(sender.value).value, CastObjectId(receiver.value).value,
                      Trim(message.value), now, false))
    else Failure(errors)
  }

  /** m is a message from `from` to `to`. */
  predicate Addressed(m: Message, from: Text, to: Text) {
    m.sender == from && m.receiver == to
  }

  /** The effect of `{ $set: { seen: true } }` on one record matched by
      `{ sender: from, receiver: to, seen: false }`; a record that is
      already seen is left as it is either way. */
  function MarkOne(m: Message, from: Text, to: Text): Message {
    if Addressed(m, from, to) then m.(seen := true) else m
  }

  /** `updateMany({ sender: from, receiver: to, seen: false },
      { $set: { seen: true } })` over the records rs. */
  function MarkSeen(rs: seq<Message>, from: Text, to: Text): (r: seq<Message>)
    ensures |r| == |rs|
  {
    if rs == [] then []
    else [MarkOne(rs[0], from, to)] + MarkSeen(rs[1..], from, to)
  }

  /** The bulk update touches exactly the records addressed from `from` to
      `to`: those become seen, every other field of every record and every
      other record stays as it was. */
  lemma {:induction false} MarkSeenAt(rs: seq<Message>, from: Text, to: Text, i: nat)
    requires i < |rs|
    ensures MarkSeen(rs, from, to)[i] == rs[i].(seen := rs[i].seen || Addressed(rs[i], from, to))
  {
    if i > 0 {
      MarkSeenAt(rs[1..], from, to, i - 1);
    }
  }

  /** After the update no message from `from` to `to` is unseen. */
  lemma MarkSeenLeavesNoneUnseen(rs: seq<Message>, from: Text, to: Text, i: nat)
    requires i < |rs| && Addressed(rs[i], from, to)
    ensures MarkSeen(rs, from, to)[i].seen
  {
    MarkSeenAt(rs, from, to, i);
  }

  /** `seen` only ever goes from false to true, and nothing else about a
      record changes; records may only be added at the end. */
  predicate SeenOnlyRises(before: seq<Message>, after: seq<Message>) {
    && |before| <= |after|
    && forall i :: 0 <= i < |before| ==>
         && after[i] == before[i].(seen := after[i].seen)
         && (before[i].seen ==> after[i].seen)
  }

  lemma {:induction false} MarkSeenOnlyRaises(rs: seq<Message>, from: Text, to: Text)
    ensures SeenOnlyRises(rs, MarkSeen(rs, from, to))
  {
    forall i | 0 <= i < |rs| {
      MarkSeenAt(rs, from, to, i);
    }
  }

  /** Repeating the update changes nothing. */
  lemma {:induction false} MarkSeenIdempotent(rs: seq<Message>, from: Text, to: Text)
    ensures MarkSeen(MarkSeen(rs, from, to), from, to) == MarkSeen(rs, from, to)
  {
    var once := MarkSeen(rs, from, to);
    var twice := MarkSeen(once, from, to);
    forall i | 0 <= i < |rs| ensures twice[i] == once[i] {
      MarkSeenAt(rs, from, to, i);
      MarkSeenAt(once, from, to, i);
    }
  }

  /** Messages that are never out of step: ids are positions, and every
      record satisfies the schema. */
  predicate IsWellFormedStore(rs: seq<Message>) {
    forall i :: 0 <= i < |rs| ==> rs[i].id == i && IsValidRecord(rs[i])
  }

  lemma MarkSeenKeepsWellFormed(rs: seq<Message>, from: Text, to: Text)
    requires IsWellFormedStore(rs)
    ensures IsWellFormedStore(MarkSeen(rs, from, to))
  {
    MarkSeenOnlyRaises(rs, from, to);
  }

  /** Why `Message.create` did not store a record. */
  datatype CreateError = Invalid(errors: set<FieldError>) | WriteFailed

  /** Why `Message.updateMany` did not run: an id in the filter is not an
      ObjectId, or the store failed. */
  datatype UpdateError = FilterCast | UpdateFailed

  /** The `messages` collection. */
  class MessageCollection {
    var records: seq<Message>

    ghost predicate Valid()
      reads this
    {
      IsWellFormedStore(records)
    }

    constructor ()
      ensures Valid() && records == []
    {
      records := [];
    }

    /** `Message.create({ sender, receiver, message })`. `writeFails` stands
        for a store that refuses the write. */
    method Create(sender: Option<Text>, receiver: Option<Text>, message: Option<Text>,
                  now: int, writeFails: bool) returns (r: Result<Message, CreateError>)
      requires Valid()
      modifies this
      ensures Valid()
      ensures match NewRecord(|old(records)|, sender, receiver, message, now)
              case Failure(errors) => r == Failure(Invalid(errors)) && records == old(records)
              case Success(m) =>
                if writeFails then r == Failure(WriteFailed) && records == old(records)
                else r == Success(m) && records == old(records) + [m]
    {
      var doc := NewRecord(|records|, sender, receiver, message, now);
      match doc
      case Failure(errors) =>
        r := Failure(Invalid(errors));
      case Success(m) =>
        if writeFails {
          r := Failure(WriteFailed);
        } else {
          records := records + [m];
          r := Success(m);
        }
    }

    /** `Message.updateMany({ sender, receiver, seen: false },
        { $set: { seen: true } })`. The ids in the filter are cast first;
        `fails` stands for a store that refuses the update. */
    method UpdateManySeen(sender: Text, receiver: Text, fails: bool)
      returns (r: Result<(), UpdateError>)
      requires Valid()
      modifies this
      ensures Valid()
      ensures SeenOnlyRises(old(records), records)
      ensures CastObjectId(sender).None? || CastObjectId(receiver).None? ==>
                r == Failure(FilterCast) && records == old(records)
      ensures CastObjectId(sender).Some? && CastObjectId(receiver).Some? && fails ==>
                r == Failure(UpdateFailed) && records == old(records)
      ensures CastObjectId(sender).Some? && CastObjectId(receiver).Some? && !fails ==>
                && r == Success(())
                && records == MarkSeen(old(records), CastObjectId(sender).value,
                                       CastObjectId(receiver).value)
    {
      var from, to := CastObjectId(sender), CastObjectId(receiver);
      if from.None? || to.None? {
        r := Failure(FilterCast);
      } else if fails {
        r := Failure(UpdateFailed);
      } else {
        MarkSeenKeepsWellFormed(records, from.value, to.value);
        MarkSeenOnlyRaises(records, from.value, to.value);
        records := MarkSeen(records, from.value, to.value);
        r := Success(());
      }
    }
  }
}
