/**
 * The hosted backend's tables and object storage, as the client sees them.
 * Row identifiers are assigned by the store; here a conversation's or a
 * message's id is its position in its table. Timestamps are not modelled, so
 * a table's order is insertion order, which is also creation order.
 */
module Backend {
  import opened Wrappers

  datatype Conversation = Conversation(
    id: nat,
    participants: seq<string>,
    lastMessage: Option<string>,
    isGroup: bool,
    groupName: Option<string>)

  datatype Message = Message(
    id: nat,
    conversationId: nat,
    sender: string,
    content: string,
    read: bool)

  datatype Attachment = Attachment(
    messageId: nat,
    filePath: string,
    fileName: string,
    fileSize: nat,
    fileType: string)

  datatype Profile = Profile(
    address: string,
    username: string,
    bio: Option<string>,
    avatarUrl: string)

  /** A file written to object storage: its bucket and its path there. */
  datatype StoredObject = StoredObject(bucket: string, path: string)

  class Store {
    var conversations: seq<Conversation>
    var messages: seq<Message>
    var attachments: seq<Attachment>
    var profiles: map<string, Profile>
    var objects: seq<StoredObject>

    /**
     * Every conversation and message carries its own position as its id, and
     * every profile is stored under its own address (the table's key).
     */
    ghost predicate Valid()
      reads this
    {
      && IdsArePositions(conversations)
      && (forall i :: 0 <= i < |messages| ==> messages[i].id == i)
      && KeyedByAddress(profiles)
    }

    constructor ()
      ensures Valid()
      ensures conversations == [] && messages == [] && attachments == []
      ensures profiles == map[] && objects == []
    {
      conversations, messages, attachments := [], [], [];
      profiles, objects := map[], [];
    }

    /** Inserts a conversation row and returns the id it was given. */
    method InsertConversation(participants: seq<string>, lastMessage: Option<string>, isGroup: bool)
      returns (id: nat)
      requires Valid()
      modifies this`conversations
      ensures Valid()
      ensures id == |old(conversations)|
      ensures conversations == old(conversations) + [Conversation(id, participants, lastMessage, isGroup, None)]
    {
      id := |conversations|;
      conversations := conversations + [Conversation(id, participants, lastMessage, isGroup, None)];
    }

    /** Inserts a message row (unread) and returns the id it was given. */
    method InsertMessage(conversationId: nat, sender: string, content: string) returns (id: nat)
      requires Valid()
      modifies this`messages
      ensures Valid()
      ensures id == |old(messages)|
      ensures messages == old(messages) + [Message(id, conversationId, sender, content, false)]
    {
      id := |messages|;
      messages := messages + [Message(id, conversationId, sender, content, false)];
    }

    method InsertAttachment(a: Attachment)
      modifies this`attachments
      ensures attachments == old(attachments) + [a]
    {
      attachments := attachments + [a];
    }

    /** Insert-or-replace keyed by the profile's address. */
    method UpsertProfile(p: Profile)
      requires Valid()
      modifies this`profiles
      ensures Valid()
      ensures profiles == old(profiles)[p.address := p]
    {
      profiles := profiles[p.address := p];
    }

    method Upload(bucket: string, path: string)
      modifies this`objects
      ensures objects == old(objects) + [StoredObject(bucket, path)]
    {
      objects := objects + [StoredObject(bucket, path)];
    }
  }

  /** Conversations whose ids are their positions, as the store keeps them. */
  predicate IdsArePositions(conversations: seq<Conversation>) {
    forall i :: 0 <= i < |conversations| ==> conversations[i].id == i
  }

  /** Each profile row sits under its own address. */
  predicate KeyedByAddress(profiles: map<string, Profile>) {
    forall k :: k in profiles ==> profiles[k].address == k
  }

  /** `a` is `b` with some elements left out, the rest in their order. */
  predicate IsSubsequence<T(==)>(a: seq<T>, b: seq<T>) {
    if a == [] then true
    else if b == [] then false
    else if a[0] == b[0] then IsSubsequence(a[1..], b[1..])
    else IsSubsequence(a, b[1..])
  }

  lemma SubsequenceSkip<T>(a: seq<T>, b: seq<T>)
    requires b != [] && IsSubsequence(a, b[1..])
    ensures IsSubsequence(a, b)
  {
    if a != [] && a[0] == b[0] {
      SubsequenceTail(a, b[1..]);
    }
  }

  lemma {:induction false} SubsequenceTail<T>(a: seq<T>, b: seq<T>)
    requires a != [] && IsSubsequence(a, b)
    ensures IsSubsequence(a[1..], b)
  {
    if b != [] {
      if a[0] == b[0] {
        SubsequenceSkip(a[1..], b);
      } else {
        SubsequenceTail(a, b[1..]);
        SubsequenceSkip(a[1..], b);
      }
    }
  }

  /** The messages of one conversation, in store order (oldest first). */
  function MessagesOf(messages: seq<Message>, conversationId: nat): (r: seq<Message>)
    ensures forall m :: m in r <==> m in messages && m.conversationId == conversationId
    ensures IsSubsequence(r, messages)
    ensures |r| <= |messages|
  {
    if messages == [] then []
    else
      var rest := MessagesOf(messages[1..], conversationId);
      if messages[0].conversationId == conversationId then
        assert ([messages[0]] + rest)[1..] == rest;
        [messages[0]] + rest
      else
        SubsequenceSkip(rest, messages);
        rest
  }
}
