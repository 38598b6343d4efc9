/**
 * The messages page: the label shown for a conversation, the address search,
 * the send guard and the content and attachment path of a sent message,
 * find-or-create of a direct conversation, and when a realtime insert makes
 * the page reload its messages.
 *
 * `account` is the page's identity: the lower-cased id of the session's user.
 * Backend failures are inputs: each `...Ok` flag says whether that request
 * succeeded.
 */
module Messages {
  import opened Wrappers
  import opened Text
  import opened Backend
  import opened Browser

  // ---------------------------------------------------------------------------
  // Other-participant label
  // ---------------------------------------------------------------------------

  /** The `find` test: the participant is not the page's account once lower-cased. */
  predicate Differs(p: string, account: Option<string>) {
    account.None? || Lower(p) != account.value
  }

  /** `participants.find(p => p.toLowerCase() !== account)`. */
  function FirstOther(participants: seq<string>, account: Option<string>): Option<string> {
    if participants == [] then None
    else if Differs(participants[0], account) then Some(participants[0])
    else FirstOther(participants[1..], account)
  }

  /** `${other.slice(0, 6)}...${other.slice(-4)}`. */
  function ShortAddress(p: string): string {
    Slice(p, 0, 6) + "..." + SliceFrom(p, -4)
  }

  /** `getOtherParticipant`: a short form of the first other participant, or 'Unknown'. */
  function OtherParticipantLabel(c: Conversation, account: Option<string>): string {
    var other := FirstOther(c.participants, account);
    if other.Some? && other.value != "" then ShortAddress(other.value) else "Unknown"
  }

  /** Position `i` holds the first participant that differs from the account. */
  predicate IsFirstOther(ps: seq<string>, account: Option<string>, i: int) {
    && 0 <= i < |ps|
    && Differs(ps[i], account)
    && forall j :: 0 <= j < i ==> !Differs(ps[j], account)
  }

  /** `FirstOther` finds nothing only when no participant differs, and otherwise the first that does. */
  lemma {:induction false} FirstOtherSpec(ps: seq<string>, account: Option<string>)
    ensures FirstOther(ps, account).None? <==> forall i :: 0 <= i < |ps| ==> !Differs(ps[i], account)
    ensures forall i :: IsFirstOther(ps, account, i) ==> FirstOther(ps, account) == Some(ps[i])
  {
    if ps != [] && !Differs(ps[0], account) {
      FirstOtherSpec(ps[1..], account);
      forall i | 0 < i < |ps| ensures ps[i] == ps[1..][i - 1] {}
      forall i | IsFirstOther(ps, account, i) ensures FirstOther(ps, account) == Some(ps[i]) {
        assert IsFirstOther(ps[1..], account, i - 1);
      }
    }
  }

  /** A short address always holds "...", so it is never the word 'Unknown'. */
  lemma ShortAddressNotUnknown(p: string)
    ensures ShortAddress(p) != "Unknown"
  {
    var pre := Slice(p, 0, 6);
    assert ShortAddress(p)[|pre|] == '.';
    assert forall k :: 0 <= k < |"Unknown"| ==> "Unknown"[k] != '.';
  }

  /** For an address of ten characters or more the short form is its first six, "..." and its last four. */
  lemma ShortAddressOfLong(p: string)
    requires |p| >= 10
    ensures ShortAddress(p) == p[..6] + "..." + p[|p| - 4..]
  {
  }

  /**
   * The label is 'Unknown' exactly when no participant differs from the
   * account, or the first that does is the empty string (which is falsy);
   * otherwise it is the short form of the first participant that differs.
   */
  lemma OtherParticipantLabelSpec(c: Conversation, account: Option<string>)
    ensures var ps := c.participants;
      OtherParticipantLabel(c, account) == "Unknown" <==>
        (forall i :: 0 <= i < |ps| ==> !Differs(ps[i], account))
        || (exists i :: IsFirstOther(ps, account, i) && ps[i] == "")
    ensures var ps := c.participants;
      forall i :: IsFirstOther(ps, account, i) && ps[i] != "" ==>
        OtherParticipantLabel(c, account) == ShortAddress(ps[i])
  {
    var ps := c.participants;
    FirstOtherSpec(ps, account);
    var other := FirstOther(ps, account);
    if other.Some? {
      var i := FirstOtherIndex(ps, account);
      assert IsFirstOther(ps, account, i);
      ShortAddressNotUnknown(ps[i]);
    }
  }

  /** The position `find` stops at, when some participant differs. */
  ghost function FirstOtherIndex(ps: seq<string>, account: Option<string>): (i: nat)
    requires exists i :: 0 <= i < |ps| && Differs(ps[i], account)
    ensures IsFirstOther(ps, account, i)
  {
    if Differs(ps[0], account) then 0
    else
      assert exists i :: 0 <= i < |ps[1..]| && Differs(ps[1..][i], account) by {
        var k :| 0 <= k < |ps| && Differs(ps[k], account);
        assert ps[1..][k - 1] == ps[k];
      }
      var k := FirstOtherIndex(ps[1..], account);
      assert forall j :: 0 < j <= k ==> ps[j] == ps[1..][j - 1];
      k + 1
  }

  // ---------------------------------------------------------------------------
  // Address search
  // ---------------------------------------------------------------------------

  /** Some participant, lower-cased, contains the lower-cased query. */
  predicate Matches(c: Conversation, query: string) {
    exists p :: p in c.participants && Includes(Lower(p), Lower(query))
  }

  /** `filteredConversations`. */
  function FilterConversations(conversations: seq<Conversation>, query: string): seq<Conversation> {
    if conversations == [] then []
    else
      (if Matches(conversations[0], query) then [conversations[0]] else [])
      + FilterConversations(conversations[1..], query)
  }

  /**
   * The search keeps the conversations that match, drops those that do not,
   * and keeps their order.
   */
  lemma {:induction false} FilterConversationsSpec(conversations: seq<Conversation>, query: string)
    ensures var r := FilterConversations(conversations, query);
      && IsSubsequence(r, conversations)
      && forall c :: c in r <==> c in conversations && Matches(c, query)
  {
    if conversations != [] {
      FilterConversationsSpec(conversations[1..], query);
      var rest := FilterConversations(conversations[1..], query);
      assert conversations == [conversations[0]] + conversations[1..];
      if Matches(conversations[0], query) {
        assert ([conversations[0]] + rest)[1..] == rest;
      } else {
        assert FilterConversations(conversations, query) == rest;
        SubsequenceSkip(rest, conversations);
      }
    }
  }

  /** An empty search keeps exactly the conversations that have a participant. */
  lemma EmptyQueryMatches(c: Conversation)
    ensures Matches(c, "") <==> c.participants != []
  {
    if c.participants != [] {
      EmptyIncludedEverywhere(Lower(c.participants[0]));
      assert c.participants[0] in c.participants;
    }
  }

  // ---------------------------------------------------------------------------
  // Sending
  // ---------------------------------------------------------------------------

  /** The early-return test of `sendMessage`, negated: the send goes ahead. */
  predicate SendAllowed(text: string, file: Option<FileInfo>, account: Option<string>,
                        selectedChat: Option<nat>, sending: bool) {
    (Trim(text) != "" || file.Some?) && Present(account) && selectedChat.Some? && !sending
  }

  /** A send goes ahead exactly when there is non-blank text or a file, an account, a chat, and no send in flight. */
  lemma SendAllowedSpec(text: string, file: Option<FileInfo>, account: Option<string>,
                        selectedChat: Option<nat>, sending: bool)
    ensures SendAllowed(text, file, account, selectedChat, sending) <==>
      (!Blank(text) || file.Some?) && Present(account) && selectedChat.Some? && !sending
  {
    TrimEmptyIffBlank(text);
  }

  const ImageContentPrefix: string := "Sent an image: "
  const FileContentPrefix: string := "Sent a file: "

  /** The stored content: a description of the file when one is attached, else the text as typed. */
  function MessageContent(file: Option<FileInfo>, text: string): string {
    if file.Some? then
      "Sent " + (if StartsWith(file.value.fileType, "image/") then "an image" else "a file")
      + ": " + file.value.name
    else text
  }

  /**
   * With a file, the content names the file after a prefix that says whether
   * its type is an image type; without one, the untrimmed text is sent.
   */
  lemma MessageContentSpec(file: Option<FileInfo>, text: string)
    ensures file.None? ==> MessageContent(file, text) == text
    ensures file.Some? && StartsWith(file.value.fileType, "image/") ==>
      MessageContent(file, text) == ImageContentPrefix + file.value.name
    ensures file.Some? && !StartsWith(file.value.fileType, "image/") ==>
      MessageContent(file, text) == FileContentPrefix + file.value.name
  {
  }

  /** `files/${Date.now()}-${file.name}`. */
  function AttachmentPath(now: nat, name: string): string {
    "files/" + Decimal(now) + "-" + name
  }

  /** The position of the first `-` in `s` (its length when there is none). */
  function FirstDash(s: string): nat {
    if s == [] || s[0] == '-' then 0 else 1 + FirstDash(s[1..])
  }

  lemma {:induction false} FirstDashAfterDigits(d: string, n: string)
    requires IsDigits(d)
    ensures FirstDash(d + "-" + n) == |d|
  {
    if d != [] {
      assert (d + "-" + n)[1..] == d[1..] + "-" + n;
      FirstDashAfterDigits(d[1..], n);
    }
  }

  /** The first `-` after the folder ends the timestamp, since digits hold none. */
  lemma DashAfterDigits(d1: string, d2: string, n1: string, n2: string)
    requires IsDigits(d1) && IsDigits(d2)
    requires d1 + "-" + n1 == d2 + "-" + n2
    ensures d1 == d2 && n1 == n2
  {
    var x := d1 + "-" + n1;
    FirstDashAfterDigits(d1, n1);
    FirstDashAfterDigits(d2, n2);
    assert d1 == x[..|d1|] && d2 == (d2 + "-" + n2)[..|d2|];
    assert n1 == x[|d1| + 1..] && n2 == (d2 + "-" + n2)[|d2| + 1..];
  }

  /** Two uploads get the same path only if they share both the millisecond and the file name. */
  lemma AttachmentPathInjective(now1: nat, name1: string, now2: nat, name2: string)
    requires AttachmentPath(now1, name1) == AttachmentPath(now2, name2)
    ensures now1 == now2 && name1 == name2
  {
    var p1, p2 := AttachmentPath(now1, name1), AttachmentPath(now2, name2);
    assert p1[6..] == Decimal(now1) + "-" + name1;
    assert p2[6..] == Decimal(now2) + "-" + name2;
    DecimalIsDigits(now1);
    DecimalIsDigits(now2);
    DashAfterDigits(Decimal(now1), Decimal(now2), name1, name2);
    DecimalInjective(now1, now2);
  }

  /** `message.sender.toLowerCase() === account`: the bubble is drawn as the page's own. */
  predicate IsOwnMessage(m: Message, account: Option<string>) {
    account.Some? && Lower(m.sender) == account.value
  }

  /** The realtime handler's test: an insert by someone else triggers a reload. */
  predicate ReloadOnInsert(sender: string, account: string) {
    sender != account
  }

  /**
   * A message this page sends carries its lower-cased account as sender: it is
   * drawn as its own, and its realtime echo does not trigger a reload.
   */
  lemma SentMessageIsOwn(userId: string, m: Message)
    requires m.sender == Lower(userId)
    ensures IsOwnMessage(m, Some(Lower(userId)))
    ensures !ReloadOnInsert(m.sender, Lower(userId))
  {
    LowerIdempotent(userId);
  }

  // ---------------------------------------------------------------------------
  // Find-or-create of a direct conversation
  // ---------------------------------------------------------------------------

  /** The store query: not a group, and both addresses among the participants. */
  predicate IsDirectWith(c: Conversation, a: string, b: string) {
    !c.isGroup && a in c.participants && b in c.participants
  }

  /** The first direct conversation between `a` and `b`, if any. */
  function FindDirect(conversations: seq<Conversation>, a: string, b: string): (r: Option<nat>)
    ensures r.Some? ==>
      && r.value < |conversations| && IsDirectWith(conversations[r.value], a, b)
      && forall j :: 0 <= j < r.value ==> !IsDirectWith(conversations[j], a, b)
    ensures r.None? ==> forall j :: 0 <= j < |conversations| ==> !IsDirectWith(conversations[j], a, b)
  {
    if conversations == [] then None
    else if IsDirectWith(conversations[0], a, b) then Some(0)
    else
      var r := FindDirect(conversations[1..], a, b);
      if r.Some? then Some(r.value + 1) else None
  }

  /** The row inserted when no direct conversation exists yet. */
  function NewDirect(id: nat, account: string, recipient: string): Conversation {
    Conversation(id, [account, recipient], None, false, None)
  }

  /** Reuse the first direct conversation, or append a new one; the table and the chosen position. */
  function FindOrCreate(conversations: seq<Conversation>, account: string, recipient: string)
    : (seq<Conversation>, nat)
  {
    match FindDirect(conversations, account, recipient)
    case Some(i) => (conversations, i)
    case None => (conversations + [NewDirect(|conversations|, account, recipient)], |conversations|)
  }

  /**
   * Find-or-create picks a direct conversation between the two, keeps every
   * existing row, adds at most one, and keeps ids equal to positions.
   */
  lemma FindOrCreateSpec(conversations: seq<Conversation>, account: string, recipient: string)
    requires IdsArePositions(conversations)
    ensures var (after, i) := FindOrCreate(conversations, account, recipient);
      && IdsArePositions(after)
      && i < |after| && after[i].id == i
      && IsDirectWith(after[i], account, recipient)
      && conversations <= after && |after| <= |conversations| + 1
  {
  }

  /** Asking again for the same pair reuses what the first call found or created. */
  lemma FindOrCreateIdempotent(conversations: seq<Conversation>, account: string, recipient: string)
    ensures var (after, i) := FindOrCreate(conversations, account, recipient);
      FindOrCreate(after, account, recipient) == (after, i)
  {
    var (after, i) := FindOrCreate(conversations, account, recipient);
    if FindDirect(conversations, account, recipient).None? {
      var r := FindDirect(after, account, recipient);
      assert IsDirectWith(after[|conversations|], account, recipient);
      assert forall j :: 0 <= j < |conversations| ==> after[j] == conversations[j];
    }
  }

  // ---------------------------------------------------------------------------
  // Page state
  // ---------------------------------------------------------------------------

  datatype CreateOutcome = NothingToDo | RejectedSelf | Reused(id: nat) | Created(id: nat) | CreateFailed

  /** `SendFailed(true)`: the message row was stored but its attachment row was not. */
  datatype SendOutcome = NotSent | SendFailed(messageStored: bool) | Sent(messageId: nat)

  class MessagesPage {
    var conversations: seq<Conversation>
    var messages: seq<Message>
    var selectedChat: Option<nat>
    var newMessage: string
    var sending: bool
    var showNewChat: bool
    var newRecipient: string
    var selectedFile: Option<FileInfo>
    var searchQuery: string
    var account: Option<string>

    constructor ()
      ensures conversations == [] && messages == [] && selectedChat == None
      ensures newMessage == "" && !sending && !showNewChat && newRecipient == ""
      ensures selectedFile == None && searchQuery == "" && account == None
    {
      conversations, messages, selectedChat := [], [], None;
      newMessage, sending, showNewChat, newRecipient := "", false, false, "";
      selectedFile, searchQuery, account := None, "", None;
    }

    /** The mount effect: the account becomes the session user's id, lower-cased, when there is one. */
    method ResolveAccount(userId: Option<string>)
      modifies this`account
      ensures account == if Present(userId) then Some(Lower(userId.value)) else old(account)
    {
      if userId.Some? && userId.value != "" {
        account := Some(Lower(userId.value));
      }
    }

    /** Replaces the list with the store's conversations; nothing without an account or on error. */
    method LoadConversations(db: Store, ok: bool)
      modifies this`conversations
      ensures conversations == if Present(account) && ok then db.conversations else old(conversations)
    {
      if account.None? || account.value == "" {
        return;
      }
      if ok {
        conversations := db.conversations;
      }
    }

    /** Replaces the list with the selected chat's messages, oldest first; nothing without a chat or on error. */
    method LoadMessages(db: Store, ok: bool)
      modifies this`messages
      ensures messages == if selectedChat.Some? && ok then MessagesOf(db.messages, selectedChat.value)
                          else old(messages)
    {
      if selectedChat.None? {
        return;
      }
      if ok {
        messages := MessagesOf(db.messages, selectedChat.value);
      }
    }

    /**
     * Clicking a conversation selects it. Only a change of selection runs the
     * effects that depend on it: the `[selectedChat]` effect loads the chat's
     * messages, and the `[account, selectedChat]` effect reloads the
     * conversation list (and subscribes again) when there is an account.
     */
    method SelectChat(db: Store, id: nat, messagesOk: bool, conversationsOk: bool)
      modifies this`selectedChat, this`messages, this`conversations
      ensures selectedChat == Some(id)
      ensures messages == if Some(id) != old(selectedChat) && messagesOk then MessagesOf(db.messages, id)
                          else old(messages)
      ensures conversations == if Some(id) != old(selectedChat) && Present(account) && conversationsOk
                               then db.conversations else old(conversations)
    {
      var changed := selectedChat != Some(id);
      selectedChat := Some(id);
      if changed {
        LoadMessages(db, messagesOk);
        LoadConversations(db, conversationsOk);
      }
    }

    /**
     * The realtime handler for an insert into the selected chat; it exists only
     * while there is an account. Another sender's message reloads the list.
     */
    method OnRealtimeInsert(db: Store, sender: string, loadOk: bool) returns (reloaded: bool)
      requires Present(account)
      modifies this`messages
      ensures reloaded <==> sender != account.value
      ensures messages == if reloaded && selectedChat.Some? && loadOk
                          then MessagesOf(db.messages, selectedChat.value) else old(messages)
    {
      reloaded := ReloadOnInsert(sender, account.value);
      if reloaded {
        LoadMessages(db, loadOk);
      }
    }

    /**
     * `createNewConversation`: nothing without an account or a recipient;
     * refused when the lower-cased recipient is the account; otherwise the
     * first direct conversation between the two is selected, or a new one is
     * inserted, selected and the list reloaded. On a failed insert nothing
     * changes.
     */
    method CreateNewConversation(db: Store, insertOk: bool, reloadOk: bool) returns (outcome: CreateOutcome)
      requires db.Valid()
      modifies db`conversations, this`selectedChat, this`showNewChat, this`newRecipient, this`conversations
      ensures db.Valid()
      ensures !Present(account) || old(newRecipient) == "" ==>
        && outcome == NothingToDo && db.conversations == old(db.conversations)
        && selectedChat == old(selectedChat) && showNewChat == old(showNewChat)
        && newRecipient == old(newRecipient) && conversations == old(conversations)
      ensures Present(account) && old(newRecipient) != "" ==>
        var recipient := Lower(old(newRecipient));
        var (after, i) := FindOrCreate(old(db.conversations), account.value, recipient);
        if recipient == account.value then
          && outcome == RejectedSelf && db.conversations == old(db.conversations)
          && selectedChat == old(selectedChat) && showNewChat == old(showNewChat)
          && newRecipient == old(newRecipient) && conversations == old(conversations)
        else if FindDirect(old(db.conversations), account.value, recipient).Some? then
          && outcome == Reused(i) && db.conversations == old(db.conversations)
          && selectedChat == Some(i) && !showNewChat && newRecipient == ""
          && conversations == old(conversations)
        else if !insertOk then
          && outcome == CreateFailed && db.conversations == old(db.conversations)
          && selectedChat == old(selectedChat) && showNewChat == old(showNewChat)
          && newRecipient == old(newRecipient) && conversations == old(conversations)
        else
          && outcome == Created(i) && db.conversations == after
          && selectedChat == Some(i) && !showNewChat && newRecipient == ""
          && conversations == if reloadOk then after else old(conversations)
    {
      if account.None? || account.value == "" || newRecipient == "" {
        return NothingToDo;
      }
      var recipient := Lower(newRecipient);
      if recipient == account.value {
        return RejectedSelf;
      }
      var existing := FindDirect(db.conversations, account.value, recipient);
      if existing.Some? {
        selectedChat := Some(db.conversations[existing.value].id);
        showNewChat := false;
        newRecipient := "";
        return Reused(existing.value);
      }
      if !insertOk {
        return CreateFailed;
      }
      var id := db.InsertConversation([account.value, recipient], None, false);
      selectedChat := Some(id);
      showNewChat := false;
      newRecipient := "";
      LoadConversations(db, reloadOk);
      outcome := Created(id);
    }

    /**
     * `sendMessage`. When the guard lets it through: a picked file is uploaded
     * under its attachment path (the upload's result is not consulted), the
     * message row is inserted with the derived content, then the attachment
     * row; only when both inserts succeed are the input and the file cleared
     * and the messages reloaded. A send in flight is never left behind.
     */
    method SendMessage(db: Store, now: nat, messageOk: bool, attachmentOk: bool, reloadOk: bool)
      returns (outcome: SendOutcome)
      requires db.Valid()
      modifies db`objects, db`messages, db`attachments
      modifies this`sending, this`newMessage, this`selectedFile, this`messages
      ensures db.Valid()
      ensures sending == old(sending)
      ensures !SendAllowed(old(newMessage), old(selectedFile), account, selectedChat, old(sending)) ==>
        && outcome == NotSent
        && db.objects == old(db.objects) && db.messages == old(db.messages)
        && db.attachments == old(db.attachments)
        && newMessage == old(newMessage) && selectedFile == old(selectedFile) && messages == old(messages)
      ensures SendAllowed(old(newMessage), old(selectedFile), account, selectedChat, old(sending)) ==>
        var file := old(selectedFile);
        var id := |old(db.messages)|;
        var sent := Message(id, selectedChat.value, account.value, MessageContent(file, old(newMessage)), false);
        && db.objects == old(db.objects)
             + (if file.Some? then [StoredObject("attachments", AttachmentPath(now, file.value.name))] else [])
        && if !messageOk then
             && outcome == SendFailed(false)
             && db.messages == old(db.messages) && db.attachments == old(db.attachments)
             && newMessage == old(newMessage) && selectedFile == old(selectedFile) && messages == old(messages)
           else if file.Some? && !attachmentOk then
             && outcome == SendFailed(true)
             && db.messages == old(db.messages) + [sent] && db.attachments == old(db.attachments)
             && newMessage == old(newMessage) && selectedFile == old(selectedFile) && messages == old(messages)
           else
             && outcome == Sent(id)
             && db.messages == old(db.messages) + [sent]
             && db.attachments == old(db.attachments)
                  + (if file.Some? then [Attachment(id, AttachmentPath(now, file.value.name), file.value.name,
                                                    file.value.size, file.value.fileType)] else [])
             && newMessage == "" && selectedFile == None
             && messages == if reloadOk then MessagesOf(db.messages, selectedChat.value) else old(messages)
    {
      if (Trim(newMessage) == "" && selectedFile.None?) || account.None? || account.value == ""
         || selectedChat.None? || sending {
        return NotSent;
      }
      sending := true;
      if selectedFile.Some? {
        db.Upload("attachments", AttachmentPath(now, selectedFile.value.name));
      }
      outcome := Deliver(db, now, messageOk, attachmentOk, reloadOk);
      sending := false;
    }

    /**
     * The part of `sendMessage` after the upload: the message row, then the
     * attachment row, then clearing the input and reloading.
     */
    method Deliver(db: Store, now: nat, messageOk: bool, attachmentOk: bool, reloadOk: bool)
      returns (outcome: SendOutcome)
      requires db.Valid() && Present(account) && selectedChat.Some?
      modifies db`messages, db`attachments, this`newMessage, this`selectedFile, this`messages
      ensures db.Valid()
      ensures var file := old(selectedFile);
        var id := |old(db.messages)|;
        var sent := Message(id, selectedChat.value, account.value, MessageContent(file, old(newMessage)), false);
        if !messageOk then
          && outcome == SendFailed(false)
          && db.messages == old(db.messages) && db.attachments == old(db.attachments)
          && newMessage == old(newMessage) && selectedFile == old(selectedFile) && messages == old(messages)
        else if file.Some? && !attachmentOk then
          && outcome == SendFailed(true)
          && db.messages == old(db.messages) + [sent] && db.attachments == old(db.attachments)
          && newMessage == old(newMessage) && selectedFile == old(selectedFile) && messages == old(messages)
        else
          && outcome == Sent(id)
          && db.messages == old(db.messages) + [sent]
          && db.attachments == old(db.attachments)
               + (if file.Some? then [Attachment(id, AttachmentPath(now, file.value.name), file.value.name,
                                                 file.value.size, file.value.fileType)] else [])
          && newMessage == "" && selectedFile == None
          && messages == if reloadOk then MessagesOf(db.messages, selectedChat.value) else old(messages)
    {
      var content := MessageContent(selectedFile, newMessage);
      if !messageOk {
        return SendFailed(false);
      }
      var id := db.InsertMessage(selectedChat.value, account.value, content);
      if selectedFile.Some? {
        if !attachmentOk {
          return SendFailed(true);
        }
        var file := selectedFile.value;
        db.InsertAttachment(Attachment(id, AttachmentPath(now, file.name), file.name, file.size, file.fileType));
      }
      newMessage := "";
      selectedFile := None;
      LoadMessages(db, reloadOk);
      outcome := Sent(id);
    }
  }
}
