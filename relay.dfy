/**
 * The relay router (src/handlers/messageHandler.js). Each handler classifies
 * the sender (owner, then blocked, then verified or not), consults the
 * verification engine and the store, and sends chat messages. The transport
 * is an outbox: every send, photo send and forward is appended to it as an
 * event, in order. The functions below give, for a handler, the store it
 * leaves and the events it sends; the class `MessageHandler` performs the
 * same steps against a `Database`.
 */
module Relay {
  import opened Wrappers
  import opened Text
  import opened Store
  import opened Verification

  /** The display name of a sender with neither a username nor a first name. */
  const UnknownSenderName := "unknown user"
  /** The name shown for a mapping stored without a username. */
  const UnnamedMappingUser := "user"
  /** The caption of an owner's photo reply that has none. */
  const PhotoPlaceholder := "(photo)"
  const BlockCommand := "/block"
  const UnblockCommand := "/unblock"

  datatype Sender = Sender(id: UserId, username: Option<string>, firstName: Option<string>)

  /** An inbound chat message. `photo` lists the file ids of the photo's sizes,
      smallest first, and is empty when the message carries no photo. */
  datatype Message = Message(
    messageId: MessageId,
    chatId: int,
    from: Sender,
    text: Option<string>,
    caption: Option<string>,
    photo: seq<string>,
    replyTo: Option<MessageId>)

  predicate HasText(m: Message) {
    Present(m.text)
  }

  predicate HasPhoto(m: Message) {
    |m.photo| > 0
  }

  /** The sender's username, else first name, else a fixed placeholder. */
  function SenderName(s: Sender): (name: string)
    ensures name != ""
    ensures Present(s.username) ==> name == s.username.value
    ensures !Present(s.username) && Present(s.firstName) ==> name == s.firstName.value
    ensures !Present(s.username) && !Present(s.firstName) ==> name == UnknownSenderName
  {
    if Present(s.username) then s.username.value
    else if Present(s.firstName) then s.firstName.value
    else UnknownSenderName
  }

  /** The text messages the bot sends, by meaning rather than wording. */
  datatype Notice =
    | BlockedNotice                                  // to a blocked sender of a message or photo
    | VerificationSucceeded
    | NewUserVerified(userId: UserId, name: string, at: Time)
    | VerificationRejected(outcome: Outcome, askAgain: bool)
    | StartFirst                                     // "send /start first"
    | PhotoNeedsVerification
    | OwnerWelcome(stats: Stats)
    | BannedForFailures                              // /start from a user blocked with failures on record
    | BlockedFromBot                                 // /start from a user blocked by the owner
    | WelcomeBack
    | ChallengeInstructions
    | NewUserChallenged(userId: UserId, name: string, at: Time)
    | ForwardHeader(userId: UserId, name: string, at: Time, isPhoto: bool)
    | ForwardConfirmed(isPhoto: bool)
    | ReplyTargetNotFound
    | OwnerReply(text: string)
    | UnsupportedReply
    | ReplyDelivered(userId: UserId, name: string)
    | ReplyFailed
    | BlockTargetNotFound
    | UserBlocked(userId: UserId, name: string)
    | BlockFailed
    | CannotBlockSelf
    | AlreadyBlocked(userId: UserId)
    | UserBlockedById(userId: UserId)
    | UnblockTargetNotFound
    | NotBlocked(userId: UserId, name: string)
    | UserUnblocked(userId: UserId, name: string)
    | UnblockFailed
    | NotBlockedById(userId: UserId)
    | UserUnblockedById(userId: UserId)
    | BlockUsage
    | UnblockUsage

  /** A photo the bot sends: the rendered challenge, or a photo already on the platform. */
  datatype Picture = ChallengeImage(svg: string) | StoredPhoto(fileId: string)
  datatype Caption = ChallengePrompt | OwnerReplyCaption(text: string)

  /** One call into the transport. */
  datatype Event =
    | SendText(chat: int, notice: Notice)
    | SendPhoto(chat: int, picture: Picture, caption: Caption)
    | ForwardCopy(chat: int, fromChat: int, messageId: MessageId)

  /** The store a handler leaves behind and the events it sent, in order. */
  datatype Step = Step(after: Tables, sent: seq<Event>)

  predicate NoForward(events: seq<Event>) {
    forall i :: 0 <= i < |events| ==> !events[i].ForwardCopy?
  }

  /** The owner's reply text read as the command `cmd`: trimmed, lower-cased, exact. */
  predicate IsCommand(m: Message, cmd: string) {
    HasText(m) && ToLower(Trim(m.text.value)) == cmd
  }

  // ======== The handlers as functions of the store ========

  /** `handleBlockUser`: block the sender the replied-to message was forwarded from. */
  function BlockByReplyStep(t: Tables, ownerId: UserId, msg: Message, now: Time): Step {
    match msg.replyTo
    case None => Step(t, [SendText(ownerId, BlockFailed)])
    case Some(r) =>
      match t.GetMessageMapping(r)
      case None => Step(t, [SendText(ownerId, BlockTargetNotFound)])
      case Some(m) =>
        Step(t.BlockUser(m.userId, now), [SendText(ownerId, UserBlocked(m.userId, OrElse(m.username, UnnamedMappingUser)))])
  }

  /** `handleBlockUserById`: refuse the owner's own id, skip a user already blocked. */
  function BlockByIdStep(t: Tables, ownerId: UserId, target: string, now: Time): Step
    requires AllDigits(target)
  {
    var userId := DigitsValue(target);
    if userId == ownerId then Step(t, [SendText(ownerId, CannotBlockSelf)])
    else if t.IsUserBlocked(userId) then Step(t, [SendText(ownerId, AlreadyBlocked(userId))])
    else Step(t.BlockUser(userId, now), [SendText(ownerId, UserBlockedById(userId))])
  }

  /** `handleUnblockUser`: unblock the mapped sender and clear their failure log. */
  function UnblockByReplyStep(t: Tables, ownerId: UserId, msg: Message): Step {
    match msg.replyTo
    case None => Step(t, [SendText(ownerId, UnblockFailed)])
    case Some(r) =>
      match t.GetMessageMapping(r)
      case None => Step(t, [SendText(ownerId, UnblockTargetNotFound)])
      case Some(m) =>
        var name := OrElse(m.username, UnnamedMappingUser);
        if !t.IsUserBlocked(m.userId) then Step(t, [SendText(ownerId, NotBlocked(m.userId, name))])
        else Step(t.UnblockUser(m.userId).ClearFailedVerifications(m.userId), [SendText(ownerId, UserUnblocked(m.userId, name))])
  }

  /** `handleUnblockUserById`. */
  function UnblockByIdStep(t: Tables, ownerId: UserId, target: string): Step
    requires AllDigits(target)
  {
    var userId := DigitsValue(target);
    if !t.IsUserBlocked(userId) then Step(t, [SendText(ownerId, NotBlockedById(userId))])
    else Step(t.UnblockUser(userId).ClearFailedVerifications(userId), [SendText(ownerId, UserUnblockedById(userId))])
  }

  /** `handleOwnerReply`: the two commands first, then delivery through the mapping. */
  function OwnerReplyStep(t: Tables, ownerId: UserId, msg: Message, now: Time): Step {
    match msg.replyTo
    case None => Step(t, [SendText(ownerId, ReplyFailed)])
    case Some(r) =>
      if IsCommand(msg, BlockCommand) then BlockByReplyStep(t, ownerId, msg, now)
      else if IsCommand(msg, UnblockCommand) then UnblockByReplyStep(t, ownerId, msg)
      else
        match t.GetMessageMapping(r)
        case None => Step(t, [SendText(ownerId, ReplyTargetNotFound)])
        case Some(m) => Step(t, Delivery(ownerId, msg, m))
  }

  /** The sends of an ordinary reply to a mapped message: a photo in preference to
      text, then the owner's confirmation; anything else is refused. */
  function Delivery(ownerId: UserId, msg: Message, m: MessageMapping): seq<Event> {
    var name := OrElse(m.username, UnnamedMappingUser);
    if HasPhoto(msg) then
      var caption := OrElse(msg.caption.GetOr(""), PhotoPlaceholder);
      [SendPhoto(m.userId, StoredPhoto(msg.photo[|msg.photo| - 1]), OwnerReplyCaption(caption)),
       SendText(ownerId, ReplyDelivered(m.userId, name))]
    else if HasText(msg) then
      [SendText(m.userId, OwnerReply(msg.text.value)), SendText(ownerId, ReplyDelivered(m.userId, name))]
    else
      [SendText(ownerId, UnsupportedReply)]
  }

  /** `forwardToOwner` / `forwardPhotoToOwner`: header, forward, mapping, confirmation.
      `copyId` is the id the transport gives the owner's copy. */
  function ForwardStep(t: Tables, ownerId: UserId, msg: Message, name: string, now: Time, copyId: MessageId, isPhoto: bool): Step {
    Step(t.SaveMessageMapping(copyId, msg.from.id, name, now),
         [SendText(ownerId, ForwardHeader(msg.from.id, name, now, isPhoto)),
          ForwardCopy(ownerId, msg.chatId, msg.messageId),
          SendText(msg.chatId, ForwardConfirmed(isPhoto))])
  }

  /** `sendCaptchaToUser`: issue the challenge, send instructions and image, tell the owner. */
  function ChallengeStep(t: Tables, ownerId: UserId, chatId: int, u: UserId, name: string, raw: Captcha, now: Time): Step {
    Step(IssueChallenge(t, u, raw, now),
         [SendText(chatId, ChallengeInstructions),
          SendPhoto(chatId, ChallengeImage(raw.image), ChallengePrompt),
          SendText(ownerId, NewUserChallenged(u, name, now))])
  }

  /** `handleStartCommand`: owner statistics; else blocked, verified, or a new challenge. */
  function StartStep(t: Tables, ownerId: UserId, msg: Message, raw: Captcha, now: Time): Step {
    var u := msg.from.id;
    if u == ownerId then Step(t, [SendText(msg.chatId, OwnerWelcome(t.Counts()))])
    else if t.IsUserBlocked(u) then
      Step(t, [SendText(msg.chatId, if t.FailedVerificationCount(u) > 0 then BannedForFailures else BlockedFromBot)])
    else if t.IsUserVerified(u) then Step(t, [SendText(msg.chatId, WelcomeBack)])
    else ChallengeStep(t, ownerId, msg.chatId, u, SenderName(msg.from), raw, now)
  }

  /** What the sender (and, on success, the owner) is told about an answer. */
  function ResponseEvents(o: Outcome, chatId: int, ownerId: UserId, u: UserId, name: string, now: Time): seq<Event> {
    match o
    case Success => [SendText(chatId, VerificationSucceeded), SendText(ownerId, NewUserVerified(u, name, now))]
    case Retry(remaining) => [SendText(chatId, VerificationRejected(o, remaining > 0))]
    case _ => [SendText(chatId, VerificationRejected(o, false))]
  }

  /** `handleTextMessage`. A message without text makes the source throw before any action. */
  function TextStep(t: Tables, ownerId: UserId, msg: Message, now: Time, copyId: MessageId): Step {
    if msg.text.None? then Step(t, [])
    else
      var u := msg.from.id;
      var name := SenderName(msg.from);
      if u == ownerId then
        if msg.replyTo.Some? then OwnerReplyStep(t, ownerId, msg, now) else Step(t, [])
      else if t.IsUserBlocked(u) then Step(t, [SendText(msg.chatId, BlockedNotice)])
      else if !t.IsUserVerified(u) then
        var t1 := t.AfterPendingRead(u, now);
        if t.LivePending(u, now).Some? then
          var a := SubmitResponse(t1, u, msg.text.value, name, now);
          Step(a.after, ResponseEvents(a.outcome, msg.chatId, ownerId, u, name, now))
        else Step(t1, [SendText(msg.chatId, StartFirst)])
      else ForwardStep(t, ownerId, msg, name, now, copyId, false)
  }

  /** `handlePhotoMessage`. */
  function PhotoStep(t: Tables, ownerId: UserId, msg: Message, now: Time, copyId: MessageId): Step {
    var u := msg.from.id;
    if u == ownerId then
      if msg.replyTo.Some? then OwnerReplyStep(t, ownerId, msg, now) else Step(t, [])
    else if t.IsUserBlocked(u) then Step(t, [SendText(msg.chatId, BlockedNotice)])
    else if !t.IsUserVerified(u) then Step(t, [SendText(msg.chatId, PhotoNeedsVerification)])
    else ForwardStep(t, ownerId, msg, SenderName(msg.from), now, copyId, true)
  }

  // ======== Sender classification ========

  datatype SenderClass = OwnerSender | BlockedSender | VerifiedSender | ChallengedSender | NewSender

  /** The order in which the handlers look at a sender: owner, block list, verified, live challenge. */
  function Classify(t: Tables, ownerId: UserId, u: UserId, now: Time): SenderClass {
    if u == ownerId then OwnerSender
    else if t.IsUserBlocked(u) then BlockedSender
    else if t.IsUserVerified(u) then VerifiedSender
    else if t.LivePending(u, now).Some? then ChallengedSender
    else NewSender
  }

  // ======== Properties of the router ========

  /** The owner's messages are never forwarded and never create a mapping: with a
      reply they go to reply handling, without one nothing happens. */
  lemma OwnerMessagesAreNotRelayed(t: Tables, ownerId: UserId, msg: Message, now: Time, copyId: MessageId)
    requires msg.from.id == ownerId
    ensures msg.replyTo.None? ==> TextStep(t, ownerId, msg, now, copyId) == Step(t, [])
    ensures msg.replyTo.None? ==> PhotoStep(t, ownerId, msg, now, copyId) == Step(t, [])
    ensures msg.replyTo.Some? && msg.text.Some? ==> TextStep(t, ownerId, msg, now, copyId) == OwnerReplyStep(t, ownerId, msg, now)
    ensures msg.replyTo.Some? ==> PhotoStep(t, ownerId, msg, now, copyId) == OwnerReplyStep(t, ownerId, msg, now)
  {
  }

  /** Nothing the owner sends is forwarded back to the owner or creates a mapping. */
  lemma OwnerMessagesAreNeverForwarded(t: Tables, ownerId: UserId, msg: Message, now: Time, copyId: MessageId)
    requires msg.from.id == ownerId
    ensures NoForward(TextStep(t, ownerId, msg, now, copyId).sent) && NoForward(PhotoStep(t, ownerId, msg, now, copyId).sent)
    ensures TextStep(t, ownerId, msg, now, copyId).after.mappings == t.mappings
    ensures PhotoStep(t, ownerId, msg, now, copyId).after.mappings == t.mappings
  {
    OwnerMessagesAreNotRelayed(t, ownerId, msg, now, copyId);
    if msg.replyTo.Some? {
      OwnerReplyIsNotForwarded(t, ownerId, msg, now);
    }
  }

  /** Reply handling sends no forward and leaves the mappings alone. */
  lemma OwnerReplyIsNotForwarded(t: Tables, ownerId: UserId, msg: Message, now: Time)
    ensures NoForward(OwnerReplyStep(t, ownerId, msg, now).sent)
    ensures OwnerReplyStep(t, ownerId, msg, now).after.mappings == t.mappings
  {
    var s := OwnerReplyStep(t, ownerId, msg, now);
    if msg.replyTo.Some? {
      if IsCommand(msg, BlockCommand) {
        assert s == BlockByReplyStep(t, ownerId, msg, now);
      } else if IsCommand(msg, UnblockCommand) {
        assert s == UnblockByReplyStep(t, ownerId, msg);
      } else {
        assert s.after == t;
        assert |s.sent| <= 2 && forall i :: 0 <= i < |s.sent| ==> !s.sent[i].ForwardCopy?;
      }
    }
  }

  /** The block list is consulted before verification: a blocked sender gets the
      notice and the store does not change, verified or not. */
  lemma BlockedSenderIsRejected(t: Tables, ownerId: UserId, msg: Message, now: Time, copyId: MessageId)
    requires msg.from.id != ownerId && t.IsUserBlocked(msg.from.id)
    ensures msg.text.Some? ==> TextStep(t, ownerId, msg, now, copyId) == Step(t, [SendText(msg.chatId, BlockedNotice)])
    ensures PhotoStep(t, ownerId, msg, now, copyId) == Step(t, [SendText(msg.chatId, BlockedNotice)])
  {
  }

  /** An unverified sender without a live challenge is told to send /start; nothing is
      counted, and the only store change is that their expired challenge disappears. */
  lemma NewSenderIsPrompted(t: Tables, ownerId: UserId, msg: Message, now: Time, copyId: MessageId)
    requires msg.text.Some?
    requires Classify(t, ownerId, msg.from.id, now) == NewSender
    ensures TextStep(t, ownerId, msg, now, copyId) ==
      Step(t.(pending := t.pending - {msg.from.id}), [SendText(msg.chatId, StartFirst)])
    ensures msg.from.id in t.pending ==> IsExpired(t.pending[msg.from.id], now)
  {
  }

  /** Text from a sender with a live challenge is their answer to it. */
  lemma ChallengedTextIsAnAnswer(t: Tables, ownerId: UserId, msg: Message, now: Time, copyId: MessageId)
    requires msg.text.Some?
    requires Classify(t, ownerId, msg.from.id, now) == ChallengedSender
    ensures var a := SubmitResponse(t, msg.from.id, msg.text.value, SenderName(msg.from), now);
      TextStep(t, ownerId, msg, now, copyId) ==
        Step(a.after, ResponseEvents(a.outcome, msg.chatId, ownerId, msg.from.id, SenderName(msg.from), now))
  {
  }

  /** A photo from an unverified sender is refused and never uses up an attempt. */
  lemma UnverifiedPhotoIsRefused(t: Tables, ownerId: UserId, msg: Message, now: Time, copyId: MessageId)
    requires Classify(t, ownerId, msg.from.id, now) in {ChallengedSender, NewSender}
    ensures PhotoStep(t, ownerId, msg, now, copyId) == Step(t, [SendText(msg.chatId, PhotoNeedsVerification)])
    ensures PhotoStep(t, ownerId, msg, now, copyId).after.pending == t.pending
  {
  }

  /** A verified sender's text or photo is forwarded: the owner gets a header and the
      copy, the copy's id is mapped to the sender, and the sender gets a confirmation. */
  lemma VerifiedSenderIsForwarded(t: Tables, ownerId: UserId, msg: Message, now: Time, copyId: MessageId)
    requires Classify(t, ownerId, msg.from.id, now) == VerifiedSender
    ensures msg.text.Some? ==> TextStep(t, ownerId, msg, now, copyId) == ForwardStep(t, ownerId, msg, SenderName(msg.from), now, copyId, false)
    ensures PhotoStep(t, ownerId, msg, now, copyId) == ForwardStep(t, ownerId, msg, SenderName(msg.from), now, copyId, true)
  {
  }

  /** Forwarding stores the mapping from the copy to the sender and touches nothing else. */
  lemma ForwardRecordsMapping(t: Tables, ownerId: UserId, msg: Message, name: string, now: Time, copyId: MessageId, isPhoto: bool)
    ensures var s := ForwardStep(t, ownerId, msg, name, now, copyId, isPhoto);
      && s.after.GetMessageMapping(copyId) == Some(MessageMapping(msg.from.id, name, now))
      && s.after.(mappings := t.mappings) == t
      && |s.sent| == 3
      && s.sent[1] == ForwardCopy(ownerId, msg.chatId, msg.messageId)
      && s.sent[2] == SendText(msg.chatId, ForwardConfirmed(isPhoto))
  {
  }

  /** /start from anyone but the owner is handled in order: blocked (worded by whether
      failures are on record), verified, otherwise a new challenge replacing any old one. */
  lemma StartCommandOrder(t: Tables, ownerId: UserId, msg: Message, raw: Captcha, now: Time)
    requires msg.from.id != ownerId
    ensures t.IsUserBlocked(msg.from.id) ==>
      StartStep(t, ownerId, msg, raw, now) ==
        Step(t, [SendText(msg.chatId, if t.FailedVerificationCount(msg.from.id) > 0 then BannedForFailures else BlockedFromBot)])
    ensures !t.IsUserBlocked(msg.from.id) && t.IsUserVerified(msg.from.id) ==>
      StartStep(t, ownerId, msg, raw, now) == Step(t, [SendText(msg.chatId, WelcomeBack)])
    ensures !t.IsUserBlocked(msg.from.id) && !t.IsUserVerified(msg.from.id) ==>
      var s := StartStep(t, ownerId, msg, raw, now);
      && s.after == IssueChallenge(t, msg.from.id, raw, now)
      && s.after.LivePending(msg.from.id, now) == Some(PendingVerification(ToLower(raw.text), 0, now + PendingLifetimeMs, now))
      && s.sent[1] == SendPhoto(msg.chatId, ChallengeImage(raw.image), ChallengePrompt)
  {
  }

  /** The owner's /start only reports statistics. */
  lemma OwnerStartShowsStats(t: Tables, ownerId: UserId, msg: Message, raw: Captcha, now: Time)
    requires msg.from.id == ownerId
    ensures StartStep(t, ownerId, msg, raw, now) == Step(t, [SendText(msg.chatId, OwnerWelcome(t.Counts()))])
  {
  }

  /** In a reply, `/block` and `/unblock` are commands even without a mapping, and are never delivered. */
  lemma ReplyCommandsComeFirst(t: Tables, ownerId: UserId, msg: Message, now: Time)
    requires msg.replyTo.Some?
    ensures IsCommand(msg, BlockCommand) ==> OwnerReplyStep(t, ownerId, msg, now) == BlockByReplyStep(t, ownerId, msg, now)
    ensures IsCommand(msg, UnblockCommand) ==> OwnerReplyStep(t, ownerId, msg, now) == UnblockByReplyStep(t, ownerId, msg)
  {
  }

  /** An ordinary reply never changes the store. Without a mapping only the owner hears
      back; with one, a photo is delivered in preference to text, and a reply with
      neither is refused as unsupported. */
  lemma ReplyDelivery(t: Tables, ownerId: UserId, msg: Message, now: Time)
    requires msg.replyTo.Some?
    requires !IsCommand(msg, BlockCommand) && !IsCommand(msg, UnblockCommand)
    ensures OwnerReplyStep(t, ownerId, msg, now).after == t
    ensures t.GetMessageMapping(msg.replyTo.value).None? ==>
      OwnerReplyStep(t, ownerId, msg, now).sent == [SendText(ownerId, ReplyTargetNotFound)]
    ensures t.GetMessageMapping(msg.replyTo.value).Some? && HasPhoto(msg) ==>
      var m := t.mappings[msg.replyTo.value];
      var caption := OrElse(msg.caption.GetOr(""), PhotoPlaceholder);
      OwnerReplyStep(t, ownerId, msg, now).sent ==
        [SendPhoto(m.userId, StoredPhoto(msg.photo[|msg.photo| - 1]), OwnerReplyCaption(caption)),
         SendText(ownerId, ReplyDelivered(m.userId, OrElse(m.username, UnnamedMappingUser)))]
    ensures t.GetMessageMapping(msg.replyTo.value).Some? && !HasPhoto(msg) && HasText(msg) ==>
      var m := t.mappings[msg.replyTo.value];
      OwnerReplyStep(t, ownerId, msg, now).sent ==
        [SendText(m.userId, OwnerReply(msg.text.value)),
         SendText(ownerId, ReplyDelivered(m.userId, OrElse(m.username, UnnamedMappingUser)))]
    ensures t.GetMessageMapping(msg.replyTo.value).Some? && !HasPhoto(msg) && !HasText(msg) ==>
      OwnerReplyStep(t, ownerId, msg, now).sent == [SendText(ownerId, UnsupportedReply)]
  {
  }

  /** Blocking by id refuses the owner and skips a user already blocked; otherwise exactly
      that user is blocked. */
  lemma BlockByIdRules(t: Tables, ownerId: UserId, target: string, now: Time)
    requires AllDigits(target)
    ensures DigitsValue(target) == ownerId ==> BlockByIdStep(t, ownerId, target, now) == Step(t, [SendText(ownerId, CannotBlockSelf)])
    ensures t.IsUserBlocked(DigitsValue(target)) ==> BlockByIdStep(t, ownerId, target, now).after == t
    ensures DigitsValue(target) != ownerId ==> BlockByIdStep(t, ownerId, target, now).after.IsUserBlocked(DigitsValue(target))
    ensures BlockByIdStep(t, ownerId, target, now).after.(blocked := t.blocked) == t
    ensures DigitsValue(target) != ownerId && !t.IsUserBlocked(DigitsValue(target)) ==>
      BlockByIdStep(t, ownerId, target, now).after == t.BlockUser(DigitsValue(target), now)
  {
  }

  /** Blocking by reply has no such checks: whoever the mapping names is blocked. */
  lemma BlockByReplyRules(t: Tables, ownerId: UserId, msg: Message, now: Time)
    requires msg.replyTo.Some? && msg.replyTo.value in t.mappings
    ensures BlockByReplyStep(t, ownerId, msg, now).after == t.BlockUser(t.mappings[msg.replyTo.value].userId, now)
  {
  }

  /** Unblocking (either way) does nothing for a user who is not blocked; otherwise it
      removes that one block and clears that user's failure log, leaving other users' blocks
      and entries and the other tables as they were. */
  lemma UnblockRules(t: Tables, ownerId: UserId, target: string, msg: Message, v: UserId)
    requires AllDigits(target)
    ensures !t.IsUserBlocked(DigitsValue(target)) ==> UnblockByIdStep(t, ownerId, target).after == t
    ensures t.IsUserBlocked(DigitsValue(target)) ==>
      var after := UnblockByIdStep(t, ownerId, target).after;
      && !after.IsUserBlocked(DigitsValue(target))
      && after.blocked == t.blocked - {DigitsValue(target)}
      && after.(failed := t.failed, blocked := t.blocked) == t
      && after.FailedVerificationCount(DigitsValue(target)) == 0
      && (v != DigitsValue(target) ==> after.FailedVerificationCount(v) == t.FailedVerificationCount(v))
    ensures msg.replyTo.Some? && msg.replyTo.value in t.mappings ==>
      var u := t.mappings[msg.replyTo.value].userId;
      var after := UnblockByReplyStep(t, ownerId, msg).after;
      && (!t.IsUserBlocked(u) ==> after == t)
      && (t.IsUserBlocked(u) ==> !after.IsUserBlocked(u) && after.FailedVerificationCount(u) == 0)
      && (t.IsUserBlocked(u) ==> after.blocked == t.blocked - {u} && after.(failed := t.failed, blocked := t.blocked) == t)
      && (t.IsUserBlocked(u) && v != u ==> after.FailedVerificationCount(v) == t.FailedVerificationCount(v))
  {
    var u := DigitsValue(target);
    if t.IsUserBlocked(u) {
      FailureLogContract(t.UnblockUser(u), u, "", "", 0, v);
    }
    if msg.replyTo.Some? && msg.replyTo.value in t.mappings {
      var w := t.mappings[msg.replyTo.value].userId;
      FailureLogContract(t.UnblockUser(w), w, "", "", 0, v);
    }
  }

  /**
   * The message handler. It holds the owner's id, the shared store and the
   * verification engine over that store; `outbox` is every transport call made so
   * far. Each handler changes the store and the outbox as its function above says.
   */
  class MessageHandler {
    const ownerId: UserId
    const db: Database
    const engine: UserVerification
    var outbox: seq<Event>

    predicate Valid() {
      engine.db == db
    }

    constructor (ownerId: UserId, db: Database)
      ensures this.ownerId == ownerId && this.db == db && Valid()
      ensures outbox == []
    {
      this.ownerId := ownerId;
      this.db := db;
      this.engine := new UserVerification(db);
      this.outbox := [];
    }

    method Send(e: Event)
      modifies this
      ensures outbox == old(outbox) + [e]
    {
      outbox := outbox + [e];
    }

    method HandleTextMessage(msg: Message, now: Time, copyId: MessageId)
      requires Valid()
      modifies this, db
      ensures db.Snapshot() == TextStep(old(db.Snapshot()), ownerId, msg, now, copyId).after
      ensures outbox == old(outbox) + TextStep(old(db.Snapshot()), ownerId, msg, now, copyId).sent
    {
      if msg.text.None? {
        return;
      }
      var chatId := msg.chatId;
      var userId := msg.from.id;
      var username := SenderName(msg.from);
      var text := msg.text.value;
      if userId == ownerId {
        if msg.replyTo.Some? {
          HandleOwnerReply(msg, now);
        }
        return;
      }
      var isBlocked := db.IsUserBlocked(userId);
      if isBlocked {
        Send(SendText(chatId, BlockedNotice));
        return;
      }
      var verified := engine.IsVerified(userId);
      if !verified {
        var hasPending := engine.HasPendingVerification(userId, now);
        if hasPending {
          var result := engine.VerifyCaptcha(userId, text, username, now);
          match result {
            case Success =>
              Send(SendText(chatId, VerificationSucceeded));
              Send(SendText(ownerId, NewUserVerified(userId, username, now)));
            case Retry(remaining) =>
              Send(SendText(chatId, VerificationRejected(result, remaining > 0)));
            case _ =>
              Send(SendText(chatId, VerificationRejected(result, false)));
          }
        } else {
          Send(SendText(chatId, StartFirst));
        }
        return;
      }
      ForwardToOwner(msg, username, now, copyId);
    }

    method HandlePhotoMessage(msg: Message, now: Time, copyId: MessageId)
      requires Valid()
      modifies this, db
      ensures db.Snapshot() == PhotoStep(old(db.Snapshot()), ownerId, msg, now, copyId).after
      ensures outbox == old(outbox) + PhotoStep(old(db.Snapshot()), ownerId, msg, now, copyId).sent
    {
      var chatId := msg.chatId;
      var userId := msg.from.id;
      var username := SenderName(msg.from);
      if userId == ownerId {
        if msg.replyTo.Some? {
          HandleOwnerReply(msg, now);
        }
        return;
      }
      var isBlocked := db.IsUserBlocked(userId);
      if isBlocked {
        Send(SendText(chatId, BlockedNotice));
        return;
      }
      var verified := engine.IsVerified(userId);
      if !verified {
        Send(SendText(chatId, PhotoNeedsVerification));
        return;
      }
      ForwardPhotoToOwner(msg, username, now, copyId);
    }

    /** `raw` is the challenge the generator would produce for this call. */
    method HandleStartCommand(msg: Message, raw: Captcha, now: Time)
      requires Valid()
      modifies this, db
      ensures db.Snapshot() == StartStep(old(db.Snapshot()), ownerId, msg, raw, now).after
      ensures outbox == old(outbox) + StartStep(old(db.Snapshot()), ownerId, msg, raw, now).sent
    {
      var chatId := msg.chatId;
      var userId := msg.from.id;
      var username := SenderName(msg.from);
      if userId == ownerId {
        var stats := engine.GetStats();
        Send(SendText(chatId, OwnerWelcome(stats)));
        return;
      }
      var isBlocked := db.IsUserBlocked(userId);
      if isBlocked {
        var failCount := db.GetFailedVerificationCount(userId);
        if failCount > 0 {
          Send(SendText(chatId, BannedForFailures));
        } else {
          Send(SendText(chatId, BlockedFromBot));
        }
        return;
      }
      var verified := engine.IsVerified(userId);
      if verified {
        Send(SendText(chatId, WelcomeBack));
      } else {
        SendCaptchaToUser(chatId, userId, username, raw, now);
      }
    }

    method SendCaptchaToUser(chatId: int, userId: UserId, username: string, raw: Captcha, now: Time)
      requires Valid()
      modifies this, db
      ensures db.Snapshot() == ChallengeStep(old(db.Snapshot()), ownerId, chatId, userId, username, raw, now).after
      ensures outbox == old(outbox) + ChallengeStep(old(db.Snapshot()), ownerId, chatId, userId, username, raw, now).sent
    {
      var image := engine.CreateVerificationForUser(userId, raw, now);
      Send(SendText(chatId, ChallengeInstructions));
      Send(SendPhoto(chatId, ChallengeImage(image), ChallengePrompt));
      Send(SendText(ownerId, NewUserChallenged(userId, username, now)));
    }

    method ForwardToOwner(msg: Message, username: string, now: Time, copyId: MessageId)
      modifies this, db
      ensures db.Snapshot() == ForwardStep(old(db.Snapshot()), ownerId, msg, username, now, copyId, false).after
      ensures outbox == old(outbox) + ForwardStep(old(db.Snapshot()), ownerId, msg, username, now, copyId, false).sent
    {
      Send(SendText(ownerId, ForwardHeader(msg.from.id, username, now, false)));
      Send(ForwardCopy(ownerId, msg.chatId, msg.messageId));
      db.SaveMessageMapping(copyId, msg.from.id, username, now);
      Send(SendText(msg.chatId, ForwardConfirmed(false)));
    }

    method ForwardPhotoToOwner(msg: Message, username: string, now: Time, copyId: MessageId)
      modifies this, db
      ensures db.Snapshot() == ForwardStep(old(db.Snapshot()), ownerId, msg, username, now, copyId, true).after
      ensures outbox == old(outbox) + ForwardStep(old(db.Snapshot()), ownerId, msg, username, now, copyId, true).sent
    {
      Send(SendText(ownerId, ForwardHeader(msg.from.id, username, now, true)));
      Send(ForwardCopy(ownerId, msg.chatId, msg.messageId));
      db.SaveMessageMapping(copyId, msg.from.id, username, now);
      Send(SendText(msg.chatId, ForwardConfirmed(true)));
    }

    method HandleOwnerReply(msg: Message, now: Time)
      modifies this, db
      ensures db.Snapshot() == OwnerReplyStep(old(db.Snapshot()), ownerId, msg, now).after
      ensures outbox == old(outbox) + OwnerReplyStep(old(db.Snapshot()), ownerId, msg, now).sent
    {
      if msg.replyTo.None? {
        Send(SendText(ownerId, ReplyFailed));
        return;
      }
      var replyToMsgId := msg.replyTo.value;
      if IsCommand(msg, BlockCommand) {
        HandleBlockUser(msg, now);
        return;
      }
      if IsCommand(msg, UnblockCommand) {
        HandleUnblockUser(msg);
        return;
      }
      var mapping := db.GetMessageMapping(replyToMsgId);
      if mapping.None? {
        Send(SendText(ownerId, ReplyTargetNotFound));
        return;
      }
      DeliverReply(msg, mapping.value);
    }

    /** Sends the owner's reply to the sender `m` names and confirms to the owner. */
    method DeliverReply(msg: Message, m: MessageMapping)
      modifies this
      ensures outbox == old(outbox) + Delivery(ownerId, msg, m)
    {
      var targetUserId := m.userId;
      var username := OrElse(m.username, UnnamedMappingUser);
      if HasPhoto(msg) {
        var photo := msg.photo[|msg.photo| - 1];
        var caption := OrElse(msg.caption.GetOr(""), PhotoPlaceholder);
        Send(SendPhoto(targetUserId, StoredPhoto(photo), OwnerReplyCaption(caption)));
      } else if HasText(msg) {
        Send(SendText(targetUserId, OwnerReply(msg.text.value)));
      } else {
        Send(SendText(ownerId, UnsupportedReply));
        return;
      }
      Send(SendText(ownerId, ReplyDelivered(targetUserId, username)));
    }

    method HandleBlockUser(msg: Message, now: Time)
      modifies this, db
      ensures db.Snapshot() == BlockByReplyStep(old(db.Snapshot()), ownerId, msg, now).after
      ensures outbox == old(outbox) + BlockByReplyStep(old(db.Snapshot()), ownerId, msg, now).sent
    {
      if msg.replyTo.None? {
        Send(SendText(ownerId, BlockFailed));
        return;
      }
      var mapping := db.GetMessageMapping(msg.replyTo.value);
      if mapping.None? {
        Send(SendText(ownerId, BlockTargetNotFound));
        return;
      }
      var targetUserId := mapping.value.userId;
      var username := OrElse(mapping.value.username, UnnamedMappingUser);
      db.BlockUser(targetUserId, now);
      Send(SendText(ownerId, UserBlocked(targetUserId, username)));
    }

    /** `target` is the digit string the command's pattern captured. */
    method HandleBlockUserById(target: string, now: Time)
      requires AllDigits(target)
      modifies this, db
      ensures db.Snapshot() == BlockByIdStep(old(db.Snapshot()), ownerId, target, now).after
      ensures outbox == old(outbox) + BlockByIdStep(old(db.Snapshot()), ownerId, target, now).sent
    {
      var userId := DigitsValue(target);
      if userId == ownerId {
        Send(SendText(ownerId, CannotBlockSelf));
        return;
      }
      var isBlocked := db.IsUserBlocked(userId);
      if isBlocked {
        Send(SendText(ownerId, AlreadyBlocked(userId)));
        return;
      }
      db.BlockUser(userId, now);
      Send(SendText(ownerId, UserBlockedById(userId)));
    }

    method HandleUnblockUser(msg: Message)
      modifies this, db
      ensures db.Snapshot() == UnblockByReplyStep(old(db.Snapshot()), ownerId, msg).after
      ensures outbox == old(outbox) + UnblockByReplyStep(old(db.Snapshot()), ownerId, msg).sent
    {
      if msg.replyTo.None? {
        Send(SendText(ownerId, UnblockFailed));
        return;
      }
      var mapping := db.GetMessageMapping(msg.replyTo.value);
      if mapping.None? {
        Send(SendText(ownerId, UnblockTargetNotFound));
        return;
      }
      var targetUserId := mapping.value.userId;
      var username := OrElse(mapping.value.username, UnnamedMappingUser);
      var isBlocked := db.IsUserBlocked(targetUserId);
      if !isBlocked {
        Send(SendText(ownerId, NotBlocked(targetUserId, username)));
        return;
      }
      db.UnblockUser(targetUserId);
      db.ClearFailedVerifications(targetUserId);
      Send(SendText(ownerId, UserUnblocked(targetUserId, username)));
    }

    /** `target` is the digit string the command's pattern captured. */
    method HandleUnblockUserById(target: string)
      requires AllDigits(target)
      modifies this, db
      ensures db.Snapshot() == UnblockByIdStep(old(db.Snapshot()), ownerId, target).after
      ensures outbox == old(outbox) + UnblockByIdStep(old(db.Snapshot()), ownerId, target).sent
    {
      var userId := DigitsValue(target);
      var isBlocked := db.IsUserBlocked(userId);
      if !isBlocked {
        Send(SendText(ownerId, NotBlockedById(userId)));
        return;
      }
      db.UnblockUser(userId);
      db.ClearFailedVerifications(userId);
      Send(SendText(ownerId, UserUnblockedById(userId)));
    }
  }
}
