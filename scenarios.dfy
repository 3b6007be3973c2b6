/**
 * Two end-to-end runs of the bot, each stated over the handler functions: a new user
 * is challenged, answers, is relayed and receives the owner's reply; and the owner
 * blocks and unblocks a user by id.
 */
module Scenarios {
  import opened Wrappers
  import opened Text
  import opened Store
  import opened Verification
  import opened Relay
  import opened Routing

  /** "AB3D" is the answer to the code "ab3d", as `RelayRun` requires of the answer. */
  lemma UpperCaseAnswer()
    ensures Normalize("AB3D") == ToLower("ab3d")
  {
    TrimPadded("", "AB3D", "");
    assert "" + "AB3D" + "" == "AB3D";
    var lowered := ToLower("AB3D");
    assert lowered[0] == 'a' && lowered[1] == 'b' && lowered[2] == '3' && lowered[3] == 'd';
    var code := ToLower("ab3d");
    assert code[0] == 'a' && code[1] == 'b' && code[2] == '3' && code[3] == 'd';
  }

  /** "hi there" is not a command, as `RelayRun` requires of the owner's reply. */
  lemma PlainReplyIsNoCommand(msg: Message)
    requires msg.text == Some("hi there")
    ensures !IsCommand(msg, BlockCommand) && !IsCommand(msg, UnblockCommand)
  {
    TrimPadded("", "hi there", "");
    assert "" + "hi there" + "" == "hi there";
  }

  /** User 42 sends /start and gets the challenge image. */
  lemma ScenarioStart(t0: Tables, ownerId: UserId, start: Message, raw: Captcha, now1: Time)
    requires start.from.id == 42 && ownerId != 42
    requires !t0.IsUserBlocked(42) && !t0.IsUserVerified(42)
    ensures var t1 := StartStep(t0, ownerId, start, raw, now1).after;
      && t1 == IssueChallenge(t0, 42, raw, now1)
      && !t1.IsUserBlocked(42) && !t1.IsUserVerified(42)
      && t1.pending[42] == PendingVerification(ToLower(raw.text), 0, now1 + PendingLifetimeMs, now1)
    ensures StartStep(t0, ownerId, start, raw, now1).sent[1] == SendPhoto(start.chatId, ChallengeImage(raw.image), ChallengePrompt)
  {
    StartCommandOrder(t0, ownerId, start, raw, now1);
    IssueChallengeContract(t0, 42, raw, now1);
  }

  /** ... answers with text matching the code within five minutes and is verified. */
  lemma ScenarioAnswer(t1: Tables, ownerId: UserId, answer: Message, raw: Captcha, now1: Time, now2: Time, c: MessageId)
    requires answer.from.id == 42 && ownerId != 42 && answer.text.Some?
    requires Normalize(answer.text.value) == ToLower(raw.text)
    requires !t1.IsUserBlocked(42) && !t1.IsUserVerified(42)
    requires 42 in t1.pending && t1.pending[42] == PendingVerification(ToLower(raw.text), 0, now1 + PendingLifetimeMs, now1)
    requires now1 <= now2 <= now1 + PendingLifetimeMs
    ensures var s2 := TextStep(t1, ownerId, answer, now2, c);
      && s2.sent[0] == SendText(answer.chatId, VerificationSucceeded)
      && s2.after.IsUserVerified(42) && !s2.after.IsUserBlocked(42)
  {
    ToLowerIdempotent(raw.text);
    assert CodeMatches(answer.text.value, t1.pending[42].code);
    assert Classify(t1, ownerId, 42, now2) == ChallengedSender;
    ChallengedTextIsAnAnswer(t1, ownerId, answer, now2, c);
    MatchingAnswerVerifies(t1, 42, answer.text.value, SenderName(answer.from), now2);
  }

  /** ... sends a text, which reaches the owner as copy `x`, mapped back to 42. */
  lemma ScenarioHello(t2: Tables, ownerId: UserId, hello: Message, now3: Time, x: MessageId)
    requires hello.from.id == 42 && ownerId != 42 && hello.text.Some?
    requires t2.IsUserVerified(42) && !t2.IsUserBlocked(42)
    ensures var s3 := TextStep(t2, ownerId, hello, now3, x);
      && s3.after.GetMessageMapping(x) == Some(MessageMapping(42, SenderName(hello.from), now3))
      && s3.sent[1] == ForwardCopy(ownerId, hello.chatId, hello.messageId)
  {
    VerifiedSenderIsForwarded(t2, ownerId, hello, now3, x);
    ForwardRecordsMapping(t2, ownerId, hello, SenderName(hello.from), now3, x, false);
  }

  /** ... and the owner's plain text reply to `x` is delivered to 42. */
  lemma ScenarioReply(t3: Tables, ownerId: UserId, reply: Message, now4: Time, x: MessageId, c: MessageId)
    requires reply.from.id == ownerId && HasText(reply) && reply.replyTo == Some(x) && reply.photo == []
    requires !IsCommand(reply, BlockCommand) && !IsCommand(reply, UnblockCommand)
    requires t3.GetMessageMapping(x).Some? && t3.mappings[x].userId == 42
    ensures TextStep(t3, ownerId, reply, now4, c).sent[0] == SendText(42, OwnerReply(reply.text.value))
  {
    OwnerMessagesAreNotRelayed(t3, ownerId, reply, now4, c);
    ReplyDelivery(t3, ownerId, reply, now4);
  }

  /** The whole first run, chained: /start, a matching answer, a text and the owner's reply. */
  lemma RelayRun(t0: Tables, ownerId: UserId, start: Message, answer: Message, hello: Message, reply: Message,
                 raw: Captcha, now1: Time, now2: Time, now3: Time, now4: Time, x: MessageId, c: MessageId)
    requires ownerId != 42 && start.from.id == 42 && answer.from.id == 42 && hello.from.id == 42
    requires !t0.IsUserBlocked(42) && !t0.IsUserVerified(42)
    requires answer.text.Some? && Normalize(answer.text.value) == ToLower(raw.text) && hello.text.Some?
    requires reply.from.id == ownerId && HasText(reply) && reply.replyTo == Some(x) && reply.photo == []
    requires !IsCommand(reply, BlockCommand) && !IsCommand(reply, UnblockCommand)
    requires now1 <= now2 <= now1 + PendingLifetimeMs
    ensures var s1 := StartStep(t0, ownerId, start, raw, now1);
      var s2 := TextStep(s1.after, ownerId, answer, now2, c);
      var s3 := TextStep(s2.after, ownerId, hello, now3, x);
      var s4 := TextStep(s3.after, ownerId, reply, now4, c);
      && s1.sent[1] == SendPhoto(start.chatId, ChallengeImage(raw.image), ChallengePrompt)
      && s2.sent[0] == SendText(answer.chatId, VerificationSucceeded)
      && s3.after.GetMessageMapping(x) == Some(MessageMapping(42, SenderName(hello.from), now3))
      && s4.sent[0] == SendText(42, OwnerReply(reply.text.value))
  {
    var s1 := StartStep(t0, ownerId, start, raw, now1);
    ScenarioStart(t0, ownerId, start, raw, now1);
    var s2 := TextStep(s1.after, ownerId, answer, now2, c);
    ScenarioAnswer(s1.after, ownerId, answer, raw, now1, now2, c);
    var s3 := TextStep(s2.after, ownerId, hello, now3, x);
    ScenarioHello(s2.after, ownerId, hello, now3, x);
    ScenarioReply(s3.after, ownerId, reply, now4, x, c);
  }

  lemma NinetyNine()
    ensures AllDigits("99") && DigitsValue("99") == 99
  {
    assert "99"[..1] == "9";
    assert "9"[..0] == "";
  }

  /** The owner's command followed by one blank and an id selects that command by id. */
  lemma IdCommandRoutes(ownerId: UserId, msg: Message, c: Command, digits: string)
    requires msg.from.id == ownerId && digits != [] && AllDigits(digits)
    requires msg.text == Some(CommandWord(c) + " " + digits)
    ensures Family(Routes(ownerId, msg), c) == {if c == Block then BlockById(digits) else UnblockById(digits)}
  {
    assert CommandWord(c) + " " + digits == "" + CommandWord(c) + " " + digits + "";
    CommandCapturesId("", CommandWord(c), " ", digits, "");
    OwnerCommandDispatch(ownerId, msg, c);
  }

  /** The second run, as dispatched: "/block 99" selects blocking 99 by id ... */
  lemma BlockNinetyNineRoutes(ownerId: UserId, block: Message)
    requires block.from.id == ownerId && block.text == Some("/block 99")
    ensures Family(Routes(ownerId, block), Block) == {BlockById("99")}
  {
    NinetyNine();
    assert "/block 99" == BlockCommand + " " + "99";
    IdCommandRoutes(ownerId, block, Block, "99");
  }

  /** ... and "/unblock 99" selects unblocking 99 by id. */
  lemma UnblockNinetyNineRoutes(ownerId: UserId, unblock: Message)
    requires unblock.from.id == ownerId && unblock.text == Some("/unblock 99")
    ensures Family(Routes(ownerId, unblock), Unblock) == {UnblockById("99")}
  {
    NinetyNine();
    assert "/unblock 99" == UnblockCommand + " " + "99";
    IdCommandRoutes(ownerId, unblock, Unblock, "99");
  }

  /** ... and its effect: 99 is blocked, their next message is refused, and unblocking
      lifts the block with no failures left on record. */
  lemma BlockScenario(t0: Tables, ownerId: UserId, sent: Message, now1: Time, now2: Time, c: MessageId)
    requires ownerId != 99 && !t0.IsUserBlocked(99)
    requires sent.from.id == 99 && sent.text.Some?
    ensures var t1 := BlockByIdStep(t0, ownerId, "99", now1).after;
      && t1.IsUserBlocked(99)
      && TextStep(t1, ownerId, sent, now2, c) == Step(t1, [SendText(sent.chatId, BlockedNotice)])
      && !UnblockByIdStep(t1, ownerId, "99").after.IsUserBlocked(99)
      && UnblockByIdStep(t1, ownerId, "99").after.FailedVerificationCount(99) == 0
  {
    NinetyNine();
    BlockByIdRules(t0, ownerId, "99", now1);
    var t1 := BlockByIdStep(t0, ownerId, "99", now1).after;
    BlockedSenderIsRejected(t1, ownerId, sent, now2, c);
    UnblockRules(t1, ownerId, "99", sent, 99);
  }
}
