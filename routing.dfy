/**
 * Command dispatch (src/bot.js, `registerListeners`). Five listeners see every
 * incoming message: an unanchored `/start` pattern, the `/block` and `/unblock`
 * patterns with an optional captured user id, the generic message listener and
 * the photo listener. Every listener whose condition holds fires, so one message
 * can reach several handlers; `Routes` is the set of handlers it reaches.
 */
module Routing {
  import opened Wrappers
  import opened Text
  import opened Store
  import opened Verification
  import opened Relay

  const StartCommand := "/start"

  /** A handler a message can reach. */
  datatype Route =
    | Start
    | BlockById(target: string)
    | BlockByReply
    | BlockHint
    | UnblockById(target: string)
    | UnblockByReply
    | UnblockHint
    | TextMessage
    | PhotoMessage

  datatype Command = Block | Unblock

  function CommandWord(c: Command): string {
    if c == Block then BlockCommand else UnblockCommand
  }

  /** The result of matching `cmd(?:\s+(\d+))?` against a text: no match, a match
      without the group, or a match with the captured digits. */
  datatype CommandMatch = NoMatch | Bare | WithId(digits: string)

  /** The unanchored pattern `cmd(?:\s+(\d+))?`: the leftmost occurrence of `cmd`,
      then, if there is one, a run of white space followed by a run of digits. */
  function MatchCommand(text: string, cmd: string): (r: CommandMatch)
    ensures r.NoMatch? <==> !Contains(text, cmd)
    ensures r.WithId? ==> r.digits != [] && AllDigits(r.digits)
  {
    match IndexOf(text, cmd)
    case None => NoMatch
    case Some(i) =>
      var k := SkipSpaces(text, i + |cmd|);
      var e := SkipDigits(text, k);
      if k > i + |cmd| && e > k then WithId(text[k..e]) else Bare
  }

  /** The owner's branch of the `/block` or `/unblock` listener: an id first, then a
      reply, then the usage hint. */
  function CommandRoute(c: Command, m: CommandMatch, hasReply: bool): Option<Route> {
    match m
    case NoMatch => None
    case WithId(d) => Some(if c == Block then BlockById(d) else UnblockById(d))
    case Bare =>
      if hasReply then Some(if c == Block then BlockByReply else UnblockByReply)
      else Some(if c == Block then BlockHint else UnblockHint)
  }

  function AsSet(o: Option<Route>): set<Route> {
    if o.Some? then {o.value} else {}
  }

  /** The `/start` listener: any text containing the command. */
  function StartRoutes(msg: Message): set<Route> {
    if HasText(msg) && Contains(msg.text.value, StartCommand) then {Start} else {}
  }

  /** The `/block` or `/unblock` listener, which acts only for the owner. */
  function CommandRoutes(ownerId: UserId, msg: Message, c: Command): set<Route> {
    if HasText(msg) && msg.from.id == ownerId then
      AsSet(CommandRoute(c, MatchCommand(msg.text.value, CommandWord(c)), msg.replyTo.Some?))
    else {}
  }

  /** The generic message listener: text that does not start with '/'. */
  function TextRoutes(msg: Message): set<Route> {
    if HasText(msg) && !StartsWith(msg.text.value, "/") then {TextMessage} else {}
  }

  /** The photo listener. */
  function PhotoRoutes(msg: Message): set<Route> {
    if HasPhoto(msg) then {PhotoMessage} else {}
  }

  /** Every handler the message reaches. The pattern listeners only see messages with text. */
  function Routes(ownerId: UserId, msg: Message): set<Route> {
    StartRoutes(msg) + CommandRoutes(ownerId, msg, Block) + CommandRoutes(ownerId, msg, Unblock)
    + TextRoutes(msg) + PhotoRoutes(msg)
  }

  predicate InFamily(r: Route, c: Command) {
    if c == Block then r.BlockById? || r.BlockByReply? || r.BlockHint?
    else r.UnblockById? || r.UnblockByReply? || r.UnblockHint?
  }

  /** The routes of one command's listener among `rs`. */
  function Family(rs: set<Route>, c: Command): set<Route> {
    set r | r in rs && InFamily(r, c)
  }

  /** A route whose captured id, if any, is a digit string. */
  predicate WellFormed(r: Route) {
    match r
    case BlockById(d) => d != [] && AllDigits(d)
    case UnblockById(d) => d != [] && AllDigits(d)
    case _ => true
  }

  /** What a handler does with the message: the handlers of the relay, and the usage
      hint the command listeners send themselves. */
  function RouteStep(t: Tables, ownerId: UserId, msg: Message, r: Route, raw: Captcha, now: Time, copyId: MessageId): Step
    requires WellFormed(r)
  {
    match r
    case Start => StartStep(t, ownerId, msg, raw, now)
    case BlockById(d) => BlockByIdStep(t, ownerId, d, now)
    case BlockByReply => BlockByReplyStep(t, ownerId, msg, now)
    case BlockHint => Step(t, [SendText(ownerId, BlockUsage)])
    case UnblockById(d) => UnblockByIdStep(t, ownerId, d)
    case UnblockByReply => UnblockByReplyStep(t, ownerId, msg)
    case UnblockHint => Step(t, [SendText(ownerId, UnblockUsage)])
    case TextMessage => TextStep(t, ownerId, msg, now, copyId)
    case PhotoMessage => PhotoStep(t, ownerId, msg, now, copyId)
  }

  // ======== Properties of the dispatch ========

  /** The id a command listener captures is always a digit string. */
  lemma RoutesAreWellFormed(ownerId: UserId, msg: Message, r: Route)
    requires r in Routes(ownerId, msg)
    ensures WellFormed(r)
  {
  }

  /** `/block` and `/unblock` do nothing for anyone but the owner. */
  lemma CommandsAreOwnerOnly(ownerId: UserId, msg: Message)
    requires msg.from.id != ownerId
    ensures forall r :: r in Routes(ownerId, msg) ==> r == Start || r == TextMessage || r == PhotoMessage
  {
  }

  /** For the owner, each command listener that matches picks exactly one branch:
      a captured id, else a reply, else the usage hint. */
  lemma OwnerCommandDispatch(ownerId: UserId, msg: Message, c: Command)
    requires msg.from.id == ownerId && HasText(msg)
    ensures var m := MatchCommand(msg.text.value, CommandWord(c));
      var fam := Family(Routes(ownerId, msg), c);
      && (m.NoMatch? ==> fam == {})
      && (m.WithId? ==> fam == {if c == Block then BlockById(m.digits) else UnblockById(m.digits)})
      && (m.Bare? && msg.replyTo.Some? ==> fam == {if c == Block then BlockByReply else UnblockByReply})
      && (m.Bare? && msg.replyTo.None? ==> fam == {if c == Block then BlockHint else UnblockHint})
  {
    var mine := CommandRoutes(ownerId, msg, c);
    var other := if c == Block then Unblock else Block;
    var rest := StartRoutes(msg) + CommandRoutes(ownerId, msg, other) + TextRoutes(msg) + PhotoRoutes(msg);
    RoutesSplit(ownerId, msg, c);
    OtherRoutesOutsideFamily(ownerId, msg, c);
    CommandRoutesInFamily(ownerId, msg, c);
    FamilyOfUnion(mine, rest, c);
  }

  lemma RoutesSplit(ownerId: UserId, msg: Message, c: Command)
    ensures Routes(ownerId, msg) ==
      CommandRoutes(ownerId, msg, c)
      + (StartRoutes(msg) + CommandRoutes(ownerId, msg, if c == Block then Unblock else Block) + TextRoutes(msg) + PhotoRoutes(msg))
  {
  }

  lemma CommandRoutesInFamily(ownerId: UserId, msg: Message, c: Command)
    ensures forall r :: r in CommandRoutes(ownerId, msg, c) ==> InFamily(r, c)
  {
  }

  lemma OtherRoutesOutsideFamily(ownerId: UserId, msg: Message, c: Command)
    ensures forall r ::
      (r in StartRoutes(msg) + CommandRoutes(ownerId, msg, if c == Block then Unblock else Block) + TextRoutes(msg) + PhotoRoutes(msg))
      ==> !InFamily(r, c)
  {
    CommandRoutesInFamily(ownerId, msg, if c == Block then Unblock else Block);
  }

  lemma FamilyOfUnion(mine: set<Route>, rest: set<Route>, c: Command)
    requires forall r :: r in mine ==> InFamily(r, c)
    requires forall r :: r in rest ==> !InFamily(r, c)
    ensures Family(mine + rest, c) == mine
  {
  }

  /** The generic listener passes exactly the text that is not a slash command; the
      photo listener takes every photo; `/start` anywhere in a text reaches the start handler. */
  lemma ListenerConditions(ownerId: UserId, msg: Message)
    ensures TextMessage in Routes(ownerId, msg) <==> HasText(msg) && !StartsWith(msg.text.value, "/")
    ensures PhotoMessage in Routes(ownerId, msg) <==> HasPhoto(msg)
    ensures Start in Routes(ownerId, msg) <==> HasText(msg) && Contains(msg.text.value, StartCommand)
  {
  }

  /** A greedy run of white space stops exactly where the white space ends. */
  lemma SpacesEndAt(s: string, i: nat, k: nat)
    requires i <= k <= |s| && AllSpaces(s[i..k])
    requires k == |s| || !IsSpace(s[k])
    ensures SkipSpaces(s, i) == k
  {
  }

  /** A greedy run of digits stops exactly where the digits end. */
  lemma DigitsEndAt(s: string, i: nat, k: nat)
    requires i <= k <= |s| && AllDigits(s[i..k])
    requires k == |s| || !IsDigit(s[k])
    ensures SkipDigits(s, i) == k
  {
  }

  /** White space and digits right after the first occurrence of the command are captured,
      the whole run of digits. */
  lemma CommandCapturesId(pre: string, cmd: string, sp: string, digits: string, rest: string)
    requires forall j :: 0 <= j < |pre| ==> !OccursAt(pre + cmd + sp + digits + rest, cmd, j)
    requires sp != [] && AllSpaces(sp)
    requires digits != [] && AllDigits(digits)
    requires rest == [] || !IsDigit(rest[0])
    ensures MatchCommand(pre + cmd + sp + digits + rest, cmd) == WithId(digits)
  {
    var text := pre + cmd + sp + digits + rest;
    var j := |pre| + |cmd|;
    var k := j + |sp|;
    var e := k + |digits|;
    assert text[|pre|..j] == cmd;
    assert OccursAt(text, cmd, |pre|);
    assert IndexOf(text, cmd) == Some(|pre|);
    assert text[j..k] == sp;
    assert text[k] == digits[0];
    SpacesEndAt(text, j, k);
    assert text[k..e] == digits;
    assert e == |text| || text[e] == rest[0];
    DigitsEndAt(text, k, e);
  }

  /** Without white space followed by a digit after the first occurrence, the command
      matches bare, so the listener falls back to the reply or the usage hint. */
  lemma CommandWithoutIdIsBare(pre: string, cmd: string, rest: string)
    requires forall j :: 0 <= j < |pre| ==> !OccursAt(pre + cmd + rest, cmd, j)
    requires forall k :: 0 < k < |rest| && AllSpaces(rest[..k]) ==> !IsDigit(rest[k])
    ensures MatchCommand(pre + cmd + rest, cmd) == Bare
  {
    var text := pre + cmd + rest;
    var j := |pre| + |cmd|;
    assert text[|pre|..j] == cmd;
    assert OccursAt(text, cmd, |pre|);
    assert IndexOf(text, cmd) == Some(|pre|);
    var k := SkipSpaces(text, j);
    if k > j && k < |text| {
      assert rest[..k - j] == text[j..k];
      assert text[k] == rest[k - j];
    }
  }

  /** "hi /start" from an ordinary user reaches both the start handler and the text handler. */
  lemma StartInsideTextReachesBoth(ownerId: UserId, msg: Message)
    requires msg.from.id != ownerId && msg.text == Some("hi /start") && msg.photo == []
    ensures Routes(ownerId, msg) == {Start, TextMessage}
  {
    var text := "hi /start";
    assert text[3..9] == StartCommand;
    assert OccursAt(text, StartCommand, 3);
    assert !StartsWith(text, "/") by {
      assert text[..1] == "h";
    }
  }

  /** "/block 123456789" captures the whole id. */
  lemma BlockCommandWithId()
    ensures MatchCommand("/block 123456789", BlockCommand) == WithId("123456789")
  {
    assert "/block 123456789" == "" + BlockCommand + " " + "123456789" + "";
    CommandCapturesId("", BlockCommand, " ", "123456789", "");
  }

  /** An owner reply " /block" (leading blank) is seen both by the `/block` listener, as
      a block by reply, and, since it does not start with '/', by the text handler. */
  lemma PaddedBlockReplyRoutes(ownerId: UserId, msg: Message)
    requires msg.from.id == ownerId && msg.text == Some(" /block") && msg.replyTo.Some?
    ensures BlockByReply in Routes(ownerId, msg) && TextMessage in Routes(ownerId, msg)
  {
    var text := " /block";
    assert text == " " + BlockCommand + "";
    assert !OccursAt(text, BlockCommand, 0) by {
      assert text[0..|BlockCommand|][0] == ' ';
    }
    CommandWithoutIdIsBare(" ", BlockCommand, "");
    assert !StartsWith(text, "/") by {
      assert text[..1] == " ";
    }
  }

  /** Both command words are already in lower case. */
  lemma CommandWordIsLower(c: Command)
    ensures ToLower(CommandWord(c)) == CommandWord(c)
  {
    var lowered := ToLower(CommandWord(c));
    assert lowered[0] == '/';
    if c == Block {
      assert lowered[1] == 'b' && lowered[2] == 'l' && lowered[3] == 'o';
      assert lowered[4] == 'c' && lowered[5] == 'k';
    } else {
      assert lowered[1] == 'u' && lowered[2] == 'n' && lowered[3] == 'b';
      assert lowered[4] == 'l' && lowered[5] == 'o' && lowered[6] == 'c' && lowered[7] == 'k';
    }
  }

  /** Trimming and lower-casing turn a command word with white space around it into the command. */
  lemma PaddedCommandIsCommand(msg: Message, pre: string, post: string, c: Command)
    requires AllSpaces(pre) && AllSpaces(post)
    requires msg.text == Some(pre + CommandWord(c) + post)
    ensures IsCommand(msg, CommandWord(c))
  {
    TrimPadded(pre, CommandWord(c), post);
    CommandWordIsLower(c);
  }

  /** ... and the text handler's reply handling trims it and blocks the same user again. */
  lemma PaddedBlockReplyBlocksTwice(t: Tables, ownerId: UserId, msg: Message, now: Time, copyId: MessageId)
    requires msg.from.id == ownerId && msg.text == Some(" /block") && msg.replyTo.Some?
    ensures TextStep(t, ownerId, msg, now, copyId) == BlockByReplyStep(t, ownerId, msg, now)
  {
    assert " /block" == " " + CommandWord(Block) + "";
    PaddedCommandIsCommand(msg, " ", "", Block);
    ReplyCommandsComeFirst(t, ownerId, msg, now);
    OwnerMessagesAreNotRelayed(t, ownerId, msg, now, copyId);
  }

  /**
   * The bot: one message handler behind the listeners. `Dispatch` runs the handler a
   * route names, as the listener for that route does.
   */
  class Bot {
    const handler: MessageHandler

    constructor (ownerId: UserId, db: Database)
      ensures handler.ownerId == ownerId && handler.db == db && handler.Valid()
      ensures handler.outbox == []
    {
      handler := new MessageHandler(ownerId, db);
    }

    method Dispatch(msg: Message, r: Route, raw: Captcha, now: Time, copyId: MessageId)
      requires handler.Valid()
      requires r in Routes(handler.ownerId, msg)
      modifies handler, handler.db
      ensures WellFormed(r)
      ensures handler.db.Snapshot() == RouteStep(old(handler.db.Snapshot()), handler.ownerId, msg, r, raw, now, copyId).after
      ensures handler.outbox == old(handler.outbox) + RouteStep(old(handler.db.Snapshot()), handler.ownerId, msg, r, raw, now, copyId).sent
    {
      RoutesAreWellFormed(handler.ownerId, msg, r);
      match r
      case Start => handler.HandleStartCommand(msg, raw, now);
      case BlockById(d) => handler.HandleBlockUserById(d, now);
      case BlockByReply => handler.HandleBlockUser(msg, now);
      case BlockHint => handler.Send(SendText(handler.ownerId, BlockUsage));
      case UnblockById(d) => handler.HandleUnblockUserById(d);
      case UnblockByReply => handler.HandleUnblockUser(msg);
      case UnblockHint => handler.Send(SendText(handler.ownerId, UnblockUsage));
      case TextMessage => handler.HandleTextMessage(msg, now, copyId);
      case PhotoMessage => handler.HandlePhotoMessage(msg, now, copyId);
    }
  }
}
