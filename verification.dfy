/**
 * The verification engine (src/filters/adFilter.js): a per-user challenge
 * whose response is compared case-insensitively, with attempt counting and an
 * automatic ban once the attempts run out. The functions below give the effect
 * of each operation on the store's contents; the class `UserVerification`
 * carries the operations out against a `Database`.
 */
module Verification {
  import opened Wrappers
  import opened Text
  import opened Store

  /** The number of answers a challenge accepts before the sender is banned. */
  const MaxAttempts: nat := 3
  /** The reason written to the failure log when a sender is banned. */
  const TooManyAttemptsReason := "too many failed attempts"

  /** A challenge as the generator produces it: its text and its rendered image (SVG markup). */
  datatype Captcha = Captcha(text: string, image: string)

  /** What a submitted answer led to. */
  datatype Outcome =
    | NoChallenge              // no live challenge: nothing was counted
    | Success                  // the answer matched; the sender is now verified
    | Retry(remaining: int)    // the answer was wrong; `remaining` answers are left
    | Exhausted                // too many answers: the sender has been banned

  /** An outcome together with the store it leaves behind. */
  datatype Attempt = Attempt(outcome: Outcome, after: Tables)

  /** `generateCaptcha`: the challenge text is stored lower-cased, the image is kept. */
  function GenerateCaptcha(raw: Captcha): (c: Captcha)
    ensures c.image == raw.image
    ensures |c.text| == |raw.text|
    ensures forall i :: 0 <= i < |c.text| ==> !IsUpper(c.text[i])
    ensures ToLower(c.text) == ToLower(raw.text)
  {
    ToLowerIdempotent(raw.text);
    Captcha(ToLower(raw.text), raw.image)
  }

  /** The answer as compared: trimmed, then lower-cased. */
  function Normalize(input: string): string {
    ToLower(Trim(input))
  }

  predicate CodeMatches(input: string, code: string) {
    Normalize(input) == ToLower(code)
  }

  /** `createVerificationForUser`: a new challenge with no attempts, replacing any earlier one. */
  function IssueChallenge(t: Tables, u: UserId, raw: Captcha, now: Time): Tables {
    t.SavePendingVerification(u, GenerateCaptcha(raw).text, 0, now)
  }

  /**
   * `verifyCaptcha`. The pending row is read (an expired one is deleted and the
   * answer is refused), the attempt counter is incremented, and only then is the
   * count checked against the maximum and, below it, the answer compared.
   */
  function SubmitResponse(t: Tables, u: UserId, input: string, username: string, now: Time): Attempt {
    match t.LivePending(u, now)
    case None => Attempt(NoChallenge, t.AfterPendingRead(u, now))
    case Some(verification) =>
      var t1 := t.AfterPendingRead(u, now);
      var t2 := t1.AfterIncrement(u, now);
      // The source's `false` for "no live row" counts as 0 in `>` and `-`.
      var currentAttempts := t1.IncrementResult(u, now).GetOr(0);
      if currentAttempts > MaxAttempts then
        var t3 := t2.DeletePendingVerification(u)
                    .RecordFailedVerification(u, username, TooManyAttemptsReason, now)
                    .BlockUser(u, now);
        Attempt(Exhausted, t3)
      else if CodeMatches(input, verification.code) then
        Attempt(Success, t2.SaveVerifiedUser(u, username, now).DeletePendingVerification(u))
      else
        Attempt(Retry(MaxAttempts - currentAttempts), t2)
  }

  /** `manuallyVerifyUser`: the owner's override. */
  function ManualVerify(t: Tables, u: UserId, username: string, now: Time): Tables {
    t.SaveVerifiedUser(u, username, now).DeletePendingVerification(u)
  }

  /** `removeVerification`: only the pending challenge is dropped. */
  function DropChallenge(t: Tables, u: UserId): Tables {
    t.DeletePendingVerification(u)
  }

  // ======== Properties of the engine ========

  /** Without a live challenge the answer is refused; nothing is counted, logged or
      blocked, and the only change is that an expired row of the sender disappears. */
  lemma NoChallengeChangesNothing(t: Tables, u: UserId, input: string, username: string, now: Time)
    requires t.LivePending(u, now).None?
    ensures SubmitResponse(t, u, input, username, now).outcome == NoChallenge
    ensures SubmitResponse(t, u, input, username, now).after == t.(pending := t.pending - {u})
    ensures u in t.pending ==> IsExpired(t.pending[u], now)
  {
  }

  /** Once the incremented count exceeds the maximum the sender is banned, whatever the answer:
      the challenge is deleted, exactly one failure is logged, the sender is blocked and not verified, and no other user's rows change. */
  lemma ExhaustionPrecedesComparison(t: Tables, u: UserId, input: string, username: string, now: Time)
    requires t.LivePending(u, now).Some?
    requires t.pending[u].attempts + 1 > MaxAttempts
    ensures var a := SubmitResponse(t, u, input, username, now);
      && a.outcome == Exhausted
      && u !in a.after.pending
      && a.after.failed == t.failed + [FailedVerification(u, username, TooManyAttemptsReason, now)]
      && a.after.FailedVerificationCount(u) == t.FailedVerificationCount(u) + 1
      && a.after.IsUserBlocked(u)
      && a.after.verified == t.verified
      && a.after.mappings == t.mappings
      && a.after == t.(pending := t.pending - {u},
                       failed := t.failed + [FailedVerification(u, username, TooManyAttemptsReason, now)],
                       blocked := t.blocked[u := BlockedUser(now)])
  {
    FailureCountAppend(t.failed, FailedVerification(u, username, TooManyAttemptsReason, now), u);
  }

  /** A matching answer within the attempt budget verifies the sender under the given
      username and removes the challenge; no other row changes. */
  lemma MatchingAnswerVerifies(t: Tables, u: UserId, input: string, username: string, now: Time)
    requires t.LivePending(u, now).Some?
    requires t.pending[u].attempts + 1 <= MaxAttempts
    requires CodeMatches(input, t.pending[u].code)
    ensures var a := SubmitResponse(t, u, input, username, now);
      && a.outcome == Success
      && a.after.IsUserVerified(u)
      && a.after.pending == t.pending - {u}
      && a.after.blocked == t.blocked && a.after.failed == t.failed && a.after.mappings == t.mappings
      && a.after == t.(verified := t.verified[u := VerifiedUser(username, now)], pending := t.pending - {u})
  {
  }

  /** A wrong answer within the budget is counted: the stored attempts go up by one
      and the sender is told `3 - attempts` answers remain. */
  lemma WrongAnswerIsCounted(t: Tables, u: UserId, input: string, username: string, now: Time)
    requires t.LivePending(u, now).Some?
    requires t.pending[u].attempts + 1 <= MaxAttempts
    requires !CodeMatches(input, t.pending[u].code)
    ensures var a := SubmitResponse(t, u, input, username, now);
      && a.outcome == Retry(MaxAttempts - (t.pending[u].attempts + 1))
      && 0 <= a.outcome.remaining < MaxAttempts
      && a.after == t.(pending := t.pending[u := t.pending[u].(attempts := t.pending[u].attempts + 1)])
  {
  }

  /** Success happens exactly when a live challenge within budget is matched. */
  lemma SuccessExactly(t: Tables, u: UserId, input: string, username: string, now: Time)
    ensures SubmitResponse(t, u, input, username, now).outcome == Success <==>
      && t.LivePending(u, now).Some?
      && t.pending[u].attempts + 1 <= MaxAttempts
      && CodeMatches(input, t.pending[u].code)
  {
  }

  /** Case and the white space around an answer do not matter: a padded answer matches
      exactly when, letter case aside, it is the code. */
  lemma AnswerIgnoresCaseAndPadding(pre: string, answer: string, post: string, code: string)
    requires AllSpaces(pre) && AllSpaces(post)
    requires answer == [] || (!IsSpace(answer[0]) && !IsSpace(answer[|answer| - 1]))
    ensures CodeMatches(pre + answer + post, code) <==> ToLower(answer) == ToLower(code)
  {
    TrimPadded(pre, answer, post);
  }

  /** Issuing stores the lower-cased code with no attempts and a five-minute expiry,
      replacing any earlier challenge and touching no other user or table. */
  lemma IssueChallengeContract(t: Tables, u: UserId, raw: Captcha, now: Time)
    ensures IssueChallenge(t, u, raw, now).pending ==
      t.pending[u := PendingVerification(ToLower(raw.text), 0, now + PendingLifetimeMs, now)]
    ensures IssueChallenge(t, u, raw, now).(pending := t.pending) == t
    ensures forall i :: 0 <= i < |IssueChallenge(t, u, raw, now).pending[u].code| ==>
      !IsUpper(IssueChallenge(t, u, raw, now).pending[u].code[i])
  {
  }

  /** A fresh challenge accepts its own code, in any case, until it expires. */
  lemma FreshChallengeAcceptsCode(t: Tables, u: UserId, raw: Captcha, input: string, username: string, now: Time, later: Time)
    requires now <= later <= now + PendingLifetimeMs
    requires Normalize(input) == ToLower(raw.text)
    ensures SubmitResponse(IssueChallenge(t, u, raw, now), u, input, username, later).outcome == Success
  {
    ToLowerIdempotent(raw.text);
  }

  /** After five minutes the challenge is gone, whatever is answered. */
  lemma ExpiredChallengeIsAbsent(t: Tables, u: UserId, raw: Captcha, input: string, username: string, now: Time, later: Time)
    requires later > now + PendingLifetimeMs
    ensures SubmitResponse(IssueChallenge(t, u, raw, now), u, input, username, later).outcome == NoChallenge
    ensures u !in SubmitResponse(IssueChallenge(t, u, raw, now), u, input, username, later).after.pending
  {
  }

  /** The manual override leaves the user verified with no challenge and changes no other
      user's rows and no other table; doing it twice is doing it once. */
  lemma ManualVerifyContract(t: Tables, u: UserId, username: string, now: Time)
    ensures ManualVerify(t, u, username, now).IsUserVerified(u)
    ensures u !in ManualVerify(t, u, username, now).pending
    ensures ManualVerify(ManualVerify(t, u, username, now), u, username, now) == ManualVerify(t, u, username, now)
    ensures ManualVerify(t, u, username, now).blocked == t.blocked
    ensures ManualVerify(t, u, username, now).failed == t.failed
    ensures ManualVerify(t, u, username, now) ==
      t.(verified := t.verified[u := VerifiedUser(username, now)], pending := t.pending - {u})
  {
  }

  /** Removing a verification drops only the challenge; verified status is kept. */
  lemma RemoveVerificationKeepsVerified(t: Tables, u: UserId)
    ensures DropChallenge(t, u).verified == t.verified
    ensures DropChallenge(t, u).pending == t.pending - {u}
    ensures DropChallenge(t, u).(pending := t.pending) == t
  {
  }

  // ======== A run of answers ========

  datatype Submission = Submission(input: string, at: Time)
  datatype Run = Run(outcomes: seq<Outcome>, after: Tables)

  /** The outcomes of answering a sequence of submissions one after another. */
  function Replay(t: Tables, u: UserId, subs: seq<Submission>, username: string): (r: Run)
    ensures |r.outcomes| == |subs|
    decreases |subs|
  {
    if subs == [] then Run([], t)
    else
      var a := SubmitResponse(t, u, subs[0].input, username, subs[0].at);
      var rest := Replay(a.after, u, subs[1..], username);
      Run([a.outcome] + rest.outcomes, rest.after)
  }

  /** Retry messages counting down from the answer after `attempts` to the last one allowed. */
  function Countdown(attempts: nat): (r: seq<Outcome>)
    requires attempts <= MaxAttempts
    ensures |r| == MaxAttempts - attempts
    decreases MaxAttempts - attempts
  {
    if attempts == MaxAttempts then [] else [Retry(MaxAttempts - attempts - 1)] + Countdown(attempts + 1)
  }

  /** Every submission is wrong for `code`. */
  predicate AllWrong(subs: seq<Submission>, code: string)
    decreases |subs|
  {
    subs == [] || (!CodeMatches(subs[0].input, code) && AllWrong(subs[1..], code))
  }

  /** Every submission arrives no later than `deadline`. */
  predicate AllBy(subs: seq<Submission>, deadline: Time)
    decreases |subs|
  {
    subs == [] || (subs[0].at <= deadline && AllBy(subs[1..], deadline))
  }

  lemma {:induction false} AllWrongAndBy(subs: seq<Submission>, code: string, deadline: Time)
    requires forall i :: 0 <= i < |subs| ==> !CodeMatches(subs[i].input, code) && subs[i].at <= deadline
    ensures AllWrong(subs, code) && AllBy(subs, deadline)
    decreases |subs|
  {
    if subs != [] {
      assert !CodeMatches(subs[0].input, code) && subs[0].at <= deadline;
      forall i | 0 <= i < |subs[1..]|
        ensures !CodeMatches(subs[1..][i].input, code) && subs[1..][i].at <= deadline
      {
        assert subs[1..][i] == subs[i + 1];
      }
      AllWrongAndBy(subs[1..], code, deadline);
    }
  }

  /** The last answer allowed, when wrong, exhausts the challenge and bans the sender. */
  lemma LastWrongAnswerBans(t: Tables, u: UserId, subs: seq<Submission>, username: string)
    requires u in t.pending && t.pending[u].attempts == MaxAttempts && |subs| == 1
    requires subs[0].at <= t.pending[u].expiresAt
    ensures Replay(t, u, subs, username).outcomes == [Exhausted]
    ensures var after := Replay(t, u, subs, username).after;
      && u !in after.pending
      && after.IsUserBlocked(u)
      && after.FailedVerificationCount(u) == t.FailedVerificationCount(u) + 1
      && after.verified == t.verified
  {
    ExhaustionPrecedesComparison(t, u, subs[0].input, username, subs[0].at);
    var a := SubmitResponse(t, u, subs[0].input, username, subs[0].at);
    assert subs[1..] == [];
    assert Replay(a.after, u, subs[1..], username) == Run([], a.after);
  }

  /** A wrong answer within budget gets its retry notice and leaves the same challenge
      live, with one more attempt, for the answers after it. */
  lemma WrongAnswerKeepsChallenge(t: Tables, u: UserId, subs: seq<Submission>, username: string)
    requires u in t.pending && t.pending[u].attempts < MaxAttempts && |subs| > 0
    requires subs[0].at <= t.pending[u].expiresAt && !CodeMatches(subs[0].input, t.pending[u].code)
    ensures var a := SubmitResponse(t, u, subs[0].input, username, subs[0].at);
      && a.outcome == Retry(MaxAttempts - t.pending[u].attempts - 1)
      && u in a.after.pending
      && a.after.pending[u] == t.pending[u].(attempts := t.pending[u].attempts + 1)
      && a.after.FailedVerificationCount(u) == t.FailedVerificationCount(u)
      && a.after.verified == t.verified
  {
    WrongAnswerIsCounted(t, u, subs[0].input, username, subs[0].at);
  }

  /** Wrong answers to one live challenge count down to zero remaining, and the next is refused. */
  lemma {:induction false} WrongAnswersCountDown(t: Tables, u: UserId, subs: seq<Submission>, username: string)
    requires u in t.pending && t.pending[u].attempts <= MaxAttempts
    requires |subs| == MaxAttempts + 1 - t.pending[u].attempts
    requires AllBy(subs, t.pending[u].expiresAt) && AllWrong(subs, t.pending[u].code)
    ensures Replay(t, u, subs, username).outcomes == Countdown(t.pending[u].attempts) + [Exhausted]
    decreases |subs|
  {
    if t.pending[u].attempts == MaxAttempts {
      LastWrongAnswerBans(t, u, subs, username);
      assert Countdown(t.pending[u].attempts) == [];
    } else {
      WrongAnswerKeepsChallenge(t, u, subs, username);
      var a := SubmitResponse(t, u, subs[0].input, username, subs[0].at);
      WrongAnswersCountDown(a.after, u, subs[1..], username);
      CountdownStep(t, u, subs, username);
    }
  }

  /** One wrong answer within budget puts its retry notice in front of the rest's countdown. */
  lemma CountdownStep(t: Tables, u: UserId, subs: seq<Submission>, username: string)
    requires u in t.pending && t.pending[u].attempts < MaxAttempts && |subs| > 0
    requires var a := SubmitResponse(t, u, subs[0].input, username, subs[0].at);
      && a.outcome == Retry(MaxAttempts - t.pending[u].attempts - 1)
      && u in a.after.pending && a.after.pending[u].attempts == t.pending[u].attempts + 1
      && Replay(a.after, u, subs[1..], username).outcomes == Countdown(a.after.pending[u].attempts) + [Exhausted]
    ensures Replay(t, u, subs, username).outcomes == Countdown(t.pending[u].attempts) + [Exhausted]
  {
    var a := SubmitResponse(t, u, subs[0].input, username, subs[0].at);
    var rest := Replay(a.after, u, subs[1..], username);
    assert Replay(t, u, subs, username).outcomes == [a.outcome] + rest.outcomes;
    CountdownCons(t.pending[u].attempts, rest.outcomes);
  }

  /** A retry notice in front of the countdown after it is the countdown one step earlier. */
  lemma CountdownCons(k: nat, rest: seq<Outcome>)
    requires k < MaxAttempts && rest == Countdown(k + 1) + [Exhausted]
    ensures [Retry(MaxAttempts - k - 1)] + rest == Countdown(k) + [Exhausted]
  {
    var r := Retry(MaxAttempts - k - 1);
    assert Countdown(k) == [r] + Countdown(k + 1);
    assert [r] + (Countdown(k + 1) + [Exhausted]) == ([r] + Countdown(k + 1)) + [Exhausted];
  }

  /** The answer after the last one allowed bans the sender: the challenge is gone,
      one failure is logged and the sender is blocked; nobody becomes verified. */
  lemma {:induction false} WrongAnswersBan(t: Tables, u: UserId, subs: seq<Submission>, username: string)
    requires u in t.pending && t.pending[u].attempts <= MaxAttempts
    requires |subs| == MaxAttempts + 1 - t.pending[u].attempts
    requires AllBy(subs, t.pending[u].expiresAt) && AllWrong(subs, t.pending[u].code)
    ensures var after := Replay(t, u, subs, username).after;
      && u !in after.pending
      && after.IsUserBlocked(u)
      && after.FailedVerificationCount(u) == t.FailedVerificationCount(u) + 1
      && after.verified == t.verified
    decreases |subs|
  {
    if t.pending[u].attempts == MaxAttempts {
      LastWrongAnswerBans(t, u, subs, username);
    } else {
      WrongAnswerKeepsChallenge(t, u, subs, username);
      var a := SubmitResponse(t, u, subs[0].input, username, subs[0].at);
      WrongAnswersBan(a.after, u, subs[1..], username);
    }
  }

  /** From a fresh challenge, three wrong answers get 2, 1 and 0 remaining, and the fourth bans. */
  lemma FourthWrongAnswerBans(t: Tables, u: UserId, raw: Captcha, subs: seq<Submission>, username: string, now: Time)
    requires |subs| == 4
    requires forall i :: 0 <= i < 4 ==> now <= subs[i].at <= now + PendingLifetimeMs
    requires forall i :: 0 <= i < 4 ==> Normalize(subs[i].input) != ToLower(raw.text)
    ensures Replay(IssueChallenge(t, u, raw, now), u, subs, username).outcomes ==
      [Retry(2), Retry(1), Retry(0), Exhausted]
    ensures Replay(IssueChallenge(t, u, raw, now), u, subs, username).after.IsUserBlocked(u)
  {
    var t0 := IssueChallenge(t, u, raw, now);
    ToLowerIdempotent(raw.text);
    assert t0.pending[u] == PendingVerification(ToLower(raw.text), 0, now + PendingLifetimeMs, now);
    AllWrongAndBy(subs, t0.pending[u].code, t0.pending[u].expiresAt);
    WrongAnswersCountDown(t0, u, subs, username);
    WrongAnswersBan(t0, u, subs, username);
    assert Countdown(0) == [Retry(2), Retry(1), Retry(0)];
  }

  /**
   * The engine object. It shares the store with the message handler; each method
   * changes the store exactly as the function of the same purpose above says.
   */
  class UserVerification {
    const db: Database

    constructor (db: Database)
      ensures this.db == db
    {
      this.db := db;
    }

    method IsVerified(u: UserId) returns (b: bool)
      ensures b <==> db.Snapshot().IsUserVerified(u)
    {
      b := db.IsUserVerified(u);
    }

    method HasPendingVerification(u: UserId, now: Time) returns (b: bool)
      modifies db
      ensures b <==> old(db.Snapshot()).LivePending(u, now).Some?
      ensures db.Snapshot() == old(db.Snapshot()).AfterPendingRead(u, now)
    {
      var pending := db.GetPendingVerification(u, now);
      b := pending.Some?;
    }

    /** Stores the challenge and returns its image for the caller to send. */
    method CreateVerificationForUser(u: UserId, raw: Captcha, now: Time) returns (image: string)
      modifies db
      ensures image == raw.image
      ensures db.Snapshot() == IssueChallenge(old(db.Snapshot()), u, raw, now)
    {
      var captcha := GenerateCaptcha(raw);
      db.SavePendingVerification(u, captcha.text, 0, now);
      image := captcha.image;
    }

    method VerifyCaptcha(u: UserId, input: string, username: string, now: Time) returns (o: Outcome)
      modifies db
      ensures o == SubmitResponse(old(db.Snapshot()), u, input, username, now).outcome
      ensures db.Snapshot() == SubmitResponse(old(db.Snapshot()), u, input, username, now).after
    {
      var verification := db.GetPendingVerification(u, now);
      if verification.None? {
        return NoChallenge;
      }
      var current := db.IncrementVerificationAttempts(u, now);
      var currentAttempts := current.GetOr(0);
      if currentAttempts > MaxAttempts {
        db.DeletePendingVerification(u);
        db.RecordFailedVerification(u, username, TooManyAttemptsReason, now);
        db.BlockUser(u, now);
        return Exhausted;
      }
      var normalizedInput := ToLower(Trim(input));
      var normalizedCode := ToLower(verification.value.code);
      if normalizedInput == normalizedCode {
        db.SaveVerifiedUser(u, username, now);
        db.DeletePendingVerification(u);
        return Success;
      }
      o := Retry(MaxAttempts - currentAttempts);
    }

    method ManuallyVerifyUser(u: UserId, username: string, now: Time)
      modifies db
      ensures db.Snapshot() == ManualVerify(old(db.Snapshot()), u, username, now)
    {
      db.SaveVerifiedUser(u, username, now);
      db.DeletePendingVerification(u);
    }

    method RemoveVerification(u: UserId)
      modifies db
      ensures db.Snapshot() == DropChallenge(old(db.Snapshot()), u)
    {
      db.DeletePendingVerification(u);
    }

    method GetStats() returns (s: Stats)
      ensures s == db.Snapshot().Counts()
    {
      s := db.GetStats();
    }
  }
}
