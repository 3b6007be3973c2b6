/**
 * The record store behind the bot (src/utils/supabaseDatabase.js): five
 * tables, each a map keyed by user id or forwarded-message id, plus the
 * append-only log of failed verifications. `Tables` is the value of the whole
 * store with one function per query or update; `Database` is the mutable
 * store object whose methods update its tables as those functions say.
 * Time is an explicit `now` in milliseconds.
 */
module Store {
  import opened Wrappers

  type UserId = int
  type MessageId = int
  /** Milliseconds since the epoch. */
  type Time = int

  /** A pending challenge expires five minutes after it is saved. */
  const PendingLifetimeMs: int := 5 * 60 * 1000
  /** Message mappings are kept for seven days. */
  const MappingRetentionMs: int := 7 * 24 * 60 * 60 * 1000

  datatype VerifiedUser = VerifiedUser(username: string, verifiedAt: Time)
  datatype PendingVerification = PendingVerification(code: string, attempts: nat, expiresAt: Time, createdAt: Time)
  datatype BlockedUser = BlockedUser(blockedAt: Time)
  /** Which sender the owner's forwarded copy came from. */
  datatype MessageMapping = MessageMapping(userId: UserId, username: string, createdAt: Time)
  datatype FailedVerification = FailedVerification(userId: UserId, username: string, reason: string, failedAt: Time)
  datatype Stats = Stats(
    verifiedUsers: nat,
    pendingVerifications: nat,
    blockedUsers: nat,
    messageMappings: nat,
    failedVerifications: nat)

  /** Lazy expiry compares strictly: a row whose expiry is `now` is still live. */
  predicate IsExpired(p: PendingVerification, now: Time) {
    p.expiresAt < now
  }

  /** The number of log entries about user `u`. */
  function FailureCount(log: seq<FailedVerification>, u: UserId): (n: nat)
    ensures n <= |log|
    ensures n == 0 <==> forall i :: 0 <= i < |log| ==> log[i].userId != u
  {
    if log == [] then 0
    else (if log[0].userId == u then 1 else 0) + FailureCount(log[1..], u)
  }

  /** The log with every entry about `u` removed, the others kept in order. */
  function WithoutUser(log: seq<FailedVerification>, u: UserId): (r: seq<FailedVerification>)
    ensures |r| <= |log|
    ensures |r| + FailureCount(log, u) == |log|
    ensures forall e :: e in r <==> e in log && e.userId != u
  {
    if log == [] then []
    else if log[0].userId == u then WithoutUser(log[1..], u)
    else [log[0]] + WithoutUser(log[1..], u)
  }

  /** The contents of the whole store. */
  datatype Tables = Tables(
    verified: map<UserId, VerifiedUser>,
    pending: map<UserId, PendingVerification>,
    blocked: map<UserId, BlockedUser>,
    mappings: map<MessageId, MessageMapping>,
    failed: seq<FailedVerification>)
  {
    /** Every pending row expires five minutes after it was written. */
    predicate Valid() {
      forall u :: u in pending ==> pending[u].expiresAt == pending[u].createdAt + PendingLifetimeMs
    }

    // ---- message_mappings ----

    /** Upsert on the forwarded-message id. */
    function SaveMessageMapping(forwardedId: MessageId, u: UserId, username: string, now: Time): Tables {
      this.(mappings := mappings[forwardedId := MessageMapping(u, username, now)])
    }

    function GetMessageMapping(forwardedId: MessageId): Option<MessageMapping> {
      if forwardedId in mappings then Some(mappings[forwardedId]) else None
    }

    /** Delete every mapping created before `now - 7 days`. */
    function CleanupOldMappings(now: Time): Tables {
      this.(mappings := map f | f in mappings && !(mappings[f].createdAt < now - MappingRetentionMs) :: mappings[f])
    }

    // ---- verified_users ----

    function SaveVerifiedUser(u: UserId, username: string, now: Time): Tables {
      this.(verified := verified[u := VerifiedUser(username, now)])
    }

    predicate IsUserVerified(u: UserId) {
      u in verified
    }

    // ---- pending_verifications ----

    /** Upsert on the user id, expiring five minutes from `now`. */
    function SavePendingVerification(u: UserId, code: string, attempts: nat, now: Time): Tables {
      this.(pending := pending[u := PendingVerification(code, attempts, now + PendingLifetimeMs, now)])
    }

    /** What `getPendingVerification` returns: the row, unless absent or expired. */
    function LivePending(u: UserId, now: Time): Option<PendingVerification> {
      if u in pending && !IsExpired(pending[u], now) then Some(pending[u]) else None
    }

    /** The store after `getPendingVerification`: an expired row is deleted. */
    function AfterPendingRead(u: UserId, now: Time): Tables {
      if u in pending && IsExpired(pending[u], now) then DeletePendingVerification(u) else this
    }

    function DeletePendingVerification(u: UserId): Tables {
      this.(pending := pending - {u})
    }

    /** What `incrementVerificationAttempts` returns: nothing without a live row,
        otherwise the new attempt count. */
    function IncrementResult(u: UserId, now: Time): Option<nat> {
      match LivePending(u, now)
      case None => None
      case Some(p) => Some(p.attempts + 1)
    }

    /** The store after `incrementVerificationAttempts`: it reads the row (deleting it
        if expired), then writes the incremented count back. */
    function AfterIncrement(u: UserId, now: Time): Tables {
      match LivePending(u, now)
      case None => AfterPendingRead(u, now)
      case Some(p) => this.(pending := pending[u := p.(attempts := p.attempts + 1)])
    }

    /** Delete every pending row with `expiresAt < now`. */
    function CleanupExpiredVerifications(now: Time): Tables {
      this.(pending := map u | u in pending && !IsExpired(pending[u], now) :: pending[u])
    }

    // ---- blocked_users ----

    function BlockUser(u: UserId, now: Time): Tables {
      this.(blocked := blocked[u := BlockedUser(now)])
    }

    function UnblockUser(u: UserId): Tables {
      this.(blocked := blocked - {u})
    }

    predicate IsUserBlocked(u: UserId) {
      u in blocked
    }

    function BlockedUserCount(): nat {
      |blocked|
    }

    // ---- failed_verifications ----

    function RecordFailedVerification(u: UserId, username: string, reason: string, now: Time): Tables {
      this.(failed := failed + [FailedVerification(u, username, reason, now)])
    }

    function FailedVerificationCount(u: UserId): nat {
      FailureCount(failed, u)
    }

    predicate IsUserFailedVerification(u: UserId) {
      exists i :: 0 <= i < |failed| && failed[i].userId == u
    }

    function ClearFailedVerifications(u: UserId): Tables {
      this.(failed := WithoutUser(failed, u))
    }

    // ---- all tables ----

    /** Row counts; the pending count includes rows that have expired but not yet been swept. */
    function Counts(): Stats {
      Stats(|verified|, |pending|, |blocked|, |mappings|, |failed|)
    }
  }

  /** The store of a fresh deployment. */
  const EmptyTables := Tables(map[], map[], map[], map[], [])

  // ======== Properties of the store operations ========

  /** There is one mapping per forwarded id, the last write wins, and other ids and tables are untouched. */
  lemma MappingLastWriteWins(t: Tables, f: MessageId, u: UserId, username: string, now: Time, g: MessageId)
    ensures t.SaveMessageMapping(f, u, username, now).GetMessageMapping(f) == Some(MessageMapping(u, username, now))
    ensures g != f ==> t.SaveMessageMapping(f, u, username, now).GetMessageMapping(g) == t.GetMessageMapping(g)
    ensures t.SaveMessageMapping(f, u, username, now).(mappings := t.mappings) == t
  {
  }

  /** The lookup finds a row exactly when one is stored under that id, and returns that row. */
  lemma MappingLookup(t: Tables, f: MessageId)
    ensures t.GetMessageMapping(f).None? <==> f !in t.mappings
    ensures f in t.mappings ==> t.GetMessageMapping(f) == Some(t.mappings[f])
  {
  }

  /** The seven-day sweep removes exactly the mappings created before the cutoff. */
  lemma CleanupOldMappingsExact(t: Tables, now: Time)
    ensures forall f :: f in t.CleanupOldMappings(now).mappings <==>
      f in t.mappings && t.mappings[f].createdAt >= now - MappingRetentionMs
    ensures forall f :: f in t.CleanupOldMappings(now).mappings ==> t.CleanupOldMappings(now).mappings[f] == t.mappings[f]
    ensures t.CleanupOldMappings(now).(mappings := t.mappings) == t
  {
  }

  /** Saving a challenge leaves exactly one row for the user, with the given code and
      attempts and a five-minute expiry, replacing any earlier row. */
  lemma SavePendingOverwrites(t: Tables, u: UserId, code: string, attempts: nat, now: Time)
    ensures t.SavePendingVerification(u, code, attempts, now).pending[u] ==
      PendingVerification(code, attempts, now + PendingLifetimeMs, now)
    ensures t.SavePendingVerification(u, code, attempts, now).pending.Keys == t.pending.Keys + {u}
    ensures forall v :: v in t.pending && v != u ==> t.SavePendingVerification(u, code, attempts, now).pending[v] == t.pending[v]
    ensures t.SavePendingVerification(u, code, attempts, now).LivePending(u, now).Some?
    ensures t.SavePendingVerification(u, code, attempts, now).(pending := t.pending) == t
  {
  }

  /** Reading a pending row: an expired row reads as absent and is deleted, a live row
      (including one that expires exactly now) is returned and nothing changes. */
  lemma PendingReadLazyExpiry(t: Tables, u: UserId, now: Time)
    ensures t.LivePending(u, now).None? <==> (u !in t.pending || t.pending[u].expiresAt < now)
    ensures u in t.pending && t.pending[u].expiresAt < now ==>
      t.AfterPendingRead(u, now) == t.(pending := t.pending - {u})
    ensures u in t.pending && t.pending[u].expiresAt == now ==> t.LivePending(u, now) == Some(t.pending[u])
    ensures t.LivePending(u, now).Some? ==> t.LivePending(u, now) == Some(t.pending[u]) && t.AfterPendingRead(u, now) == t
    ensures t.AfterPendingRead(u, now).(pending := t.pending) == t
  {
  }

  /** Incrementing: false without a live row (only an expired row is dropped); otherwise
      the stored count becomes old + 1, that value is returned, code and expiry are kept. */
  lemma IncrementContract(t: Tables, u: UserId, now: Time)
    ensures t.LivePending(u, now).None? ==>
      t.IncrementResult(u, now).None? && t.AfterIncrement(u, now) == t.AfterPendingRead(u, now)
    ensures t.LivePending(u, now).Some? ==>
      var p := t.pending[u];
      var t' := t.AfterIncrement(u, now);
      && t.IncrementResult(u, now) == Some(p.attempts + 1)
      && u in t'.pending && t'.pending[u].attempts == p.attempts + 1
      && t'.pending[u].code == p.code && t'.pending[u].expiresAt == p.expiresAt
      && t'.pending[u].createdAt == p.createdAt
      && t'.pending.Keys == t.pending.Keys
      && (forall v :: v in t.pending && v != u ==> t'.pending[v] == t.pending[v])
      && t'.(pending := t.pending) == t
  {
  }

  /** The expiry sweep deletes exactly the rows with `expiresAt < now`. */
  lemma CleanupExpiredExact(t: Tables, now: Time)
    ensures forall u :: u in t.CleanupExpiredVerifications(now).pending <==> u in t.pending && t.pending[u].expiresAt >= now
    ensures forall u :: u in t.CleanupExpiredVerifications(now).pending ==>
      t.CleanupExpiredVerifications(now).pending[u] == t.pending[u]
    ensures t.CleanupExpiredVerifications(now).(pending := t.pending) == t
  {
  }

  /** Blocking is an idempotent upsert, unblocking a delete; both touch only the block list. */
  lemma BlockUnblockContract(t: Tables, u: UserId, now: Time, v: UserId)
    ensures t.BlockUser(u, now).IsUserBlocked(u)
    ensures t.BlockUser(u, now).BlockUser(u, now) == t.BlockUser(u, now)
    ensures t.BlockUser(u, now).blocked.Keys == t.blocked.Keys + {u}
    ensures !t.UnblockUser(u).IsUserBlocked(u)
    ensures t.UnblockUser(u).blocked.Keys == t.blocked.Keys - {u}
    ensures v != u ==> (t.BlockUser(u, now).IsUserBlocked(v) <==> t.IsUserBlocked(v))
    ensures v != u ==> (t.UnblockUser(u).IsUserBlocked(v) <==> t.IsUserBlocked(v))
    ensures t.BlockUser(u, now).(blocked := t.blocked) == t
    ensures t.UnblockUser(u).(blocked := t.blocked) == t
  {
  }

  lemma {:induction false} FailureCountAppend(log: seq<FailedVerification>, e: FailedVerification, u: UserId)
    ensures FailureCount(log + [e], u) == FailureCount(log, u) + (if e.userId == u then 1 else 0)
  {
    if log == [] {
      assert [] + [e] == [e];
    } else {
      assert (log + [e])[1..] == log[1..] + [e];
      FailureCountAppend(log[1..], e, u);
    }
  }

  lemma {:induction false} WithoutUserCount(log: seq<FailedVerification>, u: UserId, v: UserId)
    ensures FailureCount(WithoutUser(log, u), v) == if v == u then 0 else FailureCount(log, v)
  {
    if log != [] {
      WithoutUserCount(log[1..], u, v);
      if log[0].userId != u {
        assert ([log[0]] + WithoutUser(log[1..], u))[1..] == WithoutUser(log[1..], u);
      }
    }
  }

  /** Recording a failure raises that user's count by exactly one and no one else's;
      clearing makes that user's count zero and leaves everyone else's. */
  lemma FailureLogContract(t: Tables, u: UserId, username: string, reason: string, now: Time, v: UserId)
    ensures t.RecordFailedVerification(u, username, reason, now).FailedVerificationCount(u) == t.FailedVerificationCount(u) + 1
    ensures v != u ==> t.RecordFailedVerification(u, username, reason, now).FailedVerificationCount(v) == t.FailedVerificationCount(v)
    ensures t.ClearFailedVerifications(u).FailedVerificationCount(u) == 0
    ensures v != u ==> t.ClearFailedVerifications(u).FailedVerificationCount(v) == t.FailedVerificationCount(v)
    ensures t.RecordFailedVerification(u, username, reason, now).(failed := t.failed) == t
    ensures t.ClearFailedVerifications(u).(failed := t.failed) == t
  {
    FailureCountAppend(t.failed, FailedVerification(u, username, reason, now), u);
    FailureCountAppend(t.failed, FailedVerification(u, username, reason, now), v);
    WithoutUserCount(t.failed, u, u);
    WithoutUserCount(t.failed, u, v);
  }

  /** Having a failure on record is the same as a positive failure count. */
  lemma FailedVerificationMeansPositiveCount(t: Tables, u: UserId)
    ensures t.IsUserFailedVerification(u) <==> t.FailedVerificationCount(u) > 0
  {
  }

  /** The block count follows the block table: blocking someone new adds one row and
      re-blocking adds none; unblocking removes one row exactly when the user was blocked. */
  lemma BlockedCountFollowsWrites(t: Tables, u: UserId, now: Time)
    ensures t.BlockUser(u, now).BlockedUserCount() == t.BlockedUserCount() + (if t.IsUserBlocked(u) then 0 else 1)
    ensures t.UnblockUser(u).BlockedUserCount() == t.BlockedUserCount() - (if t.IsUserBlocked(u) then 1 else 0)
    ensures t.Counts().blockedUsers == t.BlockedUserCount()
  {
    var after := t.UnblockUser(u).blocked;
    assert after.Keys == t.blocked.Keys - {u};
    assert |after| == |after.Keys| && |t.blocked| == |t.blocked.Keys|;
  }

  /** A failure adds one log row, clearing a user removes exactly that user's rows, and a
      mapping under a new id adds one mapping row; no other count moves. */
  lemma CountsFollowWrites(t: Tables, u: UserId, username: string, reason: string, f: MessageId, now: Time)
    ensures t.RecordFailedVerification(u, username, reason, now).Counts() ==
      t.Counts().(failedVerifications := t.Counts().failedVerifications + 1)
    ensures t.SaveMessageMapping(f, u, username, now).Counts() ==
      t.Counts().(messageMappings := t.Counts().messageMappings + (if f in t.mappings then 0 else 1))
    ensures t.ClearFailedVerifications(u).Counts() ==
      t.Counts().(failedVerifications := t.Counts().failedVerifications - t.FailedVerificationCount(u))
  {
  }

  /** Every operation keeps each pending row's five-minute window. */
  lemma OperationsKeepWindow(t: Tables, u: UserId, code: string, attempts: nat, now: Time)
    requires t.Valid()
    ensures t.SavePendingVerification(u, code, attempts, now).Valid()
    ensures t.AfterPendingRead(u, now).Valid()
    ensures t.AfterIncrement(u, now).Valid()
    ensures t.DeletePendingVerification(u).Valid()
    ensures t.CleanupExpiredVerifications(now).Valid()
  {
  }

  /**
   * The store object. Each method updates its fields as the matching `Tables`
   * function says; storage errors (which the source turns into false, null or 0)
   * are not modelled.
   */
  class Database {
    var verified: map<UserId, VerifiedUser>
    var pending: map<UserId, PendingVerification>
    var blocked: map<UserId, BlockedUser>
    var mappings: map<MessageId, MessageMapping>
    var failed: seq<FailedVerification>

    function Snapshot(): Tables
      reads this
    {
      Tables(verified, pending, blocked, mappings, failed)
    }

    constructor ()
      ensures Snapshot() == EmptyTables
    {
      verified, pending, blocked, mappings, failed := map[], map[], map[], map[], [];
    }

    method SaveMessageMapping(forwardedId: MessageId, u: UserId, username: string, now: Time)
      modifies this
      ensures Snapshot() == old(Snapshot()).SaveMessageMapping(forwardedId, u, username, now)
    {
      mappings := mappings[forwardedId := MessageMapping(u, username, now)];
    }

    method GetMessageMapping(forwardedId: MessageId) returns (r: Option<MessageMapping>)
      ensures r.None? <==> forwardedId !in mappings
      ensures r.Some? ==> r.value == mappings[forwardedId]
    {
      if forwardedId in mappings {
        r := Some(mappings[forwardedId]);
      } else {
        r := None;
      }
    }

    method CleanupOldMappings(now: Time)
      modifies this
      ensures Snapshot() == old(Snapshot()).CleanupOldMappings(now)
    {
      var cutoff := now - MappingRetentionMs;
      mappings := map f | f in mappings && !(mappings[f].createdAt < cutoff) :: mappings[f];
    }

    method SaveVerifiedUser(u: UserId, username: string, now: Time)
      modifies this
      ensures Snapshot() == old(Snapshot()).SaveVerifiedUser(u, username, now)
    {
      verified := verified[u := VerifiedUser(username, now)];
    }

    method IsUserVerified(u: UserId) returns (b: bool)
      ensures b <==> u in verified
    {
      b := u in verified;
    }

    method SavePendingVerification(u: UserId, code: string, attempts: nat, now: Time)
      modifies this
      ensures Snapshot() == old(Snapshot()).SavePendingVerification(u, code, attempts, now)
    {
      var expiresAt := now + PendingLifetimeMs;
      pending := pending[u := PendingVerification(code, attempts, expiresAt, now)];
    }

    method GetPendingVerification(u: UserId, now: Time) returns (r: Option<PendingVerification>)
      modifies this
      ensures r == old(Snapshot()).LivePending(u, now)
      ensures Snapshot() == old(Snapshot()).AfterPendingRead(u, now)
    {
      if u !in pending {
        return None;
      }
      var row := pending[u];
      if row.expiresAt < now {
        DeletePendingVerification(u);
        return None;
      }
      r := Some(row);
    }

    method DeletePendingVerification(u: UserId)
      modifies this
      ensures Snapshot() == old(Snapshot()).DeletePendingVerification(u)
    {
      pending := pending - {u};
    }

    method IncrementVerificationAttempts(u: UserId, now: Time) returns (r: Option<nat>)
      modifies this
      ensures r == old(Snapshot()).IncrementResult(u, now)
      ensures Snapshot() == old(Snapshot()).AfterIncrement(u, now)
    {
      var verification := GetPendingVerification(u, now);
      if verification.None? {
        return None;
      }
      var newAttempts := verification.value.attempts + 1;
      pending := pending[u := pending[u].(attempts := newAttempts)];
      r := Some(newAttempts);
    }

    method CleanupExpiredVerifications(now: Time)
      modifies this
      ensures Snapshot() == old(Snapshot()).CleanupExpiredVerifications(now)
    {
      pending := map v | v in pending && !IsExpired(pending[v], now) :: pending[v];
    }

    method BlockUser(u: UserId, now: Time)
      modifies this
      ensures Snapshot() == old(Snapshot()).BlockUser(u, now)
    {
      blocked := blocked[u := BlockedUser(now)];
    }

    method UnblockUser(u: UserId)
      modifies this
      ensures Snapshot() == old(Snapshot()).UnblockUser(u)
    {
      blocked := blocked - {u};
    }

    method IsUserBlocked(u: UserId) returns (b: bool)
      ensures b <==> u in blocked
    {
      b := u in blocked;
    }

    method GetBlockedUserCount() returns (n: nat)
      ensures n == |blocked.Keys|
    {
      n := |blocked|;
    }

    method RecordFailedVerification(u: UserId, username: string, reason: string, now: Time)
      modifies this
      ensures Snapshot() == old(Snapshot()).RecordFailedVerification(u, username, reason, now)
    {
      failed := failed + [FailedVerification(u, username, reason, now)];
    }

    method GetFailedVerificationCount(u: UserId) returns (n: nat)
      ensures n == FailureCount(failed, u)
      ensures n <= |failed|
      ensures n == 0 <==> forall i :: 0 <= i < |failed| ==> failed[i].userId != u
    {
      n := FailureCount(failed, u);
    }

    method IsUserFailedVerification(u: UserId) returns (b: bool)
      ensures b <==> exists i :: 0 <= i < |failed| && failed[i].userId == u
    {
      var n := FailureCount(failed, u);
      b := n > 0;
    }

    method ClearFailedVerifications(u: UserId)
      modifies this
      ensures Snapshot() == old(Snapshot()).ClearFailedVerifications(u)
    {
      failed := WithoutUser(failed, u);
    }

    method GetStats() returns (s: Stats)
      ensures s.verifiedUsers == |verified.Keys| && s.pendingVerifications == |pending.Keys|
      ensures s.blockedUsers == |blocked.Keys| && s.messageMappings == |mappings.Keys|
      ensures s.failedVerifications == |failed|
    {
      s := Stats(|verified|, |pending|, |blocked|, |mappings|, |failed|);
    }
  }
}
