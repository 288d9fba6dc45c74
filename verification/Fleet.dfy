/** The operator's script scripts/migrate-fleet.ts: readers that compute offsets by hand, the choice of the
    last hop, and the walk that takes one vault up to V6. */
module Fleet {
  import opened Prelude
  import opened Borsh
  import opened Layouts
  import opened Migration
  import opened VaultAccount
  import C = MigrationChain
  import S = State

  // ---- The readers ---------------------------------------------------------------------------

  /** `authority` is None where the buffer ends inside it and the script makes a key of what is left. */
  datatype Prefix =
    Prefix(version: u8, pendingSome: bool, authority: Option<Key>, authorityOffset: nat, afterAuthority: nat)

  /** readPrefix. None stands for its exception on a tag that is bad or not there. */
  function ReadPrefix(data: Bytes): Option<Prefix> {
    var tagAt := 8 + 1 + 1 + 33 + 32 + 4 + 4;
    if |data| <= tagAt || data[tagAt] > 1 then None
    else
      var pendingSome := data[tagAt] == 1;
      var at := tagAt + 1 + (if pendingSome then 48 else 0) + 32;
      var authority: Option<Key> := if |data| < at + 32 then None else Some(data[at..at + 32]);
      Some(Prefix(data[8], pendingSome, authority, at, at + 32))
  }

  datatype SessionInfo = NoSession | SessionInfo(expiresAt: i64, counterparty: Key)

  /** readActiveSession. None stands for a read past the end. */
  function ReadActiveSession(data: Bytes, afterAuthority: nat): Option<SessionInfo> {
    if |data| <= afterAuthority || data[afterAuthority] != 1 then Some(NoSession)
    else
      var s := afterAuthority + 1;
      if |data| < s + 80 then None
      else
        var (expiresAt, _) :- GetI64(data[s + 40..]);
        Some(SessionInfo(expiresAt, data[s + 48..s + 80]))
  }

  function InfoOf(session: Option<Grant>): SessionInfo {
    match session
    case None => NoSession
    case Some(g) => SessionInfo(g.expiresAt, g.allowedCounterparty)
  }

  function GrantOfV3(session: Option<SessionV3>): Option<Grant> {
    if session.Some? then Some(session.value.grant) else None
  }

  function GrantOf(session: Option<Session>): Option<Grant> {
    if session.Some? then Some(session.value.v3.grant) else None
  }

  /** The hand-computed offsets find what Borsh finds, on every buffer. */
  lemma PrefixAgrees(data: Bytes)
    requires 8 <= |data|
    ensures GetHead(data[8..]).Some? <==> ReadPrefix(data).Some? && ReadPrefix(data).value.authority.Some?
    ensures match GetHead(data[8..])
      case None => true
      case Some((head, rest)) =>
        var p := ReadPrefix(data).value;
        && p == Prefix(head.version, head.pendingWithdrawal.Some?, Some(head.dexterAuthority),
                       8 + HeadLength(head) - 32, 8 + HeadLength(head))
        && p.afterAuthority <= |data| && rest == data[p.afterAuthority..]
  {
    hide OfLe, GetWithdrawal, PutWithdrawal;
    var b := data[8..];
    if 83 < |data| {
      var b2 := GetU8(GetU8(b).value.1).value.1;
      assert b2 == data[10..];
      var b3 := GetArray(33, b2).value.1;
      assert b3 == data[43..];
      var b4 := GetKey(b3).value.1;
      assert b4 == data[75..];
      var b5 := GetU32(b4).value.1;
      assert b5 == data[79..];
      var b6 := GetU32(b5).value.1;
      assert b6 == data[83..] && b6[0] == data[83];
      var pending := GetOption(GetWithdrawal, b6);
      if pending.Some? {
        if data[83] == 1 {
          WithdrawalRest(b6[1..]);
        }
        var b7 := pending.value.1;
        var at := if data[83] == 1 then 132 else 84;
        assert b7 == data[at..];
        TailAgrees(data, at);
      }
    }
  }

  lemma WithdrawalRest(b: Bytes)
    requires 48 <= |b|
    ensures GetWithdrawal(b).value.1 == b[48..]
  {
    hide OfLe;
    var b1 := GetU64(b).value.1;
    var b2 := GetKey(b1).value.1;
    assert b1 == b[8..] && b2 == b[40..];
  }

  lemma TailAgrees(data: Bytes, at: nat)
    requires at <= |data|
    ensures at + 64 <= |data| <==> GetKey(data[at..]).Some? && GetKey(GetKey(data[at..]).value.1).Some?
    ensures at + 64 <= |data| ==>
      GetKey(GetKey(data[at..]).value.1) == Some((data[at + 32..at + 64], data[at + 64..]))
  {
    if at + 32 <= |data| {
      var rest := GetKey(data[at..]).value.1;
      assert rest == data[at + 32..];
      if at + 64 <= |data| {
        assert rest[..32] == data[at + 32..at + 64] && rest[32..] == data[at + 64..];
      }
    }
  }

  /** The session's first six fields sit at the same offsets in every generation that has a session. */
  lemma SessionAgrees(data: Bytes, at: nat, session: Option<Grant>, rest: Bytes)
    requires at <= |data|
    requires GetOption(GetGrant, data[at..]) == Some((session, rest))
    ensures ReadActiveSession(data, at) == Some(InfoOf(session))
  {
    hide GetU64, GetI64, GetU32;
    var b := data[at..];
    assert b[0] == data[at];
    if data[at] == 1 {
      var s := at + 1;
      assert b[1..] == data[s..];
      GrantOffsets(data, s);
    }
  }

  lemma GrantOffsets(data: Bytes, s: nat)
    requires s <= |data| && GetGrant(data[s..]).Some?
    ensures s + 92 <= |data|
    ensures var g := GetGrant(data[s..]).value.0;
      && GetI64(data[s + 40..]).Some? && GetI64(data[s + 40..]).value.0 == g.expiresAt
      && data[s + 48..s + 80] == g.allowedCounterparty
  {
    hide OfLe;
    var b1 := GetKey(data[s..]).value.1;
    assert b1 == data[s + 32..];
    var b2 := GetU64(b1).value.1;
    assert b2 == data[s + 40..];
    var b3 := GetI64(b2).value.1;
    assert b3 == data[s + 48..];
    assert b3[..32] == data[s + 48..s + 80];
  }

  lemma GrantFirst(b: Bytes)
    ensures GetOption(GetSessionV3, b).Some? ==>
      GetOption(GetGrant, b).Some? && GetOption(GetGrant, b).value.0 == GrantOfV3(GetOption(GetSessionV3, b).value.0)
    ensures GetOption(GetSession, b).Some? ==>
      GetOption(GetGrant, b).Some? && GetOption(GetGrant, b).value.0 == GrantOf(GetOption(GetSession, b).value.0)
  {
    hide GetGrant, GetU64, GetU32;
  }

  /** What the script reads of an account: the authority, and the session or the session count. */
  ghost predicate ReadsAs(data: Bytes, head: Head, session: Option<Grant>) {
    && ReadPrefix(data).Some?
    && var p := ReadPrefix(data).value;
    && p.version == head.version
    && p.authority == Some(head.dexterAuthority)
    && ReadActiveSession(data, p.afterAuthority) == Some(InfoOf(session))
  }

  lemma ReadsAsDecoded(data: Bytes, session: Option<Grant>)
    requires 8 <= |data| && GetHead(data[8..]).Some?
    requires var r := GetOption(GetGrant, GetHead(data[8..]).value.1); r.Some? && r.value.0 == session
    ensures ReadsAs(data, GetHead(data[8..]).value.0, session)
  {
    hide GetHead, GetOption, ReadPrefix, ReadActiveSession;
    PrefixAgrees(data);
    var at := ReadPrefix(data).value.afterAuthority;
    SessionAgrees(data, at, session, GetOption(GetGrant, data[at..]).value.1);
  }

  /** One pair of readers serves every generation. */
  lemma ReadersAgree(data: Bytes)
    ensures DecodeV2(data).Ok? ==> ReadsAs(data, DecodeV2(data).value.head, DecodeV2(data).value.activeSession)
    ensures DecodeV3(data).Ok?
      ==> ReadsAs(data, DecodeV3(data).value.head, GrantOfV3(DecodeV3(data).value.activeSession))
    ensures DecodeV4(data).Ok? ==> ReadsAs(data, DecodeV4(data).value.head, GrantOf(DecodeV4(data).value.activeSession))
    ensures DecodeV5(data).Ok? ==> ReadsAs(data, DecodeV5(data).value.head, GrantOf(DecodeV5(data).value.activeSession))
    ensures DecodeV6(data).Ok? ==>
      && ReadPrefix(data).Some?
      && ReadPrefix(data).value.authority == Some(DecodeV6(data).value.head.dexterAuthority)
      && ReadPrefix(data).value.afterAuthority < |data|
      && data[ReadPrefix(data).value.afterAuthority] == DecodeV6(data).value.liveSessionCount
  {
    hide GetHead, GetOption, ReadsAs, ReadPrefix, GetOdometers, GetCredit;
    if 9 <= |data| && GetHead(data[8..]).Some? {
      var b1 := GetHead(data[8..]).value.1;
      GrantFirst(b1);
      if GetOption(GetGrant, b1).Some? {
        ReadsAsDecoded(data, GetOption(GetGrant, b1).value.0);
      }
      PrefixAgrees(data);
    }
  }

  // ---- The choice of the last hop ------------------------------------------------------------

  /** The counterparty to carry the session out for, or None for the plain hop. */
  function ChooseHop(info: SessionInfo, clock: i64): Option<Key> {
    match info
    case NoSession => None
    case SessionInfo(expiresAt, counterparty) => if expiresAt > clock then Some(counterparty) else None
  }

  /** With the chain's clock equal to the script's, the chosen instruction is accepted and the other is not. */
  lemma ChosenHopIsTheAcceptedOne(data: Bytes, signer: Key, now: i64)
    requires DecodeV5(data).Ok? && V6_SIZE <= |data| && DecodeV5(data).value.head.dexterAuthority == signer
    ensures ReadPrefix(data).Some? && ReadActiveSession(data, ReadPrefix(data).value.afterAuthority).Some?
    ensures
      match ChooseHop(ReadActiveSession(data, ReadPrefix(data).value.afterAuthority).value, now)
      case Some(cp) => V5ToV6WithSession(data, signer, cp, now).Ok? && V5ToV6(data, signer, now).Err?
      case None => V5ToV6(data, signer, now).Ok? && forall cp :: V5ToV6WithSession(data, signer, cp, now).Err?
  {
    hide V5ToV6, V5ToV6WithSession, DecodeV5, DecodeV6, ReadPrefix, ReadActiveSession;
    ReadersAgree(data);
    C.Finishing(data, signer, now);
  }

  // ---- The walk ------------------------------------------------------------------------------

  datatype WalkEnd = Done | Refused | Failed(error: VaultError)

  /** What the script admits: every generation in its own size and, when asked to, the two stale-stamp cohorts. */
  ghost predicate Walkable(data: Bytes, includeMismatch: bool) {
    || (DecodeV2(data).Ok? && |data| == V2_SIZE)
    || (DecodeV3(data).Ok? && |data| == V3_SIZE)
    || (DecodeV4(data).Ok? && (|data| == V4_SIZE || (includeMismatch && (|data| == V5_SIZE || |data| == V6_SIZE))))
    || (DecodeV5(data).Ok? && |data| == V5_SIZE)
  }

  /** A V2 vault in V5 terms: its grant alone, with neither meters nor locks. */
  predicate V2InV5(was: VaultV2, got: VaultV5) {
    && C.HeadKept(was.head, got.head, 5)
    && (match was.activeSession
        case None => got.activeSession.None?
        case Some(grant) =>
          && got.activeSession.Some? && got.activeSession.value.v3.grant == grant
          && got.activeSession.value.v3.currentOutstanding == 0 && got.activeSession.value.v3.maxRevolvingCapacity == 0
          && got.activeSession.value.crystallizedCumulative == 0 && got.activeSession.value.lastLockedSequence == 0)
    && C.NothingLocked(got.odometers) && C.NoStandby(got.credit)
  }

  /** The vault in these bytes is `v5` in V5 terms, field by field. */
  ghost predicate Means(data: Bytes, v5: VaultV5) {
    || (DecodeV2(data).Ok? && V2InV5(DecodeV2(data).value, v5))
    || (DecodeV3(data).Ok? && C.V3InV5(DecodeV3(data).value, v5))
    || (DecodeV4(data).Ok? && C.V4InV5(DecodeV4(data).value, v5))
    || DecodeV5(data) == Ok(v5)
  }

  lemma VersionOf(data: Bytes)
    ensures DecodeV2(data).Ok? ==> |data| >= 9 && data[8] == 2
    ensures DecodeV3(data).Ok? ==> |data| >= 9 && data[8] == 3
    ensures DecodeV4(data).Ok? ==> |data| >= 9 && data[8] == 4
    ensures DecodeV5(data).Ok? ==> |data| >= 9 && data[8] == 5
    ensures DecodeV6(data).Ok? ==> |data| >= 9 && data[8] == 6
  {
    hide GetV2, GetV3, GetV4, GetV5, GetV6;
  }

  /** Every account the script admits has one such meaning and no other. */
  lemma MeansOneVault(data: Bytes, mm: bool) returns (v5: VaultV5)
    requires Walkable(data, mm)
    ensures Means(data, v5) && forall other :: Means(data, other) ==> other == v5
  {
    VersionOf(data);
    hide DecodeV2, DecodeV3, DecodeV4, DecodeV5;
    var none, idle := NO_CREDIT, NO_ODOMETERS;
    if DecodeV2(data).Ok? {
      var v := DecodeV2(data).value;
      v5 := VaultV5(v.head.(version := 5),
                    match v.activeSession
                    case None => None
                    case Some(grant) => Some(Session(SessionV3(grant, 0, 0), 0, 0)), idle, none);
    } else if DecodeV3(data).Ok? {
      var v := DecodeV3(data).value;
      v5 := VaultV5(v.head.(version := 5), LiftSession(v.activeSession), idle, none);
    } else if DecodeV4(data).Ok? {
      var v := DecodeV4(data).value;
      v5 := VaultV5(v.head.(version := 5), v.activeSession, v.odometers, none);
    } else {
      v5 := DecodeV5(data).value;
    }
  }

  /** Admitted, or a V2 account after its first hop, which leaves the size as it was. A V2 account is only counted in
      when that hop preserves it. */
  ghost predicate Underway(data: Bytes, v5: VaultV5, signer: Key, includeMismatch: bool) {
    && (Walkable(data, includeMismatch) || (DecodeV3(data).Ok? && |data| == V2_SIZE))
    && (DecodeV2(data).Ok? ==> V2Survives(data))
    && Means(data, v5) && v5.head.dexterAuthority == signer
  }

  ghost predicate V2Survives(data: Bytes)
    requires DecodeV2(data).Ok?
  {
    C.V2Length(DecodeV2(data).value) <= |data| && C.Neutral(DecodeV2(data).value, C.Behind(data, DecodeV2(data).value))
  }

  /** The walk is over: V6 bytes with the vault's meaning, and its live session, if it has one, in an account
      of its own. */
  ghost predicate Arrived(account: VaultAccount, v5: VaultV5, bump: u8, now: i64)
    reads account
  {
    && |account.data| == V6_SIZE
    && DecodeV6(account.data).Ok?
    && C.V5InV6(v5, DecodeV6(account.data).value, if C.Unexpired(v5.activeSession, now) then 1 else 0)
    && account.sessions ==
       if C.Unexpired(v5.activeSession, now) then
         var carried := v5.activeSession.value;
         map[carried.v3.grant.allowedCounterparty := SessionImage(S.SESSION_VERSION_V1, bump, account.address, carried)]
       else map[]
  }

  /** The count the walk leaves in the vault is the number of session accounts it leaves beside it. */
  lemma ArrivedCountsItsSessions(account: VaultAccount, v5: VaultV5, bump: u8, now: i64)
    ensures Arrived(account, v5, bump, now) ==>
      DecodeV6(account.data).Ok? && DecodeV6(account.data).value.liveSessionCount == |account.sessions|
    ensures Arrived(account, v5, bump, now) ==>
      forall cp :: cp in account.sessions ==>
        && account.sessions[cp].session.v3.grant.allowedCounterparty == cp
        && account.sessions[cp].session.v3.grant.expiresAt > now
  {
    hide DecodeV6;
    if Arrived(account, v5, bump, now) && C.Unexpired(v5.activeSession, now) {
      var cp := v5.activeSession.value.v3.grant.allowedCounterparty;
      assert account.sessions.Keys == {cp};
    }
  }

  /** V6-sized bytes that read as V4 hold no session, so the script's check of the count byte passes. */
  lemma ShortV4HasNoSession(data: Bytes)
    ensures DecodeV4(data).Ok? && |data| == V6_SIZE ==> CountIsZero(data)
  {
    hide GetHead, PutHead, ReadPrefix, GetOdometers, GetSession;
    if DecodeV4(data).Ok? && |data| == V6_SIZE {
      PrefixAgrees(data);
      HeadReadBack(data[8..]);
      var at := ReadPrefix(data).value.afterAuthority;
      assert GetU8(data[at..]).Some? && data[at..][0] == data[at];
    }
  }

  lemma StepFromV2(data: Bytes, v5: VaultV5, signer: Key, mm: bool)
    requires Underway(data, v5, signer, mm) && data[8] == 2
    ensures V2ToV3(data, signer).Ok? && Underway(V2ToV3(data, signer).value, v5, signer, mm)
  {
    hide DecodeV2, DecodeV3, DecodeV4, DecodeV5, DecodeHead, V2ToV3, C.Neutral, C.Behind;
    VersionOf(data);
    C.V2Bytes(data);
    C.HopToV3(data, signer);
    C.V2SurvivesIff(data, signer);
    VersionOf(V2ToV3(data, signer).value);
  }

  lemma StepFromV3(data: Bytes, v5: VaultV5, signer: Key, mm: bool)
    requires Underway(data, v5, signer, mm) && data[8] == 3
    ensures V3ToV4(data, signer).Ok? && Underway(V3ToV4(data, signer).value, v5, signer, mm)
  {
    hide DecodeV2, DecodeV3, DecodeV4, DecodeV5, V3ToV4;
    VersionOf(data);
    C.HopToV4(data, signer);
    VersionOf(V3ToV4(data, signer).value);
  }

  lemma StepFromV4(data: Bytes, v5: VaultV5, signer: Key, mm: bool)
    requires Underway(data, v5, signer, mm) && data[8] == 4
    ensures V4ToV5(data, signer).Ok? && Underway(V4ToV5(data, signer).value, v5, signer, mm)
  {
    hide DecodeV2, DecodeV3, DecodeV4, DecodeV5, V4ToV5;
    VersionOf(data);
    C.HopToV5(data, signer);
    VersionOf(V4ToV5(data, signer).value);
  }

  lemma SuccessRaisesTheVersion(data: Bytes, signer: Key)
    ensures V2ToV3(data, signer).Ok? ==> var out := V2ToV3(data, signer).value; |out| >= 9 && out[8] == 3
    ensures V3ToV4(data, signer).Ok? ==> var out := V3ToV4(data, signer).value; |out| >= 9 && out[8] == 4
    ensures V4ToV5(data, signer).Ok? ==> var out := V4ToV5(data, signer).value; |out| >= 9 && out[8] == 5
  {
    hide DecodeHead, DecodeV3, DecodeV4, DecodeV5, Overwritten, ImageV4, ImageV5;
    if V3ToV4(data, signer).Ok? {
      C.HopToV4(data, signer);
      VersionOf(V3ToV4(data, signer).value);
    }
    if V4ToV5(data, signer).Ok? {
      C.HopToV5(data, signer);
      VersionOf(V4ToV5(data, signer).value);
    }
  }

  /** The two clocks agree on whether the vault's session is live. */
  ghost predicate ClocksAgree(v5: VaultV5, clock: i64, now: i64) {
    C.Unexpired(v5.activeSession, clock) == C.Unexpired(v5.activeSession, now)
  }

  /** The hop chosen by the script's clock is accepted by the chain's exactly when the two agree. */
  lemma LastStep(data: Bytes, v5: VaultV5, signer: Key, mm: bool, clock: i64, now: i64)
    requires Underway(data, v5, signer, mm) && data[8] == 5
    ensures ReadPrefix(data).Some? && ReadActiveSession(data, ReadPrefix(data).value.afterAuthority).Some?
    ensures var choice := ChooseHop(ReadActiveSession(data, ReadPrefix(data).value.afterAuthority).value, clock);
      match choice
      case Some(cp) =>
        && C.Unexpired(v5.activeSession, clock) && v5.activeSession.value.v3.grant.allowedCounterparty == cp
        && var c := V5ToV6WithSession(data, signer, cp, now);
        && (c.Ok? <==> ClocksAgree(v5, clock, now))
        && (c.Ok? ==>
              && c.value.1 == v5.activeSession.value
              && |c.value.0| == V6_SIZE && DecodeV6(c.value.0).Ok? && C.V5InV6(v5, DecodeV6(c.value.0).value, 1))
      case None =>
        && !C.Unexpired(v5.activeSession, clock)
        && var c := V5ToV6(data, signer, now);
        && (c.Ok? <==> ClocksAgree(v5, clock, now))
        && (c.Ok? ==> |c.value| == V6_SIZE && DecodeV6(c.value).Ok? && C.V5InV6(v5, DecodeV6(c.value).value, 0))
  {
    hide V5ToV6, V5ToV6WithSession, DecodeV2, DecodeV3, DecodeV4, DecodeV5, DecodeV6, ReadPrefix, ReadActiveSession;
    VersionOf(data);
    ReadersAgree(data);
    C.Finishing(data, signer, now);
  }

  /** The check of the count byte that the script makes on V6-sized bytes under an older stamp. */
  predicate CountIsZero(data: Bytes) {
    var p := ReadPrefix(data);
    p.Some? && p.value.afterAuthority < |data| && data[p.value.afterAuthority] == 0
  }

  lemma UnderwayPassesTheCheck(data: Bytes, v5: VaultV5, signer: Key, mm: bool)
    requires Underway(data, v5, signer, mm)
    ensures 9 <= |data| && 2 <= data[8] <= 5
    ensures |data| == V6_SIZE ==> mm && CountIsZero(data)
  {
    hide DecodeV2, DecodeV3, DecodeV4, DecodeV5, ReadPrefix;
    VersionOf(data);
    if |data| == V6_SIZE {
      ShortV4HasNoSession(data);
    }
  }

  lemma LastHopRaisesTheVersion(data: Bytes, signer: Key, now: i64)
    ensures V5ToV6(data, signer, now).Ok? ==> var out := V5ToV6(data, signer, now).value; |out| >= 9 && out[8] == 6
    ensures forall cp :: V5ToV6WithSession(data, signer, cp, now).Ok? ==>
      var out := V5ToV6WithSession(data, signer, cp, now).value.0; |out| >= 9 && out[8] == 6
  {
    hide DecodeV5, DecodeV6, ImageV6;
    if V5ToV6(data, signer, now).Ok? {
      C.HopToV6(data, signer, now);
      VersionOf(V5ToV6(data, signer, now).value);
    }
    forall cp | V5ToV6WithSession(data, signer, cp, now).Ok?
      ensures var out := V5ToV6WithSession(data, signer, cp, now).value.0; |out| >= 9 && out[8] == 6
    {
      C.HopToV6WithSession(data, signer, cp, now);
      VersionOf(V5ToV6WithSession(data, signer, cp, now).value.0);
    }
  }

  lemma OtherVersionRefused<T>(get: Bytes -> Read<T>, version: u8, data: Bytes)
    requires |data| >= 9 && data[8] != version
    ensures Decode(get, version, data) == Err(UnsupportedVaultVersion)
  {
  }

  /** A transaction sent again after it has landed is refused, so the script may retry a hop whose confirmation it
      lost and read off the version whether the hop is done. */
  lemma LandedHopIsRefused(data: Bytes, signer: Key, now: i64, again: Key, cp: Key, later: i64)
    ensures V2ToV3(data, signer).Ok? ==> V2ToV3(V2ToV3(data, signer).value, again) == Err(UnsupportedVaultVersion)
    ensures V3ToV4(data, signer).Ok? ==> V3ToV4(V3ToV4(data, signer).value, again) == Err(UnsupportedVaultVersion)
    ensures V4ToV5(data, signer).Ok? ==> V4ToV5(V4ToV5(data, signer).value, again) == Err(UnsupportedVaultVersion)
    ensures V5ToV6(data, signer, now).Ok? ==>
      V5ToV6(V5ToV6(data, signer, now).value, again, later) == Err(UnsupportedVaultVersion)
    ensures V5ToV6WithSession(data, signer, cp, now).Ok? ==>
      V5ToV6WithSession(V5ToV6WithSession(data, signer, cp, now).value.0, again, cp, later)
        == Err(UnsupportedVaultVersion)
  {
    hide GetHead, GetV3, GetV4, GetV5, Resized, Overwritten, ImageV4, ImageV5, ImageV6, PutHead;
    SuccessRaisesTheVersion(data, signer);
    LastHopRaisesTheVersion(data, signer, now);
    if V2ToV3(data, signer).Ok? {
      OtherVersionRefused(GetHead, S.VAULT_VERSION_V2, V2ToV3(data, signer).value);
    }
    if V3ToV4(data, signer).Ok? {
      OtherVersionRefused(GetV3, S.VAULT_VERSION_V3, V3ToV4(data, signer).value);
    }
    if V4ToV5(data, signer).Ok? {
      OtherVersionRefused(GetV4, S.VAULT_VERSION_V4, V4ToV5(data, signer).value);
    }
    if V5ToV6(data, signer, now).Ok? {
      OtherVersionRefused(GetV5, S.VAULT_VERSION_V5, V5ToV6(data, signer, now).value);
    }
    if V5ToV6WithSession(data, signer, cp, now).Ok? {
      OtherVersionRefused(GetV5, S.VAULT_VERSION_V5, V5ToV6WithSession(data, signer, cp, now).value.0);
    }
  }

  lemma LastArrives(account: VaultAccount, v5: VaultV5, bump: u8, now: i64)
    requires |account.data| == V6_SIZE
    requires DecodeV6(account.data).Ok?
    requires C.V5InV6(v5, DecodeV6(account.data).value, if C.Unexpired(v5.activeSession, now) then 1 else 0)
    requires C.Unexpired(v5.activeSession, now) ==>
      var carried := v5.activeSession.value;
      account.sessions == map[carried.v3.grant.allowedCounterparty :=
                                SessionImage(S.SESSION_VERSION_V1, bump, account.address, carried)]
    requires !C.Unexpired(v5.activeSession, now) ==> account.sessions == map[]
    ensures Arrived(account, v5, bump, now)
  {
  }

  lemma AgreedLiveness(v5: VaultV5, clock: i64, now: i64)
    ensures ClocksAgree(v5, clock, now)
      <==> (C.Unexpired(v5.activeSession, clock) <==> C.Unexpired(v5.activeSession, now))
  {
  }

  /** V5 -> V6 by the instruction the session calls for. */
  method LastHop(account: VaultAccount, signer: Key, includeMismatch: bool, bump: u8, clock: i64, now: i64,
                 ghost v5: VaultV5)
    returns (end: WalkEnd)
    requires 9 <= |account.data| && account.data[8] == S.VAULT_VERSION_V5
    modifies account
    ensures end == Done ==> 9 <= |account.data| && account.data[8] == S.VAULT_VERSION_V6
    ensures old(Underway(account.data, v5, signer, includeMismatch)) && old(account.sessions) == map[]
      ==> (end == Done <==> ClocksAgree(v5, clock, now)) && (end == Done ==> Arrived(account, v5, bump, now))
    ensures end != Done ==> account.data == old(account.data) && account.sessions == old(account.sessions)
  {
    hide ClocksAgree, Underway, Arrived, ReadPrefix, ReadActiveSession, ChooseHop, V5ToV6, V5ToV6WithSession, DecodeV6,
         C.Unexpired;
    ghost var before := account.data;
    ghost var admitted := Underway(before, v5, signer, includeMismatch) && account.sessions == map[];
    if admitted {
      LastStep(before, v5, signer, includeMismatch, clock, now);
    }
    LastHopRaisesTheVersion(before, signer, now);
    var p := ReadPrefix(account.data);
    if p == None {
      return Refused;
    }
    var info := ReadActiveSession(account.data, p.value.afterAuthority);
    if info == None {
      return Refused;
    }
    var r: Result<()>;
    match ChooseHop(info.value, clock) {
      case Some(counterparty) =>
        r := account.MigrateV5ToV6WithSession(signer, counterparty, bump, now);
      case None =>
        r := account.MigrateV5ToV6(signer, now);
    }
    if r.Err? {
      return Failed(r.error);
    }
    if admitted {
      AgreedLiveness(v5, clock, now);
      LastArrives(account, v5, bump, now);
    }
    return Done;
  }

  /** One turn of the walk. */
  method Hop(account: VaultAccount, signer: Key, includeMismatch: bool, bump: u8, clock: i64, now: i64,
             ghost v5: VaultV5)
    returns (end: WalkEnd)
    requires 9 <= |account.data| && 2 <= account.data[8] <= 5
    modifies account
    ensures end == Done ==> 9 <= |account.data| && account.data[8] == old(account.data[8]) + 1
    ensures old(Underway(account.data, v5, signer, includeMismatch)) && old(account.sessions) == map[]
      ==> (if old(account.data[8]) == S.VAULT_VERSION_V5 then
             (end == Done <==> ClocksAgree(v5, clock, now)) && (end == Done ==> Arrived(account, v5, bump, now))
           else end == Done && Underway(account.data, v5, signer, includeMismatch) && account.sessions == map[])
    ensures end != Done ==> account.data == old(account.data) && account.sessions == old(account.sessions)
  {
    hide ClocksAgree, Underway, Arrived, V2ToV3, V3ToV4, V4ToV5;
    ghost var before := account.data;
    ghost var admitted := Underway(before, v5, signer, includeMismatch) && account.sessions == map[];
    SuccessRaisesTheVersion(before, signer);
    var r: Result<()>;
    if account.data[8] == S.VAULT_VERSION_V5 {
      end := LastHop(account, signer, includeMismatch, bump, clock, now, v5);
      return;
    } else if account.data[8] == S.VAULT_VERSION_V4 {
      if admitted {
        StepFromV4(before, v5, signer, includeMismatch);
      }
      r := account.MigrateV4ToV5(signer);
    } else if account.data[8] == S.VAULT_VERSION_V3 {
      if admitted {
        StepFromV3(before, v5, signer, includeMismatch);
      }
      r := account.MigrateV3ToV4(signer);
    } else {
      if admitted {
        StepFromV2(before, v5, signer, includeMismatch);
      }
      r := account.MigrateV2ToV3(signer);
    }
    return if r.Ok? then Done else Failed(r.error);
  }

  /** There is nothing to walk: the account is V6 already, or of no known version, or V6-sized under another stamp and
      not one of the cohort the operator asked for. */
  predicate StopsAtOnce(data: Bytes, includeMismatch: bool)
    requires 9 <= |data|
  {
    data[8] !in {2, 3, 4, 5} || (|data| == 279 && !(includeMismatch && CountIsZero(data)))
  }

  /** The loop over hops, re-reading the account before each. `clock` is the script's clock when it chooses the
      last hop and `now` the chain's when that hop lands. From every admitted account whose recorded authority
      signs, a V2 one when its first hop preserves it, the walk arrives if and only if the two agree on the session;
      if not, it stops on the way with the vault's meaning intact. */
  method Walk(account: VaultAccount, signer: Key, includeMismatch: bool, bump: u8, clock: i64, now: i64,
              ghost v5: VaultV5)
    returns (end: WalkEnd)
    requires 9 <= |account.data|
    modifies account
    ensures end == Done ==> 9 <= |account.data| && account.data[8] == S.VAULT_VERSION_V6
    ensures old(StopsAtOnce(account.data, includeMismatch)) ==>
      && end == (if old(account.data[8]) == 6 then Done else Refused)
      && account.data == old(account.data) && account.sessions == old(account.sessions)
    ensures old(Underway(account.data, v5, signer, includeMismatch)) && old(account.sessions) == map[]
      ==> (if ClocksAgree(v5, clock, now) then end == Done && Arrived(account, v5, bump, now)
           else end != Done && Underway(account.data, v5, signer, includeMismatch) && account.sessions == map[])
  {
    hide ClocksAgree, Underway, Arrived, CountIsZero;
    ghost var admitted := Underway(account.data, v5, signer, includeMismatch) && account.sessions == map[];
    while true
      invariant 9 <= |account.data|
      invariant old(StopsAtOnce(account.data, includeMismatch)) ==>
        account.data == old(account.data) && account.sessions == old(account.sessions)
      invariant admitted ==>
        || (Underway(account.data, v5, signer, includeMismatch) && account.sessions == map[])
        || (account.data[8] == S.VAULT_VERSION_V6 && ClocksAgree(v5, clock, now) && Arrived(account, v5, bump, now))
      decreases 256 - account.data[8] as int
    {
      if Underway(account.data, v5, signer, includeMismatch) {
        UnderwayPassesTheCheck(account.data, v5, signer, includeMismatch);
      }
      var version := account.data[8];
      if version == S.VAULT_VERSION_V6 {
        return Done;
      }
      if version < S.VAULT_VERSION_V2 || version > S.VAULT_VERSION_V5 {
        return Refused;
      }
      if |account.data| == V6_SIZE && !(includeMismatch && CountIsZero(account.data)) {
        return Refused;
      }
      end := Hop(account, signer, includeMismatch, bump, clock, now, v5);
      if end != Done {
        return;
      }
    }
  }
}
