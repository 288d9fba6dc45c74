/** The migrations as the program runs them: on the buffer of one vault account, resized and overwritten. */
module VaultAccount {
  import opened Prelude
  import opened Borsh
  import opened Layouts
  import opened Migration
  import opened Legacy
  import S = State

  /** A vault account's bytes, and the session accounts derived from its address, by counterparty. */
  class VaultAccount {
    const address: Key
    var data: Bytes
    var sessions: map<Key, SessionImage>

    constructor (address: Key, data: Bytes)
      ensures this.address == address && this.data == data && sessions == map[]
    {
      this.address, this.data, sessions := address, data, map[];
    }

    /** The account holds the bytes the outcome names, or is as it was before the failed instruction. */
    ghost predicate Ends(r: Result<()>, before: Bytes, outcome: Result<Bytes>)
      reads this
    {
      match outcome
      case Ok(after) => r == Ok(()) && data == after
      case Err(error) => r == Err(error) && data == before
    }

    method Resize(n: nat)
      modifies this`data
      ensures data == Resized(old(data), n)
    {
      if n <= |data| {
        data := data[..n];
      } else {
        data := data + Zeros(n - |data|);
      }
    }

    method Write(out: Bytes)
      requires |out| <= |data|
      modifies this`data
      ensures data == Overwritten(old(data), out)
    {
      data := out + data[|out|..];
    }

    /** Only the prefix up to the authority is read, and only the stamp is written. */
    method MigrateV2ToV3(signer: Key) returns (r: Result<()>)
      modifies this`data
      ensures Ends(r, old(data), V2ToV3(old(data), signer))
    {
      hide GetHead;
      var head :- DecodeHead(data);
      :- Need(head.dexterAuthority == signer, PasskeyVerificationFailed);
      if V6_SIZE > |data| {
        Resize(V6_SIZE);
      }
      assert data == Resized(old(data), Max(old(|data|), V6_SIZE));
      data := data[8 := S.VAULT_VERSION_V3];
      return Ok(());
    }

    method MigrateV3ToV4(signer: Key) returns (r: Result<()>)
      modifies this`data
      ensures Ends(r, old(data), V3ToV4(old(data), signer))
    {
      hide PutV4, GetV3, Overwritten;
      var v3 :- DecodeV3(data);
      :- Need(v3.head.dexterAuthority == signer, PasskeyVerificationFailed);
      var head := v3.head.(version := S.VAULT_VERSION_V4);
      var session: Option<Session> := None;
      if v3.activeSession.Some? {
        session := Some(Session(v3.activeSession.value, 0, 0));
      }
      var v4 := VaultV4(head, session, Odometers(0, 0, 0));
      if V4_SIZE > |data| {
        Resize(V4_SIZE);
      }
      assert data == Resized(old(data), Max(old(|data|), V4_SIZE));
      assert v4 == LiftV4(v3);
      // The encoding never exceeds the V4 size, so the length check before the copy cannot fail.
      Write(DISCRIMINATOR + PutV4(v4, []));
      return Ok(());
    }

    method MigrateV4ToV5(signer: Key) returns (r: Result<()>)
      modifies this`data
      ensures Ends(r, old(data), V4ToV5(old(data), signer))
    {
      hide PutV5, GetV4, Overwritten;
      var v4 :- DecodeV4(data);
      :- Need(v4.head.dexterAuthority == signer, PasskeyVerificationFailed);
      var head := v4.head.(version := S.VAULT_VERSION_V5);
      var v5 := VaultV5(head, v4.activeSession, v4.odometers, Credit(0, None, 0, None));
      if V5_SIZE > |data| {
        Resize(V5_SIZE);
      }
      assert data == Resized(old(data), Max(old(|data|), V5_SIZE));
      assert v5 == LiftV5(v4);
      Write(DISCRIMINATOR + PutV5(v5, []));
      return Ok(());
    }

    /** Writes the zero-padded V6 encoding and shrinks the account to it. */
    method WriteV6(v6: VaultV6) returns (r: Result<()>)
      modifies this`data
      ensures Ends(r, old(data), if V6_SIZE <= old(|data|) then Ok(ImageV6(v6)) else Err(UnsupportedVaultVersion))
    {
      var out := DISCRIMINATOR + PutV6(v6, []);
      out := out + Zeros(V6_SIZE - |out|);
      :- Need(|out| <= |data|, UnsupportedVaultVersion);
      Write(out);
      Resize(V6_SIZE);
      assert data == out == ImageV6(v6);
      return Ok(());
    }

    method MigrateV5ToV6(signer: Key, now: i64) returns (r: Result<()>)
      modifies this`data
      ensures Ends(r, old(data), V5ToV6(old(data), signer, now))
    {
      var v5 :- DecodeV5(data);
      :- Need(v5.head.dexterAuthority == signer, PasskeyVerificationFailed);
      if v5.activeSession.Some? {
        :- Need(v5.activeSession.value.v3.grant.expiresAt <= now, SessionAlreadyActive);
      }
      r := WriteV6(VaultV6(v5.head.(version := S.VAULT_VERSION_V6), 0, v5.odometers, v5.credit));
    }

    /** Account creation comes first: a session account that already exists ends the instruction. */
    method MigrateV5ToV6WithSession(signer: Key, counterparty: Key, bump: u8, now: i64) returns (r: Result<()>)
      modifies this`data, this`sessions
      ensures counterparty in old(sessions) ==> r == Err(AccountInUse)
      ensures counterparty !in old(sessions) ==>
        match V5ToV6WithSession(old(data), signer, counterparty, now)
        case Err(error) => r == Err(error)
        case Ok((bytes, carried)) =>
          && r == Ok(())
          && data == bytes
          && sessions == old(sessions)[counterparty := SessionImage(S.SESSION_VERSION_V1, bump, address, carried)]
      ensures r.Err? ==> data == old(data) && sessions == old(sessions)
    {
      hide GetV5, ImageV6;
      :- Need(counterparty !in sessions, AccountInUse);
      var v5 :- DecodeV5(data);
      :- Need(v5.head.dexterAuthority == signer, PasskeyVerificationFailed);
      var carried :- OkOr(v5.activeSession, NoActiveSession);
      :- Need(carried.v3.grant.expiresAt > now, SessionExpiryInPast);
      :- Need(carried.v3.grant.allowedCounterparty == counterparty, SessionAccountMisderived);
      r := WriteV6(VaultV6(v5.head.(version := S.VAULT_VERSION_V6), 1, v5.odometers, v5.credit));
      if r.Ok? {
        sessions := sessions[counterparty := SessionImage(S.SESSION_VERSION_V1, bump, address, carried)];
      }
    }

    method MigrateLegacyToV6(signer: Key) returns (r: Result<()>)
      modifies this`data
      ensures Ends(r, old(data), LegacyToV6(old(data), signer))
    {
      hide GetLegacy, ImageV6;
      var legacy :- DecodeLegacy(data);
      var newAuthority: Key := LEGACY_MIGRATE_ADMIN;
      if legacy.storedAuthority.Some? {
        :- Need(signer == legacy.storedAuthority.value, PasskeyVerificationFailed);
        newAuthority := legacy.storedAuthority.value;
      } else {
        :- Need(signer == LEGACY_MIGRATE_ADMIN, PasskeyVerificationFailed);
      }
      var image := EncodeV6Image(legacy, newAuthority);
      Resize(|image|);
      Write(image);
      return Ok(());
    }
  }
}
