/** What register's loop over remaining_accounts has checked, counted, summed and swept. */
module SiblingScan {
  import opened Prelude
  import opened State
  import opened Protocol
  import Sums

  ghost predicate Ascending(refs: seq<AccountRef>) {
    forall i, j :: 0 <= i < j < |refs| ==> refs[i].key < refs[j].key
  }

  ghost function Keys(refs: seq<AccountRef>): set<Pubkey> {
    set i | 0 <= i < |refs| :: refs[i].key
  }

  ghost predicate SiblingOk(now: i64, vk: Pubkey, target: Pubkey, sessions: map<Pubkey, SessionAccount>,
                            acct: AccountRef)
  {
    && acct.key != target
    && acct.key in sessions
    && sessions[acct.key].vault == vk
    && acct.key == SessionAddress(vk, sessions[acct.key].reg.counterparty, sessions[acct.key].bump)
    && (sessions[acct.key].reg.expiresAt <= now ==> acct.writable)
  }

  /** The sessions after the sweep: the expired siblings among `keys` are cleared, nothing else moves. */
  ghost predicate SweptTo(now: i64, sessions: map<Pubkey, SessionAccount>, keys: set<Pubkey>,
                          after: map<Pubkey, SessionAccount>)
  {
    && after.Keys == sessions.Keys
    && forall a :: a in sessions ==>
         after[a] == if a in keys && sessions[a].reg.expiresAt <= now then sessions[a].Cleared() else sessions[a]
  }

  ghost function UnexpiredAmong(now: i64, sessions: map<Pubkey, SessionAccount>, keys: set<Pubkey>): set<Pubkey> {
    set a | a in keys && a in sessions && sessions[a].reg.expiresAt > now
  }

  function CapOf(): SessionAccount -> int { (a: SessionAccount) => a.reg.maxAmount }

  /** The caps of the unexpired accounts among `keys`. */
  ghost function CapSum(now: i64, sessions: map<Pubkey, SessionAccount>, keys: set<Pubkey>): int {
    Sums.Sum(Sums.Restrict(sessions, UnexpiredAmong(now, sessions, keys)), CapOf())
  }

  lemma KeysOfLast(refs: seq<AccountRef>)
    requires refs != []
    ensures Keys(refs) == Keys(refs[..|refs| - 1]) + {refs[|refs| - 1].key}
  {
    var n := |refs| - 1;
    assert forall i :: 0 <= i < n ==> refs[..n][i] == refs[i];
    forall a | a in Keys(refs[..n]) + {refs[n].key}
      ensures a in Keys(refs)
    {
      if a != refs[n].key {
        var i :| 0 <= i < n && refs[..n][i].key == a;
        assert refs[i].key == a;
      }
    }
  }

  ghost predicate ScanFacts(now: i64, sessions: map<Pubkey, SessionAccount>, keys: set<Pubkey>, scan: Scan) {
    && keys <= sessions.Keys
    && SweptTo(now, sessions, keys, scan.sessions)
    && scan.live == |UnexpiredAmong(now, sessions, keys)|
    && scan.swept == |keys - UnexpiredAmong(now, sessions, keys)|
    && scan.sum == CapSum(now, sessions, keys)
  }

  lemma ScanOneOrders(now: i64, vk: Pubkey, target: Pubkey, prev: Option<Pubkey>, acc: Scan, acct: AccountRef)
    requires ScanOne(now, vk, target, prev, acc, acct).Ok?
    ensures prev.Some? ==> acct.key > prev.value
  {
  }

  lemma SweepStep(now: i64, sessions: map<Pubkey, SessionAccount>, keys: set<Pubkey>,
                  after: map<Pubkey, SessionAccount>, a: Pubkey)
    requires SweptTo(now, sessions, keys, after)
    requires a !in keys
    ensures a in after <==> a in sessions
    ensures a in sessions ==>
              && after[a] == sessions[a]
              && SweptTo(now, sessions, keys + {a},
                         if sessions[a].reg.expiresAt <= now then after[a := sessions[a].Cleared()] else after)
  {
  }

  lemma ScanOneKeepsFacts(now: i64, vk: Pubkey, target: Pubkey, sessions: map<Pubkey, SessionAccount>,
                          keys: set<Pubkey>, prev: Option<Pubkey>, acc: Scan, acct: AccountRef)
    requires ScanFacts(now, sessions, keys, acc)
    requires acct.key !in keys
    requires ScanOne(now, vk, target, prev, acc, acct).Ok?
    ensures SiblingOk(now, vk, target, sessions, acct)
    ensures ScanFacts(now, sessions, keys + {acct.key}, ScanOne(now, vk, target, prev, acc, acct).value)
  {
    hide Pair, CapSum, UnexpiredAmong, SweptTo;
    SweepStep(now, sessions, keys, acc.sessions, acct.key);
    CountStep(now, sessions, keys, acct.key);
  }

  lemma ScanNothing(now: i64, sessions: map<Pubkey, SessionAccount>)
    ensures ScanFacts(now, sessions, {}, Scan(0, 0, 0, sessions))
  {
    assert UnexpiredAmong(now, sessions, {}) == {};
  }

  lemma {:induction false} ScanEstablishes(now: i64, vk: Pubkey, target: Pubkey, sessions: map<Pubkey, SessionAccount>,
                                           refs: seq<AccountRef>)
    requires ScanSiblings(now, vk, target, sessions, refs).Ok?
    ensures Ascending(refs)
    ensures forall i :: 0 <= i < |refs| ==> SiblingOk(now, vk, target, sessions, refs[i])
    ensures ScanFacts(now, sessions, Keys(refs), ScanSiblings(now, vk, target, sessions, refs).value)
    decreases |refs|
  {
    hide ScanFacts, ScanOne, SiblingOk;
    if refs == [] {
      ScanNothing(now, sessions);
      assert Keys(refs) == {};
    } else {
      var n := |refs| - 1;
      var before, last := refs[..n], refs[n];
      var acc := ScanSiblings(now, vk, target, sessions, before).value;
      assert ScanSiblings(now, vk, target, sessions, refs) == ScanOne(now, vk, target, LastKey(before), acc, last);
      ScanEstablishes(now, vk, target, sessions, before);
      ScanOneOrders(now, vk, target, LastKey(before), acc, last);
      AscendingStep(refs);
      KeysOfLast(refs);
      ScanOneKeepsFacts(now, vk, target, sessions, Keys(before), LastKey(before), acc, last);
      forall i | 0 <= i < |refs|
        ensures SiblingOk(now, vk, target, sessions, refs[i])
      {
        if i < n { assert refs[i] == before[i]; }
      }
    }
  }

  lemma AscendingStep(refs: seq<AccountRef>)
    requires refs != []
    requires Ascending(refs[..|refs| - 1])
    requires LastKey(refs[..|refs| - 1]).Some? ==> refs[|refs| - 1].key > LastKey(refs[..|refs| - 1]).value
    ensures Ascending(refs)
    ensures refs[|refs| - 1].key !in Keys(refs[..|refs| - 1])
  {
    var n := |refs| - 1;
    var before := refs[..n];
    forall i | 0 <= i < n
      ensures refs[i].key < refs[n].key
    {
      assert before[i] == refs[i];
      if i < n - 1 { assert before[i].key < before[n - 1].key; }
    }
    forall i, j | 0 <= i < j < |refs|
      ensures refs[i].key < refs[j].key
    {
      if j < n { assert before[i].key < before[j].key; }
    }
  }

  /** Adding one new sibling moves exactly one of the two counters, and the sum with the live one. */
  lemma CountStep(now: i64, sessions: map<Pubkey, SessionAccount>, keys: set<Pubkey>, a: Pubkey)
    requires keys <= sessions.Keys && a in sessions && a !in keys
    ensures var live, live' := UnexpiredAmong(now, sessions, keys), UnexpiredAmong(now, sessions, keys + {a});
            if sessions[a].reg.expiresAt > now then
              && |live'| == |live| + 1
              && |keys + {a} - live'| == |keys - live|
              && CapSum(now, sessions, keys + {a}) == CapSum(now, sessions, keys) + sessions[a].reg.maxAmount
            else
              && |live'| == |live|
              && |keys + {a} - live'| == |keys - live| + 1
              && CapSum(now, sessions, keys + {a}) == CapSum(now, sessions, keys)
  {
    var live := UnexpiredAmong(now, sessions, keys);
    if sessions[a].reg.expiresAt > now {
      assert UnexpiredAmong(now, sessions, keys + {a}) == live + {a};
      assert keys + {a} - (live + {a}) == keys - live;
      assert Sums.Restrict(sessions, live + {a}) == Sums.Restrict(sessions, live)[a := sessions[a]];
      Sums.SumPut(Sums.Restrict(sessions, live), CapOf(), a, sessions[a]);
    } else {
      assert UnexpiredAmong(now, sessions, keys + {a}) == live;
      assert keys + {a} - live == (keys - live) + {a};
    }
  }

  lemma CountsCoverKeys(now: i64, sessions: map<Pubkey, SessionAccount>, keys: set<Pubkey>)
    requires keys <= sessions.Keys
    ensures |UnexpiredAmong(now, sessions, keys)| + |keys - UnexpiredAmong(now, sessions, keys)| == |keys|
    ensures UnexpiredAmong(now, sessions, keys) <= keys
  {
    var live := UnexpiredAmong(now, sessions, keys);
    assert keys == live + (keys - live);
  }

  lemma CapSumGrows(now: i64, sessions: map<Pubkey, SessionAccount>, keys: set<Pubkey>, a: Pubkey)
    requires keys <= sessions.Keys && a in sessions && a !in keys
    ensures CapSum(now, sessions, keys) <= CapSum(now, sessions, keys + {a})
    ensures |UnexpiredAmong(now, sessions, keys + {a})| <= |keys| + 1
  {
    CountStep(now, sessions, keys, a);
    CountsCoverKeys(now, sessions, keys);
  }

  /** The loop accepts every strictly ascending list of good siblings whose caps fit in a u64. */
  lemma {:induction false} ScanAccepts(now: i64, vk: Pubkey, target: Pubkey, sessions: map<Pubkey, SessionAccount>,
                                       refs: seq<AccountRef>)
    requires Ascending(refs)
    requires forall i :: 0 <= i < |refs| ==> SiblingOk(now, vk, target, sessions, refs[i])
    requires |Keys(refs)| <= U8_MAX
    requires Keys(refs) <= sessions.Keys
    requires CapSum(now, sessions, Keys(refs)) <= U64_MAX
    ensures ScanSiblings(now, vk, target, sessions, refs).Ok?
    decreases |refs|
  {
    hide ScanFacts, CapSum, UnexpiredAmong, Pair;
    if refs != [] {
      var n := |refs| - 1;
      var before, last := refs[..n], refs[n];
      assert forall i :: 0 <= i < n ==> before[i] == refs[i];
      assert last.key !in Keys(before);
      KeysOfLast(refs);
      CapSumGrows(now, sessions, Keys(before), last.key);
      ScanAccepts(now, vk, target, sessions, before);
      ScanEstablishes(now, vk, target, sessions, before);
      OneMoreAccepted(now, vk, target, sessions, before, last);
    }
  }

  lemma OneMoreAccepted(now: i64, vk: Pubkey, target: Pubkey, sessions: map<Pubkey, SessionAccount>,
                        before: seq<AccountRef>, last: AccountRef)
    requires ScanSiblings(now, vk, target, sessions, before).Ok?
    requires ScanFacts(now, sessions, Keys(before), ScanSiblings(now, vk, target, sessions, before).value)
    requires SiblingOk(now, vk, target, sessions, last)
    requires last.key !in Keys(before)
    requires LastKey(before).Some? ==> last.key > LastKey(before).value
    requires |Keys(before) + {last.key}| <= U8_MAX
    requires CapSum(now, sessions, Keys(before) + {last.key}) <= U64_MAX
    ensures ScanOne(now, vk, target, LastKey(before), ScanSiblings(now, vk, target, sessions, before).value, last).Ok?
  {
    hide Keys, CapSum, UnexpiredAmong, Pair, LastKey, SweptTo, ScanSiblings;
    var acc := ScanSiblings(now, vk, target, sessions, before).value;
    SweepStep(now, sessions, Keys(before), acc.sessions, last.key);
    CountStep(now, sessions, Keys(before), last.key);
    CountsCoverKeys(now, sessions, Keys(before));
    assert |Keys(before) + {last.key}| == |Keys(before)| + 1;
  }
}
