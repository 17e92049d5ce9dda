/**
 * The balance helpers of src/utils/db.ts, over their own store: one number
 * per user under the key `["user", id, "balance"]`, kept apart from the
 * `["users", u]` records of the shop handler. The store gives every entry a
 * version that changes on every write, and commits a write only while the
 * version it was read at is still current.
 */
module BalanceStore {
  import opened Base

  /** A store key: its parts in order. */
  type Key = seq<string>

  /** Where a user's balance is kept (src/utils/db.ts:5 and :13). */
  function BalanceKey(userId: string): (k: Key)
    ensures |k| == 3 && k[1] == userId
  {
    ["user", userId, "balance"]
  }

  class Kv {
    var values: map<Key, int>
    /** The version of each stored entry; an absent entry has none. */
    var versions: map<Key, nat>
    /** The version the next successful commit writes. */
    var clock: nat

    /** Every entry has a version, and every version was handed out before `clock`. */
    ghost predicate Valid()
      reads this
    {
      versions.Keys == values.Keys && forall k :: k in versions ==> versions[k] < clock
    }

    /** An empty store. */
    constructor ()
      ensures Valid()
      ensures values == map[] && versions == map[]
    {
      values, versions, clock := map[], map[], 0;
    }

    /**
     * The version of the entry under `key`, None when there is no entry. In a
     * consistent store an entry has a version exactly when it holds a value,
     * and that version was handed out before the clock.
     */
    function VersionOf(key: Key): (v: Option<nat>)
      reads this
      ensures Valid() ==> (v.Some? <==> key in values)
      ensures Valid() && v.Some? ==> v.value < clock
    {
      if key in versions then Some(versions[key]) else None
    }

    /** `kv.get(key)`: the stored value and its version, both None when absent. */
    method Get(key: Key) returns (value: Option<int>, versionstamp: Option<nat>)
      ensures value.Some? <==> key in values
      ensures value.Some? ==> value.value == values[key]
      ensures versionstamp == VersionOf(key)
    {
      value := if key in values then Some(values[key]) else None;
      versionstamp := if key in versions then Some(versions[key]) else None;
    }

    /**
     * `kv.atomic().check({key, versionstamp: expected}).set(key, value).commit()`:
     * writes only when the entry's version is still `expected` (None: the
     * entry must still be absent), and then gives the entry a new, larger
     * version. No other entry changes.
     */
    method CommitChecked(key: Key, expected: Option<nat>, value: int) returns (ok: bool)
      requires Valid()
      modifies this
      ensures Valid()
      ensures ok <==> old(VersionOf(key)) == expected
      ensures ok ==> values == old(values)[key := value] && versions == old(versions)[key := old(clock)]
      ensures ok ==> clock == old(clock) + 1
      ensures ok && old(VersionOf(key)).Some? ==> versions[key] > old(versions)[key]
      ensures !ok ==> values == old(values) && versions == old(versions) && clock == old(clock)
    {
      ok := VersionOf(key) == expected;
      if ok {
        values := values[key := value];
        versions := versions[key := clock];
        clock := clock + 1;
      }
    }

    /** `getUserBalance`: the stored balance, or 0 when the user has none. */
    method GetUserBalance(userId: string) returns (balance: int)
      ensures BalanceKey(userId) in values ==> balance == values[BalanceKey(userId)]
      ensures BalanceKey(userId) !in values ==> balance == 0
    {
      var key := BalanceKey(userId);
      var res, _ := Get(key);
      balance := if res.Some? then res.value else 0;
    }

    /**
     * `topUpUserBalance`: a non-positive amount is refused; otherwise the
     * balance read (0 when absent) plus `amount` is committed under a check of
     * the version read, and the read and commit are repeated until a commit
     * succeeds. With no other writer the first commit succeeds:
     * `attempts` counts the read-and-commit rounds.
     */
    method TopUpUserBalance(userId: string, amount: int) returns (ok: bool, ghost attempts: nat)
      requires Valid()
      modifies this
      ensures Valid()
      ensures ok <==> amount > 0
      ensures attempts == if ok then 1 else 0
      ensures !ok ==> values == old(values) && versions == old(versions) && clock == old(clock)
      ensures ok ==>
        var key := BalanceKey(userId);
        var before := if key in old(values) then old(values)[key] else 0;
        && values == old(values)[key := before + amount]
        && versions == old(versions)[key := old(clock)]
        && clock == old(clock) + 1
        && (key in old(versions) ==> versions[key] > old(versions)[key])
    {
      attempts := 0;
      if amount <= 0 {
        return false, attempts;
      }
      var key := BalanceKey(userId);
      var success := false;
      while !success
        invariant Valid()
        invariant attempts == if success then 1 else 0
        invariant !success ==> values == old(values) && versions == old(versions) && clock == old(clock)
        invariant success ==>
          var before := if key in old(values) then old(values)[key] else 0;
          && values == old(values)[key := before + amount]
          && versions == old(versions)[key := old(clock)]
          && clock == old(clock) + 1
        decreases if success then 0 else 1
      {
        var current, versionstamp := Get(key);
        var currentBalance := if current.Some? then current.value else 0;
        var newBalance := currentBalance + amount;
        success := CommitChecked(key, versionstamp, newBalance);
        attempts := attempts + 1;
      }
      ok := true;
    }
  }

  /** A top-up read back: the balance is the earlier one (0 if none) plus the amount. */
  method TopUpThenRead(kv: Kv, userId: string, amount: int) returns (balance: int)
    requires kv.Valid() && amount > 0
    modifies kv
    ensures kv.Valid()
    ensures balance == old(if BalanceKey(userId) in kv.values then kv.values[BalanceKey(userId)] else 0) + amount
  {
    var ok, _ := kv.TopUpUserBalance(userId, amount);
    balance := kv.GetUserBalance(userId);
  }
}
