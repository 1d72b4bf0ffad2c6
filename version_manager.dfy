/** The version ledger (VersionManager.java): for every subscription key, the
    highest version seen since the ledger was last cleared.  VersionManager is a
    Java interface whose documentation states the contract; `VersionManager`
    below is a reference implementation over a map, proved against a declarative account
    of the calls made on it. */
module VersionLedger {

  /** One call on the ledger. */
  datatype VersionCall = SetVersion(key: string, version: int) | ClearVersions

  /** Whether `setVersion(key, version)` takes effect on `versions`: the key is
      new, or the version is strictly greater than the stored one. */
  predicate Accepts(versions: map<string, int>, key: string, version: int)
  {
    key !in versions || version > versions[key]
  }

  /** The ledger after one call. */
  function Apply(versions: map<string, int>, call: VersionCall): (r: map<string, int>)
    ensures call.ClearVersions? ==> r == map[]
    ensures call.SetVersion? ==>
              && r.Keys == versions.Keys + {call.key}
              && r[call.key] == (if call.key in versions && versions[call.key] >= call.version
                                 then versions[call.key] else call.version)
              && forall k :: k in versions && k != call.key ==> r[k] == versions[k]
    ensures call.SetVersion? ==> (r != versions <==> Accepts(versions, call.key, call.version))
  {
    match call
    case ClearVersions => map[]
    case SetVersion(key, version) =>
      if Accepts(versions, key, version) then versions[key := version] else versions
  }

  /** The ledger after a sequence of calls on an empty one. */
  function Replay(calls: seq<VersionCall>): map<string, int>
  {
    if calls == [] then map[]
    else Apply(Replay(calls[..|calls| - 1]), calls[|calls| - 1])
  }

  /** Call `i` is not followed by any `clearVersions`. */
  ghost predicate Live(calls: seq<VersionCall>, i: int)
  {
    0 <= i < |calls| && forall j :: i < j < |calls| ==> !calls[j].ClearVersions?
  }

  /** Some version of `key` was set since the last clear. */
  ghost predicate SeenSinceClear(calls: seq<VersionCall>, key: string)
  {
    exists i :: Live(calls, i) && calls[i].SetVersion? && calls[i].key == key
  }

  /** `version` is the largest version of `key` set since the last clear. */
  ghost predicate HighestSinceClear(calls: seq<VersionCall>, key: string, version: int)
  {
    && (exists i :: Live(calls, i) && calls[i] == SetVersion(key, version))
    && forall i :: Live(calls, i) && calls[i].SetVersion? && calls[i].key == key ==> calls[i].version <= version
  }

  lemma LiveInPrefix(calls: seq<VersionCall>, i: int)
    requires |calls| > 0 && !calls[|calls| - 1].ClearVersions?
    ensures Live(calls, i) <==> (i == |calls| - 1 || Live(calls[..|calls| - 1], i))
  {
  }

  /** After any sequence of calls, the ledger holds exactly the keys set since
      the last clear, each with the highest version set for it since then. */
  lemma {:induction false} ReplayIsHighestSinceClear(calls: seq<VersionCall>, key: string)
    ensures key in Replay(calls) <==> SeenSinceClear(calls, key)
    ensures key in Replay(calls) ==> HighestSinceClear(calls, key, Replay(calls)[key])
  {
    if calls == [] {
      return;
    }
    var n := |calls| - 1;
    var prefix := calls[..n];
    var before := Replay(prefix);
    ReplayIsHighestSinceClear(prefix, key);
    match calls[n]
    case ClearVersions =>
      assert !Live(calls, n) ==> !SeenSinceClear(calls, key) by {
        forall i | 0 <= i < n ensures !Live(calls, i) { }
      }
      assert !calls[n].SetVersion?;
    case SetVersion(k, v) =>
      forall i ensures Live(calls, i) <==> (i == n || Live(prefix, i)) {
        LiveInPrefix(calls, i);
      }
      if k != key {
        if SeenSinceClear(calls, key) {
          var i :| Live(calls, i) && calls[i].SetVersion? && calls[i].key == key;
          assert Live(prefix, i) && prefix[i] == calls[i];
        }
        if SeenSinceClear(prefix, key) {
          var i :| Live(prefix, i) && prefix[i].SetVersion? && prefix[i].key == key;
          assert Live(calls, i) && calls[i] == prefix[i];
        }
        if key in Replay(calls) {
          var w := before[key];
          var i :| Live(prefix, i) && prefix[i] == SetVersion(key, w);
          assert Live(calls, i) && calls[i] == prefix[i];
          forall j | Live(calls, j) && calls[j].SetVersion? && calls[j].key == key
            ensures calls[j].version <= w
          {
            assert Live(prefix, j) && prefix[j] == calls[j];
          }
        }
      } else {
        assert Live(calls, n);
        var w := Replay(calls)[key];
        if key in before && before[key] >= v {
          var i :| Live(prefix, i) && prefix[i] == SetVersion(key, w);
          assert Live(calls, i) && calls[i] == prefix[i];
        } else {
          assert calls[n] == SetVersion(key, w);
        }
        forall j | Live(calls, j) && calls[j].SetVersion? && calls[j].key == key
          ensures calls[j].version <= w
        {
          if j != n {
            assert Live(prefix, j) && prefix[j] == calls[j];
          }
        }
      }
  }

  /** `setVersion` reports true exactly when the key had no version since the
      last clear, or the new version exceeds the highest one. */
  lemma SetVersionReportsRaise(calls: seq<VersionCall>, key: string, version: int)
    ensures Accepts(Replay(calls), key, version)
        <==> (!SeenSinceClear(calls, key)
              || forall w :: HighestSinceClear(calls, key, w) ==> version > w)
  {
    ReplayIsHighestSinceClear(calls, key);
    if SeenSinceClear(calls, key) {
      var h := Replay(calls)[key];
      forall w | HighestSinceClear(calls, key, w) ensures w == h {
        var i :| Live(calls, i) && calls[i] == SetVersion(key, w);
        var j :| Live(calls, j) && calls[j] == SetVersion(key, h);
      }
    }
  }

  /** Reference implementation of the VersionManager interface.  `history` is
      the sequence of calls made since construction. */
  class VersionManager {
    var versions: map<string, int>
    ghost var history: seq<VersionCall>

    ghost predicate Valid()
      reads this
    {
      versions == Replay(history)
    }

    constructor ()
      ensures Valid() && history == [] && versions == map[]
    {
      versions, history := map[], [];
    }

    /** The current highest version per key: exactly the keys set since the
        last clear, each with the largest version set for it. */
    method GetVersions() returns (current: map<string, int>)
      requires Valid()
      ensures forall k :: k in current <==> SeenSinceClear(history, k)
      ensures forall k :: k in current ==> HighestSinceClear(history, k, current[k])
    {
      current := versions;
      forall k ensures k in current <==> SeenSinceClear(history, k)
                 ensures k in current ==> HighestSinceClear(history, k, current[k]) {
        ReplayIsHighestSinceClear(history, k);
      }
    }

    /** Stores `newVersion` when `versionKey` is new or the version is greater
        than the stored one, and reports whether it did. */
    method SetVersion(versionKey: string, newVersion: int) returns (updated: bool)
      requires Valid()
      modifies this
      ensures Valid() && history == old(history) + [VersionCall.SetVersion(versionKey, newVersion)]
      ensures updated == Accepts(old(versions), versionKey, newVersion)
      ensures versions == if updated then old(versions)[versionKey := newVersion] else old(versions)
    {
      updated := versionKey !in versions || newVersion > versions[versionKey];
      if updated {
        versions := versions[versionKey := newVersion];
      }
      history := history + [VersionCall.SetVersion(versionKey, newVersion)];
      assert history[..|history| - 1] == old(history);
    }

    /** Drops every key and version. */
    method ClearVersions()
      requires Valid()
      modifies this
      ensures Valid() && history == old(history) + [VersionCall.ClearVersions]
      ensures versions == map[]
    {
      versions := map[];
      history := history + [VersionCall.ClearVersions];
      assert history[..|history| - 1] == old(history);
    }
  }

  /** setVersion("sub1", 5) then setVersion("sub1", 3): the second call
      reports false, and getVersions, read through its account of the call
      history, reports 5. */
  method LowerVersionIsRefused() returns (first: bool, second: bool, stored: map<string, int>)
    ensures first && !second
    ensures stored == map["sub1" := 5]
  {
    var ledger := new VersionManager();
    first := ledger.SetVersion("sub1", 5);
    second := ledger.SetVersion("sub1", 3);
    stored := ledger.GetVersions();
    ghost var calls := ledger.history;
    assert calls == [VersionCall.SetVersion("sub1", 5), VersionCall.SetVersion("sub1", 3)];
    assert Live(calls, 0) && calls[0].SetVersion? && calls[0].key == "sub1";
    assert SeenSinceClear(calls, "sub1");
    forall k | k in stored
      ensures k == "sub1"
    {
      ghost var i :| Live(calls, i) && calls[i].SetVersion? && calls[i].key == k;
    }
    assert HighestSinceClear(calls, "sub1", stored["sub1"]);
    ghost var i :| Live(calls, i) && calls[i] == VersionCall.SetVersion("sub1", stored["sub1"]);
    assert stored["sub1"] == 5;
  }
}
