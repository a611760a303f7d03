/**
 * The management command that sweeps stale WebSocket entries out of the
 * cache.
 *
 * The cache is a key-value map. Whether the backend can scan its keys, and
 * which keys make a delete raise, are properties of the backend and are held
 * as constants of the cache object. The scanned keys (those the backend
 * returns for the pattern "ws_*", already decoded to strings) are a parameter:
 * a scan may return keys in any order and more than once.
 */
module CacheCleanup {

  const ChannelPrefix: string := "ws_channel_"
  const TentPrefix: string := "ws_tent_"

  /** Whether `s` begins with `prefix`. */
  predicate StartsWith(s: string, prefix: string)
  {
    prefix == [] || (s != [] && s[0] == prefix[0] && StartsWith(s[1..], prefix[1..]))
  }

  /** Keys the sweep acts on: those starting with either prefix. */
  predicate IsStale(key: string)
  {
    StartsWith(key, ChannelPrefix) || StartsWith(key, TentPrefix)
  }

  /** `StartsWith` is the prefix test: `prefix` is an initial segment of `s`. */
  lemma {:induction false} StartsWithIsPrefix(s: string, prefix: string)
    ensures StartsWith(s, prefix) <==> prefix <= s
  {
    if prefix != [] && s != [] {
      StartsWithIsPrefix(s[1..], prefix[1..]);
    }
  }

  /** The keys acted on are exactly those with either prefix, and every one
      of them is a `ws_` key. */
  lemma StaleKeyPrefixes(key: string)
    ensures IsStale(key) <==> ChannelPrefix <= key || TentPrefix <= key
    ensures IsStale(key) ==> "ws_" <= key
  {
    StartsWithIsPrefix(key, ChannelPrefix);
    StartsWithIsPrefix(key, TentPrefix);
  }

  /** The scanned keys the sweep acts on, in scan order. */
  function StaleKeys(keys: seq<string>): (r: seq<string>)
    ensures |r| <= |keys|
    ensures forall k :: k in r <==> k in keys && IsStale(k)
  {
    if keys == [] then []
    else
      var last := keys[|keys| - 1];
      StaleKeys(keys[..|keys| - 1]) + (if IsStale(last) then [last] else [])
  }

  /** How many of `targets` are deleted without raising. */
  function Succeeded(targets: seq<string>, failsOn: set<string>): (n: nat)
    ensures n <= |targets|
    ensures failsOn == {} ==> n == |targets|
  {
    if targets == [] then 0
    else
      Succeeded(targets[..|targets| - 1], failsOn) + (if targets[|targets| - 1] in failsOn then 0 else 1)
  }

  /** The targets whose delete raises, in the order they are reported. */
  function Failures(targets: seq<string>, failsOn: set<string>): (r: seq<string>)
    ensures forall k :: k in r <==> k in targets && k in failsOn
  {
    if targets == [] then []
    else
      var last := targets[|targets| - 1];
      Failures(targets[..|targets| - 1], failsOn) + (if last in failsOn then [last] else [])
  }

  /** The keys a normal-mode sweep over `keys` deletes. */
  function Removed(keys: seq<string>, failsOn: set<string>): (r: set<string>)
  {
    set k | k in keys && IsStale(k) && k !in failsOn
  }

  /** The keys a sweep deletes are the acted-on keys whose delete does not raise. */
  lemma RemovedAreStaleKeysThatDoNotFail(keys: seq<string>, failsOn: set<string>)
    ensures Removed(keys, failsOn) == (set k | k in StaleKeys(keys)) - failsOn
  {
  }

  /** A key that was not scanned, or does not have either prefix, is never removed. */
  lemma OnlyScannedStaleKeysRemoved(keys: seq<string>, failsOn: set<string>)
    ensures forall k :: k in Removed(keys, failsOn) ==> k in keys && IsStale(k)
  {
  }

  lemma StaleKeysAppend(keys: seq<string>, key: string)
    ensures IsStale(key) ==> StaleKeys(keys + [key]) == StaleKeys(keys) + [key]
    ensures !IsStale(key) ==> StaleKeys(keys + [key]) == StaleKeys(keys)
  {
  }

  lemma RemovedAppend(keys: seq<string>, key: string, failsOn: set<string>)
    ensures IsStale(key) && key !in failsOn ==> Removed(keys + [key], failsOn) == Removed(keys, failsOn) + {key}
    ensures !(IsStale(key) && key !in failsOn) ==> Removed(keys + [key], failsOn) == Removed(keys, failsOn)
  {
  }

  lemma RemoveOneMore(m: map<string, string>, gone: set<string>, key: string)
    ensures m - (gone + {key}) == (m - gone) - {key}
  {
  }

  lemma SweepAppend(targets: seq<string>, key: string, failsOn: set<string>)
    ensures Succeeded(targets + [key], failsOn) == Succeeded(targets, failsOn) + (if key in failsOn then 0 else 1)
    ensures Failures(targets + [key], failsOn) == Failures(targets, failsOn) + (if key in failsOn then [key] else [])
  {
  }

  /** One step of the sweep: how the count, the failure report and the
      removed keys grow when one more scanned key is processed. */
  lemma SweepStep(keys: seq<string>, key: string, failsOn: set<string>)
    ensures !IsStale(key) ==>
              && Succeeded(StaleKeys(keys + [key]), failsOn) == Succeeded(StaleKeys(keys), failsOn)
              && Failures(StaleKeys(keys + [key]), failsOn) == Failures(StaleKeys(keys), failsOn)
    ensures IsStale(key) && key !in failsOn ==>
              && Succeeded(StaleKeys(keys + [key]), failsOn) == Succeeded(StaleKeys(keys), failsOn) + 1
              && Failures(StaleKeys(keys + [key]), failsOn) == Failures(StaleKeys(keys), failsOn)
    ensures IsStale(key) && key in failsOn ==>
              && Succeeded(StaleKeys(keys + [key]), failsOn) == Succeeded(StaleKeys(keys), failsOn)
              && Failures(StaleKeys(keys + [key]), failsOn) == Failures(StaleKeys(keys), failsOn) + [key]
  {
    StaleKeysAppend(keys, key);
    SweepAppend(StaleKeys(keys), key, failsOn);
  }

  /** The state of a normal-mode sweep after processing `keys`: the count,
      the failure report and the cache entries, starting from `entries0`. */
  ghost predicate SweepState(entries0: map<string, string>, keys: seq<string>, failsOn: set<string>,
                             count: nat, failed: seq<string>, entries: map<string, string>)
  {
    && count == Succeeded(StaleKeys(keys), failsOn)
    && failed == Failures(StaleKeys(keys), failsOn)
    && entries == entries0 - Removed(keys, failsOn)
  }

  /** One loop iteration of the sweep keeps its state: a stale key whose
      delete succeeds is counted and removed, one whose delete raises is
      reported, and any other key changes nothing. */
  lemma SweepStateStep(entries0: map<string, string>, keys: seq<string>, n: nat, failsOn: set<string>,
                       count: nat, failed: seq<string>, entries: map<string, string>)
    requires n < |keys|
    requires SweepState(entries0, keys[..n], failsOn, count, failed, entries)
    ensures !IsStale(keys[n]) ==> SweepState(entries0, keys[..n + 1], failsOn, count, failed, entries)
    ensures IsStale(keys[n]) && keys[n] !in failsOn ==>
              SweepState(entries0, keys[..n + 1], failsOn, count + 1, failed, entries - {keys[n]})
    ensures IsStale(keys[n]) && keys[n] in failsOn ==>
              SweepState(entries0, keys[..n + 1], failsOn, count, failed + [keys[n]], entries)
  {
    assert keys[..n + 1] == keys[..n] + [keys[n]];
    SweepStep(keys[..n], keys[n], failsOn);
    RemovedAppend(keys[..n], keys[n], failsOn);
    RemoveOneMore(entries0, Removed(keys[..n], failsOn), keys[n]);
  }

  /** Every target is either counted as cleaned or reported as failed. */
  lemma {:induction false} CleanedPlusFailed(targets: seq<string>, failsOn: set<string>)
    ensures Succeeded(targets, failsOn) + |Failures(targets, failsOn)| == |targets|
  {
    if targets != [] {
      CleanedPlusFailed(targets[..|targets| - 1], failsOn);
    }
  }

  /** The reported count never exceeds the number of scanned keys. */
  lemma CleanedAtMostScanned(scanned: seq<string>, failsOn: set<string>)
    ensures Succeeded(StaleKeys(scanned), failsOn) <= |scanned|
  {
    CleanedPlusFailed(StaleKeys(scanned), failsOn);
  }

  /** The summary line the command ends with. */
  datatype Summary =
    | ScanUnsupported      // the backend cannot scan; nothing was done
    | WouldClean(count: nat)
    | Cleaned(count: nat)

  class Cache {
    var entries: map<string, string>
    /** Whether the backend offers key scanning. */
    const supportsScan: bool
    /** The keys whose delete raises an error. */
    const failsOn: set<string>

    constructor (entries: map<string, string>, supportsScan: bool, failsOn: set<string>)
      ensures this.entries == entries && this.supportsScan == supportsScan && this.failsOn == failsOn
    {
      this.entries := entries;
      this.supportsScan := supportsScan;
      this.failsOn := failsOn;
    }

    /** Deletes `key`; deleting an absent key is no error. A delete that
        raises leaves the entry in place. */
    method Delete(key: string) returns (ok: bool)
      modifies this
      ensures ok <==> key !in failsOn
      ensures entries == if ok then old(entries) - {key} else old(entries)
    {
      ok := key !in failsOn;
      if ok {
        entries := entries - {key};
      }
    }
  }

  /**
   * The command's handler. Without key scanning it stops before touching the
   * cache. In dry-run mode it deletes nothing and its counter stays 0. In
   * normal mode it deletes every stale scanned key it can, counts each delete
   * that did not raise, and reports each one that did without stopping.
   */
  method Handle(cache: Cache, scanned: seq<string>, dryRun: bool) returns (summary: Summary, failed: seq<string>)
    modifies cache
    ensures !cache.supportsScan ==> summary == ScanUnsupported && cache.entries == old(cache.entries) && failed == []
    ensures cache.supportsScan && dryRun ==> summary == WouldClean(0) && cache.entries == old(cache.entries) && failed == []
    ensures cache.supportsScan && !dryRun ==>
              && summary == Cleaned(Succeeded(StaleKeys(scanned), cache.failsOn))
              && failed == Failures(StaleKeys(scanned), cache.failsOn)
              && cache.entries == old(cache.entries) - Removed(scanned, cache.failsOn)
    ensures forall k :: k in old(cache.entries) && !(k in scanned && IsStale(k)) ==>
              k in cache.entries && cache.entries[k] == old(cache.entries)[k]
  {
    failed := [];
    if !cache.supportsScan {
      return ScanUnsupported, failed;
    }
    var keysToCheck: seq<string> := [];
    for n := 0 to |scanned|
      invariant keysToCheck == scanned[..n]
    {
      keysToCheck := keysToCheck + [scanned[n]];
    }
    assert keysToCheck == scanned;

    var cleanedCount: nat := 0;
    for n := 0 to |keysToCheck|
      invariant dryRun ==> cleanedCount == 0 && failed == [] && cache.entries == old(cache.entries)
      invariant !dryRun ==>
                  SweepState(old(cache.entries), keysToCheck[..n], cache.failsOn, cleanedCount, failed, cache.entries)
    {
      var key := keysToCheck[n];
      if !dryRun {
        SweepStateStep(old(cache.entries), keysToCheck, n, cache.failsOn, cleanedCount, failed, cache.entries);
      }
      if IsStale(key) && !dryRun {
        var ok := cache.Delete(key);
        if ok {
          cleanedCount := cleanedCount + 1;
        } else {
          failed := failed + [key];
        }
      }
    }
    assert keysToCheck[..|keysToCheck|] == scanned;
    OnlyScannedStaleKeysRemoved(scanned, cache.failsOn);
    summary := if dryRun then WouldClean(cleanedCount) else Cleaned(cleanedCount);
  }
}
