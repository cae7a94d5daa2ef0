/** Connection epochs and the time a session may stay offline. */
module Lifetimes {
  import opened Bytes

  const MAX_EPOCH: nat := 0xFFFF_FFFF_FFFF_FFFF

  /** The epoch counter has 64 bits. */
  function NextEpoch(epoch: nat): nat {
    if epoch >= MAX_EPOCH then 0 else epoch + 1
  }

  /** A new epoch makes an entry last sent in epoch `last` eligible, unless the counter wraps and the
      entry was never sent. */
  lemma NewEpochIsFresh(last: nat, epoch: nat)
    requires last <= epoch <= MAX_EPOCH
    ensures last != NextEpoch(epoch) <==> epoch < MAX_EPOCH || last > 0
  {
  }

  /** The epoch at which it fails: there the entries taken for already sent are those never sent. */
  lemma WrapStrandsUnsent(last: nat)
    ensures last == NextEpoch(MAX_EPOCH) <==> last == 0
  {
  }

  /** Offline for the whole time to live; a time to live of zero never ends. */
  predicate Overdue(connected: bool, offlineSince: Option<int>, now: int, ttl: int) {
    ttl != 0 && !connected && offlineSince.Some? && now - offlineSince.value >= ttl
  }

  /** An offline session is kept before its deadline and gone from it on. */
  lemma DeadlineIsExact(since: int, now: int, ttl: nat)
    ensures now < since + ttl ==> !Overdue(false, Some(since), now, ttl)
    ensures ttl > 0 && now >= since + ttl ==> Overdue(false, Some(since), now, ttl)
    ensures !Overdue(true, Some(since), now, ttl) && !Overdue(false, None, now, ttl) && !Overdue(false, Some(since), now, 0)
  {
  }
}
