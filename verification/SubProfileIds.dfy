/**
 Choosing the id of a new sub-profile: the first free id at or after a hint, wrapping
 round within the 999 ids of the OS account.
 */
module SubProfileIds {
  import opened AccountTypes

  function MinId(localId: int): int {
    localId * OS_ACCOUNT_SUBSPACE_ID_MULTIPLIER + SUB_PROFILE_ID_MIN
  }

  function MaxId(localId: int): int {
    localId * OS_ACCOUNT_SUBSPACE_ID_MULTIPLIER + SUB_PROFILE_ID_MAX
  }

  function Start(localId: int, hint: int): (r: int)
    ensures MinId(localId) <= r <= MaxId(localId)
  {
    if hint < MinId(localId) || hint > MaxId(localId) then MinId(localId) else hint
  }

  function Next(lo: int, hi: int, at: int): int {
    if at >= hi then lo else at + 1
  }

  function FirstFree(taken: set<int>, lo: int, hi: int, at: int, tried: nat): Option<int>
    decreases hi - lo - tried
  {
    if at !in taken then Some(at)
    else if tried >= hi - lo then None
    else FirstFree(taken, lo, hi, Next(lo, hi, at), tried + 1)
  }

  function Allocate(localId: int, hint: int, taken: set<int>): Option<int> {
    FirstFree(taken, MinId(localId), MaxId(localId), Start(localId, hint), 0)
  }

  /** How far `x` lies after `start` when ids wrap from `hi` to `lo`. */
  function Distance(lo: int, hi: int, start: int, x: int): int {
    if x >= start then x - start else x - start + (hi - lo + 1)
  }

  lemma {:induction false} FirstFreeMeaning(taken: set<int>, lo: int, hi: int, start: int, at: int, tried: nat)
    requires lo <= start <= hi && lo <= at <= hi
    requires Distance(lo, hi, start, at) == tried
    requires forall x | lo <= x <= hi && Distance(lo, hi, start, x) < tried :: x in taken
    ensures
      match FirstFree(taken, lo, hi, at, tried)
      case None => forall x | lo <= x <= hi :: x in taken
      case Some(id) =>
        lo <= id <= hi && id !in taken &&
        forall x | lo <= x <= hi && Distance(lo, hi, start, x) < Distance(lo, hi, start, id) :: x in taken
    decreases hi - lo - tried
  {
    if at in taken && tried < hi - lo {
      FirstFreeMeaning(taken, lo, hi, start, Next(lo, hi, at), tried + 1);
    }
  }

  /**
   An id is found exactly when one of the 999 is free. It is the least free one from a hint in
   range on; the least of all if there is none there, or if the hint is out of range.
   */
  lemma AllocateMeaning(localId: int, hint: int, taken: set<int>)
    ensures
      var lo, hi := localId * 1000 + 1, localId * 1000 + 999;
      match Allocate(localId, hint, taken)
      case None => forall x | lo <= x <= hi :: x in taken
      case Some(id) =>
        && lo <= id <= hi && id !in taken
        && (!(lo <= hint <= hi) ==> forall x | lo <= x < id :: x in taken)
        && (lo <= hint <= id ==> forall x | hint <= x < id :: x in taken)
        && (lo <= id < hint <= hi ==>
              (forall x | hint <= x <= hi :: x in taken) && forall x | lo <= x < id :: x in taken)
  {
    var start := Start(localId, hint);
    FirstFreeMeaning(taken, MinId(localId), MaxId(localId), start, start, 0);
  }

  /** The search loop over the persisted id list. */
  method AllocateOsAccountSubProfileId(localId: int, hint: int, subProfileIdList: seq<int>) returns (r: Option<int>)
    ensures r == Allocate(localId, hint, set id | id in subProfileIdList)
  {
    var lo, hi := MinId(localId), MaxId(localId);
    var startId := hint;
    if startId < lo || startId > hi {
      startId := lo;
    }
    var searchCount := 0;
    ghost var taken := set id | id in subProfileIdList;
    while true
      invariant 0 <= searchCount <= hi - lo
      invariant Allocate(localId, hint, taken) == FirstFree(taken, lo, hi, startId, searchCount)
      decreases hi - lo - searchCount
    {
      if startId !in subProfileIdList {
        return Some(startId);
      }
      startId := startId + 1;
      searchCount := searchCount + 1;
      if startId > hi {
        startId := lo;
      }
      if searchCount >= hi - lo + 1 {
        return None;
      }
    }
  }
}
