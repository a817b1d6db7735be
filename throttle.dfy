/** The per-identifier throttle of faucet.py (`check_identifier`, lines 39-52) as
    pure functions over the timestamp store. Clock readings are integer
    microseconds; the stored timestamp strings of the source carry exactly that
    precision, so the string round trip is the identity here. */
module Throttle {
  import opened PyInt

  const MicrosPerSecond: int := 1000000

  /** The throttle database: identifier -> stamp of its last accepted request. */
  type Store = map<string, int>

  /** The answer `check_identifier` gives: `(True, None)` or `(False, message)`,
      where the message carries the whole seconds still to wait. */
  datatype Verdict = Allowed | Denied(retryAfter: int)

  /** `max(int(rate_seconds - dseconds), 1)`, with `dseconds = elapsed / 10^6`;
      only computed when the window has not yet run out. */
  function RetryAfter(rateSeconds: nat, elapsed: int): (wait: int)
    requires elapsed < rateSeconds * MicrosPerSecond
    ensures wait >= 1
    ensures elapsed >= 0 ==> wait <= rateSeconds
    // never more than the time actually left, and less than a second short of it
    ensures wait == 1 || wait * MicrosPerSecond <= rateSeconds * MicrosPerSecond - elapsed
    ensures rateSeconds * MicrosPerSecond - elapsed < wait * MicrosPerSecond + MicrosPerSecond
  {
    var left := Trunc(rateSeconds * MicrosPerSecond - elapsed, MicrosPerSecond);
    WholeSecondsLeft(rateSeconds, elapsed, left);
    if left < 1 then 1 else left
  }

  /** The truncated whole seconds left in a window that started no later than
      now cannot exceed the window itself. */
  lemma WholeSecondsLeft(rateSeconds: nat, elapsed: int, left: int)
    requires elapsed < rateSeconds * MicrosPerSecond
    requires left * MicrosPerSecond <= rateSeconds * MicrosPerSecond - elapsed
    ensures elapsed >= 0 ==> left <= rateSeconds
  {
  }

  /** Whether `check_identifier(id)` at clock reading `now` lets the request through. */
  function Decide(db: Store, id: string, now: int, rateSeconds: nat): (v: Verdict)
    ensures id !in db ==> v == Allowed
    ensures id in db ==> (v.Allowed? <==> now - db[id] >= rateSeconds * MicrosPerSecond)
    ensures v.Denied? ==> v.retryAfter >= 1
    ensures v.Denied? && now >= db[id] ==> v.retryAfter <= rateSeconds
    // the wait is the one faucet.py reports for the time elapsed since the stamp
    ensures id in db && v.Denied? ==> v.retryAfter == RetryAfter(rateSeconds, now - db[id])
  {
    if id !in db then Allowed
    else
      var elapsed := now - db[id];
      if elapsed < rateSeconds * MicrosPerSecond then Denied(RetryAfter(rateSeconds, elapsed))
      else Allowed
  }

  /** The store after `check_identifier(id)`: the stamp is rewritten with `now`
      exactly on the allowed paths. */
  function Record(db: Store, id: string, now: int, rateSeconds: nat): (db': Store)
    ensures db'.Keys == db.Keys + {id}
    ensures forall k :: k in db && k != id ==> db'[k] == db[k]
    ensures Decide(db, id, now, rateSeconds).Allowed? ==> db'[id] == now
    ensures Decide(db, id, now, rateSeconds).Denied? ==> db' == db
  {
    if Decide(db, id, now, rateSeconds).Allowed? then db[id := now] else db
  }

  /** A denied requester that waits one second more than it was told is let through,
      provided no other request for it was accepted meanwhile. */
  lemma RetryAfterPlusOneSuffices(db: Store, id: string, now: int, rateSeconds: nat)
    requires Decide(db, id, now, rateSeconds).Denied?
    ensures var later := now + (Decide(db, id, now, rateSeconds).retryAfter + 1) * MicrosPerSecond;
            Decide(Record(db, id, now, rateSeconds), id, later, rateSeconds) == Allowed
  {
  }

  /** Because the wait is truncated, waiting exactly the advertised seconds is not
      always enough: half a second into a ten-second window the answer is nine. */
  lemma AdvertisedWaitCanFallShort()
    ensures var db := map["user-1" := 0];
            Decide(db, "user-1", 500000, 10) == Denied(9) &&
            Decide(db, "user-1", 500000 + 9 * MicrosPerSecond, 10).Denied?
  {
  }

  /** The verdicts of a serialised sequence of requests carrying the same
      identifier, made at the given clock readings. */
  function Replay(db: Store, id: string, times: seq<int>, rateSeconds: nat): (vs: seq<Verdict>)
    ensures |vs| == |times|
    decreases |times|
  {
    if times == [] then []
    else [Decide(db, id, times[0], rateSeconds)] + Replay(Record(db, id, times[0], rateSeconds), id, times[1..], rateSeconds)
  }

  /** The store after the same serialised sequence of requests. */
  function ReplayStore(db: Store, id: string, times: seq<int>, rateSeconds: nat): Store
    decreases |times|
  {
    if times == [] then db
    else ReplayStore(Record(db, id, times[0], rateSeconds), id, times[1..], rateSeconds)
  }

  function CountAllowed(vs: seq<Verdict>): nat
  {
    if vs == [] then 0 else (if vs[0].Allowed? then 1 else 0) + CountAllowed(vs[1..])
  }

  /** All clock readings lie in one throttle window starting at `lo`. */
  predicate InWindow(times: seq<int>, lo: int, rateSeconds: nat)
  {
    forall i :: 0 <= i < |times| ==> lo <= times[i] < lo + rateSeconds * MicrosPerSecond
  }

  lemma InWindowTail(times: seq<int>, lo: int, rateSeconds: nat)
    requires times != [] && InWindow(times, lo, rateSeconds)
    ensures InWindow(times[1..], lo, rateSeconds)
  {
  }

  /** Once the identifier carries a stamp inside the window, every further
      request in that window is denied and the store does not move. */
  lemma {:induction false} StampInWindowDeniesRest(db: Store, id: string, times: seq<int>, rateSeconds: nat, lo: int)
    requires id in db && lo <= db[id]
    requires InWindow(times, lo, rateSeconds)
    ensures CountAllowed(Replay(db, id, times, rateSeconds)) == 0
    ensures ReplayStore(db, id, times, rateSeconds) == db
    decreases |times|
  {
    if times != [] {
      assert times[0] - db[id] < rateSeconds * MicrosPerSecond;
      assert Record(db, id, times[0], rateSeconds) == db;
      InWindowTail(times, lo, rateSeconds);
      StampInWindowDeniesRest(db, id, times[1..], rateSeconds, lo);
    }
  }

  /** Serialised requests for one identifier inside one window: at most one is
      let through, whatever the store held before. */
  lemma {:induction false} AtMostOneAllowedPerWindow(db: Store, id: string, times: seq<int>, rateSeconds: nat, lo: int)
    requires InWindow(times, lo, rateSeconds)
    ensures CountAllowed(Replay(db, id, times, rateSeconds)) <= 1
    decreases |times|
  {
    if times != [] {
      var db' := Record(db, id, times[0], rateSeconds);
      InWindowTail(times, lo, rateSeconds);
      if Decide(db, id, times[0], rateSeconds).Allowed? {
        StampInWindowDeniesRest(db', id, times[1..], rateSeconds, lo);
      } else {
        AtMostOneAllowedPerWindow(db', id, times[1..], rateSeconds, lo);
      }
    }
  }

  /** For an identifier never seen before, the first of the serialised requests
      in a window is let through and all the others are denied. */
  lemma {:induction false} NewIdentifierAllowedOncePerWindow(db: Store, id: string, times: seq<int>, rateSeconds: nat, lo: int)
    requires id !in db && times != []
    requires InWindow(times, lo, rateSeconds)
    ensures Replay(db, id, times, rateSeconds)[0] == Allowed
    ensures CountAllowed(Replay(db, id, times, rateSeconds)) == 1
  {
    var db' := Record(db, id, times[0], rateSeconds);
    InWindowTail(times, lo, rateSeconds);
    StampInWindowDeniesRest(db', id, times[1..], rateSeconds, lo);
  }
}
