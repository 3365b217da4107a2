/**
 * What the service asks of the platform, as an append-only log of calls, and
 * the state the platform is left in, folded from that log: which wake locks
 * are held, which notification is shown under which id, whether the service is
 * in the foreground, which location clients are subscribed.
 */
module Platform {
  import opened Options
  import opened JvmInts
  import opened Intents
  import opened Notifications

  /** The persisted backend preference. */
  datatype LocationClient = Google | Android

  /**
   * A location provider instance; `id` tells apart the instances a service
   * creates, one per START command.
   */
  datatype Provider = GoogleLocationProviderClient(id: nat) | AndroidLocationProviderClient(id: nat) {
    function Backend(): LocationClient {
      if GoogleLocationProviderClient? then Google else Android
    }
  }

  /** The provider `getLocationClient` constructs for a preference. */
  function ClientFor(preference: LocationClient, id: nat): (p: Provider)
    ensures p.Backend() == preference && p.id == id
  {
    match preference
    case Google => GoogleLocationProviderClient(id)
    case Android => AndroidLocationProviderClient(id)
  }

  /** Each pair of backend and id is one provider: ClientFor is inverted by (Backend, id). */
  lemma ClientForInverse(p: Provider)
    ensures ClientFor(p.Backend(), p.id) == p
  {
  }

  /**
   * One call into the platform. Wake locks are told apart by the number of
   * the `newWakeLock` call that created them. A location request records the
   * START intent it is built from (`getLocationRequest` is not part of this
   * model).
   */
  datatype PlatformCall =
    | AcquireWakeLock(lock: nat, timeoutMs: Int64)
    | ReleaseWakeLock(lock: nat)
    | StartForeground(id: Int32, notification: Notification)
    | Notify(id: Int32, notification: Notification)
    | StopForeground(removeNotification: bool)
    | StopSelf
    | RequestLocationUpdates(client: Provider, request: Intent)
    | RemoveLocationUpdates(client: Provider)

  /** The platform state the calls leave behind (wake-lock timeouts are not modelled). */
  datatype View = View(
    heldLocks: set<nat>,
    shown: map<Int32, Notification>,
    foregroundId: Option<Int32>,
    subscribed: set<Provider>,
    stopRequested: bool)

  const Untouched := View({}, map[], None, {}, false)

  /** The effect of one call on the platform state. */
  function After(v: View, call: PlatformCall): View {
    match call
    case AcquireWakeLock(lock, _) => v.(heldLocks := v.heldLocks + {lock})
    case ReleaseWakeLock(lock) => v.(heldLocks := v.heldLocks - {lock})
    case StartForeground(id, n) => v.(shown := v.shown[id := n], foregroundId := Some(id))
    case Notify(id, n) => v.(shown := v.shown[id := n])
    case StopForeground(remove) =>
      v.(shown := if remove && v.foregroundId.Some? then v.shown - {v.foregroundId.value} else v.shown,
         foregroundId := None)
    case StopSelf => v.(stopRequested := true)
    case RequestLocationUpdates(p, _) => v.(subscribed := v.subscribed + {p})
    case RemoveLocationUpdates(p) => v.(subscribed := v.subscribed - {p})
  }

  /** The platform state after `calls`, starting from `v`. */
  function ViewFrom(v: View, calls: seq<PlatformCall>): View
    decreases |calls|
  {
    if calls == [] then v else After(ViewFrom(v, calls[..|calls| - 1]), calls[|calls| - 1])
  }

  /** The platform state after `calls`, starting from nothing. */
  function ViewOf(calls: seq<PlatformCall>): View {
    ViewFrom(Untouched, calls)
  }

  /** Folding a log in two parts is folding it at once. */
  lemma {:induction false} ViewFromAppend(v: View, a: seq<PlatformCall>, b: seq<PlatformCall>)
    ensures ViewFrom(v, a + b) == ViewFrom(ViewFrom(v, a), b)
    decreases |b|
  {
    if b == [] {
      assert a + b == a;
    } else {
      var n := |b| - 1;
      assert (a + b)[..|a + b| - 1] == a + b[..n];
      assert (a + b)[|a + b| - 1] == b[n];
      ViewFromAppend(v, a, b[..n]);
    }
  }

  /** The platform state after `calls` followed by one more call. */
  lemma ViewOfAppendOne(calls: seq<PlatformCall>, c: PlatformCall)
    ensures ViewOf(calls + [c]) == After(ViewOf(calls), c)
  {
    assert (calls + [c])[..|calls|] == calls;
  }

  /** The platform state after `calls` followed by two more calls. */
  lemma ViewOfAppendTwo(calls: seq<PlatformCall>, c: PlatformCall, d: PlatformCall)
    ensures ViewOf(calls + [c, d]) == After(After(ViewOf(calls), c), d)
  {
    var v := ViewOf(calls);
    ViewFromAppend(Untouched, calls, [c, d]);
    assert [c, d][..1] == [c] && [c][..0] == [];
    assert ViewFrom(v, [c]) == After(ViewFrom(v, []), c);
    assert ViewFrom(v, [c, d]) == After(ViewFrom(v, [c]), d);
  }

  /** A lock or client id a call mentions is below the number created so far. */
  predicate IdsBelow(call: PlatformCall, locks: nat, clients: nat) {
    match call
    case AcquireWakeLock(lock, _) => lock < locks
    case ReleaseWakeLock(lock) => lock < locks
    case RequestLocationUpdates(p, _) => p.id < clients
    case RemoveLocationUpdates(p) => p.id < clients
    case _ => true
  }

  /** Only a lock some call acquired can be held, and only a client some call subscribed can be subscribed. */
  lemma {:induction false} HeldAndSubscribedAreKnown(calls: seq<PlatformCall>, locks: nat, clients: nat)
    requires forall i | 0 <= i < |calls| :: IdsBelow(calls[i], locks, clients)
    ensures forall l | l in ViewOf(calls).heldLocks :: l < locks
    ensures forall p | p in ViewOf(calls).subscribed :: p.id < clients
    decreases |calls|
  {
    if calls != [] {
      var n := |calls| - 1;
      assert IdsBelow(calls[n], locks, clients);
      HeldAndSubscribedAreKnown(calls[..n], locks, clients);
    }
  }
}
