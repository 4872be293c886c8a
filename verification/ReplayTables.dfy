/** Replay tables that forget expired entries (app/local_compute/catalog.py, app/local_compute/grants.py,
    app/compute_control.py). Hashes are injective, so a table is keyed by what it hashes; a signature check is a
    boolean. */
module ReplayTables {

  import opened Wrappers

  // ---------- grants of the local runtime ----------

  /** A consume of a grant whose expiry is signed into it. */
  datatype Use = Use(grant: nat, expiresAt: int, now: int)

  function Pruned(table: map<nat, int>, now: int): map<nat, int> {
    map g | g in table && table[g] >= now :: table[g]
  }

  function Consumed(table: map<nat, int>, use: Use): (map<nat, int>, bool) {
    var kept := Pruned(table, use.now);
    if use.grant in kept then (kept, false) else (kept[use.grant := use.expiresAt], true)
  }

  class LocalDocumentCatalog {
    var consumedLocalGrants: map<nat, int>

    constructor ()
      ensures consumedLocalGrants == map[]
    {
      consumedLocalGrants := map[];
    }

    /** The refused insert leaves the deletion made in the same transaction. */
    method ConsumeLocalGrant(grant: nat, expiresAt: int, now: int) returns (ok: bool)
      modifies this
      ensures (consumedLocalGrants, ok) == Consumed(old(consumedLocalGrants), Use(grant, expiresAt, now))
    {
      consumedLocalGrants := map g | g in consumedLocalGrants && consumedLocalGrants[g] >= now :: consumedLocalGrants[g];
      if grant in consumedLocalGrants {
        return false;
      }
      consumedLocalGrants := consumedLocalGrants[grant := expiresAt];
      ok := true;
    }
  }

  function AfterUses(table: map<nat, int>, uses: seq<Use>): map<nat, int>
    decreases |uses|
  {
    if uses == [] then table else AfterUses(Consumed(table, uses[0]).0, uses[1..])
  }

  function Verdicts(table: map<nat, int>, uses: seq<Use>): (v: seq<bool>)
    ensures |v| == |uses|
    decreases |uses|
  {
    if uses == [] then [] else [Consumed(table, uses[0]).1] + Verdicts(Consumed(table, uses[0]).0, uses[1..])
  }

  /** The verdicts of a set that never forgets. */
  function IdealVerdicts(seen: set<nat>, uses: seq<Use>): (v: seq<bool>)
    ensures |v| == |uses|
    decreases |uses|
  {
    if uses == [] then [] else [uses[0].grant !in seen] + IdealVerdicts(seen + {uses[0].grant}, uses[1..])
  }

  /** The clock never runs back. */
  ghost predicate Clocked(uses: seq<Use>, from: int) {
    uses == [] || (uses[0].now >= from && Clocked(uses[1..], uses[0].now))
  }

  ghost predicate Signed(uses: seq<Use>, expiry: nat -> int) {
    forall u | u in uses :: u.expiresAt == expiry(u.grant)
  }

  ghost predicate InTime(uses: seq<Use>) {
    forall u | u in uses :: u.now <= u.expiresAt
  }

  /** Whatever was seen is still in the table or has expired by `now`. */
  ghost predicate Remembers(table: map<nat, int>, seen: set<nat>, expiry: nat -> int, now: int) {
    && (forall g | g in table :: g in seen)
    && (forall g | g in seen :: (g in table && table[g] == expiry(g)) || expiry(g) < now)
  }

  /** The pruned table gives the verdicts of a set that never forgets, when every consume comes by its expiry. */
  lemma {:induction false} PruningIsInvisible(table: map<nat, int>, seen: set<nat>, uses: seq<Use>, expiry: nat -> int, from: int)
    requires Remembers(table, seen, expiry, from) && Clocked(uses, from) && Signed(uses, expiry) && InTime(uses)
    ensures Verdicts(table, uses) == IdealVerdicts(seen, uses)
    decreases |uses|
  {
    if uses != [] {
      var use := uses[0];
      var table' := Consumed(table, use).0;
      assert use.now <= expiry(use.grant);
      assert Remembers(table', seen + {use.grant}, expiry, use.now);
      PruningIsInvisible(table', seen + {use.grant}, uses[1..], expiry, use.now);
    }
  }

  lemma {:induction false} IdealOnce(seen: set<nat>, uses: seq<Use>, i: nat)
    requires i < |uses| && IdealVerdicts(seen, uses)[i]
    ensures uses[i].grant !in seen
    ensures forall j | i < j < |uses| && uses[j].grant == uses[i].grant :: !IdealVerdicts(seen, uses)[j]
    decreases |uses|
  {
    if i > 0 {
      IdealOnce(seen + {uses[0].grant}, uses[1..], i - 1);
    } else {
      forall j | i < j < |uses| && uses[j].grant == uses[i].grant ensures !IdealVerdicts(seen, uses)[j] {
        if IdealVerdicts(seen, uses)[j] { IdealOnce(seen + {uses[0].grant}, uses[1..], j - 1); }
      }
    }
  }

  /** Starting from an empty table, no grant is consumed twice in time. */
  lemma GrantConsumedOnce(uses: seq<Use>, expiry: nat -> int, from: int, i: nat, j: nat)
    requires Clocked(uses, from) && Signed(uses, expiry) && InTime(uses)
    requires i < j < |uses| && uses[i].grant == uses[j].grant
    ensures !(Verdicts(map[], uses)[i] && Verdicts(map[], uses)[j])
  {
    PruningIsInvisible(map[], {}, uses, expiry, from);
    if Verdicts(map[], uses)[i] { IdealOnce({}, uses, i); }
  }

  /** Without the hypothesis: once a grant was consumed, whatever is consumed in between, a later consume of it is
      accepted exactly when it comes after the expiry. Nothing in `consume` looks at the expiry again after
      `validate` did. */
  lemma {:induction false} ConsumedAgainIff(table: map<nat, int>, uses: seq<Use>, expiry: nat -> int, from: int, last: Use)
    requires Clocked(uses + [last], from) && Signed(uses + [last], expiry)
    requires last.grant in table || last.expiresAt < from
    requires last.grant in table ==> table[last.grant] == last.expiresAt
    ensures Consumed(AfterUses(table, uses), last).1 <==> last.expiresAt < last.now
    decreases |uses|
  {
    var all := uses + [last];
    if uses == [] {
      assert all[0] == last;
    } else {
      assert all[0] == uses[0] && all[1..] == uses[1..] + [last];
      assert uses[0] in all && last in all;
      ConsumedAgainIff(Consumed(table, uses[0]).0, uses[1..], expiry, uses[0].now, last);
    }
  }

  // ---------- signed requests of a device ----------

  datatype Device = Device(owner: nat, epoch: nat, revoked: bool)
  datatype NonceKey = NonceKey(device: nat, nonce: nat)

  /** A request; `genuine` says that the signature over the epoch, the timestamp and the nonce verifies. */
  datatype Request = Request(device: nat, epoch: nat, stamp: int, nonce: nat, genuine: bool, now: real)

  datatype AuthError = DeviceNotFound | DeviceRevoked | DeviceAuthInvalid | DeviceReplayDetected

  datatype Control = Control(devices: map<nat, Device>, nonces: map<NonceKey, real>)

  predicate InWindow(stamp: int, now: real, window: real) {
    -window <= now - stamp as real <= window
  }

  function Live(nonces: map<NonceKey, real>, now: real): map<NonceKey, real> {
    map k | k in nonces && nonces[k] >= now :: nonces[k]
  }

  /** All that is checked before the nonce table. */
  function Screened(devices: map<nat, Device>, r: Request, window: real): Option<AuthError> {
    if r.device !in devices then Some(DeviceNotFound)
    else if devices[r.device].revoked then Some(DeviceRevoked)
    else if devices[r.device].epoch != r.epoch || !InWindow(r.stamp, r.now, window) || !r.genuine then Some(DeviceAuthInvalid)
    else None
  }

  /** A refused request leaves no trace: the deletion of expired nonces is rolled back with it. */
  function Authenticated(control: Control, r: Request, window: real): (Control, Option<AuthError>) {
    var refused, key := Screened(control.devices, r, window), NonceKey(r.device, r.nonce);
    if refused.Some? then (control, refused)
    else if key in Live(control.nonces, r.now) then (control, Some(DeviceReplayDetected))
    else (control.(nonces := Live(control.nonces, r.now)[key := r.now + window]), None)
  }

  class ComputeControlService {
    const authWindow: real
    var devices: map<nat, Device>
    var nonces: map<NonceKey, real>

    constructor (authWindow: real)
      ensures this.authWindow == authWindow && Rows() == Control(map[], map[])
    {
      this.authWindow, devices, nonces := authWindow, map[], map[];
    }

    function Rows(): Control
      reads this
    {
      Control(devices, nonces)
    }

    method DeviceAuth(r: Request) returns (refused: Option<AuthError>)
      modifies this`nonces
      ensures (Rows(), refused) == Authenticated(old(Rows()), r, authWindow)
    {
      if r.device !in devices {
        return Some(DeviceNotFound);
      }
      var device := devices[r.device];
      if device.revoked {
        return Some(DeviceRevoked);
      }
      if device.epoch != r.epoch {
        return Some(DeviceAuthInvalid);
      }
      var distance := r.now - r.stamp as real;
      if distance < 0.0 {
        distance := -distance;
      }
      if distance > authWindow || !r.genuine {
        return Some(DeviceAuthInvalid);
      }
      var saved := nonces;
      nonces := map k | k in nonces && nonces[k] >= r.now :: nonces[k];
      if NonceKey(r.device, r.nonce) in nonces {
        nonces := saved;
        return Some(DeviceReplayDetected);
      }
      nonces := nonces[NonceKey(r.device, r.nonce) := r.now + authWindow];
      refused := None;
    }

    /** Revoking also moves the epoch on, once. */
    method Revoke(owner: nat, device: nat) returns (ok: bool)
      modifies this`devices
      ensures ok <==> device in old(devices) && old(devices)[device].owner == owner
      ensures devices == Revoked(old(devices), owner, device)
    {
      if device !in devices || devices[device].owner != owner {
        return false;
      }
      if !devices[device].revoked {
        devices := devices[device := devices[device].(revoked := true, epoch := devices[device].epoch + 1)];
      }
      ok := true;
    }
  }

  /** What happens to the service: a signed request, or its owner revoking a device. */
  datatype Event = Auth(request: Request) | Revoke(owner: nat, device: nat)

  function Revoked(devices: map<nat, Device>, owner: nat, device: nat): map<nat, Device> {
    if device in devices && devices[device].owner == owner && !devices[device].revoked
    then devices[device := Device(owner, devices[device].epoch + 1, true)] else devices
  }

  /** The state after an event, and whether a request was accepted. */
  function Happened(control: Control, e: Event, window: real): (Control, bool) {
    match e
    case Auth(r) => (Authenticated(control, r, window).0, Authenticated(control, r, window).1.None?)
    case Revoke(owner, device) => (control.(devices := Revoked(control.devices, owner, device)), false)
  }

  function AfterEvents(control: Control, es: seq<Event>, window: real): Control
    decreases |es|
  {
    if es == [] then control else AfterEvents(Happened(control, es[0], window).0, es[1..], window)
  }

  function Accepted(control: Control, es: seq<Event>, window: real): (v: seq<bool>)
    ensures |v| == |es|
    decreases |es|
  {
    if es == [] then []
    else [Happened(control, es[0], window).1] + Accepted(Happened(control, es[0], window).0, es[1..], window)
  }

  /** The same with a set of nonces that never forgets. */
  function Ideal(devices: map<nat, Device>, seen: set<NonceKey>, e: Event, window: real): (map<nat, Device>, set<NonceKey>, bool) {
    match e
    case Auth(r) =>
      var key := NonceKey(r.device, r.nonce);
      var ok := Screened(devices, r, window).None? && key !in seen;
      (devices, if ok then seen + {key} else seen, ok)
    case Revoke(owner, device) => (Revoked(devices, owner, device), seen, false)
  }

  function IdealAccepted(devices: map<nat, Device>, seen: set<NonceKey>, es: seq<Event>, window: real): (v: seq<bool>)
    ensures |v| == |es|
    decreases |es|
  {
    if es == [] then []
    else
      var (devices', seen', ok) := Ideal(devices, seen, es[0], window);
      [ok] + IdealAccepted(devices', seen', es[1..], window)
  }

  ghost predicate ClockedEvents(es: seq<Event>, from: real)
    decreases |es|
  {
    es == []
    || match es[0] {
         case Auth(r) => r.now >= from && ClockedEvents(es[1..], r.now)
         case Revoke(_, _) => ClockedEvents(es[1..], from)
       }
  }

  /** A nonce is signed together with one timestamp. */
  ghost predicate OneStamp(es: seq<Event>, stamp: NonceKey -> int) {
    forall e | e in es && e.Auth? :: e.request.stamp == stamp(NonceKey(e.request.device, e.request.nonce))
  }

  /** No request that passes the other checks comes from a clock ahead of the server's. */
  ghost predicate NotAhead(devices: map<nat, Device>, es: seq<Event>, window: real)
    decreases |es|
  {
    es == []
    || match es[0] {
         case Auth(r) =>
           (Screened(devices, r, window).None? ==> r.stamp as real <= r.now) && NotAhead(devices, es[1..], window)
         case Revoke(owner, device) => NotAhead(Revoked(devices, owner, device), es[1..], window)
       }
  }

  ghost predicate KnowsNonces(nonces: map<NonceKey, real>, seen: set<NonceKey>, stamp: NonceKey -> int, now: real, window: real) {
    && (forall k | k in nonces :: k in seen)
    && (forall k | k in seen :: k in nonces || stamp(k) as real + window < now)
    && (forall k | k in nonces :: stamp(k) as real + window <= nonces[k])
  }

  /** Over every run of requests and revocations the pruned nonce table gives the verdicts of a set that never forgets,
      when no accepted timestamp is ahead. */
  lemma {:induction false} NoncePruningIsInvisible(control: Control, seen: set<NonceKey>, es: seq<Event>,
                                                   stamp: NonceKey -> int, from: real, window: real)
    requires KnowsNonces(control.nonces, seen, stamp, from, window) && ClockedEvents(es, from)
    requires OneStamp(es, stamp) && NotAhead(control.devices, es, window)
    ensures Accepted(control, es, window) == IdealAccepted(control.devices, seen, es, window)
    decreases |es|
  {
    if es != [] {
      var e := es[0];
      var control' := Happened(control, e, window).0;
      var (devices', seen', ok) := Ideal(control.devices, seen, e, window);
      assert e in es;
      if e.Auth? { NonceStep(control, seen, e.request, stamp, from, window); }
      NoncePruningIsInvisible(control', seen', es[1..], stamp, if e.Auth? then e.request.now else from, window);
    }
  }

  lemma NonceStep(control: Control, seen: set<NonceKey>, r: Request, stamp: NonceKey -> int, from: real, window: real)
    requires KnowsNonces(control.nonces, seen, stamp, from, window) && r.now >= from
    requires r.stamp == stamp(NonceKey(r.device, r.nonce))
    requires Screened(control.devices, r, window).None? ==> r.stamp as real <= r.now
    ensures var (control', refused) := Authenticated(control, r, window);
      var key := NonceKey(r.device, r.nonce);
      var ok := Screened(control.devices, r, window).None? && key !in seen;
      && (refused.None? <==> ok) && control'.devices == control.devices
      && KnowsNonces(control'.nonces, if ok then seen + {key} else seen, stamp, r.now, window)
  {
  }

  /** The exact condition for one nonce: after a request was accepted at `first`, the same signed request is refused
      at every later time exactly when its timestamp was not ahead of the server clock at `first`. */
  lemma ReplayRefusedIff(control: Control, r: Request, window: real)
    requires window >= 0.0 && Authenticated(control, r, window).1.None?
    ensures r.stamp as real <= r.now <==>
      forall later: real | later >= r.now :: Authenticated(Authenticated(control, r, window).0, r.(now := later), window).1.Some?
  {
    var control' := Authenticated(control, r, window).0;
    if r.stamp as real > r.now {
      var later := r.stamp as real + window;
      assert Authenticated(control', r.(now := later), window).1.None?;
    }
  }

  /** And it stays refused whatever requests and revocations come in between. */
  lemma {:induction false} ReplayStaysRefused(control: Control, es: seq<Event>, stamp: NonceKey -> int, from: real,
                                              replay: Request, window: real)
    requires ClockedEvents(es + [Auth(replay)], from) && OneStamp(es + [Auth(replay)], stamp)
    requires var key := NonceKey(replay.device, replay.nonce);
      (key in control.nonces && replay.stamp as real + window <= control.nonces[key]) || replay.stamp as real + window < from
    ensures Authenticated(AfterEvents(control, es, window), replay, window).1.Some?
    decreases |es|
  {
    var all := es + [Auth(replay)];
    if es == [] {
      assert all[0] == Auth(replay);
    } else {
      assert all[0] == es[0] && all[1..] == es[1..] + [Auth(replay)];
      assert es[0] in all && Auth(replay) in all;
      ReplayStaysRefused(Happened(control, es[0], window).0, es[1..], stamp,
                         if es[0].Auth? then es[0].request.now else from, replay, window);
    }
  }

  lemma {:induction false} AcceptedAt(control: Control, es: seq<Event>, window: real, i: nat)
    requires i < |es|
    ensures Accepted(control, es, window)[i] == Happened(AfterEvents(control, es[..i], window), es[i], window).1
    decreases |es|
  {
    if i > 0 {
      AcceptedAt(Happened(control, es[0], window).0, es[1..], window, i - 1);
      assert es[..i][1..] == es[1..][..i - 1];
    }
  }

  /** In every run a device keeps its owner, its epoch moves once at most, and it has moved exactly when the device has
      become revoked. */
  lemma {:induction false} EpochMovesOnce(control: Control, es: seq<Event>, window: real, device: nat)
    requires device in control.devices
    ensures var was, now := control.devices[device], AfterEvents(control, es, window).devices;
      && device in now && now[device].owner == was.owner && (was.revoked ==> now[device] == was)
      && now[device].epoch == was.epoch + (if now[device].revoked && !was.revoked then 1 else 0)
    decreases |es|
  {
    if es != [] { EpochMovesOnce(Happened(control, es[0], window).0, es[1..], window, device); }
  }

  /** Once its owner has revoked a device, no later request of it is accepted, whatever epoch it is signed under and
      whatever else happens in between. */
  lemma RevokedStaysOut(control: Control, es: seq<Event>, window: real, i: nat, j: nat)
    requires i < j < |es| && es[i].Revoke? && es[j].Auth? && es[j].request.device == es[i].device
    requires es[i].device in control.devices && control.devices[es[i].device].owner == es[i].owner
    ensures !Accepted(control, es, window)[j]
  {
    var device := es[i].device;
    AcceptedAt(control, es, window, j);
    EpochMovesOnce(control, es[..i], window, device);
    var there := AfterEvents(control, es[..i], window);
    AfterSplit(control, es[..j], i, window);
    assert es[..j][..i] == es[..i] && es[..j][i..][0] == es[i];
    EpochMovesOnce(Happened(there, es[i], window).0, es[..j][i..][1..], window, device);
  }

  lemma {:induction false} AfterSplit(control: Control, es: seq<Event>, i: nat, window: real)
    requires i <= |es|
    ensures AfterEvents(control, es, window) == AfterEvents(AfterEvents(control, es[..i], window), es[i..], window)
    decreases |es|
  {
    if i > 0 {
      AfterSplit(Happened(control, es[0], window).0, es[1..], i - 1, window);
      assert es[..i][1..] == es[1..][..i - 1] && es[i..] == es[1..][i - 1..];
    }
  }
}
