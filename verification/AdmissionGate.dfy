// The admission gate (internal/aghub/admission.go): today's counters of open
// registrations and trial grants per network, and the places of sign-up windows held by
// registrations in progress. All of it is process memory, which a restart of the hub
// starts anew.
module AdmissionGate {
  import opened Basics
  import opened Sums

  const TRIAL_BUDGET_HUB: nat := 100

  // The size of a network that is counted, and how many it may have in a day.
  datatype Level = Level(v6: bool, bits: nat, max: nat)

  const SIGNUP_QUOTA: seq<Level> := [
    Level(false, 32, 20), Level(false, 24, 200),
    Level(true, 64, 20), Level(true, 48, 200), Level(true, 32, 1000)]
  const TRIAL_BUDGET: seq<Level> := [Level(false, 24, 3), Level(true, 48, 3), Level(true, 32, 10)]

  // An address; an IPv4-mapped IPv6 one, and none at all, count as IPv4.
  datatype Ip = Ip(v6: bool, addr: nat)

  // A counter's key: of one network under one day key. Every roll of the day makes a
  // fresh key, so no two of them share a counter; epoch numbers the rolls.
  datatype NetKey = NetKey(epoch: nat, v6: bool, bits: nat, prefix: int)

  function Width(v6: bool): nat {
    if v6 then 128 else 32
  }

  function PrefixOf(ip: Ip, bits: nat): int
    requires bits <= Width(ip.v6)
  {
    ip.addr / Pow2(Width(ip.v6) - bits)
  }

  // netKey: absent for a level of the other family.
  function KeyOf(epoch: nat, l: Level, ip: Ip): Option<NetKey> {
    if l.v6 != ip.v6 || l.bits > Width(l.v6) then None
    else Some(NetKey(epoch, l.v6, l.bits, PrefixOf(ip, l.bits)))
  }

  function KeysOf(epoch: nat, quota: seq<Level>, ip: Ip): seq<NetKey> {
    if quota == [] then []
    else
      var rest, k := KeysOf(epoch, quota[..|quota| - 1], ip), KeyOf(epoch, quota[|quota| - 1], ip);
      if k.Some? then rest + [k.value] else rest
  }

  type Counters = map<NetKey, int>

  // Whether every level of the quota has room.
  predicate HasRoom(m: Counters, epoch: nat, quota: seq<Level>, ip: Ip) {
    forall i :: 0 <= i < |quota| ==>
      var k := KeyOf(epoch, quota[i], ip); k.Some? ==> Get(m, k.value) < quota[i].max
  }

  function Bump<K(==)>(m: map<K, int>, keys: seq<K>): map<K, int> {
    if keys == [] then m
    else
      var b := Bump(m, keys[..|keys| - 1]); var k := keys[|keys| - 1];
      b[k := Get(b, k) + 1]
  }

  // One less, or no counter at all: an absent one stays absent.
  function Less<K(==)>(m: map<K, int>, k: K): map<K, int> {
    if Get(m, k) - 1 <= 0 then m - {k} else m[k := m[k] - 1]
  }

  function Drop<K(==)>(m: map<K, int>, keys: seq<K>): map<K, int> {
    if keys == [] then m else Less(Drop(m, keys[..|keys| - 1]), keys[|keys| - 1])
  }

  // The gate. day is -1 before the first roll; window counts places by the id of their
  // window, which is never 0.
  datatype Gate = Gate(epoch: nat, day: int, signup: Counters, trials: Counters, trialN: int, window: map<nat, int>)

  // What a reservation took, and under which roll.
  datatype Hold = Hold(day: int, epoch: nat, signup: seq<NetKey>, trials: seq<NetKey>, trial: bool, window: nat)

  function Rolled(g: Gate, now: nat): Gate {
    if now / DAY == g.day then g else Gate(g.epoch + 1, now / DAY, map[], map[], 0, g.window)
  }

  function ReserveSignup(g: Gate, ip: Ip, now: nat): (Option<Hold>, Gate) {
    var r := Rolled(g, now);
    var keys := KeysOf(r.epoch, SIGNUP_QUOTA, ip);
    if !HasRoom(r.signup, r.epoch, SIGNUP_QUOTA, ip) then (None, r)
    else (Some(Hold(r.day, r.epoch, keys, [], false, 0)), r.(signup := Bump(r.signup, keys)))
  }

  function ReserveTrial(g: Gate, ip: Ip, now: nat): (Option<Hold>, Gate) {
    var r := Rolled(g, now);
    var keys := KeysOf(r.epoch, TRIAL_BUDGET, ip);
    if r.trialN >= TRIAL_BUDGET_HUB || !HasRoom(r.trials, r.epoch, TRIAL_BUDGET, ip) then (None, r)
    else (Some(Hold(r.day, r.epoch, [], keys, true, 0)), r.(trials := Bump(r.trials, keys), trialN := r.trialN + 1))
  }

  // used and max are what the caller read of the window's row, however long ago.
  function ReserveWindow(g: Gate, id: nat, used: int, max: int): (Option<Hold>, Gate) {
    if used + Get(g.window, id) >= max then (None, g)
    else (Some(Hold(-1, g.epoch, [], [], false, id)), g.(window := g.window[id := Get(g.window, id) + 1]))
  }

  function Released(g: Gate, h: Hold): Gate {
    var w := if h.window != 0 then g.(window := Less(g.window, h.window)) else g;
    if h.day != g.day then w
    else w.(signup := Drop(g.signup, h.signup), trials := Drop(g.trials, h.trials),
            trialN := if h.trial && g.trialN > 0 then g.trialN - 1 else g.trialN)
  }

  function Committed(g: Gate, h: Hold): Gate {
    if h.window == 0 then g else g.(window := Less(g.window, h.window))
  }

  // ---- runs ----

  datatype Status = Live | Done | GivenBack
  // Who reserved what.
  datatype Asked = ForSignup(ip: Ip) | ForTrial(ip: Ip) | ForPlace(id: nat)

  datatype Taken = Taken(hold: Hold, who: Asked, status: Status)

  // A sign-up window's row.
  datatype Window = Window(used: nat, max: nat)

  // Every reservation ever made, by this process of the hub and those before it, and what
  // became of it.
  datatype World = World(gate: Gate, taken: seq<Taken>, windows: map<nat, Window>)

  datatype Op =
    | SignsUp(ip: Ip, now: nat)
    | AsksTrial(ip: Ip, now: nat)
    | TakesPlace(id: nat, used: int, atMost: int)
    | Fails(i: nat)
    | Commits(i: nat)
    | Opens(id: nat, max: nat)
    | Writes(id: nat)
    | Restarts(lost: set<nat>)

  // A hold is given back or committed once.
  predicate Enabled(w: World, op: Op) {
    match op
    case TakesPlace(id, _, _) => id != 0
    case Fails(i) => i < |w.taken| && w.taken[i].status.Live?
    case Commits(i) => i < |w.taken| && w.taken[i].status.Live?
    case Opens(id, max) => id != 0 && id !in w.windows && max > 0
    case _ => true
  }

  function Took(w: World, r: (Option<Hold>, Gate), who: Asked): World {
    w.(gate := r.1, taken := if r.0.Some? then w.taken + [Taken(r.0.value, who, Live)] else w.taken)
  }

  // The write of a window's place, refused when the window is full.
  function Written(windows: map<nat, Window>, id: nat): map<nat, Window> {
    if id in windows && windows[id].used < windows[id].max
    then windows[id := windows[id].(used := windows[id].used + 1)] else windows
  }

  // The hub stops and starts: of the registrations and grants in progress, those in lost
  // were not written to the database, the others were.
  function Survived(taken: seq<Taken>, lost: set<nat>): seq<Taken> {
    seq(|taken|, i requires 0 <= i < |taken| =>
      if taken[i].status.Live? then taken[i].(status := if i in lost then GivenBack else Done) else taken[i])
  }

  // newAdmissionGate: no day yet, and nothing counted.
  function Renewed(g: Gate): Gate {
    Gate(g.epoch + 1, -1, map[], map[], 0, map[])
  }

  function Step(w: World, op: Op): World
    requires Enabled(w, op)
  {
    match op
    case SignsUp(ip, now) => Took(w, ReserveSignup(w.gate, ip, now), ForSignup(ip))
    case AsksTrial(ip, now) => Took(w, ReserveTrial(w.gate, ip, now), ForTrial(ip))
    case TakesPlace(id, used, max) => Took(w, ReserveWindow(w.gate, id, used, max), ForPlace(id))
    case Fails(i) =>
      w.(gate := Released(w.gate, w.taken[i].hold), taken := w.taken[i := w.taken[i].(status := GivenBack)])
    case Commits(i) =>
      w.(gate := Committed(w.gate, w.taken[i].hold), taken := w.taken[i := w.taken[i].(status := Done)])
    case Opens(id, max) => w.(windows := w.windows[id := Window(0, max)])
    case Writes(id) => w.(windows := Written(w.windows, id))
    case Restarts(lost) => w.(gate := Renewed(w.gate), taken := Survived(w.taken, lost))
  }

  function Run(w: World, ops: seq<Op>): World
    decreases |ops|
  {
    if ops == [] then w else Run(if Enabled(w, ops[0]) then Step(w, ops[0]) else w, ops[1..])
  }

  const START := World(Gate(0, -1, map[], map[], 0, map[]), [], map[])

  // ---- what the counters should be ----

  function Occurs<K(==)>(keys: seq<K>, k: K): nat {
    if keys == [] then 0 else Occurs(keys[..|keys| - 1], k) + if keys[|keys| - 1] == k then 1 else 0
  }

  function Total(taken: seq<Taken>, weight: Taken -> nat): nat {
    if taken == [] then 0 else Total(taken[..|taken| - 1], weight) + weight(taken[|taken| - 1])
  }

  // What a reservation holds of a network's counter, until it is given back.
  function SignupsOf(k: NetKey): Taken -> nat {
    (t: Taken) => if t.status.GivenBack? then 0 else Occurs(t.hold.signup, k)
  }

  function TrialsOf(k: NetKey): Taken -> nat {
    (t: Taken) => if t.status.GivenBack? then 0 else Occurs(t.hold.trials, k)
  }

  // Whether it is a trial grant of a roll not given back.
  function GrantOf(epoch: nat): Taken -> nat {
    (t: Taken) => if !t.status.GivenBack? && t.hold.trial && t.hold.epoch == epoch then 1 else 0
  }

  // Whether it is a place of a window held by a registration in progress.
  function PlaceOf(id: nat): Taken -> nat {
    (t: Taken) => if t.status.Live? && t.hold.window == id then 1 else 0
  }
}
