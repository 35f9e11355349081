/** HTTP admission: a global permit pool and per-origin pressure, shared by any
    number of callers. Every event is one atomic section or one await of one
    caller; time moves between events. */
module Admission {
  import opened Arithmetic
  import opened Ranges

  const MAX_ORIGINS: nat := 1024
  const MAX_SERVER_DELAY: nat := 3600
  const SECOND: nat := 1000
  const PRESSURE_MEMORY: nat := 60 * SECOND

  type Key = string
  type OriginId = nat

  datatype Origin = Origin(
    key: Key, active: int, limit: nat, notBefore: Option<nat>, retainUntil: nat, blocked: bool, version: nat)

  /** One caller of `acquire`. `room` and `at` remember what the first check saw. */
  datatype Caller =
    | Idle | Refused
    | Checking(checking: OriginId, seen: nat)
    | Checked(checkedOrigin: OriginId, seenAt: nat, ready: bool, deadline: Option<nat>, room: bool, at: nat)
    | Waiting(waiting: OriginId, seenBefore: nat)
    | Equipped(equipped: OriginId, seenThen: nat)
    | Parked(parked: OriginId, seenLast: nat, timer: Option<nat>)
    | Holding(held: OriginId)

  /** `told` and `banned` are history: the guidance recorded for every key. */
  datatype State = State(
    perHost: nat, global: nat, now: nat, free: nat,
    origins: seq<Origin>, table: map<Key, OriginId>, callers: seq<Caller>,
    told: map<Key, nat>, banned: set<Key>)

  datatype Event =
    | Tick(later: nat)
    | Find(i: nat, key: Key)
    | Check(i: nat)
    | Decide(i: nat)
    | TakeGlobal(i: nat)
    | Recheck(i: nat)
    | Wake(i: nat, byTimer: bool)
    | Observe(i: nat, retryAfter: Option<nat>)
    | Release(i: nat)
    | Abandon(i: nat)

  predicate Ready(o: Origin, now: nat) {
    o.active < o.limit && (o.notBefore.None? || now >= o.notBefore.value)
  }

  /** Guidance from a 429 or 503 response. */
  function Pressured(o: Origin, retryAfter: Option<nat>, now: nat): Origin {
    var limit := if o.limit / 2 > 1 then o.limit / 2 else 1;
    var seconds := if retryAfter.Some? then retryAfter.value else 1;
    if seconds > MAX_SERVER_DELAY then o.(limit := limit, blocked := true, version := o.version + 1) else
    var deadline := now + seconds * SECOND;
    var latest := if o.notBefore.Some? && o.notBefore.value > deadline then o.notBefore.value else deadline;
    o.(limit := limit, notBefore := Some(latest), retainUntil := latest + PRESSURE_MEMORY, version := o.version + 1)
  }

  function OriginOf(c: Caller): Option<OriginId> {
    match c
    case Idle | Refused => None
    case Checking(o, _) => Some(o)
    case Checked(o, _, _, _, _, _) => Some(o)
    case Waiting(o, _) => Some(o)
    case Equipped(o, _) => Some(o)
    case Parked(o, _, _) => Some(o)
    case Holding(o) => Some(o)
  }

  /** An entry survives reclamation while referenced, blocked or remembered. */
  predicate Retained(s: State, o: OriginId)
    requires o < |s.origins|
  {
    || (exists j :: 0 <= j < |s.callers| && OriginOf(s.callers[j]) == Some(o))
    || s.origins[o].blocked || s.origins[o].retainUntil > s.now
  }

  predicate Enabled(s: State, ev: Event) {
    match ev
    case Tick(later) => later >= s.now
    case Find(i, _) => i < |s.callers| && s.callers[i] in {Idle, Refused}
    case Check(i) => i < |s.callers| && s.callers[i].Checking?
    case Decide(i) => i < |s.callers| && s.callers[i].Checked?
    case TakeGlobal(i) => i < |s.callers| && s.callers[i].Waiting? && s.free > 0
    case Recheck(i) => i < |s.callers| && s.callers[i].Equipped?
    case Wake(i, byTimer) =>
      i < |s.callers| && s.callers[i].Parked? && if byTimer then TimerFired(s, s.callers[i])
        else ChangeUnseen(s, s.callers[i])
    case Observe(i, _) => i < |s.callers| && s.callers[i].Holding?
    case Release(i) => i < |s.callers| && s.callers[i].Holding?
    case Abandon(i) => i < |s.callers| && (s.callers[i].Waiting? || s.callers[i].Parked?)
  }

  predicate TimerFired(s: State, c: Caller)
    requires c.Parked?
  {
    c.timer.Some? && s.now >= c.timer.value
  }

  predicate ChangeUnseen(s: State, c: Caller)
    requires c.Parked?
  {
    c.parked < |s.origins| && s.origins[c.parked].version != c.seenLast
  }

  /** A timer has fired or a change has not been seen yet. */
  predicate CanWake(s: State, c: Caller)
    requires c.Parked?
  {
    TimerFired(s, c) || ChangeUnseen(s, c)
  }

  // ---------- Steps ----------

  function Reclaimed(s: State): map<Key, OriginId>
    requires forall k :: k in s.table ==> s.table[k] < |s.origins|
  {
    map k | k in s.table && Retained(s, s.table[k]) :: s.table[k]
  }

  predicate References(s: State) {
    && (forall k :: k in s.table ==> s.table[k] < |s.origins| && s.origins[s.table[k]].key == k)
    && (forall i :: 0 <= i < |s.callers| && OriginOf(s.callers[i]).Some? ==> OriginOf(s.callers[i]).value < |s.origins|)
  }

  function Found(s: State, i: nat, key: Key): State
    requires References(s) && i < |s.callers|
  {
    var kept := s.(table := Reclaimed(s));
    if key in kept.table then
      kept.(callers := s.callers[i := Checking(kept.table[key], s.origins[kept.table[key]].version)])
    else if |kept.table| >= MAX_ORIGINS then kept.(callers := s.callers[i := Refused])
    else
      var o := |s.origins|;
      kept.(origins := s.origins + [Origin(key, 0, s.perHost, None, s.now, false, 0)],
        table := kept.table[key := o], callers := s.callers[i := Checking(o, 0)])
  }

  /** The history of guidance: the latest deadline, or a ban beyond the bound. */
  function Told(s: State, key: Key, seconds: nat): State {
    if seconds > MAX_SERVER_DELAY then s.(banned := s.banned + {key})
    else if key in s.told && s.told[key] >= s.now + seconds * SECOND then s
    else s.(told := s.told[key := s.now + seconds * SECOND])
  }

  function Step(s: State, ev: Event): State
    requires References(s) && Enabled(s, ev)
  {
    match ev
    case Tick(later) => s.(now := later)
    case Find(i, key) => Found(s, i, key)
    case Check(i) =>
      var c := s.callers[i];
      var o := s.origins[c.checking];
      s.(callers := s.callers[i := if o.blocked then Refused
        else Checked(c.checking, c.seen, Ready(o, s.now), o.notBefore, o.active < o.limit, s.now)])
    case Decide(i) =>
      var c := s.callers[i];
      s.(callers := s.callers[i :=
        if c.ready then Waiting(c.checkedOrigin, c.seenAt)
        else Parked(c.checkedOrigin, c.seenAt, if c.deadline.Some? && c.deadline.value > s.now then c.deadline
          else None)])
    case TakeGlobal(i) =>
      s.(free := s.free - 1, callers := s.callers[i := Equipped(s.callers[i].waiting, s.callers[i].seenBefore)])
    case Recheck(i) =>
      var c := s.callers[i];
      var o := s.origins[c.equipped];
      if o.blocked then s.(free := s.free + 1, callers := s.callers[i := Refused])
      else if Ready(o, s.now) then
        s.(origins := s.origins[c.equipped := o.(active := o.active + 1)],
          callers := s.callers[i := Holding(c.equipped)])
      else s.(free := s.free + 1, callers := s.callers[i := Checking(c.equipped, c.seenThen)])
    case Wake(i, byTimer) =>
      var c := s.callers[i];
      s.(callers := s.callers[i := Checking(c.parked, if byTimer then c.seenLast else s.origins[c.parked].version)])
    case Observe(i, retryAfter) =>
      var id := s.callers[i].held;
      var o := s.origins[id];
      var seconds := if retryAfter.Some? then retryAfter.value else 1;
      Told(s.(origins := s.origins[id := Pressured(o, retryAfter, s.now)]), o.key, seconds)
    case Release(i) =>
      var id := s.callers[i].held;
      var o := s.origins[id];
      s.(origins := s.origins[id := o.(active := o.active - 1, version := o.version + 1)],
        free := s.free + 1, callers := s.callers[i := Idle])
    case Abandon(i) => s.(callers := s.callers[i := Idle])
  }

  // ---------- Counting permits ----------

  function Count(cs: seq<Caller>, p: Caller -> bool): nat {
    if cs == [] then 0 else Count(cs[1..], p) + if p(cs[0]) then 1 else 0
  }

  function HoldsOn(o: OriginId): Caller -> bool { (c: Caller) => c.Holding? && c.held == o }

  function HoldsKey(s: State, k: Key): Caller -> bool {
    (c: Caller) => c.Holding? && c.held < |s.origins| && s.origins[c.held].key == k
  }

  function Permitted(): Caller -> bool { (c: Caller) => c.Holding? || c.Equipped? }

  lemma {:induction false} CountUpdate(cs: seq<Caller>, i: nat, c: Caller, p: Caller -> bool)
    requires i < |cs|
    ensures Count(cs[i := c], p) == Count(cs, p) - (if p(cs[i]) then 1 else 0) + (if p(c) then 1 else 0)
  {
    if i == 0 {
      assert cs[i := c][1..] == cs[1..];
    } else {
      assert cs[i := c][1..] == cs[1..][i - 1 := c];
      CountUpdate(cs[1..], i - 1, c, p);
    }
  }

  lemma {:induction false} CountSome(cs: seq<Caller>, p: Caller -> bool)
    requires Count(cs, p) > 0
    ensures exists i :: 0 <= i < |cs| && p(cs[i])
  {
    if !p(cs[0]) {
      CountSome(cs[1..], p);
      var i :| 0 <= i < |cs[1..]| && p(cs[1..][i]);
      assert p(cs[i + 1]);
    }
  }

  lemma {:induction false} CountImplies(cs: seq<Caller>, p: Caller -> bool, q: Caller -> bool)
    requires forall i :: 0 <= i < |cs| && p(cs[i]) ==> q(cs[i])
    ensures Count(cs, p) <= Count(cs, q)
  {
    if cs != [] {
      assert forall i :: 0 <= i < |cs[1..]| && p(cs[1..][i]) ==> q(cs[1..][i]);
      CountImplies(cs[1..], p, q);
    }
  }

  // ---------- The invariant ----------

  predicate CallerTabled(s: State, c: Caller) {
    OriginOf(c).Some? ==>
      var o := OriginOf(c).value;
      o < |s.origins| && s.origins[o].key in s.table && s.table[s.origins[o].key] == o
  }

  /** Every referenced origin is the table's entry for its key, so a reclaimed
      entry can have no outstanding permit. */
  ghost predicate Tabled(s: State) {
    && (forall k :: k in s.table ==> s.table[k] < |s.origins| && s.origins[s.table[k]].key == k)
    && (forall i :: 0 <= i < |s.callers| ==> CallerTabled(s, s.callers[i]))
  }

  predicate OriginCounted(s: State, o: OriginId)
    requires o < |s.origins|
  {
    && s.origins[o].active == Count(s.callers, HoldsOn(o))
    && 1 <= s.origins[o].limit <= s.perHost && s.origins[o].active <= s.perHost
  }

  predicate Counted(s: State) {
    && s.perHost >= 1
    && s.free + Count(s.callers, Permitted()) == s.global
    && (forall o :: 0 <= o < |s.origins| ==> OriginCounted(s, o))
  }

  predicate KeyRemembered(s: State, k: Key) {
    && (k in s.told && s.told[k] + PRESSURE_MEMORY > s.now ==>
         k in s.table && s.table[k] < |s.origins| && s.origins[s.table[k]].notBefore.Some?
         && s.origins[s.table[k]].notBefore.value >= s.told[k])
    && (k in s.banned ==> k in s.table && s.table[k] < |s.origins| && s.origins[s.table[k]].blocked)
    && (k in s.table && s.table[k] < |s.origins| ==> Exact(s, k, s.origins[s.table[k]]))
  }

  /** An entry cools down until the latest deadline told to its key, and is blocked
      only by a ban. */
  predicate Exact(s: State, k: Key, o: Origin) {
    && (o.notBefore.Some? ==> k in s.told && o.notBefore.value == s.told[k])
    && (o.blocked ==> k in s.banned)
  }

  /** An entry is kept for a minute after its cooldown, and no longer. */
  predicate Kept(s: State, o: Origin) {
    if o.notBefore.Some? then o.retainUntil == o.notBefore.value + PRESSURE_MEMORY else o.retainUntil <= s.now
  }

  /** Guidance stays in the table for a minute after it expires. */
  ghost predicate Remembered(s: State) {
    && (forall o :: 0 <= o < |s.origins| ==> Kept(s, s.origins[o]))
    && (forall k :: KeyRemembered(s, k))
  }

  /** What a check saw is still true while no change has been announced. */
  predicate CallerObserved(s: State, c: Caller) {
    c.Checked? && c.checkedOrigin < |s.origins| ==>
      var o := s.origins[c.checkedOrigin];
      && c.seenAt <= o.version && c.at <= s.now
      && (c.ready <==> c.room && (c.deadline.None? || c.at >= c.deadline.value))
      && (o.version == c.seenAt ==> !o.blocked && o.notBefore == c.deadline && (!c.room ==> o.active >= o.limit))
  }

  function LastSeen(c: Caller): nat {
    match c
    case Checking(_, seen) => seen
    case Checked(_, seen, _, _, _, _) => seen
    case Waiting(_, seen) => seen
    case Equipped(_, seen) => seen
    case Parked(_, seen, _) => seen
    case _ => 0
  }

  predicate CallerSeen(s: State, c: Caller) {
    OriginOf(c).Some? && OriginOf(c).value < |s.origins| ==> LastSeen(c) <= s.origins[OriginOf(c).value].version
  }

  predicate Observed(s: State) {
    forall i :: 0 <= i < |s.callers| ==> CallerObserved(s, s.callers[i]) && CallerSeen(s, s.callers[i])
  }

  ghost predicate Inv(s: State) { Tabled(s) && Counted(s) && Remembered(s) && Observed(s) }

  /** A domain that no caller has used yet. */
  function Began(perHost: nat, global: nat, now: nat, callers: nat): State {
    State(perHost, global, now, global, [], map[], seq(callers, i => Idle), map[], {})
  }

  lemma BeganKeepsInv(perHost: nat, global: nat, now: nat, callers: nat)
    requires perHost >= 1
    ensures Inv(Began(perHost, global, now, callers))
  {
    NobodyHolds(callers, Permitted());
  }

  lemma {:induction false} NobodyHolds(n: nat, p: Caller -> bool)
    requires !p(Idle)
    ensures Count(seq(n, i => Idle), p) == 0
  {
    if n > 0 {
      assert seq(n, i => Idle)[1..] == seq(n - 1, i => Idle);
      NobodyHolds(n - 1, p);
    }
  }

  /** Changing one caller that holds nothing leaves every count alone. */
  lemma CallerMoves(s: State, i: nat, c: Caller)
    requires i < |s.callers|
    ensures Count(s.callers[i := c], Permitted()) ==
      Count(s.callers, Permitted()) - (if Permitted()(s.callers[i]) then 1 else 0) + (if Permitted()(c) then 1 else 0)
    ensures forall o :: (Count(s.callers[i := c], HoldsOn(o)) ==
      Count(s.callers, HoldsOn(o)) - (if HoldsOn(o)(s.callers[i]) then 1 else 0) + (if HoldsOn(o)(c) then 1 else 0))
  {
    CountUpdate(s.callers, i, c, Permitted());
    forall o
      ensures Count(s.callers[i := c], HoldsOn(o)) ==
        Count(s.callers, HoldsOn(o)) - (if HoldsOn(o)(s.callers[i]) then 1 else 0) + (if HoldsOn(o)(c) then 1 else 0)
    {
      CountUpdate(s.callers, i, c, HoldsOn(o));
    }
  }

  lemma {:induction false} CountNone(cs: seq<Caller>, p: Caller -> bool)
    requires forall i :: 0 <= i < |cs| ==> !p(cs[i])
    ensures Count(cs, p) == 0
  {
    if cs != [] { CountNone(cs[1..], p); }
  }

  lemma UnheldCount(s: State, o: OriginId)
    requires Tabled(s) && o >= |s.origins|
    ensures Count(s.callers, HoldsOn(o)) == 0
  {
    forall i | 0 <= i < |s.callers| ensures !HoldsOn(o)(s.callers[i]) { assert CallerTabled(s, s.callers[i]); }
    CountNone(s.callers, HoldsOn(o));
  }

  /** Everything but one origin's pressure and one caller stays as it was. */
  predicate Frame(s: State, next: State, i: nat, id: OriginId) {
    && next.perHost == s.perHost && next.global == s.global && next.table == s.table && next.now == s.now
    && i < |s.callers| == |next.callers| && next.callers == s.callers[i := next.callers[i]]
    && id < |s.origins| == |next.origins| && next.origins == s.origins[id := next.origins[id]]
    && next.origins[id].key == s.origins[id].key && next.origins[id].version >= s.origins[id].version
  }

  lemma TabledKept(s: State, next: State, i: nat, id: OriginId)
    requires Tabled(s) && Frame(s, next, i, id)
    requires OriginOf(next.callers[i]).None? || OriginOf(next.callers[i]) == OriginOf(s.callers[i])
    ensures Tabled(next)
  {
    forall j | 0 <= j < |next.callers| ensures CallerTabled(next, next.callers[j]) {
      assert CallerTabled(s, s.callers[j]);
    }
  }

  lemma CountedKept(s: State, next: State, i: nat, id: OriginId)
    requires Counted(s) && Frame(s, next, i, id)
    requires forall o :: o != id ==> HoldsOn(o)(next.callers[i]) == HoldsOn(o)(s.callers[i])
    requires next.origins[id].active - s.origins[id].active ==
      (if HoldsOn(id)(next.callers[i]) then 1 else 0) - (if HoldsOn(id)(s.callers[i]) then 1 else 0)
    requires 1 <= next.origins[id].limit <= s.perHost && next.origins[id].active <= s.perHost
    requires next.free - s.free == (if Permitted()(s.callers[i]) then 1
      else 0) - (if Permitted()(next.callers[i]) then 1 else 0)
    ensures Counted(next)
  {
    CallerMoves(s, i, next.callers[i]);
    forall o | 0 <= o < |next.origins| ensures OriginCounted(next, o) {
      assert OriginCounted(s, o);
    }
  }

  lemma RememberedKept(s: State, next: State, i: nat, id: OriginId)
    requires Remembered(s) && Frame(s, next, i, id) && next.told == s.told && next.banned == s.banned
    requires next.origins[id].notBefore == s.origins[id].notBefore
    requires next.origins[id].retainUntil == s.origins[id].retainUntil
    requires next.origins[id].blocked == s.origins[id].blocked
    ensures Remembered(next)
  {
    forall k ensures KeyRemembered(next, k) { assert KeyRemembered(s, k); }
  }

  lemma ObservedKept(s: State, next: State, i: nat, id: OriginId)
    requires Observed(s) && Frame(s, next, i, id)
    requires next.origins[id].version > s.origins[id].version ||
      (next.origins[id].notBefore == s.origins[id].notBefore && next.origins[id].limit == s.origins[id].limit
       && next.origins[id].active >= s.origins[id].active && next.origins[id].blocked == s.origins[id].blocked)
    requires CallerObserved(next, next.callers[i]) && CallerSeen(next, next.callers[i])
    ensures Observed(next)
  {
    forall j | 0 <= j < |next.callers|
      ensures CallerObserved(next, next.callers[j]) && CallerSeen(next, next.callers[j])
    {
      if j != i { assert CallerObserved(s, s.callers[j]) && CallerSeen(s, s.callers[j]); }
    }
  }

  lemma FindKeepsTabled(s: State, i: nat, key: Key)
    requires Tabled(s) && i < |s.callers|
    ensures Tabled(Found(s, i, key))
  {
    var next := Found(s, i, key);
    forall j | 0 <= j < |next.callers| ensures CallerTabled(next, next.callers[j]) {
      if j != i {
        assert CallerTabled(s, s.callers[j]);
        if OriginOf(s.callers[j]).Some? { assert Retained(s, OriginOf(s.callers[j]).value); }
      }
    }
  }

  lemma FindKeepsCounted(s: State, i: nat, key: Key)
    requires Tabled(s) && Counted(s) && Enabled(s, Find(i, key))
    ensures Counted(Found(s, i, key))
  {
    var next := Found(s, i, key);
    CallerMoves(s, i, next.callers[i]);
    UnheldCount(s, |s.origins|);
    forall o | 0 <= o < |next.origins| ensures OriginCounted(next, o) {
      if o < |s.origins| { assert OriginCounted(s, o); }
    }
  }

  lemma FindKeepsRemembered(s: State, i: nat, key: Key)
    requires Tabled(s) && Remembered(s) && Enabled(s, Find(i, key))
    ensures Remembered(Found(s, i, key))
  {
    var next := Found(s, i, key);
    forall k ensures KeyRemembered(next, k) {
      assert KeyRemembered(s, k);
      if (k in s.told && s.told[k] + PRESSURE_MEMORY > s.now) || k in s.banned {
        assert Retained(s, s.table[k]);
        assert k in Reclaimed(s);
      }
    }
  }

  lemma FindKeepsObserved(s: State, i: nat, key: Key)
    requires Tabled(s) && Observed(s) && Enabled(s, Find(i, key))
    ensures Observed(Found(s, i, key))
  {
    var next := Found(s, i, key);
    forall j | 0 <= j < |next.callers|
      ensures CallerObserved(next, next.callers[j]) && CallerSeen(next, next.callers[j])
    {
      if j != i {
        assert CallerTabled(s, s.callers[j]) && CallerObserved(s, s.callers[j]) && CallerSeen(s, s.callers[j]);
      }
    }
  }

  lemma FindKeepsInv(s: State, i: nat, key: Key)
    requires Inv(s) && Enabled(s, Find(i, key))
    ensures Inv(Found(s, i, key))
  {
    FindKeepsTabled(s, i, key);
    FindKeepsCounted(s, i, key);
    FindKeepsRemembered(s, i, key);
    FindKeepsObserved(s, i, key);
  }

  lemma TickKeepsInv(s: State, later: nat)
    requires Inv(s) && later >= s.now
    ensures Inv(s.(now := later))
  {
    var next := s.(now := later);
    forall o | 0 <= o < |next.origins| ensures OriginCounted(next, o) { assert OriginCounted(s, o); }
    forall k ensures KeyRemembered(next, k) { assert KeyRemembered(s, k); }
    forall j | 0 <= j < |next.callers|
      ensures CallerTabled(next, next.callers[j]) && CallerObserved(next, next.callers[j])
      ensures CallerSeen(next, next.callers[j])
    {
      assert CallerTabled(s, s.callers[j]) && CallerObserved(s, s.callers[j]) && CallerSeen(s, s.callers[j]);
    }
  }

  function Subject(c: Caller): OriginId { if OriginOf(c).Some? then OriginOf(c).value else 0 }

  lemma CheckKeepsInv(s: State, ev: Event)
    requires Inv(s) && Enabled(s, ev) && (ev.Check? || ev.Decide?)
    ensures Inv(Step(s, ev))
  {
    var next := Step(s, ev);
    assert CallerTabled(s, s.callers[ev.i]) && CallerObserved(s, s.callers[ev.i]) && CallerSeen(s, s.callers[ev.i]);
    var id := Subject(s.callers[ev.i]);
    assert OriginCounted(s, id);
    assert Frame(s, next, ev.i, id);
    TabledKept(s, next, ev.i, id);
    CountedKept(s, next, ev.i, id);
    RememberedKept(s, next, ev.i, id);
    ObservedKept(s, next, ev.i, id);
  }

  lemma WaitKeepsInv(s: State, ev: Event)
    requires Inv(s) && Enabled(s, ev) && (ev.TakeGlobal? || ev.Wake? || ev.Abandon?)
    ensures Inv(Step(s, ev))
  {
    var next := Step(s, ev);
    assert CallerTabled(s, s.callers[ev.i]) && CallerObserved(s, s.callers[ev.i]) && CallerSeen(s, s.callers[ev.i]);
    var id := Subject(s.callers[ev.i]);
    assert OriginCounted(s, id);
    assert Frame(s, next, ev.i, id);
    TabledKept(s, next, ev.i, id);
    CountedKept(s, next, ev.i, id);
    RememberedKept(s, next, ev.i, id);
    ObservedKept(s, next, ev.i, id);
  }

  lemma RecheckKeepsInv(s: State, ev: Event)
    requires Inv(s) && Enabled(s, ev) && (ev.Recheck?)
    ensures Inv(Step(s, ev))
  {
    var next := Step(s, ev);
    assert CallerTabled(s, s.callers[ev.i]) && CallerObserved(s, s.callers[ev.i]) && CallerSeen(s, s.callers[ev.i]);
    var id := Subject(s.callers[ev.i]);
    assert OriginCounted(s, id);
    assert Frame(s, next, ev.i, id);
    TabledKept(s, next, ev.i, id);
    CountedKept(s, next, ev.i, id);
    RememberedKept(s, next, ev.i, id);
    ObservedKept(s, next, ev.i, id);
  }

  lemma ReleaseKeepsInv(s: State, ev: Event)
    requires Inv(s) && Enabled(s, ev) && (ev.Release?)
    ensures Inv(Step(s, ev))
  {
    var next := Step(s, ev);
    assert CallerTabled(s, s.callers[ev.i]) && CallerObserved(s, s.callers[ev.i]) && CallerSeen(s, s.callers[ev.i]);
    var id := Subject(s.callers[ev.i]);
    assert OriginCounted(s, id);
    assert Frame(s, next, ev.i, id);
    TabledKept(s, next, ev.i, id);
    CountedKept(s, next, ev.i, id);
    RememberedKept(s, next, ev.i, id);
    ObservedKept(s, next, ev.i, id);
  }

  lemma ObserveKeepsKey(s: State, i: nat, retryAfter: Option<nat>, k: Key)
    requires Inv(s) && Enabled(s, Observe(i, retryAfter)) && k == s.origins[s.callers[i].held].key
    requires CallerTabled(s, s.callers[i])
    ensures KeyRemembered(Step(s, Observe(i, retryAfter)), k)
  {
    assert KeyRemembered(s, k) && Kept(s, s.origins[s.callers[i].held]);
  }

  lemma ObserveKeepsOthers(s: State, i: nat, retryAfter: Option<nat>, k: Key)
    requires Inv(s) && Enabled(s, Observe(i, retryAfter)) && CallerTabled(s, s.callers[i])
    requires k != s.origins[s.callers[i].held].key
    ensures KeyRemembered(Step(s, Observe(i, retryAfter)), k)
  {
    assert KeyRemembered(s, k);
  }

  lemma ObserveKeepsRemembered(s: State, i: nat, retryAfter: Option<nat>)
    requires Inv(s) && Enabled(s, Observe(i, retryAfter))
    ensures Remembered(Step(s, Observe(i, retryAfter)))
  {
    var next := Step(s, Observe(i, retryAfter));
    assert CallerTabled(s, s.callers[i]);
    forall o | 0 <= o < |next.origins| ensures Kept(next, next.origins[o]) { assert Kept(s, s.origins[o]); }
    forall k ensures KeyRemembered(next, k) {
      if k == s.origins[s.callers[i].held].key { ObserveKeepsKey(s, i, retryAfter, k); }
      else { ObserveKeepsOthers(s, i, retryAfter, k); }
    }
  }

  lemma ObserveKeepsInv(s: State, i: nat, retryAfter: Option<nat>)
    requires Inv(s) && Enabled(s, Observe(i, retryAfter))
    ensures Inv(Step(s, Observe(i, retryAfter)))
  {
    var next := Step(s, Observe(i, retryAfter));
    var id := s.callers[i].held;
    assert CallerTabled(s, s.callers[i]);
    assert OriginCounted(s, id);
    assert next.callers == s.callers[i := s.callers[i]];
    TabledKept(s, next, i, id);
    CountedKept(s, next, i, id);
    ObservedKept(s, next, i, id);
    ObserveKeepsRemembered(s, i, retryAfter);
  }

  lemma StepKeepsInv(s: State, ev: Event)
    requires Inv(s) && Enabled(s, ev)
    ensures Inv(Step(s, ev))
  {
    match ev
    case Tick(later) => TickKeepsInv(s, later);
    case Find(i, key) => FindKeepsInv(s, i, key);
    case Observe(i, retryAfter) => ObserveKeepsInv(s, i, retryAfter);
    case Recheck(_) => RecheckKeepsInv(s, ev);
    case Release(_) => ReleaseKeepsInv(s, ev);
    case Check(_) => CheckKeepsInv(s, ev);
    case Decide(_) => CheckKeepsInv(s, ev);
    case _ => WaitKeepsInv(s, ev);
  }

  // ---------- Pressure ----------

  function Halved(limit: nat): nat { if limit / 2 > 1 then limit / 2 else 1 }

  /** An origin that ever received guidance has at most half the configured cap. */
  predicate Eased(s: State) {
    forall o :: 0 <= o < |s.origins| && (s.origins[o].notBefore.Some? || s.origins[o].blocked) ==>
      s.origins[o].limit <= Halved(s.perHost)
  }

  lemma StepKeepsEased(s: State, ev: Event)
    requires Inv(s) && Enabled(s, ev) && Eased(s)
    ensures Eased(Step(s, ev))
  {
    if ev.Observe? {
      assert CallerTabled(s, s.callers[ev.i]);
      assert OriginCounted(s, s.callers[ev.i].held);
    }
  }

  function PressuredTimes(o: Origin, answers: seq<(Option<nat>, nat)>): Origin
    decreases |answers|
  {
    if answers == [] then o else PressuredTimes(Pressured(o, answers[0].0, answers[0].1), answers[1..])
  }

  function Power2(n: nat): (p: nat)
    ensures p >= 1
  {
    if n == 0 then 1 else 2 * Power2(n - 1)
  }

  /** `limit` divided by two to the `n`, but at least one. */
  function Share(limit: nat, n: nat): nat {
    if limit / Power2(n) >= 1 then limit / Power2(n) else 1
  }

  lemma ShareStep(limit: nat, n: nat)
    requires limit >= 1 && n > 0
    ensures Share(limit, n) == Share(Halved(limit), n - 1)
  {
    HalvesThenDivides(limit, Power2(n - 1));
  }

  /** Repeated pressure divides the cap by a power of two, down to one request,
      never shortens a cooldown and never lifts a ban. */
  lemma {:induction false} PressureCompounds(o: Origin, answers: seq<(Option<nat>, nat)>)
    requires o.limit >= 1
    ensures var after := PressuredTimes(o, answers);
      && after.limit == Share(o.limit, |answers|)
      && (o.blocked ==> after.blocked)
      && (o.notBefore.Some? ==> after.notBefore.Some? && after.notBefore.value >= o.notBefore.value)
      && after.version == o.version + |answers| && after.active == o.active
    decreases |answers|
  {
    if answers == [] {
      assert Share(o.limit, 0) == o.limit;
    } else {
      ShareStep(o.limit, |answers|);
      PressureCompounds(Pressured(o, answers[0].0, answers[0].1), answers[1..]);
    }
  }

  lemma HalvesThenDivides(n: nat, d: nat)
    requires d > 0
    ensures n / (2 * d) == n / 2 / d
    ensures n < 2 ==> n / (2 * d) == 0 && (1 / d >= 1 ==> d == 1)
  {
    var q, r := n / (2 * d), n % (2 * d);
    assert n == q * (2 * d) + r && q * (2 * d) == 2 * (q * d);
    assert n / 2 == q * d + r / 2 && 0 <= r / 2 < d;
    QuotientIs(n / 2, d, q);
    if n < 2 { QuotientIs(n, 2 * d, 0); }
    if d > 1 { QuotientIs(1, d, 0); }
  }

  // ---------- A replaced domain ----------

  /** A caller whose request is counted as active; one still between the two checks
      holds a global slot only. */
  function Live(): Caller -> bool { (c: Caller) => c.Holding? }

  /** `inherit_pressure` into an empty domain: live guidance moves over, limits
      shrink to the new cap, and an active request refuses the change. Callers that
      still wait stay with the old domain. */
  function InheritPressure(s: State, perHost: nat, global: nat): Option<State>
    requires References(s)
  {
    if Count(s.callers, Live()) > 0 then None else
    Some(State(perHost, global, s.now, global,
      seq(|s.origins|, (o: nat) requires o < |s.origins| =>
        s.origins[o].(active := 0, version := 0, limit := if s.origins[o].limit < perHost then s.origins[o].limit
          else perHost)),
      map k | k in s.table && (s.origins[s.table[k]].blocked
        || s.origins[s.table[k]].retainUntil > s.now) :: s.table[k],
      [], s.told, s.banned))
  }

  /** Replacing the domain is refused exactly while a request is active, finds no
      origin with an active request otherwise, and takes over exactly the origins
      whose guidance is a ban or less than a minute past, with the smaller cap. */
  lemma InheritanceKeepsInv(s: State, perHost: nat, global: nat)
    requires Inv(s) && References(s) && perHost >= 1
    ensures InheritPressure(s, perHost, global).Some? <==> forall i :: 0 <= i < |s.callers| ==> !s.callers[i].Holding?
    ensures InheritPressure(s, perHost, global).Some? ==> forall o :: 0 <= o < |s.origins| ==> s.origins[o].active == 0
    ensures InheritPressure(s, perHost, global).Some? ==>
      var next := InheritPressure(s, perHost, global).value;
      && Inv(next) && next.told == s.told && next.banned == s.banned
      && (forall k :: k in next.table <==> k in s.banned || (k in s.told && s.told[k] + PRESSURE_MEMORY > s.now))
      && (forall k :: k in next.table ==>
           var o, p := s.origins[s.table[k]], next.origins[next.table[k]];
           && p.notBefore == o.notBefore && p.blocked == o.blocked && p.limit <= o.limit && p.limit <= perHost
           && (p.limit == o.limit || p.limit == perHost))
  {
    if Count(s.callers, Live()) == 0 {
      NobodyLive(s.callers);
      var next := InheritPressure(s, perHost, global).value;
      forall k
        ensures KeyRemembered(next, k)
        ensures k in next.table <==> k in s.banned || (k in s.told && s.told[k] + PRESSURE_MEMORY > s.now)
      {
        assert KeyRemembered(s, k);
        if k in s.table { assert Kept(s, s.origins[s.table[k]]); }
      }
      forall o | 0 <= o < |next.origins| ensures OriginCounted(next, o) && s.origins[o].active == 0 {
        assert OriginCounted(s, o);
        CountNone(s.callers, HoldsOn(o));
      }
    } else {
      CountSome(s.callers, Live());
    }
  }

  lemma {:induction false} NobodyLive(cs: seq<Caller>)
    requires Count(cs, Live()) == 0
    ensures forall i :: 0 <= i < |cs| ==> !cs[i].Holding?
  {
    if cs != [] {
      NobodyLive(cs[1..]);
      forall i | 0 <= i < |cs| ensures !cs[i].Holding? {
        if i > 0 { assert cs[i] == cs[1..][i - 1]; } else { assert !Live()(cs[0]); }
      }
    }
  }

  // ---------- The locked origin ----------

  datatype Admitted = Granted | NotReady | Banned

  class OriginState {
    const key: Key
    var active: int
    var limit: nat
    var notBefore: Option<nat>
    var retainUntil: nat
    var blocked: bool
    var version: nat

    function View(): Origin reads this { Origin(key, active, limit, notBefore, retainUntil, blocked, version) }

    constructor (name: Key, perHost: nat, now: nat)
      ensures View() == Origin(name, 0, perHost, None, now, false, 0)
    {
      key, active, limit, notBefore, retainUntil, blocked, version := name, 0, perHost, None, now, false, 0;
    }

    /** The recheck made while holding a global permit. */
    method Admit(now: nat) returns (outcome: Admitted)
      modifies this
      ensures outcome == Banned <==> old(blocked)
      ensures outcome == Granted <==> !old(blocked) && Ready(old(View()), now)
      ensures View() == if outcome == Granted then old(View()).(active := old(active) + 1) else old(View())
    {
      if blocked { return Banned; }
      if active < limit && (notBefore.None? || now >= notBefore.value) {
        active := active + 1;
        return Granted;
      }
      return NotReady;
    }

    method Observe(status: nat, retryAfter: Option<nat>, now: nat)
      modifies this
      ensures View() == if status in {429, 503} then Pressured(old(View()), retryAfter, now) else old(View())
    {
      if status !in {429, 503} { return; }
      limit := if limit / 2 > 1 then limit / 2 else 1;
      var seconds := if retryAfter.Some? then retryAfter.value else 1;
      if seconds > MAX_SERVER_DELAY {
        blocked := true;
      } else {
        var deadline := now + seconds * SECOND;
        if notBefore.None? || notBefore.value < deadline { notBefore := Some(deadline); }
        retainUntil := notBefore.value + PRESSURE_MEMORY;
      }
      version := version + 1;
    }

    method Release()
      modifies this
      ensures View() == old(View()).(active := old(active) - 1, version := old(version) + 1)
    {
      active, version := active - 1, version + 1;
    }
  }
}
