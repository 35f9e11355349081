/** What admission guarantees over every run, and the one window in which a
    waiter can be left with nothing to wake it. */
module AdmissionTheorems {
  import opened Ranges
  import opened Admission

  ghost predicate ValidRun(s: State, evs: seq<Event>)
    requires References(s)
    decreases |evs|
  {
    evs == [] ||
    (Enabled(s, evs[0]) && References(Step(s, evs[0])) && ValidRun(Step(s, evs[0]), evs[1..]))
  }

  ghost function Run(s: State, evs: seq<Event>): State
    requires References(s) && ValidRun(s, evs)
    decreases |evs|
  {
    if evs == [] then s else Run(Step(s, evs[0]), evs[1..])
  }

  lemma {:induction false} RunKeepsInv(s: State, evs: seq<Event>)
    requires Inv(s) && References(s) && ValidRun(s, evs)
    ensures Inv(Run(s, evs)) && Run(s, evs).perHost == s.perHost && Run(s, evs).global == s.global
    decreases |evs|
  {
    if evs != [] {
      StepKeepsInv(s, evs[0]);
      RunKeepsInv(Step(s, evs[0]), evs[1..]);
    }
  }

  /** In every reachable state the permits of one origin key stay within the
      per-host cap and all permits within the global cap, although entries are
      reclaimed and recreated in between. */
  lemma PermitsStayWithinCaps(s: State, evs: seq<Event>, key: Key)
    requires Inv(s) && References(s) && ValidRun(s, evs)
    ensures var after := Run(s, evs);
      Count(after.callers, HoldsKey(after, key)) <= s.perHost && Count(after.callers, Permitted()) <= s.global
  {
    RunKeepsInv(s, evs);
    var after := Run(s, evs);
    if key in after.table {
      var o := after.table[key];
      forall i | 0 <= i < |after.callers| && HoldsKey(after, key)(after.callers[i])
        ensures HoldsOn(o)(after.callers[i])
      {
        assert CallerTabled(after, after.callers[i]);
      }
      CountImplies(after.callers, HoldsKey(after, key), HoldsOn(o));
      assert OriginCounted(after, o);
    } else {
      forall i | 0 <= i < |after.callers| ensures !HoldsKey(after, key)(after.callers[i]) {
        assert CallerTabled(after, after.callers[i]);
      }
      CountNone(after.callers, HoldsKey(after, key));
    }
  }

  /** Holding a global permit, a caller is let through exactly when its origin was
      never banned, has a free slot, and the latest deadline ever told to its key
      has passed. */
  lemma GrantsRespectGuidance(s: State, i: nat)
    requires Inv(s) && References(s) && Enabled(s, Recheck(i))
    ensures var o := s.origins[s.callers[i].equipped];
      Step(s, Recheck(i)).callers[i].Holding? <==>
        o.key !in s.banned && o.active < o.limit && (o.key in s.told ==> s.told[o.key] <= s.now)
  {
    assert CallerTabled(s, s.callers[i]);
    assert KeyRemembered(s, s.origins[s.callers[i].equipped].key);
  }

  /** A 429 or 503 cools its origin down from now on, by the seconds it asks for or
      by one, unless a later deadline was told before; more than an hour bans it. */
  lemma GuidanceIsTold(s: State, i: nat, retryAfter: Option<nat>)
    requires Inv(s) && References(s) && Enabled(s, Observe(i, retryAfter))
    ensures var next := Step(s, Observe(i, retryAfter));
      var o, p := s.origins[s.callers[i].held], next.origins[s.callers[i].held];
      var seconds := match retryAfter case Some(n) => n case None => 1;
      if seconds > 3600 then p.blocked && p.notBefore == o.notBefore
      else
        && p.blocked == o.blocked && p.notBefore == Some(next.told[o.key])
        && next.told[o.key] == LaterOf(s.now + 1000 * seconds, if o.key in s.told then s.told[o.key] else 0)
  {
    assert CallerTabled(s, s.callers[i]);
    assert KeyRemembered(s, s.origins[s.callers[i].held].key);
  }

  function LaterOf(a: nat, b: nat): nat { if a < b then b else a }

  /** A minute after its last cooldown an origin nobody uses is forgotten: the next
      caller finds it with the full cap and no cooldown. */
  lemma PressureIsForgotten(s: State, i: nat, key: Key)
    requires Inv(s) && References(s) && Enabled(s, Find(i, key))
    requires key !in s.banned && (key in s.told ==> s.told[key] + PRESSURE_MEMORY <= s.now)
    requires forall j :: 0 <= j < |s.callers| && OriginOf(s.callers[j]).Some? ==>
      s.origins[OriginOf(s.callers[j]).value].key != key
    ensures var next := Step(s, Find(i, key));
      next.callers[i].Checking? ==> next.origins[next.callers[i].checking] == Origin(key, 0, s.perHost, None, s.now,
        false, 0)
  {
    assert KeyRemembered(s, key);
  }

  lemma {:induction false} RunKeepsEased(s: State, evs: seq<Event>)
    requires Inv(s) && Eased(s) && References(s) && ValidRun(s, evs)
    ensures Eased(Run(s, evs))
    decreases |evs|
  {
    if evs != [] {
      StepKeepsInv(s, evs[0]);
      StepKeepsEased(s, evs[0]);
      RunKeepsEased(Step(s, evs[0]), evs[1..]);
    }
  }

  /** For a minute after a cooldown ends, requests to its origin are admitted only
      up to half the configured cap, even if the entry became idle meanwhile. */
  lemma PressureIsRemembered(s: State, i: nat)
    requires Inv(s) && Eased(s) && References(s) && Enabled(s, Recheck(i)) && Step(s, Recheck(i)).callers[i].Holding?
    ensures var key := s.origins[s.callers[i].equipped].key;
      key in s.told && s.now < s.told[key] + PRESSURE_MEMORY ==>
        Step(s, Recheck(i)).origins[s.callers[i].equipped].active <= Halved(s.perHost)
  {
    assert CallerTabled(s, s.callers[i]);
    assert KeyRemembered(s, s.origins[s.callers[i].equipped].key);
  }

  // ---------- Waking up ----------

  /** Parked without a timer and without an unseen change, although admissible. */
  predicate Stranded(s: State, i: nat) {
    && i < |s.callers| && s.callers[i].Parked? && s.callers[i].timer.None?
    && s.callers[i].parked < |s.origins|
    && s.origins[s.callers[i].parked].version == s.callers[i].seenLast
    && !s.origins[s.callers[i].parked].blocked && Ready(s.origins[s.callers[i].parked], s.now)
  }

  /** The cooldown ended between the readiness check and the choice of a timer,
      with a free slot and no change announced since. */
  predicate Crossed(s: State, i: nat) {
    && i < |s.callers| && s.callers[i].Checked? && !s.callers[i].ready && s.callers[i].checkedOrigin < |s.origins|
    && s.origins[s.callers[i].checkedOrigin].version == s.callers[i].seenAt
    && s.origins[s.callers[i].checkedOrigin].active < s.origins[s.callers[i].checkedOrigin].limit
    && s.callers[i].deadline.Some? && s.callers[i].deadline.value <= s.now
  }

  /** Parking strands a caller exactly in that window. */
  lemma ParkingStrandsExactlyWhenCrossed(s: State, i: nat)
    requires Inv(s) && References(s) && Enabled(s, Decide(i))
    ensures Stranded(Step(s, Decide(i)), i) <==> Crossed(s, i)
  {
    assert CallerObserved(s, s.callers[i]) && CallerTabled(s, s.callers[i]);
  }

  predicate CallerAttended(s: State, c: Caller) {
    c.Parked? && c.parked < |s.origins| ==>
      c.timer.Some? || s.origins[c.parked].version != c.seenLast
        || s.origins[c.parked].active >= s.origins[c.parked].limit
  }

  predicate Attended(s: State) { forall i :: 0 <= i < |s.callers| ==> CallerAttended(s, s.callers[i]) }

  ghost predicate NeverCrosses(s: State, evs: seq<Event>)
    requires References(s) && ValidRun(s, evs)
    decreases |evs|
  {
    evs == [] || (!(evs[0].Decide? && Crossed(s, evs[0].i)) && NeverCrosses(Step(s, evs[0]), evs[1..]))
  }

  /** While its origin announces nothing, a parked caller stays attended. */
  lemma ParkedStaysAttended(s: State, next: State, c: Caller)
    requires c.Parked? && c.parked < |s.origins| <= |next.origins| && CallerAttended(s, c)
    requires var o, p := s.origins[c.parked], next.origins[c.parked];
      p.version > o.version || (p.version == o.version && p.active >= o.active && p.limit == o.limit)
    requires c.seenLast <= s.origins[c.parked].version
    ensures CallerAttended(next, c)
  { }

  lemma OriginsMoveOn(s: State, ev: Event, o: OriginId)
    requires References(s) && Enabled(s, ev) && o < |s.origins|
    ensures var next := Step(s, ev);
      && o < |next.origins|
      && (next.origins[o].version > s.origins[o].version
          || (next.origins[o].version == s.origins[o].version && next.origins[o].active >= s.origins[o].active
              && next.origins[o].limit == s.origins[o].limit))
  { }

  lemma NewlyParkedIsAttended(s: State, ev: Event, j: nat)
    requires Inv(s) && References(s) && Enabled(s, ev) && !ev.Tick? && ev.i == j < |s.callers|
    requires Step(s, ev).callers[j].Parked?
    requires CallerAttended(s, s.callers[j]) && !(ev.Decide? && Crossed(s, ev.i))
    ensures CallerAttended(Step(s, ev), Step(s, ev).callers[j])
  {
    assert CallerObserved(s, s.callers[j]) && CallerTabled(s, s.callers[j]);
  }

  lemma CallerStaysAttended(s: State, ev: Event, j: nat)
    requires Inv(s) && References(s) && Enabled(s, ev) && j < |s.callers| && CallerAttended(s, s.callers[j])
    requires !(ev.Decide? && Crossed(s, ev.i))
    ensures CallerAttended(Step(s, ev), Step(s, ev).callers[j])
  {
    if Step(s, ev).callers[j].Parked? {
      if Step(s, ev).callers[j] == s.callers[j] {
        StillParkedIsAttended(s, ev, j);
      } else {
        NewlyParkedIsAttended(s, ev, j);
      }
    }
  }

  lemma StillParkedIsAttended(s: State, ev: Event, j: nat)
    requires Inv(s) && References(s) && Enabled(s, ev) && j < |s.callers| && s.callers[j].Parked?
    requires CallerAttended(s, s.callers[j])
    ensures CallerAttended(Step(s, ev), s.callers[j])
  {
    var c := s.callers[j];
    assert CallerTabled(s, c) && CallerSeen(s, c);
    OriginsMoveOn(s, ev, c.parked);
    ParkedStaysAttended(s, Step(s, ev), c);
  }

  lemma StepKeepsAttended(s: State, ev: Event)
    requires Inv(s) && References(s) && Enabled(s, ev) && Attended(s)
    requires !(ev.Decide? && Crossed(s, ev.i))
    ensures Attended(Step(s, ev))
  {
    var next := Step(s, ev);
    forall j | 0 <= j < |next.callers| ensures CallerAttended(next, next.callers[j]) {
      CallerStaysAttended(s, ev, j);
    }
  }

  /** Unless a deadline is crossed, every parked caller has a timer, an unseen
      change, or a full origin. */
  lemma {:induction false} WaitersStayAttended(s: State, evs: seq<Event>)
    requires Inv(s) && References(s) && ValidRun(s, evs) && Attended(s) && NeverCrosses(s, evs)
    ensures Attended(Run(s, evs))
    decreases |evs|
  {
    if evs != [] {
      StepKeepsInv(s, evs[0]);
      StepKeepsAttended(s, evs[0]);
      WaitersStayAttended(Step(s, evs[0]), evs[1..]);
    }
  }

  /** A parked caller wakes by its timer exactly when that has passed, and by a
      change exactly when it has not seen the last one, which it then has. */
  lemma WakesExactly(s: State, i: nat)
    requires Inv(s) && References(s) && i < |s.callers| && s.callers[i].Parked?
    ensures var c := s.callers[i];
      && (Enabled(s, Wake(i, true)) <==> c.timer.Some? && c.timer.value <= s.now)
      && (Enabled(s, Wake(i, false)) <==> c.seenLast < s.origins[c.parked].version)
      && (Enabled(s, Wake(i, true)) ==> Step(s, Wake(i, true)).callers[i] == Checking(c.parked, c.seenLast))
      && (Enabled(s, Wake(i, false)) ==>
           Step(s, Wake(i, false)).callers[i] == Checking(c.parked, s.origins[c.parked].version))
      && Enabled(s, Abandon(i))
  {
    assert CallerTabled(s, s.callers[i]) && CallerSeen(s, s.callers[i]);
  }

  /** A ready caller can take a global slot exactly while one is left. */
  lemma SlotsAreGivenOut(s: State, i: nat)
    requires Inv(s) && i < |s.callers| && s.callers[i].Waiting?
    ensures Enabled(s, TakeGlobal(i)) <==> Count(s.callers, Permitted()) < s.global
  { }

  /** An attended caller can wake now, has a timer running, or waits for a permit
      that some caller holds and whose release announces a change. */
  lemma AttendedCallersWake(s: State, i: nat)
    requires Inv(s) && Attended(s) && i < |s.callers| && s.callers[i].Parked?
    ensures || Enabled(s, Wake(i, true)) || Enabled(s, Wake(i, false))
            || (s.callers[i].timer.Some? && s.now < s.callers[i].timer.value)
            || (exists j :: 0 <= j < |s.callers| && HoldsOn(s.callers[i].parked)(s.callers[j]))
  {
    assert CallerAttended(s, s.callers[i]) && CallerTabled(s, s.callers[i]);
    assert OriginCounted(s, s.callers[i].parked);
    if s.origins[s.callers[i].parked].active > 0 { CountSome(s.callers, HoldsOn(s.callers[i].parked)); }
  }

  // ---------- The origin table ----------

  /** The keys that survive reclamation. */
  function LiveKeys(s: State): set<Key>
    requires References(s)
  {
    set k | k in s.table && Retained(s, s.table[k])
  }

  lemma ReclaimedKeys(s: State)
    requires References(s)
    ensures Reclaimed(s).Keys == LiveKeys(s) && |Reclaimed(s)| == |LiveKeys(s)|
  {
    assert Reclaimed(s).Keys == LiveKeys(s);
    assert |Reclaimed(s)| == |Reclaimed(s).Keys|;
  }

  lemma FoundByKey(s: State, i: nat, key: Key, kept: map<Key, OriginId>)
    requires References(s) && i < |s.callers| && kept == Reclaimed(s)
    ensures var next := Found(s, i, key);
      && (next.callers[i].Refused? <==> key !in kept && |kept| >= 1024)
      && next.table == if key in kept || |kept| >= 1024 then kept else kept[key := |s.origins|]
  { }

  /** A caller is refused exactly when 1024 other keys are in use or remembered. */
  lemma FindExactly(s: State, i: nat, key: Key)
    requires References(s) && Enabled(s, Find(i, key))
    ensures var next := Step(s, Find(i, key));
      && (next.callers[i].Refused? <==> key !in LiveKeys(s) && |LiveKeys(s)| >= 1024)
      && next.table.Keys == LiveKeys(s) + if next.callers[i].Refused? then {} else {key}
  {
    ReclaimedKeys(s);
    var kept := Reclaimed(s);
    FoundByKey(s, i, key, kept);
    assert kept[key := |s.origins|].Keys == kept.Keys + {key};
  }

  lemma {:induction false} SubsetCount(a: set<Key>, b: set<Key>)
    requires a <= b
    ensures |a| <= |b|
  {
    if a != {} {
      var x :| x in a;
      SubsetCount(a - {x}, b - {x});
    }
  }

  lemma StepBoundsTable(s: State, ev: Event)
    requires References(s) && Enabled(s, ev) && |s.table.Keys| <= 1024
    ensures |Step(s, ev).table.Keys| <= 1024
  {
    if ev.Find? {
      FindExactly(s, ev.i, ev.key);
      SubsetCount(LiveKeys(s), s.table.Keys);
    }
  }

  /** However many origins are asked for, at most 1024 are kept. */
  lemma {:induction false} TableStaysBounded(s: State, evs: seq<Event>)
    requires References(s) && ValidRun(s, evs) && |s.table.Keys| <= 1024
    ensures |Run(s, evs).table.Keys| <= 1024
    decreases |evs|
  {
    if evs != [] {
      StepBoundsTable(s, evs[0]);
      TableStaysBounded(Step(s, evs[0]), evs[1..]);
    }
  }

  /** From the creation of a domain, for any number of callers: the caps hold in
      every state, no grant is early or to a banned key, and while nothing crosses
      every parked caller is attended. */
  lemma FreshDomainsAreSafe(perHost: nat, global: nat, now: nat, callers: nat, evs: seq<Event>, key: Key, i: nat)
    requires perHost >= 1
    ensures References(Began(perHost, global, now, callers))
    ensures ValidRun(Began(perHost, global, now, callers), evs) ==>
      var after := Run(Began(perHost, global, now, callers), evs);
      && Inv(after) && Eased(after) && References(after)
      && Count(after.callers, HoldsKey(after, key)) <= perHost && Count(after.callers, Permitted()) <= global
      && (NeverCrosses(Began(perHost, global, now, callers), evs) ==> Attended(after))
      && (Enabled(after, Recheck(i)) && Step(after, Recheck(i)).callers[i].Holding? ==>
            var granted := after.origins[after.callers[i].equipped].key;
            granted !in after.banned && (granted in after.told ==> after.told[granted] <= after.now))
  {
    var start := Began(perHost, global, now, callers);
    BeganKeepsInv(perHost, global, now, callers);
    if ValidRun(start, evs) {
      PermitsStayWithinCaps(start, evs, key);
      RunKeepsEased(start, evs);
      RunKeepsInv(start, evs);
      RunRefers(start, evs);
      if NeverCrosses(start, evs) { WaitersStayAttended(start, evs); }
      var after := Run(start, evs);
      if Enabled(after, Recheck(i)) && Step(after, Recheck(i)).callers[i].Holding? { GrantsRespectGuidance(after, i); }
    }
  }

  lemma {:induction false} RunRefers(s: State, evs: seq<Event>)
    requires References(s) && ValidRun(s, evs)
    ensures References(Run(s, evs))
    decreases |evs|
  {
    if evs != [] { RunRefers(Step(s, evs[0]), evs[1..]); }
  }

  // ---------- The window is real ----------

  lemma {:induction false} TimeAloneWakesNobody(s: State, evs: seq<Event>, i: nat)
    requires References(s) && ValidRun(s, evs) && Stranded(s, i)
    requires forall k :: 0 <= k < |evs| ==> evs[k].Tick?
    ensures Stranded(Run(s, evs), i) && forall byTimer :: !Enabled(Run(s, evs), Wake(i, byTimer))
    decreases |evs|
  {
    if evs != [] {
      assert evs[0].Tick?;
      TimeAloneWakesNobody(Step(s, evs[0]), evs[1..], i);
    }
  }

  /** Some run strands caller 0. */
  ghost predicate MayStrand(s: State) {
    References(s) && exists evs: seq<Event> :: ValidRun(s, evs) && Stranded(Run(s, evs), 0)
  }

  lemma StrandsLater(s: State, ev: Event)
    requires References(s) && Enabled(s, ev) && MayStrand(Step(s, ev))
    ensures MayStrand(s)
  {
    var next := Step(s, ev);
    var rest: seq<Event> :| ValidRun(next, rest) && Stranded(Run(next, rest), 0);
    assert ([ev] + rest)[1..] == rest;
    assert ValidRun(s, [ev] + rest);
  }

  /** The world of one caller `c` and at most one origin. */
  function Solo(now: nat, c: Caller, o: Option<Origin>, told: map<Key, nat>): State {
    State(1, 1, now, if c.Holding? || c.Equipped? then 0 else 1,
      if o.Some? then [o.value] else [], if o.Some? then map[o.value.key := 0] else map[], [c], told, {})
  }

  /** An origin cooling down until 1000 after a 503 at time 0. */
  const COOLED := Origin("a", 0, 1, Some(1000), 61000, false, 2)

  const CHECKED := Checked(0, 2, false, Some(1000), true, 999)

  lemma CheckedThenParked()
    ensures MayStrand(Solo(999, CHECKED, Some(COOLED), map["a" := 1000]))
  {
    var told: map<Key, nat> := map["a" := 1000];
    var parked := Solo(1000, Parked(0, 2, None), Some(COOLED), told);
    assert ValidRun(parked, []) && Stranded(Run(parked, []), 0);
    assert Step(Solo(1000, CHECKED, Some(COOLED), told), Decide(0)) == parked;
    StrandsLater(Solo(1000, CHECKED, Some(COOLED), told), Decide(0));
    StrandsLater(Solo(999, CHECKED, Some(COOLED), told), Tick(1000));
  }

  lemma FoundThenChecked()
    ensures MayStrand(Solo(999, Idle, Some(COOLED), map["a" := 1000]))
  {
    CheckedThenParked();
    var told: map<Key, nat> := map["a" := 1000];
    var idle, checking := Solo(999, Idle, Some(COOLED), told), Solo(999, Checking(0, 2), Some(COOLED), told);
    assert Step(checking, Check(0)) == Solo(999, CHECKED, Some(COOLED), told);
    StrandsLater(checking, Check(0));
    assert Retained(idle, 0);
    assert Reclaimed(idle) == idle.table;
    assert Step(idle, Find(0, "a")) == checking;
    StrandsLater(idle, Find(0, "a"));
  }

  /** A retry that checks one millisecond before the cooldown ends and parks when
      it has ended waits without a timer for a change that nobody will announce. */
  lemma AWaiterCanBeStranded()
    ensures Inv(Solo(0, Idle, Some(COOLED), map["a" := 1000]))
    ensures MayStrand(Solo(0, Idle, Some(COOLED), map["a" := 1000]))
  {
    CooledKeepsInv();
    FoundThenChecked();
    StrandsLater(Solo(0, Idle, Some(COOLED), map["a" := 1000]), Tick(999));
  }

  lemma CooledKeepsInv()
    ensures Inv(Solo(0, Idle, Some(COOLED), map["a" := 1000]))
  {
    var start := Solo(0, Idle, Some(COOLED), map["a" := 1000]);
    forall k ensures KeyRemembered(start, k) { }
    assert OriginCounted(start, 0);
  }
}
