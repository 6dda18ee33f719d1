/** Which hubs are kept connected: selection in list order, measurement, and the wait after a bad hub. */
module HubManager {
  import opened Basics

  type Time = nat
  type Hub = string

  datatype Policy = Policy(want: int, grace: int, silence: int, backoff: int)

  /** Zero fields take the defaults; times are in seconds. */
  function WithDefaults(p: Policy): Policy {
    Policy(if p.want == 0 then 3 else p.want, if p.grace == 0 then 20 else p.grace,
           if p.silence == 0 then 90 else p.silence, if p.backoff == 0 then 1800 else p.backoff)
  }

  /** lastData is None until data arrived. */
  datatype HubState = HubState(added: Time, announced: bool, lastRx: nat, lastData: Option<Time>)

  type Held = map<Hub, HubState>
  type Bad = map<Hub, Time>

  // ----- candidates ---------------------------------------------------------------------

  function Dedup(hubs: seq<Hub>): seq<Hub> {
    if hubs == [] then []
    else
      var init, last := Dedup(hubs[..|hubs| - 1]), hubs[|hubs| - 1];
      if last == "" || last in init then init else init + [last]
  }

  predicate Distinct(hubs: seq<Hub>) {
    forall i, j | 0 <= i < j < |hubs| :: hubs[i] != hubs[j]
  }

  predicate Clean(hubs: seq<Hub>) {
    Distinct(hubs) && "" !in hubs
  }

  lemma {:induction false} DedupKeeps(hubs: seq<Hub>)
    ensures Clean(Dedup(hubs))
    ensures forall h :: h in Dedup(hubs) <==> h in hubs && h != ""
  {
    if hubs != [] {
      var init := hubs[..|hubs| - 1];
      DedupKeeps(init);
      assert hubs == init + [hubs[|hubs| - 1]];
    }
  }

  /** Adding hubs leaves the earlier candidates in place, in front. */
  lemma {:induction false} DedupAppend(a: seq<Hub>, b: seq<Hub>)
    requires Clean(a)
    ensures a <= Dedup(a + b)
  {
    if b == [] {
      assert a + b == a;
      DedupClean(a);
    } else {
      var init := b[..|b| - 1];
      DedupAppend(a, init);
      assert (a + b)[..|a + b| - 1] == a + init;
    }
  }

  lemma {:induction false} DedupClean(a: seq<Hub>)
    requires Clean(a)
    ensures Dedup(a) == a
  {
    if a != [] {
      var init := a[..|a| - 1];
      assert forall i | 0 <= i < |init| :: init[i] == a[i];
      assert forall h | h in init :: h in a;
      DedupClean(init);
    }
  }

  // ----- selection ------------------------------------------------------------------------

  /** Not held, and not bad or bad long enough ago. */
  predicate Eligible(held: Held, bad: Bad, backoff: int, now: Time, h: Hub) {
    h !in held && !(h in bad && now - bad[h] < backoff)
  }

  function AllEligible(hubs: seq<Hub>, held: Held, bad: Bad, backoff: int, now: Time): seq<Hub> {
    if hubs == [] then []
    else
      var last := hubs[|hubs| - 1];
      AllEligible(hubs[..|hubs| - 1], held, bad, backoff, now)
      + (if Eligible(held, bad, backoff, now, last) then [last] else [])
  }

  /** The first eligible candidates in list order, as many as are needed. */
  function Picks(hubs: seq<Hub>, held: Held, bad: Bad, backoff: int, now: Time, need: int): seq<Hub> {
    var all := AllEligible(hubs, held, bad, backoff, now);
    if need <= 0 then [] else if need <= |all| then all[..need] else all
  }

  function Adding(held: Held, picks: seq<Hub>, now: Time): Held {
    held + map h | h in picks :: HubState(now, false, 0, None)
  }

  // ----- measurement ------------------------------------------------------------------------

  /** What the node says of a hub it knows. */
  datatype Stat = Stat(connected: bool, rx: nat)

  datatype Verdict = Unknown | Keep(st: HubState) | Drop

  function Judge(p: Policy, st: HubState, stat: Option<Stat>, now: Time): Verdict {
    match stat
    case None => Unknown
    case Some(x) =>
      var st1 := if x.connected then st.(announced := true) else st;
      var st2 := if x.rx > st1.lastRx then st1.(lastRx := x.rx, lastData := Some(now)) else st1;
      if !x.connected && now - st2.added > p.grace then Drop
      else if st2.lastData.None? && now - st2.added > p.silence then Drop
      else if st2.lastData.Some? && now - st2.lastData.value > p.silence then Drop
      else Keep(st2)
  }

  function Kept(p: Policy, held: Held, stats: Hub -> Option<Stat>, now: Time): Held {
    map h | h in held && Judge(p, held[h], stats(h), now).Keep? :: Judge(p, held[h], stats(h), now).st
  }

  function Dropped(p: Policy, held: Held, stats: Hub -> Option<Stat>, now: Time): set<Hub> {
    set h | h in held && Judge(p, held[h], stats(h), now).Drop?
  }

  function Marked(bad: Bad, hubs: set<Hub>, now: Time): Bad {
    bad + map h | h in hubs :: now
  }

  method DedupList(hubs: seq<Hub>) returns (out: seq<Hub>)
    ensures out == Dedup(hubs)
  {
    var seen: set<Hub> := {};
    out := [];
    var i := 0;
    assert hubs[..0] == [];
    while i < |hubs|
      invariant i <= |hubs| && out == Dedup(hubs[..i])
      invariant seen == set h | h in out
    {
      assert hubs[..i + 1][..i] == hubs[..i];
      if hubs[i] != "" && hubs[i] !in seen {
        seen := seen + {hubs[i]};
        out := out + [hubs[i]];
      }
      i := i + 1;
    }
    assert hubs[..i] == hubs;
  }

  class Manager {
    const policy: Policy
    var candidates: seq<Hub>
    var held: Held
    var bad: Bad

    ghost predicate Valid()
      reads this
    {
      Clean(candidates)
    }

    constructor (hubs: seq<Hub>, policy: Policy)
      ensures Valid() && this.policy == WithDefaults(policy)
      ensures candidates == Dedup(hubs) && held == map[] && bad == map[]
    {
      this.policy := WithDefaults(policy);
      var cs := DedupList(hubs);
      candidates, held, bad := cs, map[], map[];
      DedupKeeps(hubs);
    }

    method AddCandidates(hubs: seq<Hub>)
      requires Valid()
      modifies this`candidates
      ensures Valid() && candidates == Dedup(old(candidates) + hubs) && old(candidates) <= candidates
    {
      DedupKeeps(candidates + hubs);
      DedupAppend(candidates, hubs);
      candidates := DedupList(candidates + hubs);
    }

    /** The locked part of fill. */
    method Choose(now: Time) returns (picks: seq<Hub>)
      requires Valid()
      modifies this`held
      ensures picks == Picks(candidates, old(held), bad, policy.backoff, now, policy.want - |old(held)|)
      ensures held == Adding(old(held), picks, now)
    {
      hide AllEligible, Adding, Distinct;
      var need := policy.want - |held|;
      picks := [];
      ghost var before := held;
      var i := 0;
      NoneEligible(held, bad, policy.backoff, now);
      AddNone(held, now);
      assert candidates[..0] == [];
      while i < |candidates| && need > 0
        invariant i <= |candidates|
        invariant need + |picks| == policy.want - |before|
        invariant picks == AllEligible(candidates[..i], before, bad, policy.backoff, now)
        invariant need >= 0 || picks == []
        invariant held == Adding(before, picks, now)
      {
        var addr := candidates[i];
        NextEligible(candidates, i, before, bad, policy.backoff, now);
        AddOne(before, picks, addr, now);
        if addr in held {
        } else if addr in bad && now - bad[addr] < policy.backoff {
        } else {
          held := held[addr := HubState(now, false, 0, None)];
          picks := picks + [addr];
          need := need - 1;
        }
        i := i + 1;
      }
      EligiblePrefix(candidates, i, before, bad, policy.backoff, now);
      assert candidates[..|candidates|] == candidates;
    }

    /** fill, with the hubs to which no connection could be made. */
    method Fill(now: Time, connects: Hub -> bool) returns (picks: seq<Hub>)
      requires Valid()
      modifies this`held, this`bad
      ensures picks == Picks(candidates, old(held), old(bad), policy.backoff, now, policy.want - |old(held)|)
      ensures held == Left(Adding(old(held), picks, now), picks, connects)
      ensures bad == Marked(old(bad), Refused(picks, connects), now)
    {
      hide Marked, Refused, Adding, Picks, Clean, Left;
      picks := Choose(now);
      ghost var full := held;
      var i := 0;
      assert picks[..0] == [];
      RefusedNone(full, bad, connects, now);
      while i < |picks|
        invariant i <= |picks|
        invariant held == Left(full, picks[..i], connects)
        invariant bad == Marked(old(bad), Refused(picks[..i], connects), now)
      {
        var addr := picks[i];
        RefusedOne(full, old(bad), picks, i, connects, now);
        if !connects(addr) {
          held := held - {addr};
          bad := bad[addr := now];
        }
        i := i + 1;
      }
      assert picks[..i] == picks;
    }

    method Measure(now: Time, stats: Hub -> Option<Stat>)
      modifies this`held, this`bad
      ensures held == Kept(policy, old(held), stats, now)
      ensures bad == Marked(old(bad), Dropped(policy, old(held), stats, now), now)
    {
      hide Judge, Kept, Dropped, Marked, Between;
      var before, todo := held, held.Keys;
      MeasureNone(policy, before, old(bad), stats, now);
      while todo != {}
        invariant todo <= before.Keys
        invariant held == Between(policy, before, todo, stats, now)
        invariant bad == Marked(old(bad), Dropped(policy, before - todo, stats, now), now)
        decreases |todo|
      {
        var addr :| addr in todo;
        MeasureOne(policy, before, old(bad), todo, addr, stats, now);
        match stats(addr) {
          case None =>
            held := held - {addr};
          case Some(x) =>
            var v := Review(policy, held[addr], x, now);
            if v.Keep? {
              held := held[addr := v.st];
            } else {
              held := held - {addr};
              bad := bad[addr := now];
            }
        }
        todo := todo - {addr};
      }
      assert before - {} == before;
    }
  }

  /** The verdict on a hub the node knows. */
  method Review(p: Policy, was: HubState, x: Stat, now: Time) returns (v: Verdict)
    ensures v == Judge(p, was, Some(x), now) && !v.Unknown?
  {
    var st := was;
    if x.connected && !st.announced {
      st := st.(announced := true);
    }
    if x.rx > st.lastRx {
      st := st.(lastRx := x.rx, lastData := Some(now));
    }
    if !x.connected && now - st.added > p.grace { return Drop; }
    if st.lastData.None? && now - st.added > p.silence { return Drop; }
    if st.lastData.Some? && now - st.lastData.value > p.silence { return Drop; }
    v := Keep(st);
  }

  /** What is held while the hubs of todo are still to be measured. */
  function Between(p: Policy, before: Held, todo: set<Hub>, stats: Hub -> Option<Stat>, now: Time): Held {
    Kept(p, before - todo, stats, now) + (map h | h in todo && h in before :: before[h])
  }

  lemma MeasureNone(p: Policy, before: Held, bad: Bad, stats: Hub -> Option<Stat>, now: Time)
    ensures Between(p, before, before.Keys, stats, now) == before
    ensures Marked(bad, Dropped(p, before - before.Keys, stats, now), now) == bad
    ensures Between(p, before, {}, stats, now) == Kept(p, before, stats, now)
  {
    assert before - {} == before;
    assert Dropped(p, before - before.Keys, stats, now) == {};
  }

  lemma MeasureOne(p: Policy, before: Held, bad: Bad, todo: set<Hub>, addr: Hub, stats: Hub -> Option<Stat>, now: Time)
    requires addr in todo && todo <= before.Keys
    ensures var v := Judge(p, before[addr], stats(addr), now);
            var held, rest := Between(p, before, todo, stats, now), todo - {addr};
            && addr in held && held[addr] == before[addr]
            && (stats(addr).None? ==> v.Unknown?)
            && Between(p, before, rest, stats, now) == (if v.Keep? then held[addr := v.st] else held - {addr})
            && Marked(bad, Dropped(p, before - rest, stats, now), now)
               == (if v.Drop? then Marked(bad, Dropped(p, before - todo, stats, now), now)[addr := now]
                   else Marked(bad, Dropped(p, before - todo, stats, now), now))
  {
    var v := Judge(p, before[addr], stats(addr), now);
    assert stats(addr).None? ==> v.Unknown?;
    MeasureHeld(p, before, todo, addr, stats, now);
    MeasureBad(p, before, bad, todo, addr, stats, now);
  }

  lemma MeasureHeld(p: Policy, before: Held, todo: set<Hub>, addr: Hub, stats: Hub -> Option<Stat>, now: Time)
    requires addr in todo && todo <= before.Keys
    ensures var v := Judge(p, before[addr], stats(addr), now);
            var held := Between(p, before, todo, stats, now);
            && addr in held && held[addr] == before[addr]
            && Between(p, before, todo - {addr}, stats, now) == (if v.Keep? then held[addr := v.st] else held - {addr})
  {
    hide Judge;
    assert before - (todo - {addr}) == (before - todo)[addr := before[addr]];
  }

  lemma MeasureBad(p: Policy, before: Held, bad: Bad, todo: set<Hub>, addr: Hub, stats: Hub -> Option<Stat>, now: Time)
    requires addr in todo && todo <= before.Keys
    ensures var v := Judge(p, before[addr], stats(addr), now);
            Marked(bad, Dropped(p, before - (todo - {addr}), stats, now), now)
            == (if v.Drop? then Marked(bad, Dropped(p, before - todo, stats, now), now)[addr := now]
                else Marked(bad, Dropped(p, before - todo, stats, now), now))
  {
    hide Judge;
    assert before - (todo - {addr}) == (before - todo)[addr := before[addr]];
    assert Dropped(p, before - (todo - {addr}), stats, now)
        == Dropped(p, before - todo, stats, now)
           + (if Judge(p, before[addr], stats(addr), now).Drop? then {addr} else {});
  }

  /** The picks to which no connection could be made. */
  function Refused(picks: seq<Hub>, connects: Hub -> bool): set<Hub> {
    set h | h in picks && !connects(h)
  }

  function Left(held: Held, picks: seq<Hub>, connects: Hub -> bool): Held {
    held - Refused(picks, connects)
  }

  lemma RefusedNone(held: Held, bad: Bad, connects: Hub -> bool, now: Time)
    ensures Left(held, [], connects) == held && Marked(bad, Refused([], connects), now) == bad
  {
    assert Refused([], connects) == {};
  }

  lemma RefusedOne(held: Held, bad: Bad, picks: seq<Hub>, i: nat, connects: Hub -> bool, now: Time)
    requires i < |picks|
    ensures var r, r' := Refused(picks[..i], connects), Refused(picks[..i + 1], connects);
            var l, l' := Left(held, picks[..i], connects), Left(held, picks[..i + 1], connects);
            if connects(picks[i]) then r' == r && l' == l
            else l' == l - {picks[i]} && Marked(bad, r', now) == Marked(bad, r, now)[picks[i] := now]
  {
    assert picks[..i + 1] == picks[..i] + [picks[i]];
    assert Refused(picks[..i + 1], connects)
        == Refused(picks[..i], connects) + (if connects(picks[i]) then {} else {picks[i]});
  }

  lemma AddNone(held: Held, now: Time)
    ensures Adding(held, [], now) == held
  {
  }

  lemma AddOne(held: Held, picks: seq<Hub>, h: Hub, now: Time)
    ensures Adding(held, picks + [h], now) == Adding(held, picks, now)[h := HubState(now, false, 0, None)]
    ensures h in Adding(held, picks, now) <==> h in held || h in picks
  {
  }

  // ----- facts about selection ----------------------------------------------------------------

  lemma NoneEligible(held: Held, bad: Bad, backoff: int, now: Time)
    ensures AllEligible([], held, bad, backoff, now) == []
  {
  }

  lemma NextEligible(hubs: seq<Hub>, i: nat, held: Held, bad: Bad, backoff: int, now: Time)
    requires i < |hubs| && Distinct(hubs)
    ensures AllEligible(hubs[..i + 1], held, bad, backoff, now)
            == AllEligible(hubs[..i], held, bad, backoff, now)
               + (if Eligible(held, bad, backoff, now, hubs[i]) then [hubs[i]] else [])
    ensures hubs[i] !in AllEligible(hubs[..i], held, bad, backoff, now)
  {
    assert hubs[..i + 1][..i] == hubs[..i];
    EligibleFrom(hubs[..i], held, bad, backoff, now);
  }

  lemma {:induction false} EligibleFrom(hubs: seq<Hub>, held: Held, bad: Bad, backoff: int, now: Time)
    ensures forall h :: h in AllEligible(hubs, held, bad, backoff, now) <==> h in hubs && Eligible(held, bad, backoff, now, h)
    ensures Distinct(hubs) ==> Distinct(AllEligible(hubs, held, bad, backoff, now))
  {
    if hubs != [] {
      var init, last := hubs[..|hubs| - 1], hubs[|hubs| - 1];
      EligibleFrom(init, held, bad, backoff, now);
      assert hubs == init + [last];
      assert forall i | 0 <= i < |init| :: init[i] == hubs[i];
    }
  }

  lemma {:induction false} EligiblePrefix(hubs: seq<Hub>, i: nat, held: Held, bad: Bad, backoff: int, now: Time)
    requires i <= |hubs|
    ensures AllEligible(hubs[..i], held, bad, backoff, now) <= AllEligible(hubs, held, bad, backoff, now)
    decreases |hubs| - i
  {
    if i < |hubs| {
      EligiblePrefix(hubs, i + 1, held, bad, backoff, now);
      assert hubs[..i + 1][..i] == hubs[..i];
    } else {
      assert hubs[..i] == hubs;
    }
  }

  /** A candidate is picked exactly when it is eligible and fewer than need eligible ones come before it. */
  lemma PickedInListOrder(hubs: seq<Hub>, i: nat, held: Held, bad: Bad, backoff: int, now: Time, need: int)
    requires Distinct(hubs) && i < |hubs|
    ensures hubs[i] in Picks(hubs, held, bad, backoff, now, need)
            <==> Eligible(held, bad, backoff, now, hubs[i]) && |AllEligible(hubs[..i], held, bad, backoff, now)| < need
  {
    hide AllEligible, Eligible;
    var all, before := AllEligible(hubs, held, bad, backoff, now), AllEligible(hubs[..i], held, bad, backoff, now);
    EligibleFrom(hubs, held, bad, backoff, now);
    NextEligible(hubs, i, held, bad, backoff, now);
    EligiblePrefix(hubs, i + 1, held, bad, backoff, now);
    var n := |before|;
    if Eligible(held, bad, backoff, now, hubs[i]) {
      assert all[n] == hubs[i];
      assert forall k | 0 <= k < |all| && all[k] == hubs[i] :: k == n;
      if n < need {
        assert Picks(hubs, held, bad, backoff, now, need)[n] == hubs[i];
      }
    }
  }

  /** After a selection, the wanted number is held or no candidate is eligible. */
  lemma SelectionIsFull(hubs: seq<Hub>, held: Held, bad: Bad, backoff: int, now: Time, want: int)
    requires Distinct(hubs)
    ensures var picks := Picks(hubs, held, bad, backoff, now, want - |held|);
            var after := Adding(held, picks, now);
            && |after| == |held| + |picks|
            && (|after| >= want || forall h | h in hubs :: !Eligible(after, bad, backoff, now, h))
  {
    hide AllEligible;
    var picks := Picks(hubs, held, bad, backoff, now, want - |held|);
    EligibleFrom(hubs, held, bad, backoff, now);
    assert Distinct(picks);
    assert forall h | h in picks :: h in AllEligible(hubs, held, bad, backoff, now);
    AddingSize(held, picks, now);
  }

  lemma {:induction false} AddingSize(held: Held, picks: seq<Hub>, now: Time)
    requires Distinct(picks) && forall h | h in picks :: h !in held
    ensures |Adding(held, picks, now)| == |held| + |picks|
  {
    if picks == [] {
      AddNone(held, now);
    } else {
      var init, last := picks[..|picks| - 1], picks[|picks| - 1];
      assert picks == init + [last];
      assert forall i | 0 <= i < |init| :: init[i] == picks[i];
      AddingSize(held, init, now);
      AddOne(held, init, last, now);
    }
  }

  // ----- whole runs ---------------------------------------------------------------------------

  /** What the manager did: a selection; or hubs given up, with the time they are stamped with. */
  datatype Entry = Chosen(picks: seq<Hub>, at: Time) | GivenUp(hubs: set<Hub>, at: Time, stamp: Time)

  /** pending are the picks still to be connected, since the time of that selection. */
  datatype State = State(
    candidates: seq<Hub>, held: Held, bad: Bad, pending: seq<Hub>, since: Time, clock: Time, log: seq<Entry>)

  datatype Event =
    | Add(hubs: seq<Hub>)
    | Check(now: Time, stats: Hub -> Option<Stat>)
    | Choose(now: Time)
    | Connect(ok: bool, now: Time)
    | Announce(hub: Hub)

  function Start(hubs: seq<Hub>): State {
    State(Dedup(hubs), map[], map[], [], 0, 0, [])
  }

  /** Measuring, selecting and connecting happen on one thread; adding and announcing on others. */
  function Step(p: Policy, s: State, e: Event): State {
    match e
    case Add(hubs) => s.(candidates := Dedup(s.candidates + hubs))
    case Check(now, stats) =>
      if s.pending != [] || now < s.clock then s
      else
        var out := Dropped(p, s.held, stats, now);
        s.(held := Kept(p, s.held, stats, now), bad := Marked(s.bad, out, now), clock := now,
           log := s.log + [GivenUp(out, now, now)])
    case Choose(now) =>
      if s.pending != [] || now < s.clock then s
      else
        var picks := Picks(s.candidates, s.held, s.bad, p.backoff, now, p.want - |s.held|);
        s.(held := Adding(s.held, picks, now), pending := picks, since := now, clock := now,
           log := s.log + [Chosen(picks, now)])
    // the connection is made, or refused at once; a refused hub is stamped with the time of its selection
    case Connect(ok, now) =>
      if s.pending == [] || now < s.clock then s
      else if ok then s.(pending := s.pending[1..], clock := now)
      else
        s.(pending := s.pending[1..], held := s.held - {s.pending[0]}, bad := Marked(s.bad, {s.pending[0]}, s.since),
           clock := now, log := s.log + [GivenUp({s.pending[0]}, now, s.since)])
    case Announce(h) =>
      if h in s.held then s.(held := s.held[h := s.held[h].(announced := true)]) else s
  }

  function Run(p: Policy, s: State, events: seq<Event>): State {
    if events == [] then s else Step(p, Run(p, s, events[..|events| - 1]), events[|events| - 1])
  }

  ghost predicate HeldOk(p: Policy, s: State) {
    && Clean(s.candidates)
    && (forall h | h in s.held :: h in s.candidates)
    && (|s.held| == 0 || |s.held| <= p.want)
  }

  ghost predicate Waited(p: Policy, log: seq<Entry>) {
    forall i, j, h | 0 <= i < j < |log| && log[i].GivenUp? && log[j].Chosen? && h in log[i].hubs && h in log[j].picks ::
      log[i].stamp <= log[i].at <= log[j].at && log[j].at - log[i].stamp >= p.backoff
  }

  /** No stamp is later than the given time. */
  ghost predicate Until(bad: Bad, t: Time) {
    forall h | h in bad :: bad[h] <= t
  }

  /** Every hub given up is stamped, not earlier than the log says. */
  ghost predicate Stamped(log: seq<Entry>, bad: Bad) {
    forall i, h | 0 <= i < |log| && log[i].GivenUp? && h in log[i].hubs :: h in bad && log[i].stamp <= bad[h]
  }

  /** A stamp is not later than the event, and nothing in the log is later than the clock. */
  ghost predicate Timely(log: seq<Entry>, clock: Time) {
    forall i | 0 <= i < |log| && log[i].GivenUp? :: log[i].stamp <= log[i].at <= clock
  }

  ghost predicate BadOk(s: State) {
    s.since <= s.clock && Until(s.bad, s.clock) && (s.pending != [] ==> Until(s.bad, s.since)) && Stamped(s.log, s.bad)
    && Timely(s.log, s.clock)
  }

  ghost predicate Inv(p: Policy, s: State) {
    HeldOk(p, s) && BadOk(s) && Waited(p, s.log)
  }

  lemma StartInv(p: Policy, hubs: seq<Hub>)
    ensures Inv(p, Start(hubs))
  {
    DedupKeeps(hubs);
  }

  /** Holding fewer hubs, or knowing more candidates, is fine. */
  lemma HeldFewer(p: Policy, s: State, s1: State)
    requires HeldOk(p, s) && Clean(s1.candidates) && s1.held.Keys <= s.held.Keys
    requires forall h | h in s.candidates :: h in s1.candidates
    ensures HeldOk(p, s1)
  {
    hide Clean;
    SmallerMap(s.held, s1.held);
  }

  lemma StepKeepsHeld(p: Policy, s: State, e: Event)
    requires Inv(p, s)
    ensures HeldOk(p, Step(p, s, e))
  {
    hide Dedup, Kept, Dropped, Marked, Picks, Adding, Clean, BadOk, Waited;
    if e.Choose? {
      ChooseKeepsHeld(p, s, e.now);
    } else {
      if e.Add? { AddKeepsCandidates(s.candidates, e.hubs); }
      if e.Check? { KeptSmaller(p, s.held, e.stats, e.now); }
      HeldFewer(p, s, Step(p, s, e));
    }
  }

  lemma AddKeepsCandidates(candidates: seq<Hub>, hubs: seq<Hub>)
    requires Clean(candidates)
    ensures Clean(Dedup(candidates + hubs)) && forall h | h in candidates :: h in Dedup(candidates + hubs)
  {
    DedupKeeps(candidates + hubs);
  }

  lemma ChooseKeepsHeld(p: Policy, s: State, now: Time)
    requires HeldOk(p, s)
    ensures var picks := Picks(s.candidates, s.held, s.bad, p.backoff, now, p.want - |s.held|);
            var held := Adding(s.held, picks, now);
            && (forall h | h in held :: h in s.candidates)
            && (|held| == 0 || |held| <= p.want)
  {
    hide AllEligible, Eligible;
    SelectionIsFull(s.candidates, s.held, s.bad, p.backoff, now, p.want);
    EligibleFrom(s.candidates, s.held, s.bad, p.backoff, now);
    PicksFrom(s.candidates, s.held, s.bad, p.backoff, now, p.want - |s.held|);
  }

  lemma PicksFrom(hubs: seq<Hub>, held: Held, bad: Bad, backoff: int, now: Time, need: int)
    ensures forall h | h in Picks(hubs, held, bad, backoff, now, need) :: h in hubs && Eligible(held, bad, backoff, now, h)
    ensures need >= 0 ==> |Picks(hubs, held, bad, backoff, now, need)| <= need
    ensures need <= 0 ==> Picks(hubs, held, bad, backoff, now, need) == []
  {
    hide AllEligible;
    EligibleFrom(hubs, held, bad, backoff, now);
    assert forall h | h in Picks(hubs, held, bad, backoff, now, need) :: h in AllEligible(hubs, held, bad, backoff, now);
  }

  lemma SmallerMap(a: Held, b: Held)
    requires b.Keys <= a.Keys
    ensures |b| <= |a|
  {
    SubsetCount(b.Keys, a.Keys);
    assert |b| == |b.Keys| && |a| == |a.Keys|;
  }

  lemma KeptSmaller(p: Policy, held: Held, stats: Hub -> Option<Stat>, now: Time)
    ensures Kept(p, held, stats, now).Keys <= held.Keys
  {
    hide Judge;
  }

  lemma StampMore(log: seq<Entry>, bad: Bad, hubs: set<Hub>, at: Time, stamp: Time)
    requires Stamped(log, bad) && Until(bad, stamp) && stamp <= at && Timely(log, at)
    ensures Stamped(log + [GivenUp(hubs, at, stamp)], Marked(bad, hubs, stamp)) && Until(Marked(bad, hubs, stamp), stamp)
    ensures Timely(log + [GivenUp(hubs, at, stamp)], at)
  {
  }

  lemma StepKeepsBad(p: Policy, s: State, e: Event)
    requires Inv(p, s)
    ensures BadOk(Step(p, s, e))
  {
    hide Dedup, HeldOk, Waited, Picks, Adding, Kept, Dropped, Marked, Stamped;
    match e
    case Check(now, stats) =>
      if s.pending == [] && now >= s.clock {
        StampMore(s.log, s.bad, Dropped(p, s.held, stats, now), now, now);
      }
    case Choose(now) =>
      if s.pending == [] && now >= s.clock {
        ChosenStamps(s.log, s.bad, Picks(s.candidates, s.held, s.bad, p.backoff, now, p.want - |s.held|), now);
      }
    case Connect(ok, now) =>
      if s.pending != [] && now >= s.clock {
        StampMore(s.log, s.bad, {s.pending[0]}, now, s.since);
      }
    case _ =>
  }

  lemma ChosenStamps(log: seq<Entry>, bad: Bad, picks: seq<Hub>, at: Time)
    requires Stamped(log, bad)
    ensures Stamped(log + [Chosen(picks, at)], bad)
  {
  }

  lemma WaitedMore(p: Policy, log: seq<Entry>, bad: Bad, entry: Entry)
    requires Waited(p, log) && Stamped(log, bad)
    requires entry.Chosen? ==> Timely(log, entry.at) && forall h | h in entry.picks && h in bad :: entry.at - bad[h] >= p.backoff
    ensures Waited(p, log + [entry])
  {
  }

  lemma StepKeepsWaited(p: Policy, s: State, e: Event)
    requires Inv(p, s)
    ensures Waited(p, Step(p, s, e).log)
  {
    hide Dedup, HeldOk, Waited, Picks, Adding, Kept, Dropped, Marked, Stamped;
    match e
    case Check(now, stats) =>
      WaitedMore(p, s.log, s.bad, GivenUp(Dropped(p, s.held, stats, now), now, now));
    case Choose(now) =>
      if s.pending != [] || now < s.clock { return; }
      PicksFrom(s.candidates, s.held, s.bad, p.backoff, now, p.want - |s.held|);
      WaitedMore(p, s.log, s.bad, Chosen(Picks(s.candidates, s.held, s.bad, p.backoff, now, p.want - |s.held|), now));
    case Connect(ok, now) =>
      if s.pending != [] {
        WaitedMore(p, s.log, s.bad, GivenUp({s.pending[0]}, now, s.since));
      }
    case _ =>
  }

  lemma {:induction false} RunKeepsInv(p: Policy, hubs: seq<Hub>, events: seq<Event>)
    ensures Inv(p, Run(p, Start(hubs), events))
  {
    hide Step, HeldOk, BadOk, Waited;
    StartInv(p, hubs);
    if events != [] {
      var init, e := events[..|events| - 1], events[|events| - 1];
      var s := Run(p, Start(hubs), init);
      RunKeepsInv(p, hubs, init);
      StepKeepsHeld(p, s, e);
      StepKeepsBad(p, s, e);
      StepKeepsWaited(p, s, e);
    }
  }

  /** Over every run at most the wanted number of hubs is held, all of them candidates. */
  lemma AtMostWanted(p: Policy, hubs: seq<Hub>, events: seq<Event>)
    ensures var s := Run(p, Start(hubs), events);
            && (|s.held| == 0 || |s.held| <= p.want)
            && (forall h | h in s.held :: h in s.candidates && h != "")
            && Distinct(s.candidates)
  {
    RunKeepsInv(p, hubs, events);
  }

  /**
   * A hub given up is not selected again before the back-off has passed since its stamp: since it was dropped, when
   * a measurement dropped it; since its own selection, when its connection was refused. From the refusal on, the wait
   * is shorter by the time from the selection to the refusal.
   */
  lemma BackoffIsKept(p: Policy, hubs: seq<Hub>, events: seq<Event>, i: nat, j: nat, h: Hub)
    requires var log := Run(p, Start(hubs), events).log;
             && i < j < |log| && log[i].GivenUp? && log[j].Chosen? && h in log[i].hubs && h in log[j].picks
    ensures var log := Run(p, Start(hubs), events).log;
            && log[i].stamp <= log[i].at <= log[j].at && log[j].at - log[i].stamp >= p.backoff
            && log[j].at - log[i].at >= p.backoff - (log[i].at - log[i].stamp)
  {
    RunKeepsInv(p, hubs, events);
  }

  /** The stamp is the time of giving up, unless that was a refused connection. */
  lemma {:induction false} DropsAreStamped(p: Policy, hubs: seq<Hub>, events: seq<Event>, i: nat)
    requires var log := Run(p, Start(hubs), events).log; i < |log| && log[i].GivenUp?
    ensures var log := Run(p, Start(hubs), events).log;
            log[i].stamp == log[i].at || Connect(false, log[i].at) in events
  {
    hide Dedup, Picks, Adding, Kept, Dropped, Marked;
    if events != [] {
      var before := events[..|events| - 1];
      assert forall x | x in before :: x in events;
      assert events[|events| - 1] in events;
      if i < |Run(p, Start(hubs), before).log| { DropsAreStamped(p, hubs, before, i); }
    }
  }

  /** That bound is met: a refused hub can be selected again exactly a back-off after its selection, however late it was refused. */
  lemma RefusalShortensTheWait(p: Policy, h: Hub, refused: Time)
    requires p.want >= 1 && h != "" && 0 <= refused <= p.backoff
    ensures var s := Run(p, Start([h]), [Choose(0), Connect(false, refused), Choose(p.backoff)]);
            s.log == [Chosen([h], 0), GivenUp({h}, refused, 0), Chosen([h], p.backoff)]
  {
    hide Run, Step, Dedup;
    var a, b, c := Choose(0), Connect(false, refused), Choose(p.backoff);
    OneCandidate(h);
    var s0 := Start([h]);
    ChooseOne(p, h, s0, 0);
    var s1 := s0.(held := map[h := HubState(0, false, 0, None)], pending := [h], log := [] + [Chosen([h], 0)]);
    RefuseOne(p, h, s1, refused);
    var s2 := s0.(bad := map[h := 0], clock := refused, log := [] + [Chosen([h], 0)] + [GivenUp({h}, refused, 0)]);
    ChooseOne(p, h, s2, p.backoff);
    RunOfThree(p, s0, a, b, c);
  }

  /** The only candidate is picked when it is not held and its back-off has passed. */
  lemma ChooseOne(p: Policy, h: Hub, s: State, now: Time)
    requires p.want >= 1 && s.candidates == [h] && s.held == map[] && s.pending == [] && s.clock <= now
    requires h in s.bad ==> now - s.bad[h] >= p.backoff
    ensures Step(p, s, Choose(now))
         == s.(held := map[h := HubState(now, false, 0, None)], pending := [h], since := now, clock := now,
               log := s.log + [Chosen([h], now)])
  {
    hide Picks, Adding, Kept, Dropped, Marked, Dedup;
    OnePick(p, h, s.held, s.bad, now, p.want);
    AddingFirst(h, now);
  }

  lemma AddingFirst(h: Hub, now: Time)
    ensures Adding(map[], [h], now) == map[h := HubState(now, false, 0, None)]
  {
  }

  lemma RefuseOne(p: Policy, h: Hub, s: State, now: Time)
    requires s.pending == [h] && s.held.Keys == {h} && s.bad == map[] && s.clock <= now
    ensures Step(p, s, Connect(false, now))
         == s.(held := map[], pending := [], bad := map[h := s.since], clock := now, log := s.log + [GivenUp({h}, now, s.since)])
  {
    assert s.held - {h} == map[];
    assert Marked(s.bad, {h}, s.since) == map[h := s.since];
  }

  lemma RunOfThree(p: Policy, s: State, a: Event, b: Event, c: Event)
    ensures Run(p, s, [a, b, c]) == Step(p, Step(p, Step(p, s, a), b), c)
  {
    hide Step;
    assert [a, b, c][..2] == [a, b] && [a, b][..1] == [a] && [a][..0] == [];
    assert Run(p, s, [a]) == Step(p, s, a);
    assert Run(p, s, [a, b]) == Step(p, Run(p, s, [a]), b);
  }

  lemma OneCandidate(h: Hub)
    requires h != ""
    ensures Dedup([h]) == [h]
  {
    assert [h][..0] == [];
  }

  lemma OnePick(p: Policy, h: Hub, held: Held, bad: Bad, now: Time, need: int)
    requires need >= 1 && Eligible(held, bad, p.backoff, now, h)
    ensures Picks([h], held, bad, p.backoff, now, need) == [h]
  {
    assert [h][..0] == [];
    assert AllEligible([], held, bad, p.backoff, now) == [];
  }

  /** Candidates are only ever added at the end. */
  lemma {:induction false} CandidatesOnlyGrow(p: Policy, hubs: seq<Hub>, before: seq<Event>, after: seq<Event>)
    ensures Run(p, Start(hubs), before).candidates <= Run(p, Start(hubs), before + after).candidates
  {
    hide Dedup, Picks, Adding, Kept, Dropped, Marked, BadOk, Waited, Clean;
    if after == [] {
      assert before + after == before;
    } else {
      var init, e := after[..|after| - 1], after[|after| - 1];
      CandidatesOnlyGrow(p, hubs, before, init);
      RunKeepsInv(p, hubs, before + init);
      assert (before + after)[..|before + after| - 1] == before + init;
      if e.Add? {
        DedupAppend(Run(p, Start(hubs), before + init).candidates, e.hubs);
      }
    }
  }

  // ----- why a hub is given up ------------------------------------------------------------------

  /** What was learned of a hub: what the node said of it at a check, or that it is up. */
  datatype Seen = Reading(at: Time, stat: Stat) | Up

  /** The counter is above zero and above every earlier reading. */
  predicate Rise(seen: seq<Seen>, k: nat) {
    && k < |seen| && seen[k].Reading? && seen[k].stat.rx > 0
    && forall j | 0 <= j < k && seen[j].Reading? :: seen[j].stat.rx < seen[k].stat.rx
  }

  predicate SaidUp(x: Seen) {
    x.Up? || x.stat.connected
  }

  /** The manager measures now. */
  predicate Measures(s: State, now: Time) {
    s.pending == [] && s.clock <= now
  }

  /** When h was last selected, if it was. */
  ghost function SelectedAt(p: Policy, hubs: seq<Hub>, events: seq<Event>, h: Hub): Option<Time> {
    if events == [] then None
    else
      var before, e := events[..|events| - 1], events[|events| - 1];
      var s := Run(p, Start(hubs), before);
      if e.Choose? && Measures(s, e.now) && h !in s.held && h in Step(p, s, e).held then Some(e.now)
      else SelectedAt(p, hubs, before, h)
  }

  /** What was learned of h since then. */
  ghost function History(p: Policy, hubs: seq<Hub>, events: seq<Event>, h: Hub): seq<Seen> {
    if events == [] then []
    else
      var before, e := events[..|events| - 1], events[|events| - 1];
      var s, seen := Run(p, Start(hubs), before), History(p, hubs, before, h);
      match e
      case Check(now, stats) => if Measures(s, now) && stats(h).Some? then seen + [Reading(now, stats(h).value)] else seen
      case Choose(now) => if Measures(s, now) && h !in s.held && h in Step(p, s, e).held then [] else seen
      case Announce(x) => if x == h then seen + [Up] else seen
      case _ => seen
  }

  /**
   * Disconnected for longer than the grace since the selection; or no data for longer than the silence: since the
   * counter last rose, or, if it never did, since the selection.
   */
  ghost predicate GivesUp(p: Policy, selected: Time, seen: seq<Seen>, connected: bool, now: Time) {
    || (!connected && now - selected > p.grace)
    || (if exists k: nat :: Rise(seen, k) then forall k: nat | Rise(seen, k) :: now - seen[k].at > p.silence
        else now - selected > p.silence)
  }

  /** Readings are in the order of time. */
  predicate InOrder(seen: seq<Seen>, now: Time) {
    && (forall j | 0 <= j < |seen| && seen[j].Reading? :: seen[j].at <= now)
    && forall i, j | 0 <= i < j < |seen| && seen[i].Reading? && seen[j].Reading? :: seen[i].at <= seen[j].at
  }

  /** The state of a held hub is what was learned of it. */
  ghost predicate Remembers(st: HubState, selected: Time, seen: seq<Seen>) {
    && st.added == selected
    && (st.announced <==> exists k :: 0 <= k < |seen| && SaidUp(seen[k]))
    && (forall k | 0 <= k < |seen| && seen[k].Reading? :: seen[k].stat.rx <= st.lastRx)
    && (st.lastRx == 0 || exists k :: 0 <= k < |seen| && seen[k].Reading? && seen[k].stat.rx == st.lastRx)
    && (match st.lastData
        case None => forall k: nat :: !Rise(seen, k)
        case Some(t) => exists k: nat :: LastRise(seen, k) && seen[k].at == t)
  }

  ghost predicate LastRise(seen: seq<Seen>, k: nat) {
    Rise(seen, k) && forall j: nat | Rise(seen, j) :: j <= k
  }

  lemma RiseMore(seen: seq<Seen>, x: Seen)
    ensures forall k: nat | k < |seen| :: Rise(seen + [x], k) == Rise(seen, k)
    ensures Rise(seen + [x], |seen|) <==>
      x.Reading? && x.stat.rx > 0 && forall j | 0 <= j < |seen| && seen[j].Reading? :: seen[j].stat.rx < x.stat.rx
    ensures forall k: nat | Rise(seen + [x], k) :: k <= |seen|
  {
    var more := seen + [x];
    assert forall j | 0 <= j < |seen| :: more[j] == seen[j];
    assert more[|seen|] == x;
  }

  /** A reading raises the record exactly when it is above all earlier ones. */
  lemma RaisesRecord(st: HubState, selected: Time, seen: seq<Seen>, x: Stat, now: Time)
    requires Remembers(st, selected, seen)
    ensures Rise(seen + [Reading(now, x)], |seen|) <==> x.rx > st.lastRx
  {
    RiseMore(seen, Reading(now, x));
  }

  /** What the record becomes with one more reading. */
  function Recorded(st: HubState, x: Stat, now: Time): HubState {
    HubState(st.added, st.announced || x.connected, if x.rx > st.lastRx then x.rx else st.lastRx,
             if x.rx > st.lastRx then Some(now) else st.lastData)
  }

  lemma RecordRemembers(st: HubState, selected: Time, seen: seq<Seen>, x: Stat, now: Time)
    requires Remembers(st, selected, seen)
    ensures Remembers(Recorded(st, x, now), selected, seen + [Reading(now, x)])
  {
    var more, r := seen + [Reading(now, x)], Recorded(st, x, now);
    RaisesRecord(st, selected, seen, x, now);
    RiseMore(seen, Reading(now, x));
    assert forall j | 0 <= j < |seen| :: more[j] == seen[j];
    assert more[|seen|] == Reading(now, x);
    if r.announced {
      if x.connected {
        assert SaidUp(more[|seen|]);
      } else {
        var k :| 0 <= k < |seen| && SaidUp(seen[k]);
        assert SaidUp(more[k]);
      }
    }
    RecordData(st, selected, seen, x, now);
  }

  lemma RecordData(st: HubState, selected: Time, seen: seq<Seen>, x: Stat, now: Time)
    requires Remembers(st, selected, seen)
    ensures var more, r := seen + [Reading(now, x)], Recorded(st, x, now);
            && (r.lastRx == 0 || exists k :: 0 <= k < |more| && more[k].Reading? && more[k].stat.rx == r.lastRx)
            && (match r.lastData
                case None => forall k: nat :: !Rise(more, k)
                case Some(t) => exists k: nat :: LastRise(more, k) && more[k].at == t)
  {
    var more := seen + [Reading(now, x)];
    RaisesRecord(st, selected, seen, x, now);
    RiseMore(seen, Reading(now, x));
    if x.rx > st.lastRx {
      assert more[|seen|].stat.rx == x.rx;
      assert LastRise(more, |seen|);
    } else {
      if st.lastRx > 0 {
        var k :| 0 <= k < |seen| && seen[k].Reading? && seen[k].stat.rx == st.lastRx;
        assert more[k] == seen[k];
      }
      if st.lastData.Some? {
        var k: nat :| LastRise(seen, k) && seen[k].at == st.lastData.value;
        assert Rise(more, k) && more[k] == seen[k];
        assert LastRise(more, k);
      }
    }
  }

  /** A verdict on a known hub: it is given up for the reasons above and no others, and otherwise the record is kept. */
  lemma JudgeIs(p: Policy, st: HubState, selected: Time, seen: seq<Seen>, x: Stat, now: Time)
    requires Remembers(st, selected, seen) && InOrder(seen, now)
    ensures var more, v := seen + [Reading(now, x)], Judge(p, st, Some(x), now);
            && (v.Drop? <==> GivesUp(p, selected, more, x.connected, now))
            && (!v.Drop? ==> v.Keep? && Remembers(v.st, selected, more))
  {
    var more, r := seen + [Reading(now, x)], Recorded(st, x, now);
    RecordRemembers(st, selected, seen, x, now);
    assert forall i, j | 0 <= i < j < |more| && more[i].Reading? && more[j].Reading? :: more[i].at <= more[j].at;
    if r.lastData.Some? {
      var k: nat :| LastRise(more, k) && more[k].at == r.lastData.value;
      assert forall j: nat | Rise(more, j) :: more[j].at <= more[k].at;
    }
  }

  /** Every held hub is remembered as it was seen. */
  ghost predicate AllRemembered(p: Policy, hubs: seq<Hub>, events: seq<Event>) {
    var s := Run(p, Start(hubs), events);
    forall h | h in s.held ::
      && SelectedAt(p, hubs, events, h).Some?
      && Remembers(s.held[h], SelectedAt(p, hubs, events, h).value, History(p, hubs, events, h))
      && InOrder(History(p, hubs, events, h), s.clock)
  }

  lemma {:induction false} RunRemembers(p: Policy, hubs: seq<Hub>, events: seq<Event>)
    ensures AllRemembered(p, hubs, events)
  {
    hide Judge, Remembers, InOrder, Picks, Dedup, Marked;
    if events != [] {
      var before, e := events[..|events| - 1], events[|events| - 1];
      RunRemembers(p, hubs, before);
      var s := Run(p, Start(hubs), before);
      forall h | h in Step(p, s, e).held
        ensures SelectedAt(p, hubs, events, h).Some?
        ensures Remembers(Step(p, s, e).held[h], SelectedAt(p, hubs, events, h).value, History(p, hubs, events, h))
        ensures InOrder(History(p, hubs, events, h), Step(p, s, e).clock)
      {
        StepRemembers(p, hubs, before, e, h);
      }
    }
  }

  lemma StepRemembers(p: Policy, hubs: seq<Hub>, before: seq<Event>, e: Event, h: Hub)
    requires AllRemembered(p, hubs, before) && h in Step(p, Run(p, Start(hubs), before), e).held
    ensures var s', events := Step(p, Run(p, Start(hubs), before), e), before + [e];
            && SelectedAt(p, hubs, events, h).Some?
            && Remembers(s'.held[h], SelectedAt(p, hubs, events, h).value, History(p, hubs, events, h))
            && InOrder(History(p, hubs, events, h), s'.clock)
  {
    hide Judge, Remembers, InOrder, Picks, Dedup, Marked, Run, Kept, Dropped, Adding;
    var s, events := Run(p, Start(hubs), before), before + [e];
    assert events[..|events| - 1] == before && events[|events| - 1] == e;
    if h in s.held {
      var selected, seen := SelectedAt(p, hubs, before, h).value, History(p, hubs, before, h);
      match e
      case Check(now, stats) =>
        if Measures(s, now) { CheckRemembers(p, s, selected, seen, now, stats, h); }
      case Choose(now) =>
        if Measures(s, now) { ChosenOrHeld(p, s, now, h); StaysInOrder(seen, s.clock, now); }
      case Connect(_, now) => if s.clock <= now { StaysInOrder(seen, s.clock, now); }
      case Announce(x) => if x == h { UpRemembers(s.held[h], selected, seen, s.clock); }
      case _ =>
    } else {
      OnlyChosenIsNew(p, s, e, h);
      NewIsRemembered(e.now, e.now);
    }
  }

  lemma CheckRemembers(p: Policy, s: State, selected: Time, seen: seq<Seen>, now: Time, stats: Hub -> Option<Stat>, h: Hub)
    requires h in s.held && h in Kept(p, s.held, stats, now) && s.clock <= now
    requires Remembers(s.held[h], selected, seen) && InOrder(seen, s.clock)
    ensures stats(h).Some?
    ensures var more := seen + [Reading(now, stats(h).value)];
            Remembers(Kept(p, s.held, stats, now)[h], selected, more) && InOrder(more, now)
  {
    hide Judge, Remembers, InOrder;
    UnknownIs(p, s.held[h], now);
    StaysInOrder(seen, s.clock, now);
    JudgeIs(p, s.held[h], selected, seen, stats(h).value, now);
    OneMoreReading(seen, stats(h).value, now);
  }

  lemma ChosenOrHeld(p: Policy, s: State, now: Time, h: Hub)
    requires Measures(s, now) && h in s.held
    ensures h in Step(p, s, Choose(now)).held && Step(p, s, Choose(now)).held[h] == s.held[h]
  {
    hide AllEligible, Picks;
    PicksFrom(s.candidates, s.held, s.bad, p.backoff, now, p.want - |s.held|);
  }

  lemma OnlyChosenIsNew(p: Policy, s: State, e: Event, h: Hub)
    requires h !in s.held && h in Step(p, s, e).held
    ensures e.Choose? && Measures(s, e.now) && Step(p, s, e).held[h] == HubState(e.now, false, 0, None) && Step(p, s, e).clock == e.now
  {
    hide Judge, Picks, Dedup, Marked;
  }

  lemma StaysInOrder(seen: seq<Seen>, now: Time, later: Time)
    requires InOrder(seen, now) && now <= later
    ensures InOrder(seen, later)
  {
  }

  lemma OneMoreReading(seen: seq<Seen>, x: Stat, now: Time)
    requires InOrder(seen, now)
    ensures InOrder(seen + [Reading(now, x)], now)
  {
  }

  lemma UpRemembers(st: HubState, selected: Time, seen: seq<Seen>, now: Time)
    requires Remembers(st, selected, seen) && InOrder(seen, now)
    ensures Remembers(st.(announced := true), selected, seen + [Up]) && InOrder(seen + [Up], now)
  {
    var more := seen + [Up];
    RiseMore(seen, Up);
    assert SaidUp(more[|seen|]);
    if st.lastRx > 0 {
      var k :| 0 <= k < |seen| && seen[k].Reading? && seen[k].stat.rx == st.lastRx;
      assert more[k] == seen[k];
    }
    if st.lastData.Some? {
      var k: nat :| LastRise(seen, k) && seen[k].at == st.lastData.value;
      assert Rise(more, k) && more[k] == seen[k];
      assert LastRise(more, k);
    }
  }

  lemma NewIsRemembered(selected: Time, now: Time)
    ensures Remembers(HubState(selected, false, 0, None), selected, []) && InOrder([], now)
  {
  }

  /**
   * Over every run, at a check: a held hub the node does not know is forgotten, without a mark; one that it knows is
   * given up, and marked with the time of the check, if and only if it is disconnected for longer than the grace, or
   * brought no data for longer than the silence. All else stays as it was.
   */
  lemma GivenUpExactly(p: Policy, hubs: seq<Hub>, events: seq<Event>, now: Time, stats: Hub -> Option<Stat>, h: Hub)
    requires var s := Run(p, Start(hubs), events); Measures(s, now) && h in s.held
    ensures var s := Run(p, Start(hubs), events);
            var s' := Step(p, s, Check(now, stats));
            && SelectedAt(p, hubs, events, h).Some?
            && var given := stats(h).Some? && GivesUp(p, SelectedAt(p, hubs, events, h).value,
                                             History(p, hubs, events, h) + [Reading(now, stats(h).value)], stats(h).value.connected, now);
            && (h !in s'.held <==> stats(h).None? || given)
            && (given ==> h in s'.bad && s'.bad[h] == now)
            && (!given ==> (h in s'.bad <==> h in s.bad) && (h in s.bad ==> s'.bad[h] == s.bad[h]))
            && s'.held.Keys <= s.held.Keys
            && (exists out: set<Hub> :: s'.log == s.log + [GivenUp(out, now, now)] && (h in out <==> given))
  {
    hide Judge, Remembers, GivesUp, Run;
    RunRemembers(p, hubs, events);
    var s := Run(p, Start(hubs), events);
    var selected, seen := SelectedAt(p, hubs, events, h).value, History(p, hubs, events, h);
    StaysInOrder(seen, s.clock, now);
    if stats(h).Some? { JudgeIs(p, s.held[h], selected, seen, stats(h).value, now); } else { UnknownIs(p, s.held[h], now); }
    KeptSmaller(p, s.held, stats, now);
    assert Step(p, s, Check(now, stats)).log == s.log + [GivenUp(Dropped(p, s.held, stats, now), now, now)];
  }

  lemma UnknownIs(p: Policy, st: HubState, now: Time)
    ensures Judge(p, st, None, now) == Unknown
  {
  }

  /** A held hub only goes at a check, as above, or when its connection is refused. */
  lemma LeavesOnlyThen(p: Policy, hubs: seq<Hub>, events: seq<Event>, e: Event, h: Hub)
    requires h in Run(p, Start(hubs), events).held && !e.Check?
    ensures var s := Run(p, Start(hubs), events);
            h !in Step(p, s, e).held <==> e.Connect? && !e.ok && s.clock <= e.now && s.pending != [] && s.pending[0] == h
  {
    hide Picks, Dedup, Marked, Run;
    if e.Choose? && Measures(Run(p, Start(hubs), events), e.now) { ChosenOrHeld(p, Run(p, Start(hubs), events), e.now, h); }
  }

  /** A connected hub whose counter rose since it was last looked at stays. */
  lemma LiveHubStays(p: Policy, hubs: seq<Hub>, events: seq<Event>, now: Time, stats: Hub -> Option<Stat>, h: Hub)
    requires var s := Run(p, Start(hubs), events); Measures(s, now) && h in s.held
    requires p.silence >= 0 && stats(h).Some? && stats(h).value.connected
    requires Rise(History(p, hubs, events, h) + [Reading(now, stats(h).value)], |History(p, hubs, events, h)|)
    ensures h in Step(p, Run(p, Start(hubs), events), Check(now, stats)).held
  {
    hide Run, Step;
    GivenUpExactly(p, hubs, events, now, stats, h);
  }

  // ----- which hubs are selected -------------------------------------------------------------------

  /** Every stamp is one the log tells of. */
  ghost predicate FromLog(log: seq<Entry>, bad: Bad) {
    forall h | h in bad :: exists i :: GaveUp(log, i, h) && log[i].stamp == bad[h]
  }

  predicate GaveUp(log: seq<Entry>, i: int, h: Hub) {
    0 <= i < |log| && log[i].GivenUp? && h in log[i].hubs
  }

  /** h is not held, and whenever it was given up, the back-off since that stamp is over. */
  ghost predicate Free(p: Policy, s: State, now: Time, h: Hub) {
    h !in s.held && forall i | GaveUp(s.log, i, h) :: now - s.log[i].stamp >= p.backoff
  }

  lemma FromLogMore(log: seq<Entry>, bad: Bad, entry: Entry)
    requires FromLog(log, bad)
    ensures FromLog(log + [entry], bad)
    ensures entry.GivenUp? ==> FromLog(log + [entry], Marked(bad, entry.hubs, entry.stamp))
  {
    var more := log + [entry];
    forall h | h in bad ensures exists i :: GaveUp(more, i, h) && more[i].stamp == bad[h] {
      var i :| GaveUp(log, i, h) && log[i].stamp == bad[h];
      assert more[i] == log[i] && GaveUp(more, i, h);
    }
    if entry.GivenUp? {
      forall h | h in entry.hubs ensures exists i :: GaveUp(more, i, h) && more[i].stamp == entry.stamp {
        assert more[|log|] == entry && GaveUp(more, |log|, h);
      }
    }
  }

  lemma {:induction false} RunFromLog(p: Policy, hubs: seq<Hub>, events: seq<Event>)
    ensures var s := Run(p, Start(hubs), events); FromLog(s.log, s.bad)
  {
    hide FromLog, Kept, Dropped, Marked, Picks, Adding, Dedup;
    if events == [] {
      NothingMarked();
    } else {
      var s, e := Run(p, Start(hubs), events[..|events| - 1]), events[|events| - 1];
      RunFromLog(p, hubs, events[..|events| - 1]);
      match e
      case Check(now, stats) => FromLogMore(s.log, s.bad, GivenUp(Dropped(p, s.held, stats, now), now, now));
      case Choose(now) => FromLogMore(s.log, s.bad, Chosen(Picks(s.candidates, s.held, s.bad, p.backoff, now, p.want - |s.held|), now));
      case Connect(ok, now) => if s.pending != [] { FromLogMore(s.log, s.bad, GivenUp({s.pending[0]}, now, s.since)); }
      case _ =>
    }
  }

  lemma NothingMarked()
    ensures FromLog([], map[])
  {
  }

  /** The mark of a hub says all that the log does. */
  lemma FreeIsEligible(p: Policy, s: State, now: Time, h: Hub)
    requires FromLog(s.log, s.bad) && Stamped(s.log, s.bad)
    ensures Free(p, s, now, h) <==> Eligible(s.held, s.bad, p.backoff, now, h)
  {
    if h in s.bad {
      var i :| GaveUp(s.log, i, h) && s.log[i].stamp == s.bad[h];
    }
  }

  /** How many of the first k candidates are free. */
  ghost function FreeAmong(p: Policy, s: State, now: Time, k: nat): nat
    requires k <= |s.candidates|
  {
    if k == 0 then 0 else FreeAmong(p, s, now, k - 1) + (if Free(p, s, now, s.candidates[k - 1]) then 1 else 0)
  }

  lemma {:induction false} FreeAmongIs(p: Policy, s: State, now: Time, k: nat)
    requires k <= |s.candidates| && FromLog(s.log, s.bad) && Stamped(s.log, s.bad)
    ensures FreeAmong(p, s, now, k) == |AllEligible(s.candidates[..k], s.held, s.bad, p.backoff, now)|
  {
    hide Eligible, FromLog, Stamped, Free;
    if k > 0 {
      FreeAmongIs(p, s, now, k - 1);
      FreeIsEligible(p, s, now, s.candidates[k - 1]);
      assert s.candidates[..k][..k - 1] == s.candidates[..k - 1];
    }
  }

  /**
   * Over every run, a selection takes a candidate if and only if it is not held, the back-off since each stamp it was
   * given up with is over, and fewer than the missing number of such candidates come before it in the list.
   */
  lemma SelectedExactly(p: Policy, hubs: seq<Hub>, events: seq<Event>, now: Time, k: nat)
    requires var s := Run(p, Start(hubs), events); Measures(s, now) && k < |s.candidates|
    ensures var s := Run(p, Start(hubs), events);
            var s', h := Step(p, s, Choose(now)), s.candidates[k];
            && (h in s'.held && h !in s.held <==> Free(p, s, now, h) && FreeAmong(p, s, now, k) < p.want - |s.held|)
            && (h in s'.held && h !in s.held ==> s'.held[h] == HubState(now, false, 0, None))
            && (h in s.held ==> h in s'.held && s'.held[h] == s.held[h])
  {
    hide Run, Picks, Eligible, AllEligible, FromLog, Stamped, Free, FreeAmong, Adding;
    RunKeepsInv(p, hubs, events);
    RunFromLog(p, hubs, events);
    var s := Run(p, Start(hubs), events);
    InvFacts(p, s);
    FreeIsEligible(p, s, now, s.candidates[k]);
    FreeAmongIs(p, s, now, k);
    PickedInListOrder(s.candidates, k, s.held, s.bad, p.backoff, now, p.want - |s.held|);
    AddedAre(p, s, now, s.candidates[k]);
  }

  lemma InvFacts(p: Policy, s: State)
    requires Inv(p, s)
    ensures Stamped(s.log, s.bad) && Distinct(s.candidates)
  {
    hide Stamped;
  }

  lemma AddedAre(p: Policy, s: State, now: Time, h: Hub)
    ensures var picks := Picks(s.candidates, s.held, s.bad, p.backoff, now, p.want - |s.held|);
            var held := Adding(s.held, picks, now);
            && (h in held && h !in s.held <==> h in picks)
            && (h in picks ==> held[h] == HubState(now, false, 0, None))
            && (h in s.held ==> h in held && held[h] == s.held[h])
  {
    hide Picks, AllEligible;
    PicksFrom(s.candidates, s.held, s.bad, p.backoff, now, p.want - |s.held|);
  }

  /** Zero settings are the defaults, and the others are taken as they are. */
  lemma DefaultsAre(p: Policy)
    ensures WithDefaults(Policy(0, 0, 0, 0)) == Policy(3, 20, 90, 1800)
    ensures p.want != 0 && p.grace != 0 && p.silence != 0 && p.backoff != 0 ==> WithDefaults(p) == p
    ensures WithDefaults(WithDefaults(p)) == WithDefaults(p)
  {
  }
}
