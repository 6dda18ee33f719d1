/** The persistent queue of sends waiting for a channel, and the pass that retries them. */
module SendQueue {
  import opened Basics

  type Id = string

  /** clip is None for a nil slice: the item is then a send of files. */
  datatype Queued = Queued(
    id: Id, peer: string, name: string, paths: seq<string>, clip: Option<Bytes>, added: nat, reason: string, tries: nat)

  /**
   * What a send comes to: it went through; the peer was not reached; it was refused, by the peer or because a file is
   * missing; or it was cut off, cancelled while dialling or by a connection lost after that.
   */
  datatype Result = Sent | Unreachable | Refused | Interrupted

  datatype Payload = Files(paths: seq<string>) | Clipboard(data: Bytes, mime: string)

  // ----- the list on disk -------------------------------------------------------------

  /** An item as it reads back: an empty clip is left out of the file, so it comes back nil. */
  function Stored(item: Queued): Queued {
    if item.clip == Some([]) then item.(clip := None) else item
  }

  function Ids(q: seq<Queued>): seq<Id> {
    seq(|q|, i requires 0 <= i < |q| => q[i].id)
  }

  predicate Distinct(q: seq<Queued>) {
    forall i, j | 0 <= i < j < |q| :: q[i].id != q[j].id
  }

  /** What the runner sends for an item. */
  function PayloadOf(item: Queued): Payload {
    if item.clip.Some? then Clipboard(item.clip.value, "text/plain") else Files(item.paths)
  }

  /** The payload is all the item holds: its clip as plain text, or else exactly its paths. */
  predicate Carries(payload: Payload, item: Queued) {
    match item.clip
    case Some(data) => payload.Clipboard? && payload.data == data && payload.mime == "text/plain"
    case None => payload.Files? && payload.paths == item.paths
  }

  /** Sending no files fails before any peer is dialled. */
  function Outcome(item: Queued, result: Result): Result {
    if PayloadOf(item) == Files([]) then Refused else result
  }

  function Without(q: seq<Queued>, id: Id): seq<Queued> {
    if q == [] then [] else if q[0].id == id then q[1..] else [q[0]] + Without(q[1..], id)
  }

  function Retried(item: Queued, reason: string): Queued {
    item.(tries := item.tries + 1, reason := reason)
  }

  function Marked(q: seq<Queued>, id: Id, reason: string): seq<Queued> {
    if q == [] then []
    else if q[0].id == id then [Retried(q[0], reason)] + q[1..]
    else [q[0]] + Marked(q[1..], id, reason)
  }

  function Settled(q: seq<Queued>, id: Id, result: Result, reason: string): seq<Queued> {
    if result == Unreachable then Marked(q, id, reason) else Without(q, id)
  }

  /** What a whole pass leaves: the items not reached, with one more try. */
  function Survivors(q: seq<Queued>, outcome: Id -> Result, reason: Id -> string): seq<Queued> {
    if q == [] then []
    else
      var last := q[|q| - 1];
      Survivors(q[..|q| - 1], outcome, reason)
      + (if Outcome(last, outcome(last.id)) == Unreachable then [Retried(last, reason(last.id))] else [])
  }

  class Queue {
    var disk: seq<Queued>

    constructor ()
      ensures disk == []
    {
      disk := [];
    }

    method Enqueue(item: Queued, id: Id, now: nat) returns (queued: Queued)
      modifies this
      ensures queued == item.(id := id, added := now)
      ensures disk == old(disk) + [Stored(queued)]
    {
      queued := item.(id := id, added := now);
      disk := disk + [Stored(queued)];
    }

    method Unqueue(id: Id) returns (ok: bool)
      modifies this
      ensures ok == (id in Ids(old(disk)))
      ensures disk == Without(old(disk), id)
    {
      var i := Find(id);
      WithoutAt(disk, id, i);
      FoundAt(disk, id, i);
      if i == |disk| {
        return false;
      }
      disk := disk[..i] + disk[i + 1..];
      ok := true;
    }

    /** The first item with this id, or the length of the list. */
    method Find(id: Id) returns (i: nat)
      ensures FirstAt(disk, id, i)
    {
      i := 0;
      while i < |disk| && disk[i].id != id
        invariant i <= |disk| && forall j | 0 <= j < i :: disk[j].id != id
      {
        i := i + 1;
      }
    }

    /** The runner's critical section after a send. */
    method Settle(id: Id, result: Result, reason: string)
      modifies this
      ensures disk == Settled(old(disk), id, result, reason)
    {
      var i := Find(id);
      WithoutAt(disk, id, i);
      MarkedAt(disk, id, reason, i);
      if i < |disk| {
        if result == Unreachable {
          disk := disk[i := Retried(disk[i], reason)];
        } else {
          disk := disk[..i] + disk[i + 1..];
        }
      }
    }

    /**
     * A pass during which nobody else touches the queue, cancelled before item stop if there are that many. A pass
     * that is cancelled inside a send is one where that send comes out Interrupted and stop is the item after it.
     */
    method RetryPass(outcome: Id -> Result, reason: Id -> string, stop: nat) returns (sent: seq<(Id, Payload)>)
      requires Distinct(disk)
      modifies this
      ensures |sent| == Min(stop, |old(disk)|)
      ensures disk == Survivors(old(disk)[..|sent|], outcome, reason) + old(disk)[|sent|..]
      ensures forall i | 0 <= i < |sent| :: sent[i].0 == old(disk)[i].id && Carries(sent[i].1, old(disk)[i])
    {
      hide Survivors, Settled, Outcome, PayloadOf, Distinct, Carries;
      var q := disk;
      sent := [];
      var k := 0;
      NoSurvivors(outcome, reason);
      assert q[..0] == [] && q[0..] == q;
      while k < |q| && k < stop
        invariant k <= |q| && k <= stop && |sent| == k
        invariant disk == Survivors(q[..k], outcome, reason) + q[k..]
        invariant forall i | 0 <= i < k :: sent[i].0 == q[i].id && Carries(sent[i].1, q[i])
      {
        var it := q[k];
        sent := sent + [(it.id, PayloadOf(it))];
        PayloadCarries(it);
        SettleNext(q, k, outcome, reason);
        Settle(it.id, Outcome(it, outcome(it.id)), reason(it.id));
        k := k + 1;
      }
    }
  }

  // ----- facts about the list ------------------------------------------------------------

  lemma PayloadCarries(item: Queued)
    ensures Carries(PayloadOf(item), item)
  {
  }

  /**
   * What a pass leaves of the items it tried: those that were not reached, with one more try and the reason. (A send
   * of no files is refused.)
   */
  lemma {:induction false} SurvivorIs(q: seq<Queued>, outcome: Id -> Result, reason: Id -> string, x: Queued)
    ensures x in Survivors(q, outcome, reason) <==>
      exists y :: y in q && outcome(y.id) == Unreachable && !(y.clip == None && y.paths == [])
                  && x == y.(tries := y.tries + 1, reason := reason(y.id))
  {
    if q != [] {
      var init, last := q[..|q| - 1], q[|q| - 1];
      SurvivorIs(init, outcome, reason, x);
      assert q == init + [last];
      LastSurvives(last, outcome(last.id), reason(last.id), x);
    }
  }

  lemma LastSurvives(last: Queued, result: Result, reason: string, x: Queued)
    ensures Outcome(last, result) == Unreachable && x == Retried(last, reason) <==>
      result == Unreachable && !(last.clip == None && last.paths == []) && x == last.(tries := last.tries + 1, reason := reason)
  {
  }

  predicate FirstAt(q: seq<Queued>, id: Id, i: nat) {
    i <= |q| && (i < |q| ==> q[i].id == id) && forall j | 0 <= j < i :: q[j].id != id
  }

  lemma FoundAt(q: seq<Queued>, id: Id, i: nat)
    requires FirstAt(q, id, i)
    ensures (i < |q|) == (id in Ids(q))
  {
    assert i < |q| ==> Ids(q)[i] == id;
  }

  lemma {:induction false} WithoutAt(q: seq<Queued>, id: Id, i: nat)
    requires FirstAt(q, id, i)
    ensures Without(q, id) == if i < |q| then q[..i] + q[i + 1..] else q
  {
    if i > 0 {
      var t := q[1..];
      assert forall j | 0 <= j < i - 1 :: t[j] == q[j + 1];
      WithoutAt(t, id, i - 1);
      OneDropped(q, i);
    }
  }

  lemma OneDropped(q: seq<Queued>, i: nat)
    requires 0 < i <= |q|
    ensures [q[0]] + (if i < |q| then q[1..][..i - 1] + q[1..][i..] else q[1..]) == if i < |q| then q[..i] + q[i + 1..] else q
  {
  }

  lemma {:induction false} MarkedAt(q: seq<Queued>, id: Id, reason: string, i: nat)
    requires FirstAt(q, id, i)
    ensures Marked(q, id, reason) == if i < |q| then q[i := Retried(q[i], reason)] else q
  {
    if i > 0 {
      var t := q[1..];
      assert forall j | 0 <= j < i - 1 :: t[j] == q[j + 1];
      MarkedAt(t, id, reason, i - 1);
    }
  }

  /** Survivors keep their ids, so none has the id of a later item. */
  lemma {:induction false} SurvivorsFrom(q: seq<Queued>, outcome: Id -> Result, reason: Id -> string, id: Id)
    requires forall i | 0 <= i < |q| :: q[i].id != id
    ensures forall x | x in Survivors(q, outcome, reason) :: x.id != id
  {
    if q != [] {
      SurvivorsFrom(q[..|q| - 1], outcome, reason, id);
    }
  }

  lemma NoSurvivors(outcome: Id -> Result, reason: Id -> string)
    ensures Survivors([], outcome, reason) == []
  {
  }

  lemma SettleAt(head: seq<Queued>, it: Queued, tail: seq<Queued>, result: Result, reason: string)
    requires forall x | x in head :: x.id != it.id
    ensures Settled(head + [it] + tail, it.id, result, reason)
            == head + (if result == Unreachable then [Retried(it, reason)] else []) + tail
  {
    hide Without, Marked, Retried;
    var cur := head + [it] + tail;
    assert forall j | 0 <= j < |head| :: cur[j] == head[j] && head[j] in head;
    assert FirstAt(cur, it.id, |head|);
    WithoutAt(cur, it.id, |head|);
    MarkedAt(cur, it.id, reason, |head|);
    assert cur[..|head|] == head && cur[|head| + 1..] == tail;
    assert cur[|head| := Retried(it, reason)] == head + [Retried(it, reason)] + tail;
  }

  lemma SettleNext(q: seq<Queued>, k: nat, outcome: Id -> Result, reason: Id -> string)
    requires k < |q| && Distinct(q)
    ensures Settled(Survivors(q[..k], outcome, reason) + q[k..], q[k].id, Outcome(q[k], outcome(q[k].id)), reason(q[k].id))
            == Survivors(q[..k + 1], outcome, reason) + q[k + 1..]
  {
    hide Outcome, Retried, Settled;
    var head, it := Survivors(q[..k], outcome, reason), q[k];
    SurvivorsFrom(q[..k], outcome, reason, it.id);
    SettleAt(head, it, q[k + 1..], Outcome(it, outcome(it.id)), reason(it.id));
    assert q[..k + 1][..k] == q[..k];
    assert head + q[k..] == head + [it] + q[k + 1..];
  }

  // ----- the queue over a whole run --------------------------------------------------------

  /** The runner between its critical sections: the rest of its snapshot, and the send just made. */
  datatype Runner =
    | Waiting
    | Passing(rest: seq<Queued>)
    | Settling(item: Queued, result: Result, rest: seq<Queued>)

  datatype Gone = BySuccess | ByRefusal | ByInterruption | ByUser

  /** Why an item leaves the list when a send of it that ended so is settled. */
  function Leaving(result: Result): Gone
    requires result != Unreachable
  {
    match result
    case Sent => BySuccess
    case Refused => ByRefusal
    case Interrupted => ByInterruption
  }

  datatype Attempt = Attempt(id: Id, peer: string, payload: Payload, result: Result)

  /**
   * added, gone and attempts are history: every item ever queued, why it left, every send made.
   * lost holds the ids whose outcome was forgotten because the daemon stopped before noting it.
   */
  datatype State = State(
    disk: seq<Queued>, runner: Runner,
    added: seq<Queued>, gone: map<Id, Gone>, attempts: seq<Attempt>, lost: set<Id>)

  datatype Event =
    | Enqueue(item: Queued)
    | Unqueue(id: Id)
    | StartPass
    | Send(result: Result)
    | Settle(reason: string)
    | EndPass
    | Restart

  const START := State([], Waiting, [], map[], [], {})

  /** One step; an event that is not possible changes nothing, and ids are fresh. */
  function Step(s: State, e: Event): State {
    match e
    case Enqueue(item) =>
      if item.id in Ids(s.added) then s
      else s.(disk := s.disk + [Stored(item)], added := s.added + [Stored(item)])
    case Unqueue(id) =>
      if id !in Ids(s.disk) then s else s.(disk := Without(s.disk, id), gone := s.gone[id := ByUser])
    case StartPass => if s.runner.Waiting? then s.(runner := Passing(s.disk)) else s
    case Send(result) =>
      if s.runner.Passing? && s.runner.rest != [] then
        var it := s.runner.rest[0];
        var r := Outcome(it, result);
        s.(runner := Settling(it, r, s.runner.rest[1..]),
           attempts := s.attempts + [Attempt(it.id, it.peer, PayloadOf(it), r)])
      else s
    case Settle(reason) =>
      if s.runner.Settling? then
        var it, r := s.runner.item, s.runner.result;
        s.(disk := Settled(s.disk, it.id, r, reason), runner := Passing(s.runner.rest),
           gone := if r == Unreachable || it.id !in Ids(s.disk) then s.gone
                   else s.gone[it.id := Leaving(r)])
      else s
    case EndPass => if s.runner.Passing? then s.(runner := Waiting) else s
    case Restart =>
      s.(runner := Waiting, lost := if s.runner.Settling? then s.lost + {s.runner.item.id} else s.lost)
  }

  function Run(s: State, events: seq<Event>): State {
    if events == [] then s else Step(Run(s, events[..|events| - 1]), events[|events| - 1])
  }

  /** The items ever added that are not gone, in the order they were added. */
  function Remaining(added: seq<Queued>, gone: map<Id, Gone>): seq<Queued> {
    if added == [] then []
    else
      (if added[0].id in gone then [] else [added[0]]) + Remaining(added[1..], gone)
  }

  /** The same send: only the reason and the number of tries differ. */
  predicate SameSend(a: Queued, b: Queued) {
    a == b.(reason := a.reason, tries := a.tries)
  }

  predicate SameSends(a: seq<Queued>, b: seq<Queued>) {
    |a| == |b| && forall i | 0 <= i < |a| :: SameSend(a[i], b[i])
  }

  // ----- conservation ------------------------------------------------------------------

  lemma {:induction false} RemainingAppend(added: seq<Queued>, gone: map<Id, Gone>, item: Queued)
    requires item.id !in gone
    ensures Remaining(added + [item], gone) == Remaining(added, gone) + [item]
  {
    if added != [] {
      RemainingAppend(added[1..], gone, item);
      assert (added + [item])[1..] == added[1..] + [item];
    }
  }

  lemma {:induction false} RemainingSame(added: seq<Queued>, gone: map<Id, Gone>, id: Id, g: Gone)
    requires forall i | 0 <= i < |added| :: added[i].id != id
    ensures Remaining(added, gone[id := g]) == Remaining(added, gone)
  {
    if added != [] {
      RemainingSame(added[1..], gone, id, g);
    }
  }

  /** Taking an item off the list is forgetting it among those ever added. */
  lemma {:induction false} RemainingDrop(added: seq<Queued>, gone: map<Id, Gone>, id: Id, g: Gone)
    requires Distinct(added) && id !in gone
    ensures Without(Remaining(added, gone), id) == Remaining(added, gone[id := g])
  {
    if added != [] {
      var t := added[1..];
      assert forall i | 0 <= i < |t| :: t[i] == added[i + 1];
      if added[0].id == id {
        RemainingSame(t, gone, id, g);
        assert ([added[0]] + Remaining(t, gone))[1..] == Remaining(t, gone);
      } else {
        RemainingDrop(t, gone, id, g);
        if added[0].id in gone {
          assert Remaining(added, gone) == Remaining(t, gone);
        } else {
          assert ([added[0]] + Remaining(t, gone))[1..] == Remaining(t, gone);
        }
      }
    }
  }

  lemma {:induction false} RemainingIds(added: seq<Queued>, gone: map<Id, Gone>, id: Id)
    ensures (id in Ids(Remaining(added, gone))) == (id in Ids(added) && id !in gone)
  {
    if added != [] {
      RemainingIds(added[1..], gone, id);
      IdsConcat([added[0]], added[1..]);
      assert [added[0]] + added[1..] == added;
      IdsConcat(if added[0].id in gone then [] else [added[0]], Remaining(added[1..], gone));
    }
  }

  lemma IdsConcat(a: seq<Queued>, b: seq<Queued>)
    ensures Ids(a + b) == Ids(a) + Ids(b)
  {
  }

  /** Whatever is queued, in any position, comes from the items added. */
  lemma {:induction false} RemainingFrom(added: seq<Queued>, gone: map<Id, Gone>)
    ensures forall x | x in Remaining(added, gone) :: x in added
    ensures Distinct(added) ==> Distinct(Remaining(added, gone))
  {
    if added != [] {
      var t := added[1..];
      RemainingFrom(t, gone);
      if Distinct(added) {
        assert forall i | 0 <= i < |t| :: t[i] == added[i + 1];
        var r := Remaining(t, gone);
        forall i | 0 <= i < |r| ensures r[i].id != added[0].id {
          assert r[i] in t;
        }
      }
    }
  }

  lemma {:induction false} SameWithout(a: seq<Queued>, b: seq<Queued>, id: Id)
    requires SameSends(a, b)
    ensures SameSends(Without(a, id), Without(b, id))
  {
    if a != [] {
      assert SameSend(a[0], b[0]);
      var t, u := a[1..], b[1..];
      assert forall i | 0 <= i < |t| :: t[i] == a[i + 1] && u[i] == b[i + 1];
      SameWithout(t, u, id);
    }
  }

  lemma SameIds(a: seq<Queued>, b: seq<Queued>)
    requires SameSends(a, b)
    ensures Ids(a) == Ids(b)
  {
    assert forall i | 0 <= i < |a| :: SameSend(a[i], b[i]);
  }

  lemma {:induction false} SameMarked(a: seq<Queued>, b: seq<Queued>, id: Id, reason: string)
    requires SameSends(a, b)
    ensures SameSends(Marked(a, id, reason), b)
  {
    if a != [] && a[0].id != id {
      assert SameSend(a[0], b[0]);
      var t, u := a[1..], b[1..];
      assert forall i | 0 <= i < |t| :: t[i] == a[i + 1] && u[i] == b[i + 1];
      SameMarked(t, u, id, reason);
    }
  }

  ghost predicate Conserved(s: State) {
    && Distinct(s.added) && SameSends(s.disk, Remaining(s.added, s.gone))
    && forall id | id in s.gone :: id in Ids(s.added)
  }

  lemma LeaveKeeps(s: State, id: Id, g: Gone)
    requires Conserved(s) && id in Ids(s.disk)
    ensures Conserved(s.(disk := Without(s.disk, id), gone := s.gone[id := g])) && id in Ids(s.added) && id !in s.gone
  {
    hide Distinct, Without, SameSends, Remaining, Ids;
    SameWithout(s.disk, Remaining(s.added, s.gone), id);
    SameIds(s.disk, Remaining(s.added, s.gone));
    RemainingIds(s.added, s.gone, id);
    RemainingDrop(s.added, s.gone, id, g);
  }

  lemma AbsentStays(s: State, id: Id)
    requires id !in Ids(s.disk)
    ensures Without(s.disk, id) == s.disk
  {
    assert forall j | 0 <= j < |s.disk| :: Ids(s.disk)[j] == s.disk[j].id;
    WithoutAt(s.disk, id, |s.disk|);
  }

  lemma StepConserves(s: State, e: Event)
    requires Conserved(s)
    ensures Conserved(Step(s, e))
  {
    hide Without, Remaining, Marked, Ids;
    match e
    case Enqueue(item) =>
      if item.id !in Ids(s.added) {
        EnqueueConserves(s, item);
      }
    case Unqueue(id) =>
      if id in Ids(s.disk) { LeaveKeeps(s, id, ByUser); }
    case Settle(reason) =>
      if s.runner.Settling? {
        var id, r := s.runner.item.id, s.runner.result;
        if r == Unreachable {
          SameMarked(s.disk, Remaining(s.added, s.gone), id, reason);
        } else if id in Ids(s.disk) {
          LeaveKeeps(s, id, Leaving(r));
        } else {
          AbsentStays(s, id);
        }
      }
    case _ =>
  }

  lemma EnqueueConserves(s: State, item: Queued)
    requires Conserved(s) && item.id !in Ids(s.added)
    ensures Conserved(s.(disk := s.disk + [Stored(item)], added := s.added + [Stored(item)]))
  {
    hide Remaining;
    var x := Stored(item);
    RemainingAppend(s.added, s.gone, x);
    IdsConcat(s.added, [x]);
    assert forall j | 0 <= j < |s.added| :: Ids(s.added)[j] == s.added[j].id;
  }

  // ----- attempts -------------------------------------------------------------------------

  function Rest(r: Runner): seq<Queued> {
    if r.Waiting? then [] else r.rest
  }

  /** x was queued: some item added is the same send. */
  ghost predicate FromAdded(s: State, x: Queued) {
    exists y :: y in s.added && SameSend(x, y)
  }

  ghost predicate RunnerOk(s: State) {
    && Distinct(Rest(s.runner))
    && (forall x | x in Rest(s.runner) :: FromAdded(s, x))
    && (s.runner.Settling? ==>
          && FromAdded(s, s.runner.item)
          && s.runner.item.id !in Ids(s.runner.rest)
          && Attempt(s.runner.item.id, s.runner.item.peer, PayloadOf(s.runner.item), s.runner.result) in s.attempts)
  }

  /** The send of id came to an end that is not retried: it is off the list, or about to be. */
  ghost predicate Finished(s: State, id: Id) {
    || id in s.lost
    || (&& id !in Ids(Rest(s.runner))
        && (id in s.gone || (s.runner.Settling? && s.runner.item.id == id && s.runner.result != Unreachable)))
  }

  ghost predicate AttemptsOk(s: State) {
    && (forall a | a in s.attempts && a.result != Unreachable :: Finished(s, a.id))
    && (forall a | a in s.attempts :: exists x :: x in s.added && a.id == x.id && a.peer == x.peer && a.payload == PayloadOf(x))
  }

  ghost predicate OnceOk(s: State) {
    forall i, j | 0 <= i < j < |s.attempts| && s.attempts[i].id == s.attempts[j].id ::
      s.attempts[i].result == Unreachable || s.attempts[i].id in s.lost
  }

  ghost predicate Attempted(s: State, id: Id, result: Result) {
    exists a :: a in s.attempts && a.id == id && a.result == result
  }

  ghost predicate GoneOk(s: State) {
    forall id | id in s.gone ::
      && (s.gone[id] == BySuccess ==> Attempted(s, id, Sent))
      && (s.gone[id] == ByRefusal ==> Attempted(s, id, Refused))
      && (s.gone[id] == ByInterruption ==> Attempted(s, id, Interrupted))
  }

  ghost predicate Inv(s: State) {
    Conserved(s) && RunnerOk(s) && AttemptsOk(s) && OnceOk(s) && GoneOk(s)
  }

  /** Everything on the list was queued; ids in the list are exactly those added and not gone. */
  lemma DiskFacts(s: State)
    requires Conserved(s)
    ensures Distinct(s.disk)
    ensures forall x | x in s.disk :: FromAdded(s, x)
    ensures forall id :: (id in Ids(s.disk)) == (id in Ids(s.added) && id !in s.gone)
  {
    hide Remaining, Without;
    var r := Remaining(s.added, s.gone);
    RemainingFrom(s.added, s.gone);
    forall x | x in s.disk ensures FromAdded(s, x) {
      var i :| 0 <= i < |s.disk| && s.disk[i] == x;
      assert r[i] in r;
    }
    forall id ensures (id in Ids(s.disk)) == (id in Ids(s.added) && id !in s.gone) {
      RemainingIds(s.added, s.gone, id);
      SameIds(s.disk, r);
    }
  }

  lemma InIds(q: seq<Queued>, x: Queued)
    requires x in q
    ensures x.id in Ids(q)
  {
    var i :| 0 <= i < |q| && q[i] == x;
    assert Ids(q)[i] == x.id;
  }

  lemma StepKeepsRunner(s: State, e: Event)
    requires Inv(s)
    ensures RunnerOk(Step(s, e))
  {
    hide Without, Remaining, Marked, Settled;
    DiskFacts(s);
    var t := Step(s, e);
    assert forall x | FromAdded(s, x) :: FromAdded(t, x);
    if e.Send? && t != s {
      var rest := s.runner.rest;
      assert rest[0] in rest;
      assert forall i | 0 <= i < |rest| - 1 :: Ids(rest[1..])[i] == rest[i + 1].id;
    }
  }

  /** An end is an end: no step brings a finished send back, unless its outcome was forgotten. */
  lemma FinishedStays(s: State, e: Event, id: Id)
    requires Inv(s) && Finished(s, id)
    ensures Finished(Step(s, e), id)
  {
    hide Without, Remaining, Marked, Settled, AttemptsOk, OnceOk, GoneOk, SameSends, SameSend;
    DiskFacts(s);
    if e.Send? && s.runner.Passing? && s.runner.rest != [] {
      IdsConcat([s.runner.rest[0]], s.runner.rest[1..]);
      assert s.runner.rest == [s.runner.rest[0]] + s.runner.rest[1..];
    }
    if e.Settle? && s.runner.Settling? && s.runner.item.id == id {
      SettlingWasAdded(s);
    }
  }

  lemma SettlingWasAdded(s: State)
    requires RunnerOk(s) && s.runner.Settling?
    ensures s.runner.item.id in Ids(s.added)
  {
    var y :| y in s.added && SameSend(s.runner.item, y);
    InIds(s.added, y);
  }

  /** The send about to be made was not made before with a final outcome. */
  lemma SendIsNotRepeated(s: State, a: Attempt)
    requires Inv(s) && s.runner.Passing? && s.runner.rest != [] && a in s.attempts && a.id == s.runner.rest[0].id
    ensures a.result == Unreachable || a.id in s.lost
  {
    assert Ids(s.runner.rest)[0] == a.id;
  }

  lemma StepKeepsAttempts(s: State, e: Event)
    requires Inv(s)
    ensures AttemptsOk(Step(s, e))
  {
    hide Without, Remaining, Marked, Settled, Conserved, OnceOk, GoneOk, Finished, SameSend;
    var t := Step(s, e);
    StepKeepsRunner(s, e);
    forall a | a in s.attempts && a.result != Unreachable ensures Finished(t, a.id) {
      FinishedStays(s, e, a.id);
    }
    if e.Send? && t != s {
      SendFinishes(s, e.result);
      SendFromAdded(s);
    }
  }

  lemma SendFinishes(s: State, result: Result)
    requires RunnerOk(s) && s.runner.Passing? && s.runner.rest != []
    ensures var t := Step(s, Send(result));
            t.runner.result != Unreachable ==> Finished(t, t.runner.item.id)
  {
    var rest := s.runner.rest;
    assert forall i | 0 <= i < |rest| - 1 :: Ids(rest[1..])[i] == rest[i + 1].id;
  }

  lemma SendFromAdded(s: State)
    requires RunnerOk(s) && s.runner.Passing? && s.runner.rest != []
    ensures var it := s.runner.rest[0];
            exists x :: x in s.added && it.id == x.id && it.peer == x.peer && PayloadOf(it) == PayloadOf(x)
  {
    var it := s.runner.rest[0];
    assert FromAdded(s, it);
    var x :| x in s.added && SameSend(it, x);
  }

  lemma StepKeepsOnce(s: State, e: Event)
    requires Inv(s)
    ensures OnceOk(Step(s, e))
  {
    hide Without, Remaining, Marked, Settled, Conserved, RunnerOk, AttemptsOk, GoneOk;
    var t := Step(s, e);
    if e.Send? && t != s {
      forall i | 0 <= i < |s.attempts| && s.attempts[i].id == s.runner.rest[0].id
        ensures s.attempts[i].result == Unreachable || s.attempts[i].id in s.lost
      {
        SendIsNotRepeated(s, s.attempts[i]);
      }
    }
  }

  lemma StepKeepsGone(s: State, e: Event)
    requires Inv(s)
    ensures GoneOk(Step(s, e))
  {
    hide Without, Remaining, Marked, Settled, Conserved, AttemptsOk, OnceOk;
    var t := Step(s, e);
    assert forall id, r | Attempted(s, id, r) :: Attempted(t, id, r);
    if e.Settle? && s.runner.Settling? {
      assert Attempted(s, s.runner.item.id, s.runner.result);
    }
  }

  lemma StepKeepsInv(s: State, e: Event)
    requires Inv(s)
    ensures Inv(Step(s, e))
  {
    hide Step, Conserved, RunnerOk, AttemptsOk, OnceOk, GoneOk;
    ConservedOf(s);
    StepConserves(s, e);
    StepKeepsRunner(s, e);
    StepKeepsAttempts(s, e);
    StepKeepsOnce(s, e);
    StepKeepsGone(s, e);
  }

  lemma ConservedOf(s: State)
    requires Inv(s)
    ensures Conserved(s)
  {
  }

  lemma {:induction false} RunKeepsInv(events: seq<Event>)
    ensures Inv(Run(START, events))
  {
    hide Step, Conserved, RunnerOk, AttemptsOk, OnceOk, GoneOk, Inv;
    if events == [] {
      StartInv();
    } else {
      RunKeepsInv(events[..|events| - 1]);
      StepKeepsInv(Run(START, events[..|events| - 1]), events[|events| - 1]);
    }
  }

  lemma StartInv()
    ensures Inv(START)
  {
  }

  // ----- what every run keeps --------------------------------------------------------------

  /**
   * In every interleaving, the list is exactly the items ever queued that have not left it, in
   * the order they were queued, each with its peer and contents unchanged.
   */
  lemma QueueIsConserved(events: seq<Event>)
    ensures var s := Run(START, events);
            && SameSends(s.disk, Remaining(s.added, s.gone))
            && (forall id | id in s.gone :: id in Ids(s.added) && id !in Ids(s.disk))
  {
    hide Step, Remaining;
    RunKeepsInv(events);
    DiskFacts(Run(START, events));
  }

  /** An item that left the list went through, was refused, was cut off, or was taken off by the user. */
  lemma {:induction false} LeavesOnlyForAReason(events: seq<Event>, id: Id)
    requires id in Run(START, events).gone
    ensures var s := Run(START, events);
            match s.gone[id]
            case BySuccess => Attempted(s, id, Sent)
            case ByRefusal => Attempted(s, id, Refused)
            case ByInterruption => Attempted(s, id, Interrupted)
            case ByUser => Unqueue(id) in events
  {
    hide Without, Remaining, Settled;
    RunKeepsInv(events);
    assert GoneOk(Run(START, events));
    if events != [] {
      var init := events[..|events| - 1];
      var v, e := Run(START, init), events[|events| - 1];
      assert forall x | x in init :: x in events;
      assert e in events;
      if id in v.gone && v.gone[id] == ByUser {
        LeavesOnlyForAReason(init, id);
      }
    }
  }

  // ----- exactly how an item leaves ----------------------------------------------------------

  /** In s, the event takes the item off the list, for this reason. */
  predicate Takes(s: State, e: Event, id: Id, g: Gone) {
    id in Ids(s.disk)
    && if g == ByUser then e == Unqueue(id)
       else e.Settle? && s.runner.Settling? && s.runner.item.id == id
            && s.runner.result != Unreachable && Leaving(s.runner.result) == g
  }

  ghost predicate Left(events: seq<Event>, id: Id, g: Gone) {
    exists k :: 0 <= k < |events| && Takes(Run(START, events[..k]), events[k], id, g)
  }

  lemma StepLeaves(s: State, e: Event, id: Id, g: Gone)
    requires Inv(s)
    ensures (id in Step(s, e).gone && Step(s, e).gone[id] == g) <==> (id in s.gone && s.gone[id] == g) || Takes(s, e, id, g)
  {
    hide Without, Remaining, Settled, RunnerOk, AttemptsOk, OnceOk, GoneOk, Conserved;
    ConservedOf(s);
    DiskFacts(s);
  }

  lemma {:induction false} GoneExactly(events: seq<Event>, id: Id, g: Gone)
    ensures var s := Run(START, events); (id in s.gone && s.gone[id] == g) <==> Left(events, id, g)
  {
    hide Step, Takes, Inv;
    if events != [] {
      var init, e := events[..|events| - 1], events[|events| - 1];
      RunKeepsInv(init);
      GoneExactly(init, id, g);
      StepLeaves(Run(START, init), e, id, g);
      if Left(init, id, g) {
        var k :| 0 <= k < |init| && Takes(Run(START, init[..k]), init[k], id, g);
        assert init[..k] == events[..k] && init[k] == events[k];
      }
      if Left(events, id, g) {
        var k :| 0 <= k < |events| && Takes(Run(START, events[..k]), events[k], id, g);
        if k < |init| { assert init[..k] == events[..k] && init[k] == events[k]; }
      }
    }
  }

  /**
   * The exact condition for losing a send. An item that was queued is off the list, without a send of it that went
   * through or was refused having been settled and without the user having taken it off, if and only if a send of it
   * that was cut off was settled while it was on the list.
   */
  lemma LostExactlyWhenCutOff(events: seq<Event>, id: Id)
    ensures var s := Run(START, events);
            Left(events, id, ByInterruption)
            <==> (&& id in Ids(s.added) && id !in Ids(s.disk)
                  && !Left(events, id, BySuccess) && !Left(events, id, ByRefusal) && !Left(events, id, ByUser))
  {
    hide Run, Left, Inv, Conserved;
    var s := Run(START, events);
    RunKeepsInv(events);
    ConservedOf(s);
    DiskFacts(s);
    GoneExactly(events, id, BySuccess);
    GoneExactly(events, id, ByRefusal);
    GoneExactly(events, id, ByInterruption);
    GoneExactly(events, id, ByUser);
    assert id in s.gone ==> s.gone[id] in {BySuccess, ByRefusal, ByInterruption, ByUser};
  }

  /** It happens: the daemon is stopped while the runner dials, and the item is gone though nobody was reached. */
  lemma CutOffIsLost(item: Queued, reason: string)
    requires item.clip == None && item.paths != []
    ensures var events := [Enqueue(item), StartPass, Send(Interrupted), Settle(reason)];
            var s := Run(START, events);
            && s.disk == [] && s.added == [item] && Left(events, item.id, ByInterruption)
            && forall a | a in s.attempts :: a.result == Interrupted
  {
    hide Run, Takes;
    var events := [Enqueue(item), StartPass, Send(Interrupted), Settle(reason)];
    FirstSend(item, Interrupted);
    var s3 := SentOnce(item, Interrupted);
    var s4 := Step(s3, Settle(reason));
    assert Ids(s3.disk)[0] == item.id;
    assert item.id in Ids(s3.disk);
    RunFour(Enqueue(item), StartPass, Send(Interrupted), Settle(reason));
    assert s4.gone == map[item.id := ByInterruption];
    GoneExactly(events, item.id, ByInterruption);
  }

  /** The state after the first item ever queued has been sent once. */
  function SentOnce(item: Queued, result: Result): State {
    State([item], Settling(item, result, []), [item], map[], [Attempt(item.id, item.peer, PayloadOf(item), result)], {})
  }

  lemma FirstSend(item: Queued, result: Result)
    requires item.clip == None && item.paths != []
    ensures Step(Step(Step(START, Enqueue(item)), StartPass), Send(result)) == SentOnce(item, result)
  {
    var s1 := Step(START, Enqueue(item));
    assert Ids(START.added) == [];
    assert s1.disk == [item] && s1.added == [item];
    assert [item][1..] == [];
    assert Outcome(item, result) == result;
    assert START.attempts + [Attempt(item.id, item.peer, PayloadOf(item), result)]
        == [Attempt(item.id, item.peer, PayloadOf(item), result)];
  }

  lemma RunFour(a: Event, b: Event, c: Event, d: Event)
    ensures Run(START, [a, b, c, d]) == Step(Step(Step(Step(START, a), b), c), d)
  {
    hide Step;
    assert [a, b, c, d][..3] == [a, b, c] && [a, b, c][..2] == [a, b] && [a, b][..1] == [a] && [a][..0] == [];
    assert Run(START, [a]) == Step(START, a);
    assert Run(START, [a, b]) == Step(Step(START, a), b);
    assert Run(START, [a, b, c]) == Step(Run(START, [a, b]), c);
  }

  /**
   * Once gone, gone: what left the list is never on it again and its reason stands.
   */
  lemma {:induction false} NeverReturns(s: State, events: seq<Event>, id: Id)
    requires Inv(s) && id in s.gone
    ensures var t := Run(s, events);
            Inv(t) && id in t.gone && t.gone[id] == s.gone[id] && id !in Ids(t.disk)
  {
    hide Step, Conserved, RunnerOk, AttemptsOk, OnceOk, GoneOk, Takes;
    if events != [] {
      var init := events[..|events| - 1];
      NeverReturns(s, init, id);
      StepKeepsInv(Run(s, init), events[|events| - 1]);
      StepLeaves(Run(s, init), events[|events| - 1], id, s.gone[id]);
    }
    ConservedOf(Run(s, events));
    DiskFacts(Run(s, events));
  }

  /** A send that reached the peer or was cut off is not made again unless the daemon stopped before noting it. */
  lemma FinalSendsAreNotRepeated(events: seq<Event>, i: nat, j: nat)
    requires var s := Run(START, events); i < j < |s.attempts| && s.attempts[i].id == s.attempts[j].id
    ensures var s := Run(START, events);
            s.attempts[i].result == Unreachable || s.attempts[i].id in s.lost
  {
    hide Step, Conserved, RunnerOk, AttemptsOk, GoneOk;
    RunKeepsInv(events);
  }

  lemma OnlyRestartLoses(s: State, e: Event)
    requires e != Restart
    ensures Step(s, e).lost == s.lost
  {
    hide Ids, Stored, Without, Settled, Outcome, PayloadOf;
  }

  lemma {:induction false} NothingLostWithoutRestart(events: seq<Event>)
    requires Restart !in events
    ensures Run(START, events).lost == {}
  {
    hide Step;
    if events != [] {
      var init := events[..|events| - 1];
      assert forall x | x in init :: x in events;
      NothingLostWithoutRestart(init);
      assert events[|events| - 1] in events;
      OnlyRestartLoses(Run(START, init), events[|events| - 1]);
    }
  }

  /** The exception is real: a stop between a successful send and its note makes the send happen twice. */
  lemma RepeatedAfterRestart(item: Queued)
    requires item.clip == None && item.paths != []
    ensures var s := Run(START, [Enqueue(item), StartPass, Send(Sent), Restart, StartPass, Send(Sent)]);
            |s.attempts| == 2 && s.attempts[0] == s.attempts[1] && s.attempts[0].result == Sent
  {
    hide Run;
    FirstSend(item, Sent);
    var s3 := SentOnce(item, Sent);
    var s4 := Step(s3, Restart);
    var s5 := Step(s4, StartPass);
    assert s5.runner == Passing([item]) && s5.attempts == s3.attempts;
    assert Step(s5, Send(Sent)).attempts == s3.attempts + s3.attempts;
    RunSix(Enqueue(item), StartPass, Send(Sent), Restart, StartPass, Send(Sent));
  }

  lemma RunSix(a: Event, b: Event, c: Event, d: Event, e: Event, f: Event)
    ensures Run(START, [a, b, c, d, e, f]) == Step(Step(Step(Step(Step(Step(START, a), b), c), d), e), f)
  {
    hide Step;
    RunFour(a, b, c, d);
    assert [a, b, c, d, e, f][..5] == [a, b, c, d, e] && [a, b, c, d, e][..4] == [a, b, c, d];
  }

  // ----- the items themselves -----------------------------------------------------------------

  /** The item was queued by one of the events, and holds what it held then; an empty clip is none. */
  ghost predicate AsQueued(events: seq<Event>, x: Queued, item: Queued) {
    && Enqueue(item) in events
    && x.id == item.id && x.peer == item.peer && x.name == item.name && x.paths == item.paths && x.added == item.added
    && (item.clip == None || item.clip == Some([]) ==> x.clip == None)
    && (item.clip.Some? && item.clip.value != [] ==> x.clip == item.clip)
  }

  /** The event notes that a send of the item did not reach the peer. */
  predicate Waited(s: State, e: Event, id: Id) {
    e.Settle? && s.runner.Settling? && s.runner.item.id == id && s.runner.result == Unreachable && id in Ids(s.disk)
  }

  /** The reasons given when a send of the item did not reach the peer and that was noted, in order. */
  ghost function Waits(events: seq<Event>, id: Id): seq<string> {
    if events == [] then []
    else
      var before, e := events[..|events| - 1], events[|events| - 1];
      if Waited(Run(START, before), e, id) then Waits(before, id) + [e.reason] else Waits(before, id)
  }

  /** The tries and the reason of x are those of the item plus what came of its sends since. */
  ghost predicate Counted(x: Queued, item: Queued, waits: seq<string>) {
    && x.tries == item.tries + |waits|
    && x.reason == if waits == [] then item.reason else waits[|waits| - 1]
  }

  ghost predicate Listed(events: seq<Event>, x: Queued) {
    exists item :: AsQueued(events, x, item) && Counted(x, item, Waits(events, x.id))
  }

  lemma {:induction false} NoWaitsYet(events: seq<Event>, id: Id)
    requires id !in Ids(Run(START, events).added)
    ensures Waits(events, id) == []
  {
    hide Without, Remaining, Settled, Inv;
    if events != [] {
      var before, e := events[..|events| - 1], events[|events| - 1];
      var s := Run(START, before);
      RunKeepsInv(before);
      AddedStay(s, e, id);
      NoWaitsYet(before, id);
      if s.runner.Settling? && s.runner.item.id == id {
        RunnerIsOk(s);
        SettlingWasAdded(s);
      }
    }
  }

  lemma RunnerIsOk(s: State)
    requires Inv(s)
    ensures RunnerOk(s)
  {
  }

  lemma AddedStay(s: State, e: Event, id: Id)
    ensures id in Ids(s.added) ==> id in Ids(Step(s, e).added)
  {
    hide Without, Settled, Outcome, PayloadOf, Stored;
    if e.Enqueue? { IdsConcat(s.added, [Stored(e.item)]); }
  }

  lemma QueuedMore(events: seq<Event>, e: Event, x: Queued, item: Queued)
    requires AsQueued(events, x, item)
    ensures AsQueued(events + [e], x, item)
  {
  }

  /** Which item of the new list is which of the old one. */
  lemma StepLists(s: State, e: Event, x: Queued)
    requires Conserved(s) && x in Step(s, e).disk
    ensures || (e.Enqueue? && x == Stored(e.item) && e.item.id !in Ids(s.added))
            || (x in s.disk && !Waited(s, e, x.id))
            || (e.Settle? && Waited(s, e, x.id) && exists y :: y in s.disk && x == y.(tries := y.tries + 1, reason := e.reason))
  {
    hide Remaining, Marked, Without, Stored;
    DiskFacts(s);
    match e
    case Unqueue(id) => if id in Ids(s.disk) { WithoutFrom(s.disk, id, x); }
    case Settle(reason) =>
      if s.runner.Settling? {
        if s.runner.result == Unreachable { MarkedFrom(s.disk, s.runner.item.id, reason, x); }
        else { WithoutFrom(s.disk, s.runner.item.id, x); }
      }
    case _ =>
  }

  lemma WithoutFrom(q: seq<Queued>, id: Id, x: Queued)
    requires x in Without(q, id)
    ensures x in q
  {
  }

  lemma MarkedFrom(q: seq<Queued>, id: Id, reason: string, x: Queued)
    requires x in Marked(q, id, reason) && Distinct(q)
    ensures id in Ids(q) && x.id == id ==> exists y :: y in q && x == y.(tries := y.tries + 1, reason := reason)
    ensures !(id in Ids(q) && x.id == id) ==> x in q
  {
    var i: nat := 0;
    while i < |q| && q[i].id != id
      invariant i <= |q| && forall j | 0 <= j < i :: q[j].id != id
    {
      i := i + 1;
    }
    FoundAt(q, id, i);
    MarkedAt(q, id, reason, i);
    if i < |q| {
      var k :| 0 <= k < |q| && Marked(q, id, reason)[k] == x;
      if k == i { assert q[i] in q; } else { assert q[k] in q; }
    }
  }

  /**
   * In every run, what is on the list is what was queued: its peer, its paths, its clip. Its tries are those it came
   * with and one for every send that did not reach the peer, and its reason is the last one given.
   */
  lemma {:induction false} ListedAsQueued(events: seq<Event>, x: Queued)
    requires x in Run(START, events).disk
    ensures Listed(events, x)
  {
    hide Step, AsQueued, Counted, Inv, Conserved;
    if events != [] {
      var before, e := events[..|events| - 1], events[|events| - 1];
      var s := Run(START, before);
      assert before + [e] == events;
      RunKeepsInv(before);
      ConservedOf(s);
      StepLists(s, e, x);
      if x in s.disk && !Waited(s, e, x.id) {
        ListedAsQueued(before, x);
        var item :| AsQueued(before, x, item) && Counted(x, item, Waits(before, x.id));
        QueuedMore(before, e, x, item);
      } else if Waited(s, e, x.id) {
        var y :| y in s.disk && x == y.(tries := y.tries + 1, reason := e.reason);
        ListedAsQueued(before, y);
        var item :| AsQueued(before, y, item) && Counted(y, item, Waits(before, y.id));
        TriedOnce(before, e, x, y, item);
      } else {
        NewIsListed(before, e.item, x);
      }
    }
  }

  lemma TriedOnce(before: seq<Event>, e: Event, x: Queued, y: Queued, item: Queued)
    requires e.Settle? && x == y.(tries := y.tries + 1, reason := e.reason)
    requires AsQueued(before, y, item) && Counted(y, item, Waits(before, y.id)) && Waited(Run(START, before), e, x.id)
    ensures AsQueued(before + [e], x, item) && Counted(x, item, Waits(before + [e], x.id))
  {
    hide Run;
    var events := before + [e];
    assert events[..|events| - 1] == before && events[|events| - 1] == e;
  }

  lemma NewIsListed(before: seq<Event>, item: Queued, x: Queued)
    requires x == Stored(item) && item.id !in Ids(Run(START, before).added)
    ensures AsQueued(before + [Enqueue(item)], x, item) && Counted(x, item, Waits(before + [Enqueue(item)], x.id))
  {
    hide Run;
    var events := before + [Enqueue(item)];
    assert events[..|events| - 1] == before && events[|events| - 1] == Enqueue(item);
    NoWaitsYet(before, item.id);
  }

  /** An item that was added was queued by an event. */
  lemma {:induction false} AddedWasQueued(events: seq<Event>, y: Queued)
    requires y in Run(START, events).added
    ensures exists item :: AsQueued(events, y, item)
  {
    hide Without, Settled, Outcome, PayloadOf, AsQueued;
    if events != [] {
      var before, e := events[..|events| - 1], events[|events| - 1];
      assert before + [e] == events;
      if y in Run(START, before).added {
        AddedWasQueued(before, y);
        var item :| AsQueued(before, y, item);
        QueuedMore(before, e, y, item);
      } else {
        NewIsQueued(before, e.item, y);
      }
    }
  }

  lemma NewIsQueued(before: seq<Event>, item: Queued, y: Queued)
    requires y == Stored(item)
    ensures AsQueued(before + [Enqueue(item)], y, item)
  {
  }

  /**
   * In every run, every send the runner makes is of an item that was queued, to its peer, and carries all of it: a
   * non-empty clip as plain text, or else exactly the paths queued.
   */
  lemma AttemptsCarryTheItem(events: seq<Event>, a: Attempt)
    requires a in Run(START, events).attempts
    ensures exists item :: Enqueue(item) in events && a.id == item.id && a.peer == item.peer && SendsAll(a.payload, item)
  {
    hide Run, AsQueued, Conserved, RunnerOk, OnceOk, GoneOk;
    var s := Run(START, events);
    RunKeepsInv(events);
    var y :| y in s.added && a.id == y.id && a.peer == y.peer && a.payload == PayloadOf(y);
    AddedWasQueued(events, y);
    var item :| AsQueued(events, y, item);
    CarriedAsQueued(events, y, item);
  }

  predicate SendsAll(payload: Payload, item: Queued) {
    if item.clip.Some? && item.clip.value != [] then payload == Clipboard(item.clip.value, "text/plain")
    else payload.Files? && payload.paths == item.paths
  }

  lemma CarriedAsQueued(events: seq<Event>, y: Queued, item: Queued)
    requires AsQueued(events, y, item)
    ensures Enqueue(item) in events && y.id == item.id && y.peer == item.peer && SendsAll(PayloadOf(y), item)
  {
  }

  // ----- an undisturbed pass of the machine ----------------------------------------------------

  /** The runner sends and settles each item of q in turn. */
  function PassEvents(q: seq<Queued>, outcome: Id -> Result, reason: Id -> string): seq<Event> {
    if q == [] then []
    else
      var last := q[|q| - 1];
      PassEvents(q[..|q| - 1], outcome, reason) + [Send(outcome(last.id)), Settle(reason(last.id))]
  }

  function PassAttempts(q: seq<Queued>, outcome: Id -> Result): seq<Attempt> {
    seq(|q|, i requires 0 <= i < |q| => Attempt(q[i].id, q[i].peer, PayloadOf(q[i]), Outcome(q[i], outcome(q[i].id))))
  }

  lemma {:induction false} RunOn(s: State, a: seq<Event>, b: seq<Event>)
    ensures Run(s, a + b) == Run(Run(s, a), b)
  {
    hide Step;
    if b == [] {
      assert a + b == a;
    } else {
      RunOn(s, a, b[..|b| - 1]);
      assert (a + b)[..|a + b| - 1] == a + b[..|b| - 1];
    }
  }

  lemma RunOfTwo(s: State, a: Event, b: Event)
    ensures Run(s, [a, b]) == Step(Step(s, a), b)
  {
    hide Step;
    assert [a, b][..1] == [a] && [a][..0] == [];
    assert Run(s, [a]) == Step(s, a);
  }

  /** The first k items of the list have been tried. */
  lemma {:induction false} PassGoes(s: State, k: nat, outcome: Id -> Result, reason: Id -> string)
    requires Distinct(s.disk) && k <= |s.disk| && s.runner == Passing(s.disk)
    ensures var t := Run(s, PassEvents(s.disk[..k], outcome, reason));
            && t.disk == Survivors(s.disk[..k], outcome, reason) + s.disk[k..]
            && t.runner == Passing(s.disk[k..]) && t.attempts == s.attempts + PassAttempts(s.disk[..k], outcome)
            && t.added == s.added && t.lost == s.lost
  {
    hide Step, Survivors, PassAttempts;
    if k == 0 {
      NoSurvivors(outcome, reason);
      NoAttempts(outcome);
      assert s.disk[..0] == [] && s.disk[0..] == s.disk;
    } else {
      PassGoes(s, k - 1, outcome, reason);
      var q := s.disk[..k];
      assert q[..k - 1] == s.disk[..k - 1];
      var it := s.disk[k - 1];
      var before := PassEvents(s.disk[..k - 1], outcome, reason);
      RunOn(s, before, [Send(outcome(it.id)), Settle(reason(it.id))]);
      var t := Run(s, before);
      RunOfTwo(t, Send(outcome(it.id)), Settle(reason(it.id)));
      TriesOne(s.disk, k - 1, t, outcome, reason);
      OneMoreAttempt(s.disk, k - 1, outcome);
    }
  }

  lemma NoAttempts(outcome: Id -> Result)
    ensures PassAttempts([], outcome) == []
  {
  }

  lemma OneMoreAttempt(q: seq<Queued>, k: nat, outcome: Id -> Result)
    requires k < |q|
    ensures PassAttempts(q[..k + 1], outcome)
         == PassAttempts(q[..k], outcome) + [Attempt(q[k].id, q[k].peer, PayloadOf(q[k]), Outcome(q[k], outcome(q[k].id)))]
  {
    hide PayloadOf, Outcome;
    assert forall i | 0 <= i < k :: q[..k + 1][i] == q[..k][i];
  }

  lemma TriesOne(q: seq<Queued>, k: nat, t: State, outcome: Id -> Result, reason: Id -> string)
    requires Distinct(q) && k < |q| && t.runner == Passing(q[k..])
    requires t.disk == Survivors(q[..k], outcome, reason) + q[k..]
    ensures var u := Step(Step(t, Send(outcome(q[k].id))), Settle(reason(q[k].id)));
            && u.disk == Survivors(q[..k + 1], outcome, reason) + q[k + 1..] && u.runner == Passing(q[k + 1..])
            && u.attempts == t.attempts + [Attempt(q[k].id, q[k].peer, PayloadOf(q[k]), Outcome(q[k], outcome(q[k].id)))]
            && u.added == t.added && u.lost == t.lost
  {
    hide Survivors, Settled, Outcome, PayloadOf, Distinct, Ids;
    SettleNext(q, k, outcome, reason);
    assert q[k..][1..] == q[k + 1..];
  }

  /**
   * A pass of the runner that nothing disturbs sends every item on the list once, in order, and leaves those that were
   * not reached: it is what RetryPass does.
   */
  lemma UndisturbedPass(s: State, outcome: Id -> Result, reason: Id -> string)
    requires Distinct(s.disk) && s.runner.Waiting?
    ensures var t := Run(s, [StartPass] + (PassEvents(s.disk, outcome, reason) + [EndPass]));
            && t.disk == Survivors(s.disk, outcome, reason) && t.runner.Waiting?
            && t.attempts == s.attempts + PassAttempts(s.disk, outcome) && t.added == s.added && t.lost == s.lost
  {
    hide Run, Survivors, PassAttempts;
    var events := PassEvents(s.disk, outcome, reason);
    RunOn(s, [StartPass], events + [EndPass]);
    RunOfOne(s, StartPass);
    var s1 := Step(s, StartPass);
    RunOn(s1, events, [EndPass]);
    PassGoes(s1, |s.disk|, outcome, reason);
    assert s.disk[..|s.disk|] == s.disk;
    RunOfOne(Run(s1, events), EndPass);
    assert Survivors(s.disk, outcome, reason) + s.disk[|s.disk|..] == Survivors(s.disk, outcome, reason);
  }

  lemma RunOfOne(s: State, e: Event)
    ensures Run(s, [e]) == Step(s, e)
  {
    hide Step;
    assert [e][..0] == [];
  }

  // ----- what a retry sends ----------------------------------------------------------------

  /** The item SendClipboardAnywhere queues for this clipboard. */
  function ClipItem(id: Id, peer: string, data: Bytes): Queued {
    Queued(id, peer, "", [], Some(data), 0, "", 0)
  }

  /** A direct send of the clipboard: an empty type means plain text. */
  function Direct(data: Bytes, mime: string): Payload {
    Clipboard(data, if mime == "" then "text/plain" else mime)
  }

  /**
   * A queued clipboard is retried as what was to be sent exactly when it is non-empty plain text.
   * An empty one comes back from the file as a send of no files, which is refused.
   */
  lemma RetryIsFaithful(id: Id, peer: string, data: Bytes, mime: string, result: Result)
    ensures var it := Stored(ClipItem(id, peer, data));
            (PayloadOf(it) == Direct(data, mime)) <==> (data != [] && (mime == "" || mime == "text/plain"))
    ensures data == [] ==> Outcome(Stored(ClipItem(id, peer, data)), result) == Refused
  {
  }
}
