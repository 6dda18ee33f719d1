/**
 * Tap pairing between two devices: each user answers on their own device, each device tells the
 * other, and a device saves its peer when it knows of two yeses. Messages may be lost, either side may
 * time out or be cancelled, and a user may answer again.
 */
module TapPairing {
  import opened Basics

  datatype Why = Declined | PeerDeclined | TimedOut | Cancelled | WriteFailed | SaveFailed
  datatype End = Waiting | Saved | Over(why: Why)

  /** The variables of awaitAnswers; taken is decide being nil. */
  datatype Loop = Loop(taken: bool, localYes: bool, remoteYes: bool, end: End)

  /** What one select takes: an answer and whether writing it worked, the peer's, the timer, the context. */
  datatype Choice = Local(ok: bool, written: bool) | Remote(ok: bool) | Timer | Done

  const FRESH := Loop(false, false, false, Waiting)

  predicate Selecting(l: Loop) {
    l.end == Waiting && !(l.localYes && l.remoteYes)
  }

  /** One turn of the loop. */
  function Select(l: Loop, c: Choice): Loop {
    if !Selecting(l) then l
    else
      match c
      case Local(ok, written) =>
        if l.taken then l
        else if !written then l.(taken := true, end := Over(WriteFailed))
        else if !ok then l.(taken := true, end := Over(Declined))
        else l.(taken := true, localYes := true)
      case Remote(ok) => if ok then l.(remoteYes := true) else l.(end := Over(PeerDeclined))
      case Timer => l.(end := Over(TimedOut))
      case Done => l.(end := Over(Cancelled))
  }

  /** After the loop the device is stored, or that fails. */
  function Save(l: Loop, stored: bool): Loop {
    if l.end == Waiting && l.localYes && l.remoteYes then l.(end := if stored then Saved else Over(SaveFailed)) else l
  }

  function Selects(l: Loop, cs: seq<Choice>): Loop {
    if cs == [] then l else Select(Selects(l, cs[..|cs| - 1]), cs[|cs| - 1])
  }

  /** The loop, driven by what its selects take; Waiting means the choices ran out first. */
  method AwaitAnswers(choices: seq<Choice>, stored: bool) returns (end: End)
    ensures end == Save(Selects(FRESH, choices), stored).end
  {
    var taken, localYes, remoteYes := false, false, false;
    var k := 0;
    assert choices[..0] == [];
    while k < |choices| && (!localYes || !remoteYes)
      invariant k <= |choices|
      invariant Selects(FRESH, choices[..k]) == Loop(taken, localYes, remoteYes, Waiting)
    {
      assert choices[..k + 1][..k] == choices[..k];
      SelectsPrefix(FRESH, choices, k + 1);
      match choices[k] {
        case Local(ok, written) =>
          if !taken {
            taken := true;
            if !written { return Over(WriteFailed); }
            if !ok { return Over(Declined); }
            localYes := true;
          }
        case Remote(ok) =>
          if !ok { return Over(PeerDeclined); }
          remoteYes := true;
        case Timer => return Over(TimedOut);
        case Done => return Over(Cancelled);
      }
      k := k + 1;
    }
    SelectsPrefix(FRESH, choices, k);
    assert choices[..|choices|] == choices;
    if !localYes || !remoteYes { return Waiting; }
    end := if stored then Saved else Over(SaveFailed);
  }

  /** A loop that is over takes nothing more. */
  lemma {:induction false} SelectsPrefix(l: Loop, cs: seq<Choice>, k: nat)
    requires k <= |cs|
    ensures !Selecting(Selects(l, cs[..k])) ==> Selects(l, cs) == Selects(l, cs[..k])
  {
    if k < |cs| {
      SelectsPrefix(l, cs[..|cs| - 1], k);
      assert cs[..|cs| - 1][..k] == cs[..k];
    } else {
      assert cs[..k] == cs;
    }
  }

  // ----- how a side ends, from what was taken alone ------------------------------------------

  /** The k-th choice is the local user's answer: the first one, for later ones are not taken. */
  predicate TheAnswer(cs: seq<Choice>, k: int) {
    0 <= k < |cs| && cs[k].Local? && forall j | 0 <= j < k :: !cs[j].Local?
  }

  /** The k-th choice ends the side: a refusal of either user, a failed write, the timer or a cancellation. */
  predicate Stops(cs: seq<Choice>, k: int) {
    0 <= k < |cs| && match cs[k]
      case Local(ok, written) => TheAnswer(cs, k) && !(ok && written)
      case Remote(ok) => !ok
      case Timer => true
      case Done => true
  }

  function Reason(c: Choice): Why {
    match c
    case Local(_, written) => if written then Declined else WriteFailed
    case Remote(_) => PeerDeclined
    case Timer => TimedOut
    case Done => Cancelled
  }

  /** Among the first n choices are the local user's answer, written, and a yes of the peer. */
  ghost predicate BothIn(cs: seq<Choice>, n: int) {
    LocalIn(cs, n) && RemoteIn(cs, n)
  }

  ghost predicate LocalIn(cs: seq<Choice>, n: int) {
    exists k :: 0 <= k < n && TheAnswer(cs, k) && cs[k] == Local(true, true)
  }

  ghost predicate RemoteIn(cs: seq<Choice>, n: int) {
    exists k :: 0 <= k < n && k < |cs| && cs[k] == Remote(true)
  }

  ghost predicate AnyLocal(cs: seq<Choice>) {
    exists k :: 0 <= k < |cs| && cs[k].Local?
  }

  ghost predicate NoStop(cs: seq<Choice>, n: int) {
    forall k | 0 <= k < n :: !Stops(cs, k)
  }

  lemma OneMoreChoice(cs: seq<Choice>, c: Choice)
    ensures var more := cs + [c];
            && (forall k | k < |cs| :: TheAnswer(more, k) == TheAnswer(cs, k) && Stops(more, k) == Stops(cs, k))
            && (AnyLocal(more) <==> AnyLocal(cs) || c.Local?)
            && (TheAnswer(more, |cs|) <==> c.Local? && !AnyLocal(cs))
            && (LocalIn(more, |cs|) <==> LocalIn(cs, |cs|)) && (RemoteIn(more, |cs|) <==> RemoteIn(cs, |cs|))
            && (LocalIn(more, |cs| + 1) <==> LocalIn(cs, |cs|) || (!AnyLocal(cs) && c == Local(true, true)))
            && (RemoteIn(more, |cs| + 1) <==> RemoteIn(cs, |cs|) || c == Remote(true))
  {
    var more := cs + [c];
    assert forall k | 0 <= k < |cs| :: more[k] == cs[k];
    assert more[|cs|] == c;
    if AnyLocal(cs) {
      var k :| 0 <= k < |cs| && cs[k].Local?;
      assert more[k].Local?;
    }
    if LocalIn(cs, |cs|) {
      var k :| 0 <= k < |cs| && TheAnswer(cs, k) && cs[k] == Local(true, true);
      assert TheAnswer(more, k) && more[k] == Local(true, true);
    }
    if RemoteIn(cs, |cs|) {
      var k :| 0 <= k < |cs| && cs[k] == Remote(true);
      assert more[k] == Remote(true);
    }
  }

  /** While nothing has ended it, the loop knows exactly what was taken. */
  lemma {:induction false} LoopIs(cs: seq<Choice>)
    requires NoStop(cs, |cs|) && forall n | 0 <= n < |cs| :: !BothIn(cs, n)
    ensures var l := Selects(FRESH, cs);
            l.end == Waiting && l.taken == AnyLocal(cs) && l.localYes == LocalIn(cs, |cs|) && l.remoteYes == RemoteIn(cs, |cs|)
  {
    if cs != [] {
      var init, c := cs[..|cs| - 1], cs[|cs| - 1];
      assert init + [c] == cs;
      OneMoreChoice(init, c);
      assert !BothIn(cs, |init|);
      forall n | 0 <= n < |init| ensures !BothIn(init, n) { FewerChoices(init, c, n); }
      LoopIs(init);
      assert !Stops(cs, |init|);
    }
  }

  lemma FewerChoices(cs: seq<Choice>, c: Choice, n: int)
    requires n <= |cs| && !BothIn(cs + [c], n)
    ensures !BothIn(cs, n)
  {
    var more := cs + [c];
    OneMoreChoice(cs, c);
    if LocalIn(cs, n) {
      var k :| 0 <= k < n && TheAnswer(cs, k) && cs[k] == Local(true, true);
      assert TheAnswer(more, k) && more[k] == Local(true, true);
    }
    if RemoteIn(cs, n) {
      var k :| 0 <= k < n && k < |cs| && cs[k] == Remote(true);
      assert more[k] == Remote(true);
    }
  }

  /** The same, of a beginning of the choices. */
  lemma BeginningIs(cs: seq<Choice>, n: nat)
    requires n <= |cs| && NoStop(cs, n) && forall m | 0 <= m < n :: !BothIn(cs, m)
    ensures NoStop(cs[..n], n) && forall m | 0 <= m < n :: !BothIn(cs[..n], m)
    ensures BothIn(cs[..n], n) == BothIn(cs, n)
  {
    var few := cs[..n];
    assert forall k | 0 <= k < n :: few[k] == cs[k];
    assert forall k | k < n :: TheAnswer(few, k) == TheAnswer(cs, k);
    assert forall k | k < n :: Stops(few, k) == Stops(cs, k);
    forall m | 0 <= m <= n ensures BothIn(few, m) == BothIn(cs, m) { SameBoth(cs, few, n, m); }
  }

  lemma SameBoth(cs: seq<Choice>, few: seq<Choice>, n: nat, m: int)
    requires 0 <= m <= n <= |cs| && few == cs[..n] && forall k | k < n :: TheAnswer(few, k) == TheAnswer(cs, k)
    ensures BothIn(few, m) == BothIn(cs, m)
  {
    forall k | 0 <= k < m ensures few[k] == cs[k] {}
    if LocalIn(cs, m) {
      var k :| 0 <= k < m && TheAnswer(cs, k) && cs[k] == Local(true, true);
      assert TheAnswer(few, k) && few[k] == Local(true, true);
    }
    if LocalIn(few, m) {
      var k :| 0 <= k < m && TheAnswer(few, k) && few[k] == Local(true, true);
      assert TheAnswer(cs, k) && cs[k] == Local(true, true);
    }
    if RemoteIn(cs, m) {
      var k :| 0 <= k < m && k < |cs| && cs[k] == Remote(true);
      assert few[k] == Remote(true);
    }
    if RemoteIn(few, m) {
      var k :| 0 <= k < m && k < |few| && few[k] == Remote(true);
      assert cs[k] == Remote(true);
    }
  }

  /** The first choice that ends the side, before both have said yes, is the reason it ends with. */
  lemma StoppedEnds(cs: seq<Choice>, k: nat, stored: bool)
    requires Stops(cs, k) && NoStop(cs, k) && forall n | 0 <= n <= k :: !BothIn(cs, n)
    ensures Save(Selects(FRESH, cs), stored).end == Over(Reason(cs[k]))
  {
    hide Selects, Select, TheAnswer;
    BeginningIs(cs, k);
    LoopIs(cs[..k]);
    OneTurn(cs, k);
    FirstAnswerIs(cs, k);
    assert !BothIn(cs, k);
    StopEnds(Selects(FRESH, cs[..k]), cs[k]);
    SelectsPrefix(FRESH, cs, k + 1);
  }

  lemma OneTurn(cs: seq<Choice>, k: nat)
    requires k < |cs|
    ensures Selects(FRESH, cs[..k + 1]) == Select(Selects(FRESH, cs[..k]), cs[k])
  {
    hide Select;
    assert cs[..k + 1][..k] == cs[..k];
  }

  lemma FirstAnswerIs(cs: seq<Choice>, k: nat)
    requires k < |cs|
    ensures TheAnswer(cs, k) ==> !AnyLocal(cs[..k])
  {
  }

  lemma StopEnds(l: Loop, c: Choice)
    requires Selecting(l)
    requires match c case Local(ok, written) => !l.taken && !(ok && written) case Remote(ok) => !ok case _ => true
    ensures !Selecting(Select(l, c)) && Select(l, c).end == Over(Reason(c))
  {
  }

  /** Both yeses, before anything ended the side, and the peer is stored, or that fails. */
  lemma BothEnds(cs: seq<Choice>, n: nat, stored: bool)
    requires n <= |cs| && BothIn(cs, n) && NoStop(cs, n) && forall m | 0 <= m < n :: !BothIn(cs, m)
    ensures Save(Selects(FRESH, cs), stored).end == if stored then Saved else Over(SaveFailed)
  {
    BeginningIs(cs, n);
    LoopIs(cs[..n]);
    SelectsPrefix(FRESH, cs, n);
  }

  /** Neither, and the side still waits. */
  lemma NeitherWaits(cs: seq<Choice>, stored: bool)
    requires NoStop(cs, |cs|) && forall n | 0 <= n <= |cs| :: !BothIn(cs, n)
    ensures Save(Selects(FRESH, cs), stored).end == Waiting
  {
    LoopIs(cs);
    assert !BothIn(cs, |cs|);
  }

  // ----- two endpoints ------------------------------------------------------------------

  datatype Who = A | B

  /**
   * answers are the local user's answers in order, decide the one-place channel, wire the answer
   * written to the connection, read whether the one read is over, remote its one-place channel.
   */
  datatype Side = Side(
    answers: seq<bool>, decide: Option<bool>, wire: Option<bool>, read: bool, remote: Option<bool>, loop: Loop)

  datatype Pairing = Pairing(a: Side, b: Side)

  const IDLE := Side([], None, None, false, None, FRESH)
  const START := Pairing(IDLE, IDLE)

  function Other(w: Who): Who { if w == A then B else A }
  function Get(p: Pairing, w: Who): Side { if w == A then p.a else p.b }
  function Put(p: Pairing, w: Who, s: Side): Pairing { if w == A then p.(a := s) else p.(b := s) }

  /** A write that fails may still have reached the other side. */
  datatype Write = Written | Broken(reached: bool)

  datatype Event =
    | Answer(who: Who, ok: bool)
    | TakeLocal(who: Who, write: Write)
    | Read(who: Who, lost: bool)
    | TakeRemote(who: Who)
    | Expire(who: Who)
    | Cancel(who: Who)
    | Store(who: Who, stored: bool)

  function StepSide(s: Side, peer: Side, e: Event): Side {
    match e
    // ConfirmPair finds the pairing while it is pending; the channel keeps the first answer
    case Answer(_, ok) =>
      if s.loop.end != Waiting then s
      else s.(answers := s.answers + [ok], decide := if s.decide.None? then Some(ok) else s.decide)
    case TakeLocal(_, write) =>
      if Selecting(s.loop) && !s.loop.taken && s.decide.Some? then
        var ok := s.decide.value;
        s.(decide := None, wire := if write == Broken(false) then None else Some(ok),
           loop := Select(s.loop, Local(ok, write.Written?)))
      else s
    case Read(_, lost) =>
      if s.read then s
      else if lost then s.(read := true, remote := Some(false))
      else if peer.wire.Some? then s.(read := true, remote := peer.wire)
      else s
    case TakeRemote(_) =>
      if Selecting(s.loop) && s.remote.Some? then s.(remote := None, loop := Select(s.loop, Remote(s.remote.value)))
      else s
    case Expire(_) => s.(loop := Select(s.loop, Timer))
    case Cancel(_) => s.(loop := Select(s.loop, Done))
    case Store(_, stored) => s.(loop := Save(s.loop, stored))
  }

  function Step(p: Pairing, e: Event): Pairing {
    Put(p, e.who, StepSide(Get(p, e.who), Get(p, Other(e.who)), e))
  }

  function Run(p: Pairing, events: seq<Event>): Pairing {
    if events == [] then p else Step(Run(p, events[..|events| - 1]), events[|events| - 1])
  }

  // ----- the invariant --------------------------------------------------------------------

  predicate FirstIs(s: Side, ok: bool) {
    s.answers != [] && s.answers[0] == ok
  }

  predicate SideOk(s: Side, peer: Side) {
    && (!s.loop.taken && s.decide.Some? ==> FirstIs(s, s.decide.value))
    && (!s.loop.taken && s.decide.None? ==> s.answers == [])
    && (s.loop.taken ==> s.answers != [])
    && (s.wire.Some? ==> s.loop.taken && FirstIs(s, s.wire.value))
    && (s.remote == Some(true) ==> peer.wire == Some(true))
    && (s.loop.localYes ==> s.loop.taken && FirstIs(s, true))
    && (s.loop.remoteYes ==> peer.wire == Some(true))
    && (s.loop.end == Saved ==> s.loop.localYes && s.loop.remoteYes)
  }

  predicate Inv(p: Pairing) {
    SideOk(p.a, p.b) && SideOk(p.b, p.a)
  }

  lemma StepKeepsInv(p: Pairing, e: Event)
    requires Inv(p)
    ensures Inv(Step(p, e))
  {
    var s, peer := Get(p, e.who), Get(p, Other(e.who));
    assert SideOk(s, peer) && SideOk(peer, s);
    assert SideOk(StepSide(s, peer, e), peer);
    assert SideOk(peer, StepSide(s, peer, e));
  }

  lemma {:induction false} RunKeepsInv(events: seq<Event>)
    ensures Inv(Run(START, events))
  {
    if events != [] {
      RunKeepsInv(events[..|events| - 1]);
      StepKeepsInv(Run(START, events[..|events| - 1]), events[|events| - 1]);
    }
  }

  /** In every run, a side saves its peer only if the first answer of each user was yes. */
  lemma SavedMeansBothSaidYes(events: seq<Event>, w: Who)
    requires Get(Run(START, events), w).loop.end == Saved
    ensures var p := Run(START, events); FirstIs(p.a, true) && FirstIs(p.b, true)
  {
    RunKeepsInv(events);
  }

  /** So one refusal means that neither side saves, whatever is answered later. */
  lemma OneRefusalIsEnough(events: seq<Event>, w: Who)
    requires FirstIs(Get(Run(START, events), w), false)
    ensures var p := Run(START, events); p.a.loop.end != Saved && p.b.loop.end != Saved
  {
    RunKeepsInv(events);
  }

  /** What ends a side in a run of the two, and with what. */
  lemma SideEnds(p: Pairing, w: Who)
    requires Selecting(Get(p, w).loop)
    ensures Get(Step(p, Cancel(w)), w).loop.end == Over(Cancelled) && Get(Step(p, Expire(w)), w).loop.end == Over(TimedOut)
    ensures Get(p, w).remote == Some(false) ==> Get(Step(p, TakeRemote(w)), w).loop.end == Over(PeerDeclined)
    ensures !Get(p, w).loop.taken && Get(p, w).decide == Some(false) ==>
              var s := Get(Step(p, TakeLocal(w, Written)), w); s.loop.end == Over(Declined) && s.wire == Some(false)
    ensures !Get(p, w).loop.taken && Get(p, w).decide.Some? ==>
              forall reached ::
                var s := Get(Step(p, TakeLocal(w, Broken(reached))), w);
                s.loop.end == Over(WriteFailed) && s.wire == if reached then Get(p, w).decide else None
  {
  }

  /** A side that has ended stays as it ended, and later answers are not taken. */
  lemma EndedSideStays(p: Pairing, w: Who, e: Event)
    requires Get(p, w).loop.end != Waiting
    ensures Get(Step(p, e), w).loop == Get(p, w).loop && Get(Step(p, e), w).answers == Get(p, w).answers
  {
  }

  /** A refusal that was written, or a connection that is gone, ends the other side when it reads. */
  lemma RefusalArrives(p: Pairing, w: Who, lost: bool)
    requires var s := Get(p, w); Selecting(s.loop) && !s.read
    requires lost || Get(p, Other(w)).wire == Some(false)
    ensures Get(Step(Step(p, Read(w, lost)), TakeRemote(w)), w).loop.end == Over(PeerDeclined)
  {
  }

  // ----- when nothing goes wrong, both save ---------------------------------------------------

  predicate Smooth(e: Event) {
    match e
    case TakeLocal(_, write) => write.Written?
    case Read(_, lost) => !lost
    case Expire(_) | Cancel(_) => false
    case Store(_, stored) => stored
    case _ => true
  }

  predicate YesSoFar(s: Side) {
    s.answers == [] || s.answers[0]
  }

  predicate OnTrack(s: Side) {
    && s.loop.end in {Waiting, Saved}
    && (s.loop.taken ==> s.loop.localYes && s.wire == Some(true))
    && (!s.loop.taken ==> s.wire == None)
    && (s.read ==> s.loop.remoteYes || s.remote == Some(true))
    && s.remote != Some(false) && (!s.read ==> s.remote == None)
  }

  lemma {:induction false} SmoothRun(events: seq<Event>)
    requires forall e | e in events :: Smooth(e)
    requires var p := Run(START, events); YesSoFar(p.a) && YesSoFar(p.b)
    ensures var p := Run(START, events); Inv(p) && OnTrack(p.a) && OnTrack(p.b)
  {
    RunKeepsInv(events);
    if events != [] {
      var init, e := events[..|events| - 1], events[|events| - 1];
      assert e in events;
      var p := Run(START, init);
      assert YesSoFar(p.a) && YesSoFar(p.b);
      SmoothRun(init);
      SmoothStep(Get(p, e.who), Get(p, Other(e.who)), e);
    }
  }

  lemma SmoothStep(s: Side, peer: Side, e: Event)
    requires SideOk(s, peer) && SideOk(peer, s) && OnTrack(s) && OnTrack(peer) && Smooth(e)
    requires YesSoFar(StepSide(s, peer, e)) && YesSoFar(peer)
    ensures OnTrack(StepSide(s, peer, e))
  {
  }

  /** Neither side has anything left to take, read or store. */
  predicate Quiet(p: Pairing) {
    forall w: Who ::
      && Step(p, TakeLocal(w, Written)) == p && Step(p, Read(w, false)) == p
      && Step(p, TakeRemote(w)) == p && Step(p, Store(w, true)) == p
  }

  /** With no loss, no timeout and no cancellation, two yeses end with both sides saved. */
  lemma BothSaveWhenNothingFails(events: seq<Event>)
    requires forall e | e in events :: Smooth(e)
    requires var p := Run(START, events); Quiet(p) && FirstIs(p.a, true) && FirstIs(p.b, true)
    ensures var p := Run(START, events); p.a.loop.end == Saved && p.b.loop.end == Saved
  {
    SmoothRun(events);
    var p := Run(START, events);
    forall w: Who ensures Get(p, w).loop.localYes && Get(p, w).wire == Some(true) {
      assert Step(p, TakeLocal(w, Written)) == p;
    }
    forall w: Who ensures Get(p, w).loop.end == Saved {
      assert Get(p, Other(w)).wire == Some(true);
      assert Step(p, Read(w, false)) == p && Step(p, TakeRemote(w)) == p && Step(p, Store(w, true)) == p;
    }
    assert Get(p, A) == p.a && Get(p, B) == p.b;
  }

  /** Both saving is not guaranteed: an answer lost after the other side saved leaves one side out. */
  lemma OnlyOneMaySave()
    ensures exists events :: var p := Run(START, events);
              p.a.loop.end == Saved && p.b.loop.end != Saved && FirstIs(p.a, true) && FirstIs(p.b, true)
              && !Selecting(p.b.loop)
  {
    var es := [Answer(A, true), Answer(B, true), TakeLocal(A, Written), TakeLocal(B, Written),
               Read(A, false), TakeRemote(A), Store(A, true), Expire(B)];
    hide Run;
    forall k: nat | k < |es| ensures Run(START, es[..k + 1]) == Step(Run(START, es[..k]), es[k]) {
      RunNext(es, k);
    }
    RunNothing();
    assert es[..0] == [] && es[..8] == es;
    var p4 := Run(START, es[..4]);
    assert p4 == Step(Step(Step(Step(START, es[0]), es[1]), es[2]), es[3]);
    assert p4.a.wire == Some(true) && p4.b.wire == Some(true);
    assert Run(START, es[..5]) == Step(p4, es[4]);
    var p7 := Run(START, es[..7]);
    assert p7 == Step(Step(Step(p4, es[4]), es[5]), es[6]);
    assert p7.a.loop.end == Saved;
    assert Run(START, es) == Step(p7, es[7]);
  }

  lemma RunNext(es: seq<Event>, k: nat)
    requires k < |es|
    ensures Run(START, es[..k + 1]) == Step(Run(START, es[..k]), es[k])
  {
    assert es[..k + 1][..k] == es[..k];
  }

  lemma RunNothing()
    ensures Run(START, []) == START
  {
  }
}
