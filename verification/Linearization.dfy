/** When the write-once cell is a linearizable register: its runs with the moments
    at which operations are called and answered. */
module Linearization {
  import opened Wrappers
  import opened AtomicOnce

  /** A finished operation. */
  datatype Op<T> = Op(thread: nat, call: Call<T>, event: Event<T>, inv: nat, res: nat)

  /** The call a thread is in, and when it was made. */
  datatype Pending<T> = Pending(call: Call<T>, inv: nat)

  /** A cell and its history: the operations answered so far, in the order of their
      answers. For the proofs: who claimed the cell and when, when it was published,
      and which entry is the winner's. */
  datatype Timed<T> = Timed(cell: Cell<T>, time: nat, calls: seq<Pending<T>>, history: seq<Op<T>>,
                            owner: nat, claim: nat, publish: nat, winner: Option<nat>)

  function Start<T>(threads: nat): Timed<T> {
    Timed(Fresh(threads), 0, seq(threads, _ => Pending(Get, 0)), [], 0, 0, 0, None)
  }

  /** What a thread that leaves the cell has been answered. */
  function Answer<T>(pc: Pc<T>, after: Cell<T>): Event<T> {
    if pc.InitReturn? then DidInit(pc.v, true)
    else if after.log == [] then DidGet(None)
    else after.log[|after.log| - 1]
  }

  function Tick<T(==)>(s: Timed<T>, t: nat, call: Call<T>): (r: Timed<T>)
    requires t < |s.cell.pcs| == |s.calls|
    ensures |r.cell.pcs| == |r.calls| == |s.calls| && r.cell == Step(s.cell, t, call)
  {
    var pc, c := s.cell.pcs[t], Step(s.cell, t, call);
    var s1 := s.(cell := c, time := s.time + 1);
    var s2 :=
      if s.cell.phase == Uninit && c.phase == Initializing then s1.(owner := t, claim := s.time)
      else if s.cell.phase == Initializing && c.phase == Initialized then s1.(publish := s.time)
      else s1;
    if pc == Outside then s2.(calls := s.calls[t := Pending(call, s.time)])
    else if c.pcs[t] == Outside then
      var op := Op(t, s.calls[t].call, Answer(pc, c), s.calls[t].inv, s.time);
      s2.(history := s.history + [op], winner := if Wins(op.event) then Some(|s.history|) else s.winner)
    else s2
  }

  function Timeline<T(==)>(s: Timed<T>, moves: seq<Move<T>>): (r: Timed<T>)
    requires |s.cell.pcs| == |s.calls|
    ensures |r.cell.pcs| == |r.calls| == |s.calls|
    decreases |moves|
  {
    if moves == [] then s
    else
      var prior := Timeline(s, moves[..|moves| - 1]);
      var m := moves[|moves| - 1];
      if m.thread < |prior.cell.pcs| then Tick(prior, m.thread, m.call) else prior
  }

  // ----- linearizability

  /** The event is an answer to the call. */
  predicate Answers<T(==)>(call: Call<T>, e: Event<T>) {
    match call
    case Get => e.DidGet?
    case Set(v) => e.DidSet? && e.v == v
    case Init(v) => e.DidInit? && (e.won ==> e.v == v)
  }

  function Events<T>(order: seq<Op<T>>): seq<Event<T>> {
    if order == [] then [] else Events(order[..|order| - 1]) + [order[|order| - 1].event]
  }

  /** No operation stands before one that was answered before it was called. */
  ghost predicate RespectsTime<T(!new)>(order: seq<Op<T>>) {
    forall i, j :: 0 <= i < j < |order| ==> order[i].inv <= order[j].res
  }

  /** Answers, yet to come, to some of the calls still under way. */
  ghost predicate Completes<T(!new)>(s: Timed<T>, extra: seq<Op<T>>) {
    && (forall i :: 0 <= i < |extra| ==>
          && extra[i].thread < |s.cell.pcs| == |s.calls|
          && s.cell.pcs[extra[i].thread] != Outside
          && extra[i].call == s.calls[extra[i].thread].call && extra[i].inv == s.calls[extra[i].thread].inv
          && extra[i].res == s.time && Answers(extra[i].call, extra[i].event))
    && (forall i, j :: 0 <= i < j < |extra| ==> extra[i].thread != extra[j].thread)
  }

  /** The history, with some of the calls under way completed, in an order that respects
      time and that the strict write-once register accepts. */
  ghost predicate Linearizes<T(!new)>(s: Timed<T>, extra: seq<Op<T>>, order: seq<Op<T>>) {
    && Completes(s, extra)
    && multiset(order) == multiset(s.history) + multiset(extra)
    && RespectsTime(order)
    && Register(Events(order), false).Some?
  }

  ghost predicate Linearizable<T(!new)>(s: Timed<T>) {
    exists extra: seq<Op<T>>, order: seq<Op<T>> :: Linearizes(s, extra, order)
  }

  /** A set that failed early was answered before a get was called that found nothing. */
  predicate Betrays<T(==)>(failed: Op<T>, empty: Op<T>) {
    IsEarly(failed.event) && empty.event == DidGet(None) && failed.res < empty.inv
  }

  ghost predicate NoBetrayal<T(!new)>(h: seq<Op<T>>) {
    forall i, j :: 0 <= i < |h| && 0 <= j < |h| ==> !Betrays(h[i], h[j])
  }

  // ----- a betrayal cannot be ordered

  lemma EventsAt<T>(order: seq<Op<T>>, i: nat)
    requires i < |order|
    ensures |Events(order)| == |order| && Events(order)[i] == order[i].event
  {
    if i < |order| - 1 { EventsAt(order[..|order| - 1], i); }
    else if |order| > 1 { EventsAt(order[..|order| - 1], 0); }
  }

  /** After a failed set the register is taken for good, so no get is empty. */
  lemma {:induction false} NothingIsEmptyAfterAFailedSet<T(!new)>(log: seq<Event<T>>, i: nat, j: nat)
    requires Register(log, false).Some? && i < j < |log|
    requires log[i].DidSet? && !log[i].ok
    ensures Register(log, false).value.Some? && log[j] != DidGet(None)
  {
    var prior := log[..|log| - 1];
    if j < |log| - 1 {
      NothingIsEmptyAfterAFailedSet(prior, i, j);
    } else {
      TakenAfterAFailedSet(prior, i);
    }
  }

  lemma {:induction false} TakenAfterAFailedSet<T(!new)>(log: seq<Event<T>>, i: nat)
    requires Register(log, false).Some? && i < |log|
    requires log[i].DidSet? && !log[i].ok
    ensures Register(log, false).value.Some?
  {
    if i < |log| - 1 { TakenAfterAFailedSet(log[..|log| - 1], i); }
  }

  lemma ABetrayalCannotBeOrdered<T(!new)>(s: Timed<T>, extra: seq<Op<T>>, order: seq<Op<T>>, i: nat, j: nat)
    requires i < |s.history| && j < |s.history| && Betrays(s.history[i], s.history[j])
    ensures !Linearizes(s, extra, order)
  {
    if !Linearizes(s, extra, order) { return; }
    var failed, empty := s.history[i], s.history[j];
    assert failed in multiset(s.history) && empty in multiset(s.history);
    assert failed in multiset(order) && empty in multiset(order);
    var a :| 0 <= a < |order| && order[a] == failed;
    var b :| 0 <= b < |order| && order[b] == empty;
    EventsAt(order, a);
    EventsAt(order, b);
    if a < b {
      NothingIsEmptyAfterAFailedSet(Events(order), a, b);
    }
  }

  // ----- what time tells

  /** Where an operation lies between the claim and the publication. */
  predicate Placed<T(==)>(s: Timed<T>, op: Op<T>) {
    && op.inv < op.res < s.time && Answers(op.call, op.event)
    && if op.event == DidGet(None) then s.cell.phase == Initialized ==> op.res < s.publish
       else if IsEarly(op.event) then s.cell.phase != Uninit && s.claim < op.res
       else if Wins(op.event) then
         s.cell.phase == Initialized && op.inv < s.claim && s.publish <= op.res && s.cell.value == Some(op.event.v)
       else
         s.cell.phase == Initialized && s.publish < op.res && Agrees(op.event, s.cell.value)
  }

  /** The answer fits a register that holds the value. */
  predicate Agrees<T(==)>(e: Event<T>, value: Option<T>) {
    match e
    case DidGet(r) => r == value
    case DidSet(_, ok, _) => !ok
    case DidInit(v, won) => !won && value == Some(v)
  }

  /** A thread in the cell is serving the call it was given. */
  predicate Serves<T(==)>(pc: Pc<T>, call: Call<T>) {
    match pc
    case Outside => true
    case GetLoad => call == Get
    case GetRead => call == Get
    case SetCas(v) => call == Set(v)
    case Write(v, isSet) => call == if isSet then Set(v) else Init(v)
    case Publish(v, isSet) => call == if isSet then Set(v) else Init(v)
    case InitLoad(v) => call == Init(v)
    case InitCas(v) => call == Init(v)
    case Compute(v) => call == Init(v)
    case Spin => call.Init?
    case InitRead => call.Init?
    case InitReturn(v) => call == Init(v)
  }

  ghost predicate CallsServed<T(!new)>(s: Timed<T>) {
    forall t :: 0 <= t < |s.calls| == |s.cell.pcs| && s.cell.pcs[t] != Outside ==>
      Serves(s.cell.pcs[t], s.calls[t].call) && s.calls[t].inv < s.time
  }

  ghost predicate HistoryPlaced<T(!new)>(s: Timed<T>) {
    && (forall i :: 0 <= i < |s.history| ==> Placed(s, s.history[i]))
    && (forall i, j :: 0 <= i < j < |s.history| ==> s.history[i].res < s.history[j].res)
    && (forall i :: 0 <= i < |s.history| ==> (Wins(s.history[i].event) <==> s.winner == Some(i)))
    && (s.winner.Some? ==> s.winner.value < |s.history|)
  }

  /** The owner is the one writer while the cell is initializing; once it is published
      the owner's operation is in the history, or about to be. */
  ghost predicate OwnerWins<T(!new)>(s: Timed<T>) {
    && (s.cell.phase != Uninit ==> s.claim < s.time)
    && (s.cell.phase == Initialized ==> s.claim < s.publish < s.time)
    && (s.cell.phase == Initializing || (s.cell.phase == Initialized && s.winner.None?) ==>
          && s.owner < |s.cell.pcs| == |s.calls| && s.calls[s.owner].inv < s.claim
          && (if s.cell.phase == Initializing then IsWriter(s.cell.pcs[s.owner]) else s.cell.pcs[s.owner].InitReturn?))
    && (s.cell.phase != Initialized ==> s.winner.None?)
    && (forall t :: 0 <= t < |s.cell.pcs| && s.cell.pcs[t].InitReturn? ==> t == s.owner && s.winner.None?)
  }

  ghost predicate TimedInv<T(!new)>(s: Timed<T>) {
    Inv(s.cell) && |s.cell.pcs| == |s.calls| && CallsServed(s) && HistoryPlaced(s) && OwnerWins(s)
  }

  lemma OthersStay<T(!new)>(s: Timed<T>, t: nat, call: Call<T>)
    requires t < |s.cell.pcs| == |s.calls|
    ensures var s' := Tick(s, t, call);
            && |s'.cell.pcs| == |s'.calls| == |s.calls|
            && forall u :: 0 <= u < |s.calls| && u != t ==> s'.cell.pcs[u] == s.cell.pcs[u] && s'.calls[u] == s.calls[u]
  {
  }

  lemma TickKeepsCalls<T(!new)>(s: Timed<T>, t: nat, call: Call<T>)
    requires TimedInv(s) && t < |s.calls|
    ensures CallsServed(Tick(s, t, call))
  {
    var s' := Tick(s, t, call);
    OthersStay(s, t, call);
    hide OwnerWins, HistoryPlaced;
  }

  lemma TickKeepsOwner<T(!new)>(s: Timed<T>, t: nat, call: Call<T>)
    requires TimedInv(s) && t < |s.calls|
    ensures OwnerWins(Tick(s, t, call))
  {
    var s' := Tick(s, t, call);
    OthersStay(s, t, call);
    if IsWriter(s.cell.pcs[t]) { assert t == s.owner; }
    hide CallsServed, HistoryPlaced;
  }

  lemma AnswerIsPlaced<T(!new)>(s: Timed<T>, t: nat, call: Call<T>)
    requires TimedInv(s) && t < |s.calls|
    ensures var s' := Tick(s, t, call);
            |s'.history| == |s.history| + 1 ==> Placed(s', s'.history[|s.history|])
  {
    if IsWriter(s.cell.pcs[t]) { assert t == s.owner; }
    assert s.cell.pcs[t] != Outside ==> Serves(s.cell.pcs[t], s.calls[t].call) && s.calls[t].inv < s.time;
    assert IsWriter(s.cell.pcs[t]) || s.cell.pcs[t].InitReturn? ==> s.calls[t].inv < s.claim;
    assert (s.cell.phase != Uninit ==> s.claim < s.time) && (s.cell.phase == Initialized ==> s.claim < s.publish < s.time);
    hide CallsServed, HistoryPlaced, OneWriter, OwnerWins, TimedInv;
  }

  lemma OldAnswersStayPlaced<T(!new)>(s: Timed<T>, t: nat, call: Call<T>, op: Op<T>)
    requires TimedInv(s) && t < |s.calls| && Placed(s, op)
    ensures Placed(Tick(s, t, call), op)
  {
    StepKeepsInv(s.cell, t, call);
  }

  lemma TickKeepsHistory<T(!new)>(s: Timed<T>, t: nat, call: Call<T>)
    requires TimedInv(s) && t < |s.calls|
    ensures HistoryPlaced(Tick(s, t, call))
  {
    var s' := Tick(s, t, call);
    AnswerIsPlaced(s, t, call);
    assert s.history <= s'.history;
    forall i | 0 <= i < |s.history| ensures Placed(s', s'.history[i]) {
      OldAnswersStayPlaced(s, t, call, s.history[i]);
    }
  }

  lemma TickKeepsInv<T(!new)>(s: Timed<T>, t: nat, call: Call<T>)
    requires TimedInv(s) && t < |s.calls|
    ensures TimedInv(Tick(s, t, call))
  {
    StepKeepsInv(s.cell, t, call);
    TickKeepsCalls(s, t, call);
    TickKeepsOwner(s, t, call);
    TickKeepsHistory(s, t, call);
  }

  lemma StartKeepsInv<T(!new)>(threads: nat)
    ensures TimedInv(Start<T>(threads)) && Start<T>(threads).cell == Fresh(threads) && |Start<T>(threads).calls| == threads
  {
  }

  lemma {:induction false} EveryTimelineKeepsInv<T(!new)>(threads: nat, moves: seq<Move<T>>)
    ensures TimedInv(Timeline(Start(threads), moves))
    ensures Timeline(Start(threads), moves).cell == Run(Fresh(threads), moves)
  {
    StartKeepsInv<T>(threads);
    hide TimedInv, Tick, Step, Start, Fresh;
    if moves == [] {
    } else {
      EveryTimelineKeepsInv(threads, moves[..|moves| - 1]);
      var prior := Timeline(Start(threads), moves[..|moves| - 1]);
      var m := moves[|moves| - 1];
      if m.thread < threads { TickKeepsInv(prior, m.thread, m.call); }
    }
  }

  // ----- without a betrayal there is an order: empty gets, the winner, the others

  datatype Kind = Empty | Winner | Other

  function KindOf<T(==)>(op: Op<T>): Kind {
    if op.event == DidGet(None) then Empty else if Wins(op.event) then Winner else Other
  }

  function Pick<T(==)>(h: seq<Op<T>>, k: Kind): seq<Op<T>> {
    if h == [] then []
    else Pick(h[..|h| - 1], k) + if KindOf(h[|h| - 1]) == k then [h[|h| - 1]] else []
  }

  lemma AddToOne<T>(a: multiset<T>, b: multiset<T>, c: multiset<T>, x: multiset<T>)
    ensures (a + x) + b + c == a + (b + x) + c == a + b + (c + x) == (a + b + c) + x
  {
  }

  lemma PickSnoc<T>(h: seq<Op<T>>, op: Op<T>, k: Kind)
    ensures multiset(Pick(h + [op], k)) ==
            if KindOf(op) == k then multiset(Pick(h, k)) + multiset{op} else multiset(Pick(h, k))
  {
    assert (h + [op])[..|h|] == h;
  }

  ghost function Picked<T>(h: seq<Op<T>>): multiset<Op<T>> {
    multiset(Pick(h, Empty)) + multiset(Pick(h, Winner)) + multiset(Pick(h, Other))
  }

  lemma PickedSnoc<T>(h: seq<Op<T>>, op: Op<T>)
    ensures Picked(h + [op]) == Picked(h) + multiset{op}
  {
    AddToOne(multiset(Pick(h, Empty)), multiset(Pick(h, Winner)), multiset(Pick(h, Other)), multiset{op});
    PickSnoc(h, op, Empty);
    PickSnoc(h, op, Winner);
    PickSnoc(h, op, Other);
    hide Pick, KindOf;
    match KindOf(op) {
      case Empty =>
      case Winner =>
      case Other =>
    }
  }

  lemma {:induction false} PickAll<T>(h: seq<Op<T>>)
    ensures Picked(h) == multiset(h)
  {
    if h == [] {
    } else {
      var prior, op := h[..|h| - 1], h[|h| - 1];
      assert h == prior + [op];
      PickAll(prior);
      PickedSnoc(prior, op);
      hide Picked;
    }
  }

  /** A pick keeps the order and only has entries of its kind. */
  lemma {:induction false} PickKeepsOrder<T(!new)>(h: seq<Op<T>>, k: Kind)
    requires forall i, j :: 0 <= i < j < |h| ==> h[i].res < h[j].res
    ensures forall i :: 0 <= i < |Pick(h, k)| ==> Pick(h, k)[i] in h && KindOf(Pick(h, k)[i]) == k
    ensures forall i, j :: 0 <= i < j < |Pick(h, k)| ==> Pick(h, k)[i].res < Pick(h, k)[j].res
  {
    if h == [] {
    } else {
      var prior, last := h[..|h| - 1], h[|h| - 1];
      PickKeepsOrder(prior, k);
      var picked := Pick(prior, k);
      assert Pick(h, k) == picked + if KindOf(last) == k then [last] else [];
      hide Pick;
      forall i | 0 <= i < |picked| ensures picked[i] in h && picked[i].res < last.res {
        var j :| 0 <= j < |prior| && prior[j] == picked[i];
        assert h[j] == picked[i];
      }
    }
  }

  lemma {:induction false} PickWinner<T(!new)>(h: seq<Op<T>>, winner: Option<nat>)
    requires forall i :: 0 <= i < |h| ==> (Wins(h[i].event) <==> winner == Some(i))
    ensures Pick(h, Winner) == if winner.Some? && winner.value < |h| then [h[winner.value]] else []
  {
    if h == [] {
    } else {
      PickWinner(h[..|h| - 1], winner);
    }
  }

  lemma ConcatRespectsTime<T(!new)>(a: seq<Op<T>>, b: seq<Op<T>>)
    requires RespectsTime(a) && RespectsTime(b)
    requires forall i, j :: 0 <= i < |a| && 0 <= j < |b| ==> a[i].inv <= b[j].res
    ensures RespectsTime(a + b)
  {
  }

  lemma {:induction false} EmptyGetsAreAccepted<T(!new)>(order: seq<Op<T>>)
    requires forall i :: 0 <= i < |order| ==> order[i].event == DidGet(None)
    ensures Register(Events(order), false) == Some(None)
  {
    if order == [] {
    } else {
      EmptyGetsAreAccepted(order[..|order| - 1]);
      RegisterSnoc(Events(order[..|order| - 1]), order[|order| - 1].event, false);
    }
  }

  lemma {:induction false} OthersAreAccepted<T(!new)>(prior: seq<Op<T>>, others: seq<Op<T>>, v: T)
    requires Register(Events(prior), false) == Some(Some(v))
    requires forall i :: 0 <= i < |others| ==> Agrees(others[i].event, Some(v))
    ensures Register(Events(prior + others), false) == Some(Some(v))
  {
    if others == [] {
      assert prior + others == prior;
    } else {
      var n := |others| - 1;
      OthersAreAccepted(prior, others[..n], v);
      var all := prior + others;
      assert all[..|all| - 1] == prior + others[..n];
      RegisterSnoc(Events(prior + others[..n]), others[n].event, false);
    }
  }

  lemma WinnerIsAccepted<T(!new)>(empties: seq<Op<T>>, w: Op<T>)
    requires Register(Events(empties), false) == Some(None) && Wins(w.event)
    ensures Register(Events(empties + [w]), false) == Some(Some(w.event.v))
  {
    var all := empties + [w];
    assert all[..|all| - 1] == empties;
    RegisterSnoc(Events(empties), w.event, false);
  }

  /** The owner's operation, as it will be answered. */
  function OwnersOp<T>(s: Timed<T>): Op<T>
    requires s.owner < |s.calls|
  {
    var call := s.calls[s.owner].call;
    var event := match call
                 case Get => DidGet(None)
                 case Set(v) => DidSet(v, true, false)
                 case Init(v) => DidInit(v, true);
    Op(s.owner, call, event, s.calls[s.owner].inv, s.time)
  }

  /** The calls that are completed: the owner's, if it has not been answered. */
  ghost function Extra<T(!new)>(s: Timed<T>): seq<Op<T>>
    requires TimedInv(s)
  {
    if s.cell.phase == Uninit || s.winner.Some? then [] else [OwnersOp(s)]
  }

  /** Gets that found nothing, the winner, the others. */
  ghost function Order<T(!new)>(s: Timed<T>): seq<Op<T>>
    requires TimedInv(s)
  {
    Pick(s.history, Empty) + (Pick(s.history, Winner) + Extra(s)) + Pick(s.history, Other)
  }

  /** The winner's operation, called before the claim and answered after the publication,
      or not yet. */
  predicate IsWinning<T(==)>(s: Timed<T>, w: Op<T>) {
    && Wins(w.event) && w.inv < s.claim
    && if s.cell.phase == Initialized then s.publish <= w.res && s.cell.value == Some(w.event.v) else s.time == w.res
  }

  lemma OwnerIsServed<T(!new)>(s: Timed<T>)
    requires TimedInv(s) && s.cell.phase != Uninit && s.winner.None?
    ensures Completes(s, [OwnersOp(s)]) && IsWinning(s, OwnersOp(s))
  {
    assert Serves(s.cell.pcs[s.owner], s.calls[s.owner].call);
  }

  lemma OwnersOpIsTheWinner<T(!new)>(s: Timed<T>)
    requires TimedInv(s) && s.cell.phase != Uninit
    ensures Completes(s, Extra(s)) && |Pick(s.history, Winner) + Extra(s)| == 1
    ensures IsWinning(s, (Pick(s.history, Winner) + Extra(s))[0])
  {
    PickWinner(s.history, s.winner);
    hide Pick;
    if s.winner.Some? {
      var w := s.history[s.winner.value];
      assert Wins(w.event) && Placed(s, w);
      assert IsWinning(s, w);
      assert Pick(s.history, Winner) == [w] && Extra(s) == [];
    } else {
      OwnerIsServed(s);
      assert Pick(s.history, Winner) == [] && Extra(s) == [OwnersOp(s)];
    }
    hide TimedInv, Completes, IsWinning, Extra, OwnersOp;
  }

  lemma PickIsPlaced<T(!new)>(s: Timed<T>, k: Kind)
    requires TimedInv(s)
    ensures RespectsTime(Pick(s.history, k))
    ensures forall i :: 0 <= i < |Pick(s.history, k)| ==>
              var op := Pick(s.history, k)[i]; op in s.history && KindOf(op) == k && Placed(s, op)
  {
    PickKeepsOrder(s.history, k);
    hide Pick;
    forall i | 0 <= i < |Pick(s.history, k)| ensures Placed(s, Pick(s.history, k)[i]) {}
  }

  lemma EmptyGetsComeFirst<T(!new)>(s: Timed<T>, empty: Op<T>, other: Op<T>)
    requires TimedInv(s) && NoBetrayal(s.history) && empty in s.history && other in s.history
    requires KindOf(empty) == Empty && KindOf(other) == Other
    ensures empty.inv <= other.res
  {
    assert Placed(s, empty) && Placed(s, other);
    var a :| 0 <= a < |s.history| && s.history[a] == empty;
    var b :| 0 <= b < |s.history| && s.history[b] == other;
    assert !Betrays(s.history[b], s.history[a]);
  }

  lemma OrderRespectsTime<T(!new)>(s: Timed<T>)
    requires TimedInv(s) && s.cell.phase != Uninit && NoBetrayal(s.history)
    ensures RespectsTime(Order(s))
  {
    var empties, others := Pick(s.history, Empty), Pick(s.history, Other);
    var w := Pick(s.history, Winner) + Extra(s);
    OwnersOpIsTheWinner(s);
    PickIsPlaced(s, Empty);
    PickIsPlaced(s, Other);
    forall i, j | 0 <= i < |empties| && 0 <= j < |others| ensures empties[i].inv <= others[j].res {
      EmptyGetsComeFirst(s, empties[i], others[j]);
    }
    hide TimedInv, Pick, Extra, Betrays, NoBetrayal;
    ConcatRespectsTime(empties, w);
    ConcatRespectsTime(empties + w, others);
  }

  lemma OthersAgree<T(!new)>(s: Timed<T>, w: Op<T>)
    requires TimedInv(s) && Wins(w.event) && (s.cell.phase == Initialized ==> s.cell.value == Some(w.event.v))
    ensures forall i :: 0 <= i < |Pick(s.history, Other)| ==> Agrees(Pick(s.history, Other)[i].event, Some(w.event.v))
  {
    PickIsPlaced(s, Other);
    hide TimedInv, Pick;
  }

  lemma OrderIsAccepted<T(!new)>(s: Timed<T>)
    requires TimedInv(s) && s.cell.phase != Uninit
    ensures Register(Events(Order(s)), false).Some?
  {
    var empties, others := Pick(s.history, Empty), Pick(s.history, Other);
    OwnersOpIsTheWinner(s);
    var w := (Pick(s.history, Winner) + Extra(s))[0];
    assert Pick(s.history, Winner) + Extra(s) == [w];
    OthersAgree(s, w);
    PickIsPlaced(s, Empty);
    hide TimedInv, Pick, Extra, Register, Events, Placed, Agrees, RespectsTime, Completes;
    EmptyGetsAreAccepted(empties);
    WinnerIsAccepted(empties, w);
    OthersAreAccepted(empties + [w], others, w.event.v);
  }

  lemma OrderIsComplete<T(!new)>(s: Timed<T>)
    requires TimedInv(s)
    ensures multiset(Order(s)) == multiset(s.history) + multiset(Extra(s))
  {
    PickAll(s.history);
    hide TimedInv, Pick, Extra;
  }

  lemma BeforeTheClaim<T(!new)>(s: Timed<T>)
    requires TimedInv(s) && s.cell.phase == Uninit
    ensures Linearizes(s, [], s.history)
  {
    forall i | 0 <= i < |s.history| ensures s.history[i].event == DidGet(None) { assert Placed(s, s.history[i]); }
    EmptyGetsAreAccepted(s.history);
    forall i, j | 0 <= i < j < |s.history| ensures s.history[i].inv <= s.history[j].res {
      assert Placed(s, s.history[i]);
    }
  }

  lemma WithoutBetrayalThereIsAnOrder<T(!new)>(s: Timed<T>)
    requires TimedInv(s) && NoBetrayal(s.history)
    ensures Linearizable(s)
  {
    if s.cell.phase == Uninit {
      BeforeTheClaim(s);
    } else {
      OwnersOpIsTheWinner(s);
      OrderRespectsTime(s);
      OrderIsAccepted(s);
      OrderIsComplete(s);
      hide TimedInv, Completes, RespectsTime, Register, Events, Order, Extra;
      assert Linearizes(s, Extra(s), Order(s));
    }
  }

  /** The main result, over every run of any number of threads: what was answered is
      linearizable as a write-once register exactly if no set that failed while another
      thread was still initializing had been answered before a get was called that
      found nothing. */
  lemma LinearizableIffNoBetrayal<T(!new)>(threads: nat, moves: seq<Move<T>>)
    ensures var s := Timeline(Start(threads), moves);
            Linearizable(s) <==> NoBetrayal(s.history)
  {
    EveryTimelineKeepsInv(threads, moves);
    var s := Timeline(Start(threads), moves);
    hide Timeline;
    if NoBetrayal(s.history) {
      WithoutBetrayalThereIsAnOrder(s);
    } else {
      var i, j :| 0 <= i < |s.history| && 0 <= j < |s.history| && Betrays(s.history[i], s.history[j]);
      forall extra: seq<Op<T>>, order: seq<Op<T>> ensures !Linearizes(s, extra, order) {
        ABetrayalCannotBeOrdered(s, extra, order, i, j);
      }
    }
  }

  function Both<T(==)>(s: Timed<T>, t: nat, first: Call<T>, second: Call<T>): (r: Timed<T>)
    requires t < |s.cell.pcs| == |s.calls|
    ensures |r.cell.pcs| == |r.calls| == |s.calls|
  {
    Tick(Tick(s, t, first), t, second)
  }

  function AllSix(s: Timed<int>): Timed<int>
    requires |s.cell.pcs| == |s.calls| == 2
  {
    Both(Both(Both(s, 0, Set(1), Get), 1, Set(2), Get), 1, Get, Get)
  }

  lemma TwoTicks<T>(s: Timed<T>, moves: seq<Move<T>>, t: nat, first: Call<T>, second: Call<T>)
    requires |s.cell.pcs| == |s.calls| && t < |s.calls|
    ensures Timeline(s, moves + [Move(t, first), Move(t, second)]) == Both(Timeline(s, moves), t, first, second)
  {
    var one := moves + [Move(t, first)];
    var two := moves + [Move(t, first), Move(t, second)];
    assert two[..|moves| + 1] == one && one[..|moves|] == moves;
    hide Tick;
    assert Timeline(s, one) == Tick(Timeline(s, moves), t, first);
  }

  /** A cell that thread 0 has claimed and not yet written. */
  predicate IsClaimed(s: Timed<int>) {
    s.cell.pcs == [Write(1, true), Outside] && s.cell.phase == Initializing && |s.calls| == 2
  }

  lemma TheCellIsClaimed(s: Timed<int>)
    requires s == Start(2) && s.cell.pcs == [Outside, Outside]
    ensures IsClaimed(Both(s, 0, Set(1), Get)) && Both(s, 0, Set(1), Get).history == []
  {
    assert Tick(s, 0, Set(1)).cell.pcs == [SetCas(1), Outside];
  }

  lemma ASetFails(s: Timed<int>)
    requires IsClaimed(s)
    ensures var s1 := Both(s, 1, Set(2), Get);
            && IsClaimed(s1) && s1.time == s.time + 2
            && s1.history == s.history + [Op(1, Set(2), DidSet(2, false, true), s.time, s.time + 1)]
  {
    assert Tick(s, 1, Set(2)).cell.pcs == [Write(1, true), SetCas(2)];
  }

  lemma AGetIsEmpty(s: Timed<int>)
    requires IsClaimed(s)
    ensures Both(s, 1, Get, Get).history == s.history + [Op(1, Get, DidGet(None), s.time, s.time + 1)]
  {
    assert Tick(s, 1, Get).cell.pcs == [Write(1, true), GetLoad];
  }

  lemma TheSetIsBetrayed(s: Timed<int>)
    requires s == Start(2) && s.cell.pcs == [Outside, Outside]
    ensures !NoBetrayal(AllSix(s).history)
  {
    hide Both;
    TheCellIsClaimed(s);
    var claimed := Both(s, 0, Set(1), Get);
    ASetFails(claimed);
    AGetIsEmpty(Both(claimed, 1, Set(2), Get));
    var h := AllSix(s).history;
    assert Betrays(h[0], h[1]);
  }

  const FAILED: seq<Move<int>> := CLAIMED + [Move(1, Set(2)), Move(1, Get)]

  const BETRAYED: seq<Move<int>> := FAILED + [Move(1, Get), Move(1, Get)]

  lemma TheBetrayedRun(s: Timed<int>)
    requires |s.cell.pcs| == |s.calls| == 2
    ensures Timeline(s, BETRAYED) == AllSix(s)
  {
    hide Both;
    TwoTicks(s, [], 0, Set(1), Get);
    assert [] + CLAIMED == CLAIMED;
    TwoTicks(s, CLAIMED, 1, Set(2), Get);
    TwoTicks(s, FAILED, 1, Get, Get);
  }

  /** There is a run that is not linearizable: a thread claims the cell and stops, another
      fails to set and then finds nothing. */
  lemma SomeRunIsNotLinearizable()
    ensures !Linearizable(Timeline(Start<int>(2), BETRAYED))
  {
    var s := Start<int>(2);
    assert s.cell.pcs == [Outside, Outside];
    TheSetIsBetrayed(s);
    TheBetrayedRun(s);
    hide *;
    LinearizableIffNoBetrayal(2, BETRAYED);
  }
}
