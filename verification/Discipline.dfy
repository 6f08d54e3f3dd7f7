/** The rules a supervisor must keep, stated by position in the trace, and the
    proof that the kernel's running digest latches exactly their breaches. */
module Discipline {
  import opened Wrappers
  import opened Kernel

  /** Nothing is signalled or waited for once the child has been reaped. */
  ghost predicate NothingAfterReap(t: seq<Event>) {
    forall i, j :: 0 <= i < j < |t| && IsReap(t[i]) ==> !t[j].Kill? && !t[j].WaitCall?
  }

  /** The throttle never stops a child that has been told to terminate. */
  ghost predicate NoStopAfterTerm(t: seq<Event>) {
    forall i, j :: 0 <= i < j < |t| && IsTerm(t[i]) && t[i].to != Fallback ==> !IsStop(t[j])
  }

  /** At position n the throttle has stopped the child: a delivered SIGSTOP came
      after which the child neither died nor got a delivered SIGCONT. */
  ghost predicate HeldAt(t: seq<Event>, n: nat)
    requires n <= |t|
  {
    exists i :: 0 <= i < n && StopTookEffect(t, i) && forall k :: i < k < n ==> !Releases(t[k])
  }

  ghost predicate NoDeath(t: seq<Event>) { forall k :: 0 <= k < |t| ==> !t[k].Died? }

  ghost predicate NoReap(t: seq<Event>) { forall k :: 0 <= k < |t| ==> !IsReap(t[k]) }

  ghost predicate NoTerm(t: seq<Event>) {
    forall k :: 0 <= k < |t| ==> !(IsTerm(t[k]) && t[k].to != Fallback)
  }

  predicate Releases(e: Event) { e.Died? || (IsCont(e) && e.delivered) }

  ghost predicate StopTookEffect(t: seq<Event>, i: nat)
    requires i < |t|
  {
    IsStop(t[i]) && t[i].delivered && forall k :: 0 <= k < i ==> !t[k].Died?
  }

  /** Terminating signals go to, and blocking waits are made for, a child the
      throttle is not holding stopped; the latter is freedom from deadlock. */
  ghost predicate NeverWhileHeld(t: seq<Event>) {
    forall j :: 0 <= j < |t| && (IsTerm(t[j]) || (t[j].WaitCall? && t[j].blocking)) ==> !HeldAt(t, j)
  }

  /** Descriptor fd is open at position n. */
  ghost predicate OpenAt(t: seq<Event>, fd: int, n: nat)
    requires n <= |t|
  {
    exists i :: 0 <= i < n && t[i] == KqOpen(fd) && forall k :: i < k < n ==> t[k] != KqClose(fd)
  }

  /** Every close hits an open descriptor, and no open one is handed out again. */
  ghost predicate LinearQueues(t: seq<Event>) {
    && (forall j :: 0 <= j < |t| && t[j].KqClose? ==> OpenAt(t, t[j].fd, j))
    && (forall j :: 0 <= j < |t| && t[j].KqOpen? ==> !OpenAt(t, t[j].fd, j))
  }

  /** The on-timeout hook comes before the first terminating signal. */
  ghost predicate NoHookAfterTerm(t: seq<Event>) {
    forall i, j :: 0 <= i < j < |t| && IsTerm(t[i]) && t[i].to != Fallback ==> !t[j].HookRan?
  }

  ghost predicate Disciplined(t: seq<Event>) {
    && NothingAfterReap(t)
    && NoStopAfterTerm(t)
    && NoHookAfterTerm(t)
    && NeverWhileHeld(t)
    && LinearQueues(t)
  }

  lemma HeldPrefix(s: seq<Event>, e: Event, n: nat)
    requires n <= |s|
    ensures HeldAt(s + [e], n) <==> HeldAt(s, n)
  {
    var t := s + [e];
    assert forall i :: 0 <= i < |s| ==> t[i] == s[i];
    assert forall i :: 0 <= i < |s| ==> (StopTookEffect(t, i) <==> StopTookEffect(s, i));
  }

  lemma OpenPrefix(s: seq<Event>, e: Event, fd: int, n: nat)
    requires n <= |s|
    ensures OpenAt(s + [e], fd, n) <==> OpenAt(s, fd, n)
  {
    var t := s + [e];
    assert forall i :: 0 <= i < |s| ==> t[i] == s[i];
  }

  lemma HeldSnoc(s: seq<Event>, e: Event)
    ensures HeldAt(s + [e], |s| + 1) <==>
            ((IsStop(e) && e.delivered && NoDeath(s)) || (HeldAt(s, |s|) && !Releases(e)))
  {
    var t := s + [e];
    assert t[|s|] == e && forall i :: 0 <= i < |s| ==> t[i] == s[i];
    assert forall i :: 0 <= i < |s| ==> (StopTookEffect(t, i) <==> StopTookEffect(s, i));
    assert StopTookEffect(t, |s|) <==> (IsStop(e) && e.delivered && NoDeath(s));
    if HeldAt(s, |s|) && !Releases(e) {
      var i :| 0 <= i < |s| && StopTookEffect(s, i) && forall k :: i < k < |s| ==> !Releases(s[k]);
      assert StopTookEffect(t, i);
    }
    if HeldAt(t, |t|) {
      var i :| 0 <= i < |t| && StopTookEffect(t, i) && forall k :: i < k < |t| ==> !Releases(t[k]);
      if i < |s| {
        assert !Releases(t[|s|]);
        assert StopTookEffect(s, i) && forall k :: i < k < |s| ==> !Releases(s[k]);
      }
    }
  }

  lemma OpenSnoc(s: seq<Event>, e: Event, fd: int)
    ensures OpenAt(s + [e], fd, |s| + 1) <==> (e == KqOpen(fd) || (OpenAt(s, fd, |s|) && e != KqClose(fd)))
  {
    var t := s + [e];
    assert t[|s|] == e && forall i :: 0 <= i < |s| ==> t[i] == s[i];
    if OpenAt(t, fd, |t|) && e != KqOpen(fd) {
      var i :| 0 <= i < |t| && t[i] == KqOpen(fd) && forall k :: i < k < |t| ==> t[k] != KqClose(fd);
      assert t[|s|] != KqClose(fd);
      assert s[i] == KqOpen(fd) && forall k :: i < k < |s| ==> s[k] != KqClose(fd);
    }
  }

  /** One event's effect on the flags and counters explained below. */
  lemma StepMeans(d: Digest, e: Event)
    ensures Step(d, e).dead <==> d.dead || e.Died?
    ensures Step(d, e).held <==> if IsStop(e) && e.delivered then !d.dead else d.held && !Releases(e)
    ensures Step(d, e).reaped.Some? <==> d.reaped.Some? || IsReap(e)
    ensures Step(d, e).kqs == if e.KqOpen? then d.kqs + {e.fd} else if e.KqClose? then d.kqs - {e.fd} else d.kqs
    ensures Step(d, e).vain == d.vain + One(e.WaitCall? && e.blocking && !d.dead && d.attempts == Nothing)
  {
  }

  lemma {:induction false} DeadMeans(t: seq<Event>)
    ensures Replay(t).dead <==> !NoDeath(t)
  {
    hide Step;
    if t != [] {
      var s, e := t[..|t| - 1], t[|t| - 1];
      StepMeans(Replay(s), e);
      DeadMeans(s);
      assert t == s + [e] && t[|s|] == e;
    }
  }

  lemma {:induction false} HeldMeans(t: seq<Event>)
    ensures Replay(t).held <==> HeldAt(t, |t|)
  {
    hide Step;
    if t != [] {
      var s, e := t[..|t| - 1], t[|t| - 1];
      StepMeans(Replay(s), e);
      HeldMeans(s);
      DeadMeans(s);
      HeldSnoc(s, e);
      assert t == s + [e];
    }
  }

  lemma {:induction false} ReapedMeans(t: seq<Event>)
    ensures Replay(t).reaped.Some? <==> !NoReap(t)
  {
    hide Step;
    if t != [] {
      var s, e := t[..|t| - 1], t[|t| - 1];
      StepMeans(Replay(s), e);
      ReapedMeans(s);
      assert t == s + [e] && t[|s|] == e;
    }
  }

  lemma {:induction false} AttemptsMean(t: seq<Event>)
    ensures Replay(t).attempts == Nothing <==> NoTerm(t)
  {
    if t != [] {
      var s, e := t[..|t| - 1], t[|t| - 1];
      AttemptsMean(s);
      assert t == s + [e] && t[|s|] == e;
    }
  }

  lemma AttemptsGrow(d: Digest, e: Event)
    ensures Step(d, e).attempts ==
              if IsTerm(e) && e.to != Fallback then After(d.attempts, e.sig, e.to, e.at) else d.attempts
  {
  }

  /** The record is the trace's terminating signals: its latest entry is the last of
      them, and the rest of it is the record of what came before. */
  lemma {:induction false} AttemptsAreInTheTrace(t: seq<Event>) returns (i: nat)
    requires Replay(t).attempts.After?
    ensures i < |t| && IsTerm(t[i]) && t[i].to != Fallback
    ensures Replay(t).attempts == After(Replay(t[..i]).attempts, t[i].sig, t[i].to, t[i].at)
    ensures forall k :: i < k < |t| ==> !(IsTerm(t[k]) && t[k].to != Fallback)
  {
    var s, e := t[..|t| - 1], t[|t| - 1];
    AttemptsGrow(Replay(s), e);
    hide Step;
    if IsTerm(e) && e.to != Fallback {
      i := |s|;
    } else {
      i := AttemptsAreInTheTrace(s);
      assert t[..i] == s[..i];
    }
  }

  /** One event's effect on what has been read, sampled, slept and looked at. */
  lemma NotesGrow(d: Digest, e: Event)
    ensures var d1 := Step(d, e);
            && d1.bytes == (if e.PipeByte? then Count(d.bytes, e.sig) else d.bytes)
            && d1.memory == (if e.MemSample? then Count(d.memory, e.bytes) else d.memory)
            && d1.notes.samples == (if e.CpuRead? then Took(d.notes.samples, e.at, e.cpu, d.held) else d.notes.samples)
            && d1.notes.looks == (if e.Looked? then Look(d.notes.looks, d.notes.nap, e.errno) else d.notes.looks)
            && d1.notes.nap == (if e.Looked? then None
                                else if e.Napping? && d.notes.nap.None? then Some(Nap(e.at, e.ns))
                                else d.notes.nap)
  {
  }

  /** The samples are the trace's: the latest is its last reading of the processor time,
      the rest those before it. */
  lemma {:induction false} SamplesAreInTheTrace(t: seq<Event>) returns (i: nat)
    requires Replay(t).notes.samples.Took?
    ensures i < |t| && t[i].CpuRead? && forall k :: i < k < |t| ==> !t[k].CpuRead?
    ensures Replay(t).notes.samples == Took(Replay(t[..i]).notes.samples, t[i].at, t[i].cpu, Replay(t[..i]).held)
  {
    var s, e := t[..|t| - 1], t[|t| - 1];
    NotesGrow(Replay(s), e);
    hide Step;
    if e.CpuRead? {
      i := |s|;
    } else {
      i := SamplesAreInTheTrace(s);
      assert t[..i] == s[..i];
    }
  }

  /** The looks are the trace's, likewise, each with the sleep begun since the one before. */
  lemma {:induction false} LooksAreInTheTrace(t: seq<Event>) returns (i: nat)
    requires Replay(t).notes.looks.Look?
    ensures i < |t| && t[i].Looked? && forall k :: i < k < |t| ==> !t[k].Looked?
    ensures Replay(t).notes.looks == Look(Replay(t[..i]).notes.looks, Replay(t[..i]).notes.nap, t[i].errno)
  {
    var s, e := t[..|t| - 1], t[|t| - 1];
    NotesGrow(Replay(s), e);
    hide Step;
    if e.Looked? {
      i := |s|;
    } else {
      i := LooksAreInTheTrace(s);
      assert t[..i] == s[..i];
    }
  }

  lemma {:induction false} NapIsInTheTrace(t: seq<Event>) returns (i: nat)
    requires Replay(t).notes.nap.Some?
    ensures i < |t| && t[i].Napping? && Replay(t).notes.nap == Some(Nap(t[i].at, t[i].ns))
    ensures Replay(t[..i]).notes.nap.None? && forall k :: i < k < |t| ==> !t[k].Looked?
  {
    var s, e := t[..|t| - 1], t[|t| - 1];
    NotesGrow(Replay(s), e);
    hide Step;
    if e.Napping? && Replay(s).notes.nap.None? {
      i := |s|;
    } else {
      i := NapIsInTheTrace(s);
      assert t[..i] == s[..i];
    }
  }

  /** More bytes, or more samples of the memory, than at position n: the last one is an
      entry after it. */
  lemma {:induction false} ReadsAreInTheTrace(t: seq<Event>, n: nat)
    requires n <= |t|
    ensures Replay(t[..n]).bytes.count < Replay(t).bytes.count ==>
              exists i :: n <= i < |t| && t[i] == PipeByte(Replay(t).bytes.last)
    ensures Replay(t[..n]).memory.count < Replay(t).memory.count ==>
              exists i :: n <= i < |t| && t[i].MemSample? && t[i].bytes == Replay(t).memory.last
  {
    if n == |t| {
      assert t[..n] == t;
    } else {
      var s, e := t[..|t| - 1], t[|t| - 1];
      ReadsAreInTheTrace(s, n);
      NotesGrow(Replay(s), e);
      hide Step;
      assert s[..n] == t[..n];
      assert forall i :: 0 <= i < |s| ==> t[i] == s[i];
      if e.PipeByte? { assert t[|s|] == e; }
      if e.MemSample? { assert t[|s|] == e; }
    }
  }

  lemma {:induction false} QueuesMean(t: seq<Event>, fd: int)
    ensures fd in Replay(t).kqs <==> OpenAt(t, fd, |t|)
  {
    if t != [] {
      var s, e := t[..|t| - 1], t[|t| - 1];
      StepMeans(Replay(s), e);
      hide Step;
      QueuesMean(s, fd);
      OpenSnoc(s, e, fd);
      assert t == s + [e];
    }
  }

  lemma HeldSnocAll(s: seq<Event>, e: Event)
    ensures NeverWhileHeld(s + [e]) <==>
            (NeverWhileHeld(s) && ((IsTerm(e) || (e.WaitCall? && e.blocking)) ==> !HeldAt(s, |s|)))
  {
    var t := s + [e];
    assert t[|s|] == e && forall i :: 0 <= i < |s| ==> t[i] == s[i];
    forall j | 0 <= j <= |s| ensures HeldAt(t, j) <==> HeldAt(s, j) {
      HeldPrefix(s, e, j);
    }
  }

  lemma LinearSnoc(s: seq<Event>, e: Event)
    ensures LinearQueues(s + [e]) <==>
            (LinearQueues(s)
             && (e.KqClose? ==> OpenAt(s, e.fd, |s|))
             && (e.KqOpen? ==> !OpenAt(s, e.fd, |s|)))
  {
    var t := s + [e];
    assert t[|s|] == e && forall i :: 0 <= i < |s| ==> t[i] == s[i];
    forall j, fd | 0 <= j <= |s| ensures OpenAt(t, fd, j) <==> OpenAt(s, fd, j) {
      OpenPrefix(s, e, fd, j);
    }
  }

  lemma OrderSnoc(s: seq<Event>, e: Event)
    ensures NothingAfterReap(s + [e]) <==> (NothingAfterReap(s) && ((e.Kill? || e.WaitCall?) ==> NoReap(s)))
    ensures NoStopAfterTerm(s + [e]) <==> (NoStopAfterTerm(s) && (IsStop(e) ==> NoTerm(s)))
    ensures NoHookAfterTerm(s + [e]) <==> (NoHookAfterTerm(s) && (e.HookRan? ==> NoTerm(s)))
  {
    var t := s + [e];
    assert t[|s|] == e && forall i :: 0 <= i < |s| ==> t[i] == s[i];
  }

  /** The rules for one more event, in the digest's terms. */
  lemma DisciplinedSnoc(s: seq<Event>, e: Event)
    ensures Disciplined(s + [e]) <==>
            (Disciplined(s) && Admits(Replay(s), e))
  {
    HeldSnocAll(s, e);
    LinearSnoc(s, e);
    OrderSnoc(s, e);
    HeldMeans(s);
    ReapedMeans(s);
    AttemptsMean(s);
    if e.KqClose? || e.KqOpen? { QueuesMean(s, e.fd); }
  }

  predicate Admits(d: Digest, e: Event) {
    && ((e.Kill? || e.WaitCall?) ==> d.reaped.None?)
    && (IsStop(e) || e.HookRan? ==> d.attempts == Nothing)
    && ((IsTerm(e) || (e.WaitCall? && e.blocking)) ==> !d.held)
    && (e.KqClose? ==> e.fd in d.kqs)
    && (e.KqOpen? ==> e.fd !in d.kqs)
  }

  lemma StepCounts(d: Digest, e: Event)
    ensures Step(d, e).breaches == d.breaches + One(!Admits(d, e))
  {
  }

  /** The automaton and the rules agree on every trace, in both directions. */
  lemma {:induction false} DigestCountsBreaches(t: seq<Event>)
    ensures Replay(t).breaches == 0 <==> Disciplined(t)
  {
    hide Step;
    hide Disciplined;
    if t != [] {
      var s, e := t[..|t| - 1], t[|t| - 1];
      DigestCountsBreaches(s);
      DisciplinedSnoc(s, e);
      StepCounts(Replay(s), e);
      assert t == s + [e];
    } else {
      EmptyIsDisciplined();
    }
  }

  lemma EmptyIsDisciplined()
    ensures Disciplined([])
  {
  }

  /** Nobody waits without limit for a child that has neither exited nor been told
      to: every blocking wait comes after its death or a terminating signal. */
  ghost predicate NoWaitInVain(t: seq<Event>) {
    forall j :: 0 <= j < |t| && t[j].WaitCall? && t[j].blocking ==> !NoDeath(t[..j]) || !NoTerm(t[..j])
  }

  lemma VainSnoc(s: seq<Event>, e: Event)
    ensures NoWaitInVain(s + [e]) <==>
            (NoWaitInVain(s) && (e.WaitCall? && e.blocking ==> !NoDeath(s) || !NoTerm(s)))
  {
    hide NoDeath, NoTerm;
    var t := s + [e];
    assert t[|s|] == e && t[..|s|] == s;
    assert forall j :: 0 <= j < |s| ==> t[j] == s[j] && t[..j] == s[..j];
  }

  lemma {:induction false} VainMeans(t: seq<Event>)
    ensures Replay(t).vain == 0 <==> NoWaitInVain(t)
  {
    hide NoDeath, NoTerm, Step;
    if t != [] {
      var s, e := t[..|t| - 1], t[|t| - 1];
      StepMeans(Replay(s), e);
      VainMeans(s);
      DeadMeans(s);
      AttemptsMean(s);
      VainSnoc(s, e);
      hide NoWaitInVain;
      assert t == s + [e];
    }
  }
}
