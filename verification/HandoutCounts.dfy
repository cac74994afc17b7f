/** How often a job is handed out.  An entry for a job that left the inbox unclaimed stays in the queue, so a job
    delivered again while its old entry is still there can be handed out twice; and only then. */
module HandoutCounts {
  import opened Basics
  import opened Frames
  import opened Admission
  import opened StreamState
  import opened SenderCycle
  import opened Soundness
  import opened StreamRuns
  import opened Claims
  import opened QueueMoves

  /** Entries for the job in the queue. */
  function Entries(jobs: seq<Item>, id: Id): nat {
    multiset(jobs)[Handout(id)]
  }

  /** Chances left to hand the job out, plus one while it is claimed. */
  ghost function Chances(y: System, id: Id): nat {
    Entries(y.s.jobs, id) + y.hands[Handout(id)] + (if id in y.s.claimed then 1 else 0)
  }

  /** At most one chance for a job of the inbox.  Entries for other jobs are harmless: a claimer skips them. */
  ghost predicate AtMostOne(y: System) {
    forall id :: id in y.s.mem.inbox ==> Chances(y, id) <= 1
  }

  /** New work that an earlier hand-out is still queued or held for. */
  predicate Redelivers(y: System, l: Label) {
    TakesNewJob(y, l) && (Handout(l.id) in y.s.jobs || Handout(l.id) in y.hands)
  }

  ghost predicate NoRedelivery(y: System, run: seq<Label>)
    requires Possible(y, run)
    decreases |run|
  {
    run == [] || (!Redelivers(y, run[0]) && NoRedelivery(Next(y, run[0]), run[1..]))
  }

  // ── what the moves of the queue mean for the count ──

  lemma OneMoreEntry(jobs: seq<Item>, item: Item, id: Id)
    ensures Entries(jobs + [item], id) == Entries(jobs, id) + (if item == Handout(id) then 1 else 0)
  {
    assert multiset(jobs + [item]) == multiset(jobs) + multiset{item};
  }

  lemma StayingKeepsEntries(s: State, t: State, id: Id)
    requires Stays(s, t)
    ensures Entries(t.jobs, id) == Entries(s.jobs, id)
  {
    OneMoreEntry(s.jobs, AdmissionWake, id);
  }

  lemma EnteringAddsAnEntry(s: State, t: State, taken: Id, id: Id)
    requires Enters(s, t, taken)
    ensures Entries(t.jobs, id) == Entries(s.jobs, id) + (if id == taken then 1 else 0)
  {
    OneMoreEntry(s.jobs, AdmissionWake, id);
    OneMoreEntry(s.jobs, Handout(taken), id);
    OneMoreEntry(s.jobs + [AdmissionWake], Handout(taken), id);
  }

  // ── the invariant, and exactly when a step breaks it ──

  lemma {:induction false} HandoutsCounted(order: seq<Id>, id: Id)
    requires forall i, j :: 0 <= i < j < |order| ==> order[i] != order[j]
    ensures multiset(Handouts(order))[Handout(id)] == if id in order then 1 else 0
  {
    if order != [] {
      var last := |order| - 1;
      HandoutsCounted(order[..last], id);
      assert Handouts(order) == Handouts(order[..last]) + [Handout(order[last])];
      assert order == order[..last] + [order[last]];
    }
  }

  lemma RestartCounts(y: System, l: Label)
    requires Enabled(y, l) && l.Restart?
    ensures AtMostOne(Next(y, l))
  {
    var z := Next(y, l);
    forall id | id in z.s.mem.inbox ensures Chances(z, id) <= 1 {
      HandoutsCounted(l.order, id);
    }
  }

  lemma TakeKeepsChances(y: System)
    requires y.s.jobs != []
    ensures forall id :: Chances(Next(y, Take), id) == Chances(y, id)
  {
    assert y.s.jobs == [y.s.jobs[0]] + y.s.jobs[1..];
  }

  lemma ResolveKeepsChances(y: System, item: Item)
    requires AtMostOne(y) && item in y.hands
    ensures AtMostOne(Next(y, ResolveItem(item)))
    ensures HandsOut(y, ResolveItem(item)) ==> item.id !in y.s.claimed
  {
    var z := Next(y, ResolveItem(item));
    assert z.s.jobs == y.s.jobs || z.s.jobs == y.s.jobs + [item];
    forall id | id in z.s.mem.inbox ensures Chances(z, id) <= 1 {
      OneMoreEntry(y.s.jobs, item, id);
      assert Chances(y, id) <= 1;
    }
    if HandsOut(y, ResolveItem(item)) {
      assert Chances(y, item.id) <= 1;
    }
  }

  /** An entry is left over for the job that is taken as new work: two chances now. */
  lemma RedeliveryCounts(y: System, l: Label)
    requires SystemOk(y) && Redelivers(y, l)
    ensures l.id in Next(y, l).s.mem.inbox && Chances(Next(y, l), l.id) >= 2
  {
    DeliveryEnters(y, l);
    EnteringAddsAnEntry(y.s, Next(y, l).s, l.id, l.id);
  }

  lemma NewJobHasOneChance(y: System, l: Label)
    requires SystemOk(y) && AtMostOne(y) && TakesNewJob(y, l) && !Redelivers(y, l)
    ensures AtMostOne(Next(y, l))
  {
    var z := Next(y, l);
    DeliveryEnters(y, l);
    forall id | id in z.s.mem.inbox ensures Chances(z, id) <= 1 {
      EnteringAddsAnEntry(y.s, z.s, l.id, id);
      assert id != l.id ==> Chances(y, id) <= 1;
    }
  }

  lemma StayingKeepsChances(y: System, z: System)
    requires AtMostOne(y) && Stays(y.s, z.s) && z.hands == y.hands
    ensures AtMostOne(z)
  {
    forall id | id in z.s.mem.inbox ensures Chances(z, id) <= 1 {
      StayingKeepsEntries(y.s, z.s, id);
      assert Chances(y, id) <= 1;
    }
  }

  lemma InterruptKeepsChances(y: System)
    requires AtMostOne(y)
    ensures AtMostOne(Next(y, Interrupt))
  {
    forall id | id in y.s.mem.inbox ensures Chances(Next(y, Interrupt), id) <= 1 {
      OneMoreEntry(y.s.jobs, ClaimInterrupt, id);
      assert Chances(y, id) <= 1;
    }
  }

  /** A step keeps every job at one chance exactly when it takes no job as new whose old entry is still around. */
  lemma OneChanceExactly(y: System, l: Label)
    requires SystemOk(y) && AtMostOne(y) && Enabled(y, l)
    ensures AtMostOne(Next(y, l)) <==> !Redelivers(y, l)
    ensures HandsOut(y, l) ==> l.item.id !in y.s.claimed
  {
    if l.Restart? {
      RestartCounts(y, l);
    } else if l.Take? {
      TakeKeepsChances(y);
    } else if l.ResolveItem? {
      ResolveKeepsChances(y, l.item);
    } else if l.Interrupt? {
      InterruptKeepsChances(y);
    } else if Redelivers(y, l) {
      RedeliveryCounts(y, l);
    } else if TakesNewJob(y, l) {
      NewJobHasOneChance(y, l);
    } else {
      StepStays(y, l);
      StayingKeepsChances(y, Next(y, l));
    }
  }

  // ── runs ──

  /** Every hand-out of the run is of a job not already claimed. */
  ghost predicate NeverTwice(y: System, run: seq<Label>)
    requires Possible(y, run)
    decreases |run|
  {
    run == [] || ((HandsOut(y, run[0]) ==> run[0].item.id !in y.s.claimed) && NeverTwice(Next(y, run[0]), run[1..]))
  }

  ghost predicate AlwaysAtMostOne(y: System, run: seq<Label>)
    requires Possible(y, run)
    decreases |run|
  {
    AtMostOne(y) && (run == [] || AlwaysAtMostOne(Next(y, run[0]), run[1..]))
  }

  /** Over a run every job has at most one chance throughout, exactly when the run redelivers none; and then no job
      is handed out while it is claimed. */
  lemma {:induction false} RunsHandOutOnce(y: System, run: seq<Label>)
    requires SystemOk(y) && AtMostOne(y) && Possible(y, run)
    ensures AlwaysAtMostOne(y, run) <==> NoRedelivery(y, run)
    ensures NoRedelivery(y, run) ==> NeverTwice(y, run)
    decreases |run|
  {
    if run != [] {
      OneChanceExactly(y, run[0]);
      Step(y, run[0]);
      if !Redelivers(y, run[0]) {
        RunsHandOutOnce(Next(y, run[0]), run[1..]);
      }
    }
  }

  lemma StartHasOneChance(newId: Id)
    requires ValidStreamId(newId)
    ensures SystemOk(Start(newId)) && AtMostOne(Start(newId))
  {
    StartIsOk(newId);
  }

  /** From an empty volume, with crashes and restarts: without a redelivery no job runs twice. */
  lemma EveryRunHandsOutOnce(newId: Id, run: seq<Label>)
    requires ValidStreamId(newId) && Possible(Start(newId), run) && NoRedelivery(Start(newId), run)
    ensures NeverTwice(Start(newId), run)
  {
    StartHasOneChance(newId);
    RunsHandOutOnce(Start(newId), run);
  }

  // ── and otherwise it happens ──

  lemma {:induction false} Joined(y: System, first: seq<Label>, rest: seq<Label>)
    requires Possible(y, first) && Possible(After(y, first), rest)
    ensures Possible(y, first + rest)
    ensures !NeverTwice(After(y, first), rest) ==> !NeverTwice(y, first + rest)
    ensures NoRedelivery(y, first) && NoRedelivery(After(y, first), rest) ==> NoRedelivery(y, first + rest)
    decreases |first|
  {
    hide Next;
    if first == [] {
      assert first + rest == rest;
    } else {
      Joined(Next(y, first[0]), first[1..], rest);
      assert (first + rest)[1..] == first[1..] + rest;
    }
  }

  lemma TakeOne(y: System)
    requires y.s.jobs != []
    ensures !Redelivers(y, Take)
    ensures var z := Next(y, Take);
      z == y.(s := y.s.(jobs := y.s.jobs[1..]), hands := z.hands)
      && z.hands + multiset(z.s.jobs) == y.hands + multiset(y.s.jobs)
  {
    assert y.s.jobs == [y.s.jobs[0]] + y.s.jobs[1..];
  }

  /** Claimers take everything that is queued. */
  lemma {:induction false} TakeAll(y: System) returns (run: seq<Label>)
    ensures Possible(y, run) && NoRedelivery(y, run)
    ensures After(y, run) == y.(s := y.s.(jobs := []), hands := y.hands + multiset(y.s.jobs))
    decreases |y.s.jobs|
  {
    hide Next;
    if y.s.jobs == [] {
      run := [];
    } else {
      TakeOne(y);
      var rest := TakeAll(Next(y, Take));
      run := [Take] + rest;
      assert run[1..] == rest;
    }
  }

  /** All entries are in claimers' hands, and a job has two chances: it is claimed twice. */
  lemma TwoInHand(y: System, id: Id) returns (run: seq<Label>)
    requires y.s.adm.current == None && y.s.jobs == [] && id in y.s.mem.inbox && Chances(y, id) >= 2
    ensures Possible(y, run) && NoRedelivery(y, run) && !NeverTwice(y, run)
  {
    var r := ResolveItem(Handout(id));
    assert Handout(id) in y.hands && HandsOut(y, r);
    assert [r][1..] == [] && [r, r][1..] == [r];
    if id in y.s.claimed {
      run := [r];
    } else {
      var z := Next(y, r);
      assert Handout(id) in z.hands && HandsOut(z, r) && id in z.s.claimed;
      assert !NeverTwice(z, [r]);
      run := [r, r];
    }
  }

  /** Two chances under open admission are two hand-outs, in some run that redelivers nothing. */
  lemma TwoChancesTwoHandouts(y: System, id: Id) returns (run: seq<Label>)
    requires y.s.adm.current == None && id in y.s.mem.inbox && Chances(y, id) >= 2
    ensures Possible(y, run) && NoRedelivery(y, run) && !NeverTwice(y, run)
  {
    var take := TakeAll(y);
    var z := After(y, take);
    var tail := TwoInHand(z, id);
    Joined(y, take, tail);
    run := take + tail;
  }

  /** While admission is open, a step leaves every continuation without redeliveries free of double hand-outs exactly
      when it is no redelivery itself. */
  lemma RedeliveryDecides(y: System, l: Label)
    requires SystemOk(y) && AtMostOne(y) && Enabled(y, l) && Next(y, l).s.adm.current == None
    ensures (forall run :: Possible(Next(y, l), run) && NoRedelivery(Next(y, l), run) ==> NeverTwice(Next(y, l), run))
            <==> !Redelivers(y, l)
  {
    var z := Next(y, l);
    OneChanceExactly(y, l);
    if Redelivers(y, l) {
      RedeliveryCounts(y, l);
      var run := TwoChancesTwoHandouts(z, l.id);
    } else {
      Step(y, l);
      forall run | Possible(z, run) && NoRedelivery(z, run) ensures NeverTwice(z, run) {
        RunsHandOutOnce(z, run);
      }
    }
  }

  /** The step that breaks the rule: a queued, unclaimed job is released because the server names another
      owner.  Its entry stays in the queue. */
  lemma ReleaseLeavesAnEntry(y: System, id: Id)
    requires SystemOk(y) && y.s.adm == OPEN && y.s.jobs == [Handout(id)] && id in y.s.mem.inbox && id !in y.s.claimed
    requires y.held.Some? && AtHead(y.s, y.held.value.Key()) && y.held.value.payload.JobAck?
    requires y.held.value.payload.corr == id && y.held.value.Key() in y.known
    requires y.known[y.held.value.Key()].disp.OneFrameOnly? && y.known[y.held.value.Key()].ack.error == NOT_OWNED
    ensures var z := Next(y, SettleKnown(true, true));
      && z.s.adm == OPEN && z.s.jobs == [Handout(id)] && z.hands == y.hands
      && id !in z.s.mem.inbox && id !in ResultCorrs(z.s.mem)
  {
    Step(y, SettleKnown(true, true));
    HeadIsTheFrame(y.s, y.held.value);
    ReleasedState(y.s, y.held.value, y.known[y.held.value.Key()].ack);
  }

  lemma ReleasedState(s: State, f: Frame, ack: Ack)
    requires Sound(s) && s.adm == OPEN && AtHead(s, f.Key()) && s.mem.frames[0] == f
    requires f.payload.JobAck? && f.payload.corr in s.mem.inbox && f.payload.corr !in s.claimed
      && ack.error == NOT_OWNED
    ensures var t := Settle(s, f, OneFrameOnly, Some(ack), true, true).0;
      && t.adm == OPEN && t.jobs == s.jobs && f.payload.corr !in t.mem.inbox && ResultCorrs(t.mem) <= ResultCorrs(s.mem)
      && f.payload.corr !in ResultCorrs(s.mem)
  {
    HeldCorrs(s);
    var t := Settle(s, f, OneFrameOnly, Some(ack), true, true).0;
    assert t.mem.frames == s.mem.frames[1..];
    assert t.mem.rejected == s.mem.rejected + [Row(f, Some(ack))];
    assert FrameCorrs(t.mem.frames) <= FrameCorrs(s.mem.frames);
    assert RowCorrs(t.mem.rejected) <= RowCorrs(s.mem.rejected);
  }

  /** Without the rule it does happen: released while queued, delivered again, and run twice. */
  lemma ReleasedJobsRunTwice(y: System, id: Id, job: Job, d: Delivery) returns (run: seq<Label>)
    requires SystemOk(y) && y.s.adm == OPEN && y.s.jobs == [Handout(id)] && y.hands == multiset{}
    requires id in y.s.mem.inbox && id !in y.s.claimed
    requires y.held.Some? && AtHead(y.s, y.held.value.Key()) && y.held.value.payload.JobAck?
    requires y.held.value.payload.corr == id && y.held.value.Key() in y.known
    requires y.known[y.held.value.Key()].disp.OneFrameOnly? && y.known[y.held.value.Key()].ack.error == NOT_OWNED
    ensures Possible(y, run) && !NeverTwice(y, run)
  {
    hide Sound;
    var settle := SettleKnown(true, true);
    var again := Deliver(id, job, d, false, true, true, true);
    ReleaseLeavesAnEntry(y, id);
    var z := Next(y, settle);
    var w := Next(z, again);
    assert w.s.jobs == [Handout(id), Handout(id)];
    assert Chances(w, id) >= 2;
    var tail := TwoChancesTwoHandouts(w, id);
    assert ([again] + tail)[1..] == tail;
    assert Possible(z, [again] + tail) && !NeverTwice(z, [again] + tail);
    run := [settle] + ([again] + tail);
    assert run[1..] == [again] + tail;
  }
}
