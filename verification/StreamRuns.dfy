/** Whole runs of the event stream: the process with its threads, an adversarial server and disk, crashes and
    restarts.  One label is one lock-held transition, or one step of the sender, reader or a claimer between
    two lock holds.  A crash inside a transition is a run in which the remaining writes fail, followed by
    Restart. */
module StreamRuns {
  import opened Basics
  import opened Frames
  import opened Admission
  import opened StreamState
  import opened SenderCycle
  import opened Soundness

  /** `hands` are items claimers have taken off the queue; `window` the frames of the sender's current cycle
      that had no verdict yet; `known` its verdicts; `held` the head it last read. */
  datatype System = System(s: State, hands: multiset<Item>, window: seq<Frame>, known: map<Key, Known>,
                           held: Option<Frame>)

  datatype Label =
    | AppendFrame(p: Payload, probe: bool, write: bool)
    | InsertHead(p: Payload, write: bool)
    | MarkBootstrap(key: Key)
    | MarkReopen(key: Key)
    | Deliver(id: Id, job: Job, d: Delivery, receipt: bool, inboxWrite: bool, probe: bool, write: bool)
    | RefuseInput
    | GiveUpWaiting
    | SocketOpened
    | SliceWindow
    | WireWrite(key: Key)
    | Learn(frame: Frame, ack: Ack)
    | EarlyVerdict(frame: Frame, ack: Ack)
    | ReadHead
    | SettleKnown(write: bool, release: bool)
    | DropReport(write: bool)
    | Exhaust(write: bool)
    | SenderFault
    | Take
    | ResolveItem(item: Item)
    | Interrupt
    | Restart(newId: Id, order: seq<Id>)

  predicate Dispatched(y: System, key: Key) {
    key in Keys(y.window)
  }

  ghost predicate Enabled(y: System, l: Label) {
    match l
    case InsertHead(p, _) => p.Event?
    case Learn(f, ack) =>
      && (f in y.window || (f in y.s.mem.frames && Some(f.Key()) in {y.s.bootKey, y.s.reopenKey}))
      && ack.key == f.Key() && Judge(f, ack).Some?
    case EarlyVerdict(f, ack) => Judge(f, ack) == Some(Rejected)
    case ReadHead => y.s.mem.frames != []
    case SettleKnown(_, _) => y.held.Some? && y.held.value.Key() in y.known
    case DropReport(_) =>
      && y.held.Some? && IsReopen(y.held.value)
      && (Dispatched(y, y.held.value.Key()) || y.held.value.Key() in y.s.wired)
    case Exhaust(_) => y.held.Some? && Dispatched(y, y.held.value.Key())
    case Take => y.s.jobs != []
    case ResolveItem(item) => item in y.hands
    case Restart(newId, order) =>
      ValidStreamId(newId) && newId !in y.s.used && Requeues(order, y.s.disk.inbox.Keys)
    case _ => true
  }

  /** After a settlement: the verdict is used up unless its write failed. */
  function Settled(y: System, r: (State, bool)): System
    requires y.held.Some?
  {
    y.(s := r.0, held := None, known := if r.1 then y.known else Drop(y.known, y.held.value.Key()))
  }

  ghost function Next(y: System, l: Label): System
    requires Enabled(y, l)
  {
    var s := y.s;
    match l
    case AppendFrame(p, probe, write) => y.(s := Append(s, p, probe, write).0)
    case InsertHead(p, write) => y.(s := AppendHead(s, p, write).0)
    case MarkBootstrap(key) => y.(s := s.(bootKey := Some(key)))
    case MarkReopen(key) => y.(s := s.(reopenKey := Some(key)))
    case Deliver(id, job, d, receipt, inboxWrite, probe, write) =>
      y.(s := AcceptJob(s, id, job, d, receipt, inboxWrite, probe, write).0)
    case RefuseInput => y.(s := Latched(s, Unhealthy, false))
    case GiveUpWaiting => y.(s := Latched(s, DeliveryPending, false))
    case SocketOpened => y.(s := Cleared(s))
    case SliceWindow => y.(window := Unsettled(First(s.mem.frames, ACK_WINDOW), y.known))
    case WireWrite(key) => y.(s := s.(wired := s.wired + {key}))
    case Learn(f, ack) => y.(known := y.known[f.Key() := Known(Judge(f, ack).value, ack)])
    case EarlyVerdict(f, ack) => y.(s := Latched(s, FrameRejected(f.Key()), false))
    case ReadHead => y.(held := Some(s.mem.frames[0]))
    case SettleKnown(write, release) =>
      var v := y.known[y.held.value.Key()];
      Settled(y, Settle(s, y.held.value, v.disp, Some(v.ack), write, release))
    case DropReport(write) => y.(s := Settle(s, y.held.value, Abandoned, None, write, true).0, held := None)
    case Exhaust(write) => y.(s := ExhaustState(s, y.held.value, write).0, held := None)
    case SenderFault => y.(s := Latched(s, StorageFault, true))
    case Take => y.(s := s.(jobs := s.jobs[1..]), hands := y.hands + multiset{s.jobs[0]})
    case ResolveItem(item) => y.(s := Resolve(s, item).0, hands := y.hands - multiset{item})
    case Interrupt => y.(s := s.(jobs := s.jobs + [ClaimInterrupt]))
    case Restart(newId, order) =>
      System(Boot(s.disk, s.log, s.used, newId, order), multiset{}, [], map[], None)
  }

  // ── runs ──

  /** A first start on an empty volume. */
  ghost function Start(newId: Id): System {
    System(Boot(BLANK, map[], {}, newId, []), multiset{}, [], map[], None)
  }

  ghost predicate Possible(y: System, run: seq<Label>)
    decreases |run|
  {
    run == [] || (Enabled(y, run[0]) && Possible(Next(y, run[0]), run[1..]))
  }

  ghost function After(y: System, run: seq<Label>): System
    requires Possible(y, run)
    decreases |run|
  {
    if run == [] then y else After(Next(y, run[0]), run[1..])
  }

  // ── the invariant over runs ──

  /** What the sender remembers is about frames that were really appended, and each verdict it holds is the
      one the server's acknowledgement of that very frame gives it. */
  ghost predicate SenderOk(y: System) {
    && (forall k :: k in y.known ==>
          k in y.s.log && y.known[k].ack.key == k && Judge(y.s.log[k].frame, y.known[k].ack) == Some(y.known[k].disp))
    && (y.held.Some? ==> Logged(y.s, y.held.value))
    && (forall f :: f in y.window ==> Logged(y.s, f))
    && y.s.attempts.Keys <= y.s.log.Keys
  }

  ghost predicate SystemOk(y: System) {
    Sound(y.s) && SenderOk(y)
  }

  // ── restart ──

  lemma DropBootsFromLogKeeps(s: State, newId: Id)
    requires Sound(s) && newId !in s.used
    ensures var log := DropBootsFromLog(s.log);
      && ResultsUnique(log) && InboxOk(s.disk, log) && DeadLetterOk(s.disk.rejected, log)
      && (forall k :: k in log ==> Justified(log[k], k, newId))
  {
    hide DeadLetterOk;
    DropBootsKeepsDeadLetter(s);
    var log := DropBootsFromLog(s.log);
    assert forall k :: HeldResult(log, k) ==> HeldResult(s.log, k) && log[k] == s.log[k];
  }

  lemma DropBootsKeepsDeadLetter(s: State)
    requires Sound(s)
    ensures DeadLetterOk(s.disk.rejected, DropBootsFromLog(s.log))
  {
    assert forall r :: r in s.disk.rejected ==> s.log[r.frame.Key()].fate.DeadLettered?;
  }

  lemma DropBootsKeeps(frames: seq<Frame>)
    ensures forall f :: f in DropBoots(frames) <==> f in frames && !IsBoot(f)
    ensures Distinct(frames) ==> Distinct(DropBoots(frames))
  {
    if frames != [] {
      var rest := DropBoots(frames[1..]);
      DropBootsKeeps(frames[1..]);
      assert forall f :: f in frames <==> f == frames[0] || f in frames[1..];
      if Distinct(frames) {
        assert Distinct(frames[1..]);
        forall j | 0 <= j < |rest|
          ensures rest[j].Key() != frames[0].Key()
        {
          assert rest[j] in frames[1..];
        }
      }
    }
  }

  lemma BootKeeps(s: State, newId: Id, order: seq<Id>)
    requires Sound(s) && newId !in s.used && ValidStreamId(newId)
    ensures Sound(Boot(s.disk, s.log, s.used, newId, order))
    ensures LogGrows(s, Boot(s.disk, s.log, s.used, newId, order))
  {
    hide OutboxOk, DeadLetterOk, ResultsUnique, Justified;
    var t := Boot(s.disk, s.log, s.used, newId, order);
    BootKeepsOutbox(s, newId);
    DropBootsFromLogKeeps(s, newId);
    assert IdsOk(t);
  }

  lemma BootKeepsOutbox(s: State, newId: Id)
    requires Sound(s)
    ensures OutboxOk(DropBoots(s.disk.frames), DropBootsFromLog(s.log))
  {
    DropBootsKeeps(s.disk.frames);
  }

  lemma StartIsOk(newId: Id)
    requires ValidStreamId(newId)
    ensures SystemOk(Start(newId))
  {
  }

  // ── one step ──

  lemma CountAttemptKeeps(s: State, f: Frame)
    requires Sound(s) && Logged(s, f)
    ensures Sound(CountAttempt(s, f.Key())) && Logged(CountAttempt(s, f.Key()), f)
  {
  }

  lemma ExhaustKeeps(s: State, f: Frame, write: bool)
    requires Sound(s) && Logged(s, f)
    ensures Sound(ExhaustState(s, f, write).0)
    ensures Moves(s, ExhaustState(s, f, write).0)
  {
    CountAttemptKeeps(s, f);
    var s1 := CountAttempt(s, f.Key());
    if Attempts(s, f.Key()) + 1 > DELIVERY_PENDING_MAX_ATTEMPTS {
      AbandonKeeps(s1, f, write);
    } else {
      SettleKeeps(s1, f, Pending, None, write, true);
    }
    MovesFrom(s, s1, ExhaustState(s, f, write).0);
  }

  lemma AbandonKeeps(s: State, f: Frame, write: bool)
    requires Sound(s) && Logged(s, f)
    ensures Sound(Settle(s, f, Abandoned, Some(CapAck(f.Key())), write, true).0)
    ensures Moves(s, Settle(s, f, Abandoned, Some(CapAck(f.Key())), write, true).0)
  {
    SettleKeeps(s, f, Abandoned, Some(CapAck(f.Key())), write, true);
  }

  lemma KnownSettlementKeeps(y: System, write: bool, release: bool)
    requires SystemOk(y) && Enabled(y, SettleKnown(write, release))
    ensures Sound(Next(y, SettleKnown(write, release)).s)
    ensures Moves(y.s, Next(y, SettleKnown(write, release)).s)
  {
    var f := y.held.value;
    var v := y.known[f.Key()];
    assert Judge(f, v.ack) == Some(v.disp);
    SettleKeeps(y.s, f, v.disp, Some(v.ack), write, release);
  }

  /** Steps that settle a frame. */
  predicate Settles(l: Label) {
    l.SettleKnown? || l.DropReport? || l.Exhaust?
  }

  lemma SettlingStep(y: System, l: Label)
    requires SystemOk(y) && Enabled(y, l) && Settles(l)
    ensures Sound(Next(y, l).s) && Moves(y.s, Next(y, l).s)
  {
    match l {
      case SettleKnown(write, release) => KnownSettlementKeeps(y, write, release);
      case DropReport(write) => SettleKeeps(y.s, y.held.value, Abandoned, None, write, true);
      case Exhaust(write) => ExhaustKeeps(y.s, y.held.value, write);
    }
  }

  /** Steps that append or accept. */
  predicate Appends(l: Label) {
    l.AppendFrame? || l.InsertHead? || l.Deliver?
  }

  lemma AppendingStep(y: System, l: Label)
    requires SystemOk(y) && Enabled(y, l) && Appends(l)
    ensures Sound(Next(y, l).s) && Moves(y.s, Next(y, l).s)
  {
    match l {
      case AppendFrame(p, probe, write) => AppendKeeps(y.s, p, probe, write);
      case InsertHead(p, write) => AppendHeadKeeps(y.s, p, write);
      case Deliver(id, job, d, receipt, inboxWrite, probe, write) =>
        AcceptJobKeeps(y.s, id, job, d, receipt, inboxWrite, probe, write);
    }
  }

  /** What no quiet step touches. */
  ghost predicate Untouched(s: State, t: State) {
    t.log == s.log && t.mem == s.mem && t.disk == s.disk && t.streamId == s.streamId && t.next == s.next
  }

  lemma OtherFieldsAreFree(s: State, t: State)
    requires Sound(s) && Untouched(s, t) && t.used == s.used && t.adm == s.adm && t.claimed <= s.mem.inbox.Keys
    ensures Sound(t)
  {
  }

  /** Steps that only move the latch. */
  predicate MovesLatch(l: Label) {
    l.RefuseInput? || l.GiveUpWaiting? || l.SocketOpened? || l.EarlyVerdict? || l.SenderFault?
  }

  lemma LatchingStep(y: System, l: Label)
    requires Sound(y.s) && Enabled(y, l) && MovesLatch(l)
    ensures Sound(Next(y, l).s) && Untouched(y.s, Next(y, l).s)
  {
    hide Sound;
    var s := y.s;
    match l {
      case RefuseInput => LatchKeeps(s, Unhealthy, false);
      case GiveUpWaiting => LatchKeeps(s, DeliveryPending, false);
      case SocketOpened => ClearKeeps(s);
      case EarlyVerdict(f, ack) => LatchKeeps(s, FrameRejected(f.Key()), false);
      case SenderFault => LatchKeeps(s, StorageFault, true);
    }
  }

  /** Steps of the claimers. */
  predicate TouchesQueue(l: Label) {
    l.Take? || l.ResolveItem? || l.Interrupt?
  }

  lemma ClaimingStep(y: System, l: Label)
    requires Enabled(y, l) && TouchesQueue(l)
    ensures var t := Next(y, l).s;
      && Untouched(y.s, t) && t.used == y.s.used && t.adm == y.s.adm
      && t.claimed <= y.s.claimed + y.s.mem.inbox.Keys
  {
    hide Resolve;
    match l {
      case ResolveItem(item) => ResolveTouchesNothing(y.s, item);
      case _ =>
    }
  }

  lemma ResolveTouchesNothing(s: State, item: Item)
    ensures var t := Resolve(s, item).0;
      && Untouched(s, t) && t.used == s.used && t.adm == s.adm
      && t.claimed <= s.claimed + s.mem.inbox.Keys
  {
  }

  /** Steps in which sender and reader note something. */
  lemma NotingStep(y: System, l: Label)
    requires Enabled(y, l) && !TouchesQueue(l) && !MovesLatch(l) && !Settles(l) && !Appends(l) && !l.Restart?
    ensures var t := Next(y, l).s;
      Untouched(y.s, t) && t.used == y.s.used && t.adm == y.s.adm && t.claimed == y.s.claimed
  {
  }

  lemma FreeStep(y: System, l: Label)
    requires Sound(y.s) && Enabled(y, l) && !MovesLatch(l) && !Settles(l) && !Appends(l) && !l.Restart?
    ensures Sound(Next(y, l).s) && Untouched(y.s, Next(y, l).s)
  {
    hide Next, Enabled;
    if TouchesQueue(l) {
      ClaimingStep(y, l);
    } else {
      NotingStep(y, l);
    }
    OtherFieldsAreFree(y.s, Next(y, l).s);
  }

  lemma QuietStep(y: System, l: Label)
    requires SystemOk(y) && Enabled(y, l) && !Settles(l) && !Appends(l) && !l.Restart?
    ensures Sound(Next(y, l).s) && Untouched(y.s, Next(y, l).s)
  {
    if MovesLatch(l) {
      LatchingStep(y, l);
    } else {
      FreeStep(y, l);
    }
  }

  /** Every step but a restart keeps the state sound and moves frames only as `Moves` allows. */
  lemma StateStep(y: System, l: Label)
    requires SystemOk(y) && Enabled(y, l) && !l.Restart?
    ensures Sound(Next(y, l).s) && Moves(y.s, Next(y, l).s)
  {
    if Settles(l) {
      SettlingStep(y, l);
    } else if Appends(l) {
      AppendingStep(y, l);
    } else {
      QuietStep(y, l);
      UntouchedMoves(y.s, Next(y, l).s);
    }
  }

  lemma UntouchedMoves(s: State, t: State)
    requires Untouched(s, t)
    ensures Moves(s, t)
  {
  }

  lemma SenderRemembers(y: System, z: System)
    requires SenderOk(y) && LogGrows(y.s, z.s)
    requires forall k :: k in z.known ==> k in y.known && z.known[k] == y.known[k]
    requires z.held == y.held || z.held == None
    requires z.window == y.window
    requires z.s.attempts.Keys <= y.s.attempts.Keys + (if y.held.Some? then {y.held.value.Key()} else {})
    ensures SenderOk(z)
  {
  }

  /** The three steps through which the sender learns something new. */
  lemma SenderLearns(y: System, l: Label)
    requires SystemOk(y) && Enabled(y, l) && (l.ReadHead? || l.Learn? || l.SliceWindow?)
    ensures SenderOk(Next(y, l))
  {
    hide Sound;
    WaitingIsLogged(y.s);
    if l.ReadHead? {
      assert y.s.mem.frames[0] in y.s.mem.frames;
    } else if l.Learn? {
      LearningKeeps(y, l.frame, l.ack);
    } else {
      SlicingKeeps(y);
    }
  }

  lemma SlicingKeeps(y: System)
    requires SenderOk(y) && forall f :: f in y.s.mem.frames ==> Logged(y.s, f)
    ensures SenderOk(Next(y, SliceWindow))
  {
    assert forall f :: f in Next(y, SliceWindow).window ==> f in y.s.mem.frames;
  }

  lemma WaitingIsLogged(s: State)
    requires Sound(s)
    ensures forall f :: f in s.mem.frames ==> Logged(s, f)
  {
  }

  lemma LearningKeeps(y: System, f: Frame, ack: Ack)
    requires SenderOk(y) && Enabled(y, Learn(f, ack)) && Logged(y.s, f)
    ensures SenderOk(Next(y, Learn(f, ack)))
  {
  }

  lemma SettleKeepsAttempts(s: State, f: Frame, disp: Disposition, ack: Option<Ack>, write: bool, release: bool)
    requires disp.Accepted? ==> ack.Some?
    ensures Settle(s, f, disp, ack, write, release).0.attempts.Keys <= s.attempts.Keys
  {
  }

  lemma AppendKeepsAttempts(s: State, p: Payload, probe: bool, write: bool)
    ensures Append(s, p, probe, write).0.attempts == s.attempts
  {
  }

  lemma DeliverKeepsAttempts(s: State, id: Id, job: Job, d: Delivery, ack: bool, inboxWrite: bool, probe: bool,
                             write: bool)
    ensures AcceptJob(s, id, job, d, ack, inboxWrite, probe, write).0.attempts == s.attempts
  {
    if id in ResultCorrs(s.mem) {
      AppendKeepsAttempts(s, Receipt(id, d), probe, write);
    } else if id in s.mem.inbox {
      AppendKeepsAttempts(Persisted(WithDelivery(s, id, d)), Receipt(id, d), probe, write);
    } else {
      AppendKeepsAttempts(Persisted(WithJob(s, id, job, d)), Receipt(id, d), probe, write);
    }
  }

  lemma SettlingKeepsAttempts(y: System, l: Label)
    requires Enabled(y, l) && Settles(l)
    ensures Next(y, l).s.attempts.Keys <= y.s.attempts.Keys + {y.held.value.Key()}
  {
    match l {
      case SettleKnown(write, release) =>
        var v := y.known[y.held.value.Key()];
        SettleKeepsAttempts(y.s, y.held.value, v.disp, Some(v.ack), write, release);
      case DropReport(write) => SettleKeepsAttempts(y.s, y.held.value, Abandoned, None, write, true);
      case Exhaust(write) =>
        var f := y.held.value;
        SettleKeepsAttempts(CountAttempt(y.s, f.Key()), f, Abandoned, Some(CapAck(f.Key())), write, true);
        SettleKeepsAttempts(CountAttempt(y.s, f.Key()), f, Pending, None, write, true);
    }
  }

  lemma AttemptsStep(y: System, l: Label)
    requires Enabled(y, l) && !l.Restart?
    ensures Next(y, l).s.attempts.Keys <=
            y.s.attempts.Keys + (if y.held.Some? then {y.held.value.Key()} else {})
  {
    if Settles(l) {
      SettlingKeepsAttempts(y, l);
    } else if l.AppendFrame? {
      AppendKeepsAttempts(y.s, l.p, l.probe, l.write);
    } else if l.Deliver? {
      DeliverKeepsAttempts(y.s, l.id, l.job, l.d, l.receipt, l.inboxWrite, l.probe, l.write);
    }
  }

  lemma SenderStep(y: System, l: Label)
    requires SystemOk(y) && Enabled(y, l) && LogGrows(y.s, Next(y, l).s)
    ensures SenderOk(Next(y, l))
  {
    hide Sound;
    if l.ReadHead? || l.Learn? || l.SliceWindow? {
      SenderLearns(y, l);
    } else if !l.Restart? {
      AttemptsStep(y, l);
      SenderRemembers(y, Next(y, l));
    }
  }

  lemma Step(y: System, l: Label)
    requires SystemOk(y) && Enabled(y, l)
    ensures SystemOk(Next(y, l))
    ensures LogGrows(y.s, Next(y, l).s)
    ensures !l.Restart? ==> Moves(y.s, Next(y, l).s)
  {
    if l.Restart? {
      BootKeeps(y.s, l.newId, l.order);
    } else {
      StateStep(y, l);
    }
    SenderStep(y, l);
  }

  lemma {:induction false} Run(y: System, run: seq<Label>)
    requires SystemOk(y) && Possible(y, run)
    ensures SystemOk(After(y, run))
    ensures LogGrows(y.s, After(y, run).s)
    decreases |run|
  {
    if run != [] {
      Step(y, run[0]);
      Run(Next(y, run[0]), run[1..]);
    }
  }
}
