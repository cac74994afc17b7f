/** What a bounded claim returns, read off the queue's content. */
module ClaimQueue {
  import opened Basics
  import opened Frames
  import opened Admission
  import opened StreamState
  import opened Outcomes

  /** Under open admission: an interrupt ends the claim, and so does an entry of a job that is in the inbox.  Wake-ups
      and entries of jobs no longer there are passed over. */
  predicate Decides(item: Item, inbox: map<Id, Job>) {
    item.ClaimInterrupt? || (item.Handout? && item.id in inbox)
  }

  /** i is the first place whose item decides the claim, or the length of the queue. */
  ghost predicate FirstDecides(jobs: seq<Item>, inbox: map<Id, Job>, i: nat) {
    && i <= |jobs|
    && (forall j :: 0 <= j < i ==> !Decides(jobs[j], inbox))
    && (i < |jobs| ==> Decides(jobs[i], inbox))
  }

  lemma FirstExists(jobs: seq<Item>, inbox: map<Id, Job>) returns (i: nat)
    ensures FirstDecides(jobs, inbox, i)
  {
    i := 0;
    while i < |jobs| && !Decides(jobs[i], inbox)
      invariant i <= |jobs| && forall j :: 0 <= j < i ==> !Decides(jobs[j], inbox)
    {
      i := i + 1;
    }
  }

  /** Under open admission the first deciding item decides: a job of the inbox is returned with its content, marked as
      claimed and no longer as queued, and only the entries up to its own have left the queue; an interrupt returns
      nothing; and without a deciding item the whole queue has been passed over. */
  lemma {:induction false} ClaimTakesTheFirst(s: State, i: nat)
    requires s.adm.current.None? && FirstDecides(s.jobs, s.mem.inbox, i)
    ensures ClaimFrom(s) ==
      if i == |s.jobs| then (s.(jobs := []), Nothing)
      else match s.jobs[i]
        case Handout(id) =>
          (s.(jobs := s.jobs[i + 1..], queued := s.queued - {id}, claimed := s.claimed + {id}),
           Claimed(id, s.mem.inbox[id]))
        case _ => (s.(jobs := s.jobs[i + 1..]), Nothing)
    decreases i
  {
    if i > 0 {
      var t := s.(jobs := s.jobs[1..]);
      assert !Decides(s.jobs[0], s.mem.inbox);
      assert Resolve(t, s.jobs[0]) == (t, Again);
      assert forall j :: 0 <= j < i - 1 ==> t.jobs[j] == s.jobs[j + 1];
      ClaimTakesTheFirst(t, i - 1);
      if i < |s.jobs| {
        assert t.jobs[i..] == s.jobs[i + 1..];
      }
    }
  }

  /** Exactly when a claim under open admission comes back with a job, and with which. */
  lemma ClaimReturnsExactly(s: State, id: Id)
    requires s.adm.current.None?
    ensures (ClaimFrom(s).1.Claimed? && ClaimFrom(s).1.id == id) <==>
            exists i: nat :: FirstDecides(s.jobs, s.mem.inbox, i) && i < |s.jobs| && s.jobs[i] == Handout(id)
    ensures ClaimFrom(s).1 == Nothing <==>
            exists i: nat :: FirstDecides(s.jobs, s.mem.inbox, i) && (i == |s.jobs| || s.jobs[i] == ClaimInterrupt)
  {
    var i := FirstExists(s.jobs, s.mem.inbox);
    ClaimTakesTheFirst(s, i);
    forall j: nat | FirstDecides(s.jobs, s.mem.inbox, j) ensures j == i {
      OnlyOneFirst(s.jobs, s.mem.inbox, i, j);
    }
  }

  lemma OnlyOneFirst(jobs: seq<Item>, inbox: map<Id, Job>, i: nat, j: nat)
    requires FirstDecides(jobs, inbox, i) && FirstDecides(jobs, inbox, j)
    ensures i == j
  {
  }

  /** Under a standing fault the first item decides: an interrupt returns nothing; anything else reports the fault, and
      an entry of a job goes back to the end of the queue, unclaimed. */
  lemma ClosedClaimRefuses(s: State)
    requires s.adm.current.Some? && s.jobs != []
    ensures ClaimFrom(s) ==
      match s.jobs[0]
      case ClaimInterrupt => (s.(jobs := s.jobs[1..]), Nothing)
      case AdmissionWake => (s.(jobs := s.jobs[1..]), Refused(s.adm.current.value))
      case Handout(_) => (s.(jobs := s.jobs[1..] + [s.jobs[0]]), Refused(s.adm.current.value))
  {
  }

  /** A claim on a connection that is up does just that; one whose connection cannot be opened closes admission and
      leaves queue and jobs alone. */
  lemma ConnectedClaim(s: State, connected: bool, bootstrap: Option<Payload>, report: Option<Payload>,
                       bootWrite: bool, reportWrite: bool, i: nat)
    requires s.adm.current.None? && FirstDecides(s.jobs, s.mem.inbox, i)
    requires bootstrap.Some? ==> bootstrap.value.Event?
    requires report.Some? ==> report.value.Event?
    ensures var (t, r) := ClaimOnce(s, connected, false, bootstrap, report, bootWrite, reportWrite);
      && (connected && i < |s.jobs| && s.jobs[i].Handout? ==>
            && r == Claimed(s.jobs[i].id, s.mem.inbox[s.jobs[i].id])
            && s.jobs[i].id in t.claimed && t.jobs == s.jobs[i + 1..] && t.mem == s.mem)
      && (connected && (i == |s.jobs| || !s.jobs[i].Handout?) ==> r == Nothing && t.claimed == s.claimed)
      && (!connected ==>
            && r == Refused(DeliveryPending) && t.adm.current == Some(DeliveryPending)
            && t.jobs == s.jobs + [AdmissionWake] && t.claimed == s.claimed && t.mem == s.mem)
  {
    ClaimTakesTheFirst(s, i);
  }

  /** From delivery to claim: new work that arrives under open admission, with nothing in the queue that would decide a
      claim before it, is what the next claim returns, with its content. */
  lemma DeliveredJobIsClaimed(s: State, id: Id, job: Job, d: Delivery)
    requires s.adm == OPEN && id !in ResultCorrs(s.mem) && id !in s.mem.inbox && ValidFrame(ReceiptFrame(s, id, d))
    requires forall j :: 0 <= j < |s.jobs| ==> !Decides(s.jobs[j], s.mem.inbox[id := job])
    ensures var t := AcceptJob(s, id, job, d, true, true, true, true).0;
      ClaimFrom(t).1 == Claimed(id, job) && id in ClaimFrom(t).0.claimed && ClaimFrom(t).0.jobs == []
  {
    DeliveriesAreReceipted(s, id, job, d);
    hide AcceptJob;
    var t := AcceptJob(s, id, job, d, true, true, true, true).0;
    ClaimTakesTheFirst(t, |s.jobs|);
  }
}
