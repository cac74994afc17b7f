/** The class performs runs: claims and reconnects of the object are sequences of the labelled steps, so what
    is proved of all runs is proved of them.  (Termination.CycleIsARun says the same of the sender.) */
module Refinement {
  import Admission
  import opened Basics
  import opened Frames
  import opened StreamState
  import opened StreamRuns
  import opened Claims
  import opened Termination

  lemma {:induction false} ClaimIsARun(y: System) returns (run: seq<Label>)
    ensures Possible(y, run)
    ensures After(y, run) == y.(s := ClaimFrom(y.s).0)
    ensures ClaimFrom(y.s).1.Claimed? <==> !NeverHandsOut(y, run)
    decreases |y.s.jobs|
  {
    hide Next, Enabled, Resolve;
    if y.s.jobs == [] {
      run := [];
    } else {
      run := OneItem(y);
      var r := Resolve(y.s.(jobs := y.s.jobs[1..]), y.s.jobs[0]);
      if r.1.Again? {
        AgainIsNoChange(y.s.(jobs := y.s.jobs[1..]), y.s.jobs[0]);
        var rest := ClaimIsARun(After(y, run));
        Concat(y, run, rest);
        NeverHandsOutConcat(y, run, rest);
        run := run + rest;
      }
    }
  }

  lemma AgainIsNoChange(s: State, item: Item)
    requires Resolve(s, item).1.Again?
    ensures Resolve(s, item).0 == s
  {
  }

  /** One item taken off the queue and resolved. */
  lemma OneItem(y: System) returns (run: seq<Label>)
    requires y.s.jobs != []
    ensures Possible(y, run)
    ensures var r := Resolve(y.s.(jobs := y.s.jobs[1..]), y.s.jobs[0]);
      && After(y, run) == y.(s := r.0)
      && (NeverHandsOut(y, run) <==> !r.1.Claimed?)
  {
    hide Resolve;
    var item := y.s.jobs[0];
    run := [Take, ResolveItem(item)];
    Two(y, Take, ResolveItem(item));
    PairHandsOut(y, Take, ResolveItem(item));
    assert y.hands + multiset{item} - multiset{item} == y.hands;
  }

  lemma PairHandsOut(y: System, l: Label, m: Label)
    requires Enabled(y, l) && Enabled(Next(y, l), m) && Possible(y, [l, m])
    ensures NeverHandsOut(y, [l, m]) <==> !HandsOut(y, l) && !HandsOut(Next(y, l), m)
  {
    assert [l, m][1..] == [m] && [m][1..] == [];
    assert NeverHandsOut(Next(y, l), [m]) == !HandsOut(Next(y, l), m);
  }

  lemma {:induction false} NeverHandsOutConcat(y: System, a: seq<Label>, b: seq<Label>)
    requires Possible(y, a) && Possible(After(y, a), b) && Possible(y, a + b)
    ensures NeverHandsOut(y, a + b) <==> NeverHandsOut(y, a) && NeverHandsOut(After(y, a), b)
    decreases |a|
  {
    hide Next, Enabled;
    if a == [] {
      assert a + b == b;
    } else {
      assert (a + b)[1..] == a[1..] + b;
      NeverHandsOutConcat(Next(y, a[0]), a[1..], b);
    }
  }

  /** No claimer takes part. */
  predicate NoClaims(run: seq<Label>) {
    forall l :: l in run ==> !l.ResolveItem?
  }

  lemma {:induction false} NoClaimsNoHandOut(y: System, run: seq<Label>)
    requires Possible(y, run) && NoClaims(run)
    ensures NeverHandsOut(y, run)
    decreases |run|
  {
    hide Next, Enabled;
    if run != [] {
      NoClaimsNoHandOut(Next(y, run[0]), run[1..]);
    }
  }

  /** A reconnect: clear, insert readiness, mark it, insert the report, mark it. */
  lemma OpeningIsARun(y: System, bootstrap: Option<Payload>, report: Option<Payload>, bootWrite: bool,
                      reportWrite: bool)
    returns (run: seq<Label>)
    requires bootstrap.Some? ==> bootstrap.value.Event?
    requires report.Some? ==> report.value.Event?
    ensures Possible(y, run) && OneIncarnation(run) && NoClaims(run)
    ensures After(y, run) == y.(s := Opened(y.s, bootstrap, report, bootWrite, reportWrite).0)
  {
    run := [SocketOpened];
    var z := Next(y, SocketOpened);
    assert After(y, run) == z by { assert run[1..] == []; }
    var b := InstallBootstrap(z.s, bootstrap, bootWrite);
    if bootstrap.Some? && !AlreadyPending(z.s, bootstrap.value) {
      var ins := InsertingIsARun(z, bootstrap.value, bootWrite, true);
      Concat(y, run, ins);
      run := run + ins;
      z := After(y, run);
    }
    assert z.s == b.0;
    if b.1 && report.Some? {
      var ins := InsertingIsARun(z, report.value, reportWrite, false);
      Concat(y, run, ins);
      run := run + ins;
    }
  }

  /** One bounded claim, with the reconnect it may need and the latch of a stream that cannot be opened. */
  lemma BoundedClaimIsARun(y: System, connected: bool, connects: bool, bootstrap: Option<Payload>,
                           report: Option<Payload>, bootWrite: bool, reportWrite: bool)
    returns (run: seq<Label>)
    requires bootstrap.Some? ==> bootstrap.value.Event?
    requires report.Some? ==> report.value.Event?
    ensures Possible(y, run)
    ensures var r := ClaimOnce(y.s, connected, connects, bootstrap, report, bootWrite, reportWrite);
      && After(y, run) == y.(s := r.0)
      && (r.1.Claimed? <==> !NeverHandsOut(y, run))
  {
    hide Next, Enabled, Opened, ClaimFrom, Latched;
    run := [];
    if y.s.adm.current.Some? {
      return;
    }
    var open := connected;
    if !connected && connects {
      run := OpeningIsARun(y, bootstrap, report, bootWrite, reportWrite);
      NoClaimsNoHandOut(y, run);
      open := Opened(y.s, bootstrap, report, bootWrite, reportWrite).1;
    }
    var z := After(y, run);
    var last;
    if open {
      last := ClaimIsARun(z);
    } else {
      last := [GiveUpWaiting];
      GivingUp(z);
    }
    Concat(y, run, last);
    NeverHandsOutConcat(y, run, last);
    run := run + last;
  }

  lemma GivingUp(y: System)
    ensures Possible(y, [GiveUpWaiting]) && NeverHandsOut(y, [GiveUpWaiting])
    ensures After(y, [GiveUpWaiting]) == y.(s := Latched(y.s, Admission.DeliveryPending, false))
  {
    assert [GiveUpWaiting][1..] == [];
    assert After(y, [GiveUpWaiting]) == Next(y, GiveUpWaiting);
  }

  lemma InsertingIsARun(y: System, p: Payload, write: bool, boot: bool) returns (run: seq<Label>)
    requires p.Event?
    ensures Possible(y, run) && OneIncarnation(run) && NoClaims(run)
    ensures After(y, run) == y.(s := if boot then InstallBootstrapNow(y.s, p, write)
                                     else InstallReport(y.s, Some(p), write))
  {
    var r := AppendHead(y.s, p, write);
    var l := InsertHead(p, write);
    if r.1.Appended? {
      var key := KeyOf(y.s.streamId, r.1.num);
      var m := if boot then MarkBootstrap(key) else MarkReopen(key);
      Two(y, l, m);
      run := [l, m];
    } else {
      run := [l];
      assert run[1..] == [];
      assert After(y, run) == Next(y, l);
    }
  }

  /** The insertion itself, once no identical event is pending. */
  function InstallBootstrapNow(s: State, p: Payload, write: bool): State
    requires p.Event?
  {
    var r := AppendHead(s, p, write);
    if r.1.Appended? then r.0.(bootKey := Some(KeyOf(s.streamId, r.1.num))) else r.0
  }
}
