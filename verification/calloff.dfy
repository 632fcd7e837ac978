/** What a done frame makes of a transfer that has been called off (chatclientd/files.go, onDone,
    Decline and onDeclined): it is finished all the same, with nothing on disk; and that comes
    about in no other way. */
module CallOff {
  import opened Wrappers
  import opened TransferModel

  /** The receiver gives up a transfer it has, or hears that it has been given up. */
  predicate CallsOff(s: State, l: Label) {
    s.rcv.Some? && (l.ReceiverDeclines? || (l.ReceiverHears? && s.down != [] && s.down[0].Decline?))
  }

  ghost predicate CalledOffBy(states: seq<State>, labels: seq<Label>, n: nat)
    requires n <= |labels| && n < |states|
  {
    exists j :: 0 <= j < n && CallsOff(states[j], labels[j])
  }

  // ------------------------------------------------------- before the receiver agrees

  /** No accept is anywhere, so nothing is pushed and no done is on its way. */
  predicate Asleep(s: State) {
    && NoAccept(s.fromReceiver) && !s.rel.Carrying() && NoAccept(s.toSender)
    && s.push.Idle? && Quiet(s.up) && Quiet(s.down)
  }

  lemma PoppedQueue(q: seq<RelayModel.Transport>)
    requires q != []
    ensures q[0] in q && forall f :: f in q[1..] ==> f in q
  {
  }

  lemma SenderStaysAsleep(w: Errand, s: State, l: Label, s': State)
    requires Asleep(s) && Next(w, s, l, s')
    requires l.SenderHears? || l.SenderCancels? || l.SenderFails? || l.SenderCut?
      || l.PushCheck? || l.PushRead? || l.PushEnd?
    ensures Asleep(s')
  {
    if l.SenderHears? { PoppedQueue(s.toSender); }
  }

  lemma RelayStaysAsleep(w: Errand, s: State, l: Label, s': State)
    requires Asleep(s) && Next(w, s, l, s') && (l.RelayHearsSender? || l.RelayHearsReceiver? || l.RelayExpires?)
    ensures Asleep(s')
  {
    if l.RelayHearsSender? { PoppedQueue(s.up); }
    if l.RelayHearsReceiver? { PoppedQueue(s.fromReceiver); }
  }

  lemma ReceiverStaysAsleep(w: Errand, s: State, l: Label, s': State)
    requires Asleep(s) && Next(w, s, l, s')
    requires l.ReceiverHears? || l.ReceiverDeclines? || l.ReceiverFails? || l.ReceiverCut?
    ensures Asleep(s')
  {
    if l.ReceiverHears? { PoppedQueue(s.down); }
  }

  // --------------------------------------------------------- what the path tells

  /** Nothing is on disk without a path, and under a path nothing is missing but what a digest
      took away. */
  predicate PathOk(w: Errand, s: State) {
    s.rcv.Some? ==>
      && (s.rcv.value.tr.path == "" ==> s.rcv.value.disk.None?)
      && (s.rcv.value.tr.path != "" && s.rcv.value.disk.None? ==> w.sum != "")
  }

  predicate Pathless(s: State) { s.rcv.None? || s.rcv.value.tr.path == "" }

  /** A transfer without a path is one that has been called off, or has not been taken up. */
  ghost predicate ToldByPath(states: seq<State>, labels: seq<Label>, n: nat)
    requires n <= |labels| && n < |states|
  {
    && (CalledOffBy(states, labels, n) ==>
          states[n].rcv.Some? && Pathless(states[n]) && !states[n].rcv.value.tr.state.Incoming?)
    && (Pathless(states[n]) ==> CalledOffBy(states, labels, n) || Asleep(states[n]))
  }

  lemma PathStaysOk(w: Errand, s: State, l: Label, s': State)
    requires Inv(w, s) && PathOk(w, s) && Next(w, s, l, s')
    ensures PathOk(w, s')
  {
  }

  /** Calling off takes the path away, and nothing gives it back. */
  lemma CalledOffStays(w: Errand, s: State, l: Label, s': State)
    requires Inv(w, s) && Next(w, s, l, s')
    requires CallsOff(s, l) || (s.rcv.Some? && Pathless(s) && !s.rcv.value.tr.state.Incoming?)
    ensures s'.rcv.Some? && Pathless(s') && !s'.rcv.value.tr.state.Incoming?
  {
    if l.ReceiverHears? { PoppedQueue(s.down); }
  }

  /** Otherwise a transfer without a path had none before. */
  lemma PathlessBefore(w: Errand, s: State, l: Label, s': State)
    requires Next(w, s, l, s') && !CallsOff(s, l) && Pathless(s') && Inv(w, s)
    ensures Pathless(s) && !l.ReceiverAccepts?
  {
    if l.ReceiverHears? { PoppedQueue(s.down); }
  }

  lemma StaysAsleep(w: Errand, s: State, l: Label, s': State)
    requires Asleep(s) && Next(w, s, l, s') && !l.ReceiverAccepts?
    ensures Asleep(s')
  {
    if l.ReceiverHears? || l.ReceiverDeclines? || l.ReceiverFails? || l.ReceiverCut? {
      ReceiverStaysAsleep(w, s, l, s');
    } else if l.RelayHearsSender? || l.RelayHearsReceiver? || l.RelayExpires? {
      RelayStaysAsleep(w, s, l, s');
    } else {
      SenderStaysAsleep(w, s, l, s');
    }
  }

  lemma {:induction false} AlwaysTold(w: Errand, states: seq<State>, labels: seq<Label>, n: nat)
    requires Run(w, states, labels) && n < |states|
    ensures PathOk(w, states[n]) && ToldByPath(states, labels, n)
  {
    if n > 0 {
      AlwaysTold(w, states, labels, n - 1);
      AlwaysInv(w, states, labels, n - 1);
      var s, l, s' := states[n - 1], labels[n - 1], states[n];
      assert Next(w, s, l, s');
      PathStaysOk(w, s, l, s');
      ToldOn(w, states, labels, n);
    }
  }

  lemma ToldOn(w: Errand, states: seq<State>, labels: seq<Label>, n: nat)
    requires 0 < n <= |labels| < |states| && ToldByPath(states, labels, n - 1)
    requires Inv(w, states[n - 1]) && Next(w, states[n - 1], labels[n - 1], states[n])
    ensures ToldByPath(states, labels, n)
  {
    var s, l, s' := states[n - 1], labels[n - 1], states[n];
    assert CallsOff(s, l) ==> CalledOffBy(states, labels, n);
    if CalledOffBy(states, labels, n) {
      var j :| 0 <= j < n && CallsOff(states[j], labels[j]);
      assert j < n - 1 ==> CalledOffBy(states, labels, n - 1);
      CalledOffStays(w, s, l, s');
    } else if Pathless(s') {
      assert !CalledOffBy(states, labels, n - 1);
      PathlessBefore(w, s, l, s');
      StaysAsleep(w, s, l, s');
    }
  }

  // -------------------------------------------------------------------- what follows

  /** Over every run: done leaves a transfer finished with nothing on disk exactly when, at some
      step before, the receiver had called it off or heard that it was called off. */
  lemma FinishedWithNothingExactlyWhen(w: Errand, states: seq<State>, labels: seq<Label>, i: nat)
    requires Run(w, states, labels) && i < |labels| && labels[i].ReceiverHears?
    requires states[i].down != [] && states[i].down[0].Done? && states[i].rcv.Some?
    ensures states[i + 1].rcv.Some?
    ensures var l := states[i + 1].rcv.value;
      l.tr.state.Finished? && l.disk.None? <==> CalledOffBy(states, labels, i)
  {
    AlwaysTold(w, states, labels, i);
    AlwaysInv(w, states, labels, i);
    var s := states[i];
    assert Next(w, s, labels[i], states[i + 1]);
    assert s.down[0] in s.down;
    DoneTold(w, s);
  }

  lemma DoneTold(w: Errand, s: State)
    requires s.rcv.Some? && LandingOk(w, s.rcv.value) && PathOk(w, s)
    ensures var l := DoneLanding(s.rcv.value, w.digest); l.tr.state.Finished? && l.disk.None? <==> Pathless(s)
  {
  }

  // --------------------------------------------------------------- what done leaves behind

  predicate HearsDone(s: State, l: Label) {
    s.rcv.Some? && l.ReceiverHears? && s.down != [] && s.down[0].Done?
  }

  ghost predicate DoneBy(states: seq<State>, labels: seq<Label>, n: nat)
    requires n <= |labels| && n < |states|
  {
    exists j :: 0 <= j < n && HearsDone(states[j], labels[j])
  }

  predicate Matches(w: Errand, data: seq<Byte>) { w.sum == "" || w.digest(data) == w.sum }

  /** Over, with nothing on disk but what was checked. */
  predicate Checked(w: Errand, s: State) {
    && s.rcv.Some? && !s.rcv.value.tr.state.Incoming? && !s.rcv.value.tr.state.Running?
    && (s.rcv.value.disk.Some? ==> Matches(w, s.rcv.value.disk.value))
  }

  lemma DoneChecks(w: Errand, s: State, l: Label, s': State)
    requires Inv(w, s) && PathOk(w, s) && Next(w, s, l, s') && HearsDone(s, l)
    ensures Checked(w, s')
  {
    assert s.down[0] in s.down;
  }

  lemma StaysChecked(w: Errand, s: State, l: Label, s': State)
    requires Inv(w, s) && Checked(w, s) && Next(w, s, l, s')
    ensures Checked(w, s')
  {
    if l.ReceiverHears? { PoppedQueue(s.down); }
  }

  lemma StepChecked(w: Errand, states: seq<State>, labels: seq<Label>, n: nat)
    requires Run(w, states, labels) && n < |labels| && (HearsDone(states[n], labels[n]) || Checked(w, states[n]))
    ensures Checked(w, states[n + 1])
  {
    AlwaysTold(w, states, labels, n);
    AlwaysInv(w, states, labels, n);
    assert Next(w, states[n], labels[n], states[n + 1]);
    if HearsDone(states[n], labels[n]) {
      DoneChecks(w, states[n], labels[n], states[n + 1]);
    } else {
      StaysChecked(w, states[n], labels[n], states[n + 1]);
    }
  }

  /** Over every run: whatever the receiver has on disk once it has heard done has the digest that
      was offered, if one was, however the file has changed between being hashed and being pushed. */
  lemma {:induction false} WhatIsKeptMatches(w: Errand, states: seq<State>, labels: seq<Label>, n: nat)
    requires Run(w, states, labels) && n < |states| && DoneBy(states, labels, n)
    ensures Checked(w, states[n])
  {
    var j :| 0 <= j < n && HearsDone(states[j], labels[j]);
    if j < n - 1 {
      assert DoneBy(states, labels, n - 1);
      WhatIsKeptMatches(w, states, labels, n - 1);
    }
    StepChecked(w, states, labels, n - 1);
  }

  // ------------------------------------------------------------- the sender that is told

  /** Told that it is over, or over for another reason: it will not be running again. */
  predicate SenderOver(s: State) { !s.snd.Offered? && !s.snd.Running? }

  lemma SenderStaysOver(w: Errand, s: State, l: Label, s': State)
    requires Next(w, s, l, s') && SenderOver(s)
    ensures SenderOver(s') && (!s.push.AtRead? ==> !s'.push.AtRead?)
    ensures l.PushRead? ==> s.push.AtRead? && !s'.push.AtRead?
  {
  }

  lemma {:induction false} OverFrom(w: Errand, states: seq<State>, labels: seq<Label>, i: nat, j: nat)
    requires Run(w, states, labels) && i <= j < |states| && SenderOver(states[i])
    ensures SenderOver(states[j]) && (!states[i].push.AtRead? ==> !states[j].push.AtRead?)
  {
    if i < j {
      OverFrom(w, states, labels, i, j - 1);
      assert Next(w, states[j - 1], labels[j - 1], states[j]);
      SenderStaysOver(w, states[j - 1], labels[j - 1], states[j]);
    }
  }

  /** Once the sender has heard a decline it pushes one more slice at most, and that only if it had
      already looked: of any two slices after it there would be a look in between that stops it. */
  lemma DeclineStopsThePush(w: Errand, states: seq<State>, labels: seq<Label>, i: nat, j: nat, k: nat)
    requires Run(w, states, labels) && i < j < k < |labels|
    requires labels[i].SenderHears? && states[i].toSender != [] && states[i].toSender[0].Decline?
    requires labels[j].PushRead?
    ensures states[i + 1].push.AtRead? && !labels[k].PushRead?
  {
    assert Next(w, states[i], labels[i], states[i + 1]) && Next(w, states[j], labels[j], states[j + 1]);
    OverFrom(w, states, labels, i + 1, j);
    SenderStaysOver(w, states[j], labels[j], states[j + 1]);
    OverFrom(w, states, labels, j + 1, k);
    assert Next(w, states[k], labels[k], states[k + 1]);
  }
}
