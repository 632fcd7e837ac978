/** A transfer nobody disturbs arrives: for every file there is a run of sender, relay and receiver
    that ends with the file on the receiver's disk (chatclientd/files.go, chatserver/relay.go). */
module Arrival {
  import opened Wrappers
  import opened Names
  import opened RelayModel
  import opened TransferModel

  type Step = TransferModel.Label

  lemma RunMore(w: Errand, states: seq<State>, labels: seq<Step>, l: Step, s': State)
    returns (states': seq<State>, labels': seq<Step>)
    requires TransferModel.Run(w, states, labels) && TransferModel.Next(w, states[|labels|], l, s')
    ensures TransferModel.Run(w, states', labels') && states'[|labels'|] == s'
    ensures states' == states + [s'] && labels' == labels + [l]
  {
    states', labels' := states + [s'], labels + [l];
    forall i | 0 <= i < |labels'| ensures TransferModel.Next(w, states'[i], labels'[i], states'[i + 1]) {
      if i < |labels| { assert TransferModel.Next(w, states[i], labels[i], states[i + 1]); }
    }
  }

  function Record0(w: Errand, off: nat, running: bool): Record { Record(w.a, w.b, w.size, off, running, 0) }

  function Writing(w: Errand, off: nat): Landing
    requires off <= |w.file|
  {
    Landing(Transfer(w.a, true, w.size, w.sum, Running, off, "f"), true, Some(w.file[..off]))
  }

  /** Every party at the same byte, and nothing on the way. */
  function At(w: Errand, off: nat): State
    requires off <= |w.file|
  {
    State(TState.Running, off, AtCheck, Open(Record0(w, off, true)), off, Some(Writing(w, off)), [], [], [], [])
  }

  /** Offered, taken and started. */
  lemma Agreed(w: Errand) returns (states: seq<State>, labels: seq<Step>)
    ensures TransferModel.Run(w, states, labels) && states[|labels|] == At(w, 0)
  {
    var s0 := Start(w);
    var s1 := RelayHeardSender(w, s0, false);
    assert s0.up[1..] == [];
    assert s1 ==
      s0.(up := [], rel := Open(Record0(w, 0, false)), down := [Offer(w.id, w.a, w.b, DirectConv(w.a), "", w.size)]);
    states, labels := RunMore(w, [s0], [], RelayHearsSender(false), s1);
    var s2 := ReceiverHeard(w, s1, false);
    assert s2 == s1.(down := [], rcv := Some(NewLanding(w.a, w.size, w.sum)));
    states, labels := RunMore(w, states, labels, ReceiverHears(false), s2);
    var s3 := s2.(rcv := Some(Writing(w, 0)), fromReceiver := [Accept(w.id, "")]);
    states, labels := RunMore(w, states, labels, ReceiverAccepts("f"), s3);
    var s4 := RelayHeardReceiver(w, s3);
    assert s4 == s3.(fromReceiver := [], rel := Open(Record0(w, 0, true)), toSender := [Accept(w.id, w.b)]);
    states, labels := RunMore(w, states, labels, RelayHearsReceiver, s4);
    assert SenderHeard(s4) == At(w, 0);
    states, labels := RunMore(w, states, labels, SenderHears, At(w, 0));
  }

  /** One slice read, passed on and written. */
  lemma OneSlice(w: Errand, states: seq<State>, labels: seq<Step>, off: nat, n: nat)
    returns (states': seq<State>, labels': seq<Step>)
    requires TransferModel.Run(w, states, labels) && |w.file| == w.size && 0 < n <= CHUNK_SIZE && off + n <= |w.file|
    requires states[|labels|] == At(w, off)
    ensures TransferModel.Run(w, states', labels') && states'[|labels'|] == At(w, off + n)
  {
    var s0, data := At(w, off), w.file[off..off + n];
    var s1 := s0.(push := AtRead);
    states', labels' := RunMore(w, states, labels, PushCheck, s1);
    var s2 := s1.(push := AtCheck, off := off + n, up := [Chunk(w.id, "", off, data)]);
    states', labels' := RunMore(w, states', labels', PushRead(n), s2);
    states', labels' := SliceLands(w, states', labels', off, n, s2);
  }

  lemma SliceLands(w: Errand, states: seq<State>, labels: seq<Step>, off: nat, n: nat, s2: State)
    returns (states': seq<State>, labels': seq<Step>)
    requires TransferModel.Run(w, states, labels) && |w.file| == w.size && 0 < n <= CHUNK_SIZE && off + n <= |w.file|
    requires states[|labels|] == s2
    requires s2 == At(w, off).(push := AtCheck, off := off + n, up := [Chunk(w.id, "", off, w.file[off..off + n])])
    ensures TransferModel.Run(w, states', labels') && states'[|labels'|] == At(w, off + n)
  {
    var data := w.file[off..off + n];
    var s3 :=
      s2.(up := [], rel := Open(Record0(w, off + n, true)), passed := off + n, down := [Chunk(w.id, w.a, off, data)]);
    assert RelayHeardSender(w, s2, false) == s3;
    states', labels' := RunMore(w, states, labels, RelayHearsSender(false), s3);
    assert w.file[..off] + data == w.file[..off + n];
    assert ReceiverHeard(w, s3, false) == At(w, off + n);
    states', labels' := RunMore(w, states', labels', ReceiverHears(false), At(w, off + n));
  }

  /** Slice after slice, from anywhere in the file to its end. */
  lemma {:induction false} AllSlices(w: Errand, states: seq<State>, labels: seq<Step>, off: nat)
    returns (states': seq<State>, labels': seq<Step>)
    requires TransferModel.Run(w, states, labels) && |w.file| == w.size && off <= |w.file|
      && states[|labels|] == At(w, off)
    ensures TransferModel.Run(w, states', labels') && states'[|labels'|] == At(w, |w.file|)
    decreases |w.file| - off
  {
    states', labels' := states, labels;
    if off < |w.file| {
      var n := if |w.file| - off < CHUNK_SIZE then |w.file| - off else CHUNK_SIZE;
      states', labels' := OneSlice(w, states, labels, off, n);
      states', labels' := AllSlices(w, states', labels', off + n);
    }
  }

  /** The whole file landed, the receiver still writing, and done on its way to it. */
  function DoneComing(w: Errand): State {
    At(w, |w.file|).(snd := TState.Finished, push := Over, rel := Closed, down := [Done(w.id, w.a, w.sum)])
  }

  lemma AllButDone(w: Errand) returns (states: seq<State>, labels: seq<Step>)
    requires |w.file| == w.size
    ensures TransferModel.Run(w, states, labels) && states[|labels|] == DoneComing(w)
  {
    states, labels := Agreed(w);
    states, labels := AllSlices(w, states, labels, 0);
    var s0 := At(w, |w.file|);
    var s1 := s0.(push := AtRead);
    states, labels := RunMore(w, states, labels, PushCheck, s1);
    var s2 := s1.(push := Over, snd := TState.Finished, up := [Done(w.id, "", w.sum)]);
    states, labels := RunMore(w, states, labels, PushEnd, s2);
    assert RelayHeardSender(w, s2, false) == DoneComing(w);
    states, labels := RunMore(w, states, labels, RelayHearsSender(false), DoneComing(w));
  }

  /** For every file, offered at its size with its digest or none, there is a run that ends with
      all of it on the receiver's disk and both ends knowing that it is done. */
  lemma UndisturbedTransferArrives(w: Errand) returns (states: seq<State>, labels: seq<Step>)
    requires |w.file| == w.size && (w.sum == "" || w.sum == w.digest(w.file))
    ensures TransferModel.Run(w, states, labels)
    ensures var s := states[|labels|];
      && s.snd.Finished? && s.rel.Closed? && s.rcv.Some? && s.rcv.value.tr.state.Finished?
      && s.rcv.value.disk == Some(w.file) && s.rcv.value.tr.done == |w.file|
  {
    states, labels := AllButDone(w);
    assert w.file[..|w.file|] == w.file;
    states, labels := RunMore(w, states, labels, ReceiverHears(false), ReceiverHeard(w, DoneComing(w), false));
  }

  /** For every file that is not what was offered, having changed since it was hashed, there is a run
      in which it is all pushed, refused at the end and taken off the disk. */
  lemma ChangedFileIsRefused(w: Errand) returns (states: seq<State>, labels: seq<Step>)
    requires |w.file| == w.size && w.sum != "" && w.sum != w.digest(w.file)
    ensures TransferModel.Run(w, states, labels)
    ensures var s := states[|labels|];
      s.snd.Finished? && s.rcv.Some? && s.rcv.value.tr.state.Failed? && s.rcv.value.disk.None?
  {
    states, labels := AllButDone(w);
    assert w.file[..|w.file|] == w.file;
    states, labels := RunMore(w, states, labels, ReceiverHears(false), ReceiverHeard(w, DoneComing(w), false));
  }

  /** And for every file there is a run in which the receiver calls the transfer off while done is
      on its way, and ends with it marked finished and nothing on disk. */
  lemma CalledOffAndFinished(w: Errand) returns (states: seq<State>, labels: seq<Step>)
    requires |w.file| == w.size
    ensures TransferModel.Run(w, states, labels) && |labels| >= 2
    ensures var s, after := states[|labels| - 1], states[|labels|];
      && s.rcv.Some? && s.rcv.value.tr.state.Cancelled? && s.rcv.value.disk.None?
      && after.rcv.Some? && after.rcv.value.tr.state.Finished? && after.rcv.value.disk.None?
      && after.rcv.value.tr.done == |w.file|
  {
    states, labels := AllButDone(w);
    var s0 := DoneComing(w);
    var s1 := s0.(rcv := Some(CalledOff(s0.rcv.value, Cancelled)), fromReceiver := [Decline(w.id, "", "")]);
    states, labels := RunMore(w, states, labels, ReceiverDeclines, s1);
    states, labels := RunMore(w, states, labels, ReceiverHears(false), ReceiverHeard(w, s1, false));
  }
}
