/** One file on its way through the server (chatclientd/files.go, chatserver/relay.go): a sender
    that reads and pushes, the server's record, a receiver that writes, and a queue of frames in
    each direction of each connection. Any of the three may give up, and either connection may be
    cut, at any moment. */
module TransferModel {
  import opened Wrappers
  import opened Names
  import opened RelayModel

  datatype TState = Offered | Incoming | Running | Finished | Declined | Cancelled | Failed
  {
    predicate Live() { Running? || Offered? || Incoming? }
  }

  datatype Transfer = Transfer(peer: PeerId, incoming: bool, size: nat, sum: string, state: TState, done: nat,
                               path: string)

  // ------------------------------------------------- the receiver's record of one transfer

  /** The record, whether the file is open for writing, and what is on disk under its path. */
  datatype Landing = Landing(tr: Transfer, open: bool, disk: Option<seq<Byte>>)

  function NewLanding(from: PeerId, size: nat, sum: string): Landing {
    Landing(Transfer(from, true, size, sum, Incoming, 0, ""), false, None)
  }

  function Accepted(l: Landing, path: string): Landing {
    if !l.tr.incoming || !l.tr.state.Incoming? then l
    else Landing(l.tr.(state := Running, path := path, done := 0), true, Some([]))
  }

  function FailedLanding(l: Landing): Landing { l.(open := false, tr := l.tr.(state := Failed)) }

  /** A slice is written only if it is the next one of an accepted transfer and fits the offer. */
  function Chunked(l: Landing, offset: int, data: seq<Byte>): Landing {
    if !l.tr.incoming || !l.tr.state.Running? then l
    else if !l.open || l.disk.None? then FailedLanding(l)
    else if offset != l.tr.done || l.tr.done + |data| > l.tr.size then FailedLanding(l)
    else l.(disk := Some(l.disk.value + data), tr := l.tr.(done := l.tr.done + |data|))
  }

  /** The sender says it is done. Nothing here asks whether the transfer is running. */
  function DoneLanding(l: Landing, digest: seq<Byte> -> string): Landing {
    if !l.tr.incoming then l
    else if l.tr.sum != "" && l.tr.path != "" && (l.disk.None? || digest(l.disk.value) != l.tr.sum) then
      FailedLanding(l).(disk := None)
    else l.(open := false, tr := l.tr.(state := Finished, done := l.tr.size))
  }

  /** Called off, by us or by the other end: what had landed is removed. */
  function CalledOff(l: Landing, st: TState): Landing {
    if l.tr.incoming && l.tr.path != "" then Landing(l.tr.(state := st, path := ""), false, None)
    else l.(open := false, tr := l.tr.(state := st))
  }

  // ------------------------------------------------------------------------ the system

  const CHUNK_SIZE: nat := 0x1_0000

  /** What is fixed: the file as the sender reads it, the size and digest it offered, the ends. */
  datatype Errand = Errand(file: seq<Byte>, size: nat, sum: string, digest: seq<Byte> -> string, id: TransferId,
                           a: PeerId, b: PeerId)

  /** Where the pushing loop is: before its look at the state, or between the look and the read. */
  datatype Pusher = Idle | AtCheck | AtRead | Over

  datatype Relayed = Waiting | Open(r: Record) | Closed
  {
    predicate Carrying() { Open? && r.running }
    predicate Before() { Waiting? || (Open? && !r.running) }
  }

  /** passed is how much the server has passed on, kept after its record is gone. */
  datatype State = State(
    snd: TState, off: nat, push: Pusher, rel: Relayed, passed: nat, rcv: Option<Landing>,
    up: seq<Transport>, toSender: seq<Transport>, down: seq<Transport>, fromReceiver: seq<Transport>)
  {
    function Close(): State { if rel.Open? then this.(rel := Closed) else this }
    function TellSender(f: Transport): State { this.(toSender := toSender + [f]) }
    function TellReceiver(f: Transport): State { this.(down := down + [f]) }
  }

  datatype Label =
    | SenderHears
    | SenderCancels
    | SenderFails
    | PushCheck
    | PushRead(n: nat)
    | PushEnd
    | RelayHearsSender(refuse: bool)
    | RelayHearsReceiver
    | RelayExpires
    | ReceiverHears(refuse: bool)
    | ReceiverAccepts(path: string)
    | ReceiverDeclines
    | ReceiverFails
    | SenderCut
    | ReceiverCut

  function Start(w: Errand): State {
    State(Offered, 0, Idle, Waiting, 0, None, [Offer(w.id, "", w.b, "", "", w.size)], [], [], [])
  }

  function Say(w: Errand, s: State, f: Transport): State { s.(up := s.up + [f]) }

  function SenderHeard(s: State): State
    requires s.toSender != []
  {
    var f, s1 := s.toSender[0], s.(toSender := s.toSender[1..]);
    if f.Accept? && s.snd.Offered? then s1.(snd := Running, push := AtCheck)
    else if f.Decline? then s1.(snd := Declined)
    else s1
  }

  function RelayHeardSender(w: Errand, s: State, refuse: bool): State
    requires s.up != []
  {
    var f, s1 := s.up[0], s.(up := s.up[1..]);
    match f
    case Offer(_, _, _, _, _, size) =>
      if !s.rel.Waiting? then s1
      else if refuse || size < 0 then s1.(rel := Closed).TellSender(Decline(w.id, w.b, ""))
      else
        var s2 := s1.(rel := Open(Record(w.a, w.b, size, 0, false, 0)));
        s2.TellReceiver(Offer(w.id, w.a, w.b, DirectConv(w.a), "", size))
    case Chunk(_, _, offset, data) =>
      if !s.rel.Carrying() then s1
      else (
        match Pass(s.rel.r, offset, |data|)
        case None => s1.Close().TellSender(Decline(w.id, "", OUT_OF_STEP)).TellReceiver(Decline(w.id, w.a, OUT_OF_STEP))
        case Some(r) => s1.(rel := Open(r), passed := r.sent).TellReceiver(Chunk(w.id, w.a, offset, data)))
    case Done(_, _, digest) => if s.rel.Open? then s1.Close().TellReceiver(Done(w.id, w.a, digest)) else s1
    case Decline(_, _, why) => if s.rel.Open? then s1.Close().TellReceiver(Decline(w.id, w.a, why)) else s1
    case Accept(_, _) => s1
  }

  function RelayHeardReceiver(w: Errand, s: State): State
    requires s.fromReceiver != []
  {
    var f, s1 := s.fromReceiver[0], s.(fromReceiver := s.fromReceiver[1..]);
    match f
    case Accept(_, _) =>
      if s.rel.Open? && !s.rel.r.running then
        s1.(rel := Open(s.rel.r.(running := true))).TellSender(Accept(w.id, w.b))
      else s1
    case Decline(_, _, why) => if s.rel.Open? then s1.Close().TellSender(Decline(w.id, w.b, why)) else s1
    case _ => s1
  }

  function ReceiverHeard(w: Errand, s: State, refuse: bool): State
    requires s.down != []
  {
    var f, s1 := s.down[0], s.(down := s.down[1..]);
    match f
    case Offer(_, from, _, _, _, size) =>
      if size < 0 then s1
      else if refuse then s1.(fromReceiver := s.fromReceiver + [Decline(w.id, "", "")])
      else s1.(rcv := Some(NewLanding(from, size, w.sum)))
    case Accept(_, _) => s1
    case Chunk(_, _, offset, data) => if s.rcv.Some? then s1.(rcv := Some(Chunked(s.rcv.value, offset, data))) else s1
    case Done(_, _, _) => if s.rcv.Some? then s1.(rcv := Some(DoneLanding(s.rcv.value, w.digest))) else s1
    case Decline(_, _, _) => if s.rcv.Some? then s1.(rcv := Some(CalledOff(s.rcv.value, Declined))) else s1
  }

  ghost predicate Next(w: Errand, s: State, l: Label, s': State) {
    match l
    case SenderHears => s.toSender != [] && s' == SenderHeard(s)
    case SenderCancels => s' == Say(w, s.(snd := Cancelled), Decline(w.id, "", ""))
    case SenderFails => s' == s.(snd := Failed, push := if s.push.Idle? then Idle else Over)
    case PushCheck => s.push.AtCheck? && s' == s.(push := if s.snd.Running? then AtRead else Over)
    case PushRead(n) =>
      && s.push.AtRead? && 0 < n <= CHUNK_SIZE && s.off + n <= |w.file|
      && s' == Say(w, s.(push := AtCheck, off := s.off + n), Chunk(w.id, "", s.off, w.file[s.off..s.off + n]))
    case PushEnd =>
      s.push.AtRead? && s.off == |w.file| && s' == Say(w, s.(push := Over, snd := Finished), Done(w.id, "", w.sum))
    case RelayHearsSender(refuse) => s.up != [] && s' == RelayHeardSender(w, s, refuse)
    case RelayHearsReceiver => s.fromReceiver != [] && s' == RelayHeardReceiver(w, s)
    case RelayExpires =>
      && s.rel.Open? && !s.rel.r.running
      && s' == s.Close().TellSender(Decline(w.id, w.b, UNANSWERED)).TellReceiver(Decline(w.id, w.a, UNANSWERED))
    case ReceiverHears(refuse) => s.down != [] && s' == ReceiverHeard(w, s, refuse)
    case ReceiverAccepts(path) =>
      && s.rcv.Some? && s.rcv.value.tr.state.Incoming? && path != ""
      && s' == s.(rcv := Some(Accepted(s.rcv.value, path)), fromReceiver := s.fromReceiver + [Accept(w.id, "")])
    case ReceiverDeclines =>
      && s.rcv.Some?
      && s' == s.(rcv := Some(CalledOff(s.rcv.value, Cancelled)),
                  fromReceiver := s.fromReceiver + [Decline(w.id, "", "")])
    case ReceiverFails => s.rcv.Some? && s' == s.(rcv := Some(FailedLanding(s.rcv.value)))
    case SenderCut =>
      var s1 := s.(snd := if s.snd.Live() then Failed else s.snd, up := [], toSender := []);
      s' == if s.rel.Open? then s1.Close().TellReceiver(Decline(w.id, w.a, DISCONNECTED))
            else s1.(rel := Closed)
    case ReceiverCut =>
      var live := s.rcv.Some? && s.rcv.value.tr.state.Live();
      var s1 := s.(rcv := if live then Some(FailedLanding(s.rcv.value)) else s.rcv, down := [], fromReceiver := []);
      s' == if s.rel.Open? then s1.Close().TellSender(Decline(w.id, w.b, DISCONNECTED)) else s1
  }

  ghost predicate Run(w: Errand, states: seq<State>, labels: seq<Label>) {
    && |states| == |labels| + 1 && states[0] == Start(w)
    && forall i :: 0 <= i < |labels| ==> Next(w, states[i], labels[i], states[i + 1])
  }

  // ---------------------------------------------------------------- what a queue delivers

  /** How far a queue takes somebody who has the file up to at; None if it does not follow on. */
  function Flow(file: seq<Byte>, q: seq<Transport>, at: nat): Option<nat> {
    if q == [] then Some(at)
    else
      match q[0]
      case Chunk(_, _, offset, data) =>
        if offset == at && at + |data| <= |file| && data == file[at..at + |data|] then
          Flow(file, q[1..], at + |data|)
        else None
      case Done(_, _, _) => if at == |file| then Flow(file, q[1..], at) else None
      case _ => Flow(file, q[1..], at)
  }

  lemma {:induction false} FlowMore(file: seq<Byte>, q: seq<Transport>, f: Transport, at: nat)
    ensures Flow(file, q + [f], at) == var e := Flow(file, q, at); if e.None? then None else Flow(file, [f], e.value)
  {
    if q == [] {
      assert q + [f] == [f];
    } else {
      assert (q + [f])[0] == q[0] && (q + [f])[1..] == q[1..] + [f];
      match q[0]
      case Chunk(_, _, _, data) => FlowMore(file, q[1..], f, at + |data|);
      case _ => FlowMore(file, q[1..], f, at);
    }
  }

  lemma {:induction false} FlowBounds(file: seq<Byte>, q: seq<Transport>, at: nat)
    requires at <= |file| && Flow(file, q, at).Some?
    ensures at <= Flow(file, q, at).value <= |file|
  {
    if q != [] {
      match q[0]
      case Chunk(_, _, _, data) => FlowBounds(file, q[1..], at + |data|);
      case _ => FlowBounds(file, q[1..], at);
    }
  }

  /** No slice and no done. */
  predicate Quiet(q: seq<Transport>) { forall f :: f in q ==> !f.Chunk? && !f.Done? }

  lemma {:induction false} QuietFlow(file: seq<Byte>, q: seq<Transport>, at: nat)
    requires Quiet(q)
    ensures Flow(file, q, at) == Some(at)
  {
    if q != [] {
      assert q[0] in q && forall f :: f in q[1..] ==> f in q;
      QuietFlow(file, q[1..], at);
    }
  }

  predicate NoOffer(q: seq<Transport>) { forall f :: f in q ==> !f.Offer? }

  predicate NoAccept(q: seq<Transport>) { forall f :: f in q ==> !f.Accept? }

  predicate OneOffer(q: seq<Transport>) { forall i, j :: 0 <= i < j < |q| ==> !(q[i].Offer? && q[j].Offer?) }

  // ------------------------------------------------------------------ what always holds

  /** The sending side: nothing is pushed before the accept, and while the server has a record
      its queue from the sender follows on from what it has passed. */
  ghost predicate SendingOk(w: Errand, s: State) {
    && s.passed <= s.off <= |w.file|
    && (s.push.Idle? ==> s.off == 0 && Quiet(s.up))
    && (s.snd.Offered? ==> s.push.Idle?)
    && (s.rel.Before() ==> s.push.Idle? && NoAccept(s.toSender))
    && (!s.rel.Closed? ==> Flow(w.file, s.up, s.passed) == Some(s.off))
  }

  ghost predicate RecordedOk(w: Errand, s: State) {
    && (s.rel.Open? ==> s.rel.r.sent == s.passed <= s.rel.r.size && s.rel.r.size == w.size)
    && (s.rel.Waiting? ==> s.up != [] && s.up[0].Offer? && s.up[0].size == w.size && NoOffer(s.up[1..]))
    && (!s.rel.Waiting? ==> NoOffer(s.up))
  }

  predicate Agreed(s: State) { s.rcv.Some? && !s.rcv.value.tr.state.Incoming? }

  /** The receiving side: nothing comes before it agrees; while it is writing, the queue to it
      follows on from what it has written. */
  ghost predicate ReceivingOk(w: Errand, s: State) {
    && (!Agreed(s) ==> !s.rel.Carrying() && s.passed == 0 && Quiet(s.down) && NoAccept(s.fromReceiver))
    && OneOffer(s.down) && (s.rcv.Some? || s.rel.Waiting? ==> NoOffer(s.down))
    && (forall f :: f in s.down && f.Offer? ==> f.size == w.size)
    && (s.rel.Waiting? ==> s.rcv.None?)
    && (s.rcv.Some? ==> LandingOk(w, s.rcv.value))
    && (s.rcv.Some? && s.rcv.value.tr.state.Running? ==> Flow(w.file, s.down, s.rcv.value.tr.done) == Some(s.passed))
  }

  predicate LandingOk(w: Errand, l: Landing) {
    && l.tr.incoming && l.tr.size == w.size && l.tr.sum == w.sum
    && (l.disk.Some? ==> l.disk.value <= w.file)
    && (l.tr.state.Incoming? ==> l.disk.None?)
    && (l.tr.state.Running? ==>
          l.open && l.tr.path != "" && l.disk.Some? && l.tr.done == |l.disk.value| <= w.size)
  }

  ghost predicate Inv(w: Errand, s: State) { SendingOk(w, s) && RecordedOk(w, s) && ReceivingOk(w, s) }

  lemma SenderSideKeeps(w: Errand, s: State, l: Label, s': State)
    requires Inv(w, s) && (l.SenderHears? || l.SenderFails? || l.PushCheck?) && Next(w, s, l, s')
    ensures Inv(w, s')
  {
    assert l.SenderHears? ==> s.toSender[0] in s.toSender && forall f :: f in s'.toSender ==> f in s.toSender;
  }

  lemma SenderSaysKeeps(w: Errand, s: State, l: Label, s': State)
    requires Inv(w, s) && (l.SenderCancels? || l.PushRead? || l.PushEnd?) && Next(w, s, l, s')
    ensures Inv(w, s')
  {
    SenderSaysSending(w, s, l, s');
  }

  lemma SenderSaysSending(w: Errand, s: State, l: Label, s': State)
    requires SendingOk(w, s) && RecordedOk(w, s) && (l.SenderCancels? || l.PushRead? || l.PushEnd?) && Next(w, s, l, s')
    ensures SendingOk(w, s') && RecordedOk(w, s')
  {
    var f := s'.up[|s.up|];
    assert s'.up == s.up + [f];
    FlowMore(w.file, s.up, f, s.passed);
    assert s.rel.Waiting? ==> s'.up[1..] == s.up[1..] + [f];
  }

  lemma RelayHeardOfferKeeps(w: Errand, s: State, refuse: bool, s': State)
    requires Inv(w, s) && s.up != [] && s.up[0].Offer? && s' == RelayHeardSender(w, s, refuse)
    ensures Inv(w, s')
  {
    assert s.up[0] in s.up;
    assert s.rel.Waiting?;
    assert forall f :: f in s'.up ==> f in s.up;
    if s'.rel.Open? { FlowMore(w.file, s.down, s'.down[|s.down|], 0); }
  }

  lemma RelayPassesKeeps(w: Errand, s: State, refuse: bool, s': State)
    requires Inv(w, s) && s.up != [] && s.up[0].Chunk? && s' == RelayHeardSender(w, s, refuse)
    ensures Inv(w, s')
  {
    assert s.up[0] in s.up && forall f :: f in s'.up ==> f in s.up;
    if s.rel.Carrying() {
      RelayPassesSending(w, s, s');
      var at := if s.rcv.Some? then s.rcv.value.tr.done else 0;
      FlowMore(w.file, s.down, s'.down[|s.down|], at);
    }
  }

  lemma RelayPassesSending(w: Errand, s: State, s': State)
    requires Inv(w, s) && s.up != [] && s.up[0].Chunk? && s.rel.Carrying() && s' == RelayHeardSender(w, s, false)
    ensures SendingOk(w, s') && RecordedOk(w, s')
  {
    assert s.up[0] in s.up && forall f :: f in s'.up ==> f in s.up;
    FlowBounds(w.file, s.up, s.passed);
    FlowBounds(w.file, s.up[1..], s.passed + |s.up[0].data|);
  }

  lemma RelayEndsSending(w: Errand, s: State, refuse: bool, s': State)
    requires SendingOk(w, s) && RecordedOk(w, s) && s.up != [] && !s.up[0].Chunk? && !s.up[0].Offer?
    requires s' == RelayHeardSender(w, s, refuse)
    ensures SendingOk(w, s') && RecordedOk(w, s')
  {
    assert s.up[0] in s.up && forall f :: f in s'.up ==> f in s.up;
  }

  lemma RelayEndsKeeps(w: Errand, s: State, refuse: bool, s': State)
    requires Inv(w, s) && s.up != [] && !s.up[0].Chunk? && !s.up[0].Offer? && s' == RelayHeardSender(w, s, refuse)
    ensures Inv(w, s')
  {
    RelayEndsSending(w, s, refuse, s');
    assert s.up[0] in s.up;
    if s'.down != s.down {
      var at := if s.rcv.Some? then s.rcv.value.tr.done else 0;
      FlowBounds(w.file, s.up, s.passed);
      FlowMore(w.file, s.down, s'.down[|s.down|], at);
    }
  }

  lemma RelayHeardReceiverKeeps(w: Errand, s: State, s': State)
    requires Inv(w, s) && s.fromReceiver != [] && s' == RelayHeardReceiver(w, s)
    ensures Inv(w, s')
  {
    assert s.fromReceiver[0] in s.fromReceiver && forall f :: f in s'.fromReceiver ==> f in s.fromReceiver;
  }

  lemma RelayExpiresKeeps(w: Errand, s: State, s': State)
    requires Inv(w, s) && Next(w, s, RelayExpires, s')
    ensures Inv(w, s')
  {
    FlowMore(w.file, s.down, s'.down[|s.down|], if s.rcv.Some? then s.rcv.value.tr.done else 0);
  }

  lemma PoppedDown(s: State)
    requires s.down != []
    ensures s.down[0] in s.down && forall f :: f in s.down[1..] ==> f in s.down
    ensures OneOffer(s.down) ==> OneOffer(s.down[1..]) && (s.down[0].Offer? ==> NoOffer(s.down[1..]))
  {
    assert forall i :: 0 <= i < |s.down[1..]| ==> s.down[1..][i] == s.down[i + 1];
  }

  lemma ReceiverOfferedKeeps(w: Errand, s: State, refuse: bool, s': State)
    requires Inv(w, s) && s.down != [] && s.down[0].Offer? && s' == ReceiverHeard(w, s, refuse)
    ensures Inv(w, s')
  {
    PoppedDown(s);
  }

  lemma ReceiverWritesKeeps(w: Errand, s: State, refuse: bool, s': State)
    requires Inv(w, s) && s.down != [] && s.down[0].Chunk? && s' == ReceiverHeard(w, s, refuse)
    ensures Inv(w, s')
  {
    PoppedDown(s);
    if s.rcv.value.tr.state.Running? { WriteKeepsLanding(w, s.rcv.value, s.down[0]); }
  }

  lemma WriteKeepsLanding(w: Errand, l: Landing, f: Transport)
    requires LandingOk(w, l) && l.tr.state.Running? && f.Chunk? && f.offset == l.tr.done
    requires l.tr.done + |f.data| <= |w.file| && f.data == w.file[l.tr.done..l.tr.done + |f.data|]
    ensures LandingOk(w, Chunked(l, f.offset, f.data))
  {
    assert w.file[..l.tr.done] + f.data == w.file[..l.tr.done + |f.data|];
  }

  lemma ReceiverEndsKeeps(w: Errand, s: State, refuse: bool, s': State)
    requires Inv(w, s) && s.down != [] && !s.down[0].Offer? && !s.down[0].Chunk? && s' == ReceiverHeard(w, s, refuse)
    ensures Inv(w, s')
  {
    PoppedDown(s);
  }

  lemma ReceiverHeardKeeps(w: Errand, s: State, refuse: bool, s': State)
    requires Inv(w, s) && s.down != [] && s' == ReceiverHeard(w, s, refuse)
    ensures Inv(w, s')
  {
    match s.down[0]
    case Offer(_, _, _, _, _, _) => ReceiverOfferedKeeps(w, s, refuse, s');
    case Chunk(_, _, _, _) => ReceiverWritesKeeps(w, s, refuse, s');
    case _ => ReceiverEndsKeeps(w, s, refuse, s');
  }

  lemma ReceiverSideKeeps(w: Errand, s: State, l: Label, s': State)
    requires Inv(w, s) && (l.ReceiverAccepts? || l.ReceiverDeclines? || l.ReceiverFails?) && Next(w, s, l, s')
    ensures Inv(w, s')
  {
    if !Agreed(s) { QuietFlow(w.file, s.down, 0); }
  }

  lemma SenderCutKeeps(w: Errand, s: State, s': State)
    requires Inv(w, s) && Next(w, s, SenderCut, s')
    ensures Inv(w, s')
  {
    if s.rel.Open? { FlowMore(w.file, s.down, s'.down[|s.down|], if s.rcv.Some? then s.rcv.value.tr.done else 0); }
  }

  lemma ReceiverCutKeeps(w: Errand, s: State, s': State)
    requires Inv(w, s) && Next(w, s, ReceiverCut, s')
    ensures Inv(w, s')
  {
  }

  lemma RelayHeardSenderKeeps(w: Errand, s: State, refuse: bool, s': State)
    requires Inv(w, s) && s.up != [] && s' == RelayHeardSender(w, s, refuse)
    ensures Inv(w, s')
  {
    match s.up[0]
    case Offer(_, _, _, _, _, _) => RelayHeardOfferKeeps(w, s, refuse, s');
    case Chunk(_, _, _, _) => RelayPassesKeeps(w, s, refuse, s');
    case _ => RelayEndsKeeps(w, s, refuse, s');
  }

  lemma NextKeeps(w: Errand, s: State, l: Label, s': State)
    requires Inv(w, s) && Next(w, s, l, s')
    ensures Inv(w, s')
  {
    match l
    case SenderHears => SenderSideKeeps(w, s, l, s');
    case SenderCancels => SenderSaysKeeps(w, s, l, s');
    case SenderFails => SenderSideKeeps(w, s, l, s');
    case PushCheck => SenderSideKeeps(w, s, l, s');
    case PushRead(_) => SenderSaysKeeps(w, s, l, s');
    case PushEnd => SenderSaysKeeps(w, s, l, s');
    case RelayHearsSender(refuse) => RelayHeardSenderKeeps(w, s, refuse, s');
    case RelayHearsReceiver => RelayHeardReceiverKeeps(w, s, s');
    case RelayExpires => RelayExpiresKeeps(w, s, s');
    case ReceiverHears(refuse) => ReceiverHeardKeeps(w, s, refuse, s');
    case ReceiverAccepts(_) => ReceiverSideKeeps(w, s, l, s');
    case ReceiverDeclines => ReceiverSideKeeps(w, s, l, s');
    case ReceiverFails => ReceiverSideKeeps(w, s, l, s');
    case SenderCut => SenderCutKeeps(w, s, s');
    case ReceiverCut => ReceiverCutKeeps(w, s, s');
  }

  lemma {:induction false} AlwaysInv(w: Errand, states: seq<State>, labels: seq<Label>, i: nat)
    requires Run(w, states, labels) && i < |states|
    ensures Inv(w, states[i])
  {
    if i == 0 {
      assert Start(w).up[1..] == [];
      assert Flow(w.file, Start(w).up, 0) == Some(0);
    } else {
      AlwaysInv(w, states, labels, i - 1);
      assert Next(w, states[i - 1], labels[i - 1], states[i]);
      NextKeeps(w, states[i - 1], labels[i - 1], states[i]);
    }
  }

  // -------------------------------------------------------------------- what follows

  /** In every reachable state, whatever was cancelled, refused or cut, what is on the receiver's
      disk is the beginning of the sender's file, and the three counters are in order. */
  lemma LandedIsAPrefix(w: Errand, states: seq<State>, labels: seq<Label>, i: nat)
    requires Run(w, states, labels) && i < |states|
    ensures var s := states[i];
      && s.passed <= s.off <= |w.file|
      && (s.rel.Open? ==> s.rel.r.sent == s.passed <= s.rel.r.size == w.size)
      && (s.rcv.Some? && s.rcv.value.disk.Some? ==> s.rcv.value.disk.value <= w.file)
      && (s.rcv.Some? && s.rcv.value.tr.state.Running? ==>
            s.rcv.value.disk.Some? && s.rcv.value.tr.done == |s.rcv.value.disk.value| <= s.passed)
  {
    AlwaysInv(w, states, labels, i);
    var s := states[i];
    if s.rcv.Some? && s.rcv.value.tr.state.Running? { FlowBounds(w.file, s.down, s.rcv.value.tr.done); }
  }

  /** When the done frame finds the transfer still running, the whole file has landed. It is kept,
      and the transfer finished, exactly when there was no digest or what was pushed has the digest
      that was offered; otherwise the file is removed and the transfer fails. The amount recorded is
      the amount that landed exactly when the file was as long as the offer said. */
  lemma DoneFindsTheWholeFile(w: Errand, states: seq<State>, labels: seq<Label>, i: nat)
    requires Run(w, states, labels) && i < |labels| && labels[i].ReceiverHears?
    requires var s := states[i]; s.down != [] && s.down[0].Done? && s.rcv.Some? && s.rcv.value.tr.state.Running?
    ensures states[i].rcv.value.disk == Some(w.file) && states[i + 1].rcv.Some?
    ensures var after := states[i + 1].rcv.value;
      if w.sum == "" || w.digest(w.file) == w.sum then
        after.tr.state.Finished? && after.disk == Some(w.file) && (after.tr.done == |w.file| <==> |w.file| == w.size)
      else after.tr.state.Failed? && after.disk.None?
  {
    AlwaysInv(w, states, labels, i);
    var s := states[i];
    assert Next(w, s, labels[i], states[i + 1]);
    assert s.rcv.value.tr.done == |w.file|;
    assert s.rcv.value.disk.value == w.file[..|w.file|] == w.file;
  }

  /** A done frame marks a transfer finished whatever its state was: the receiver calls off a
      transfer whose done frame is on its way, and calloff.dfy has it over whole runs. */
  lemma CancelledThenFinished(w: Errand, s: State, s1: State, s2: State)
    requires Inv(w, s) && s.down != [] && s.down[0].Done? && s.rcv.Some? && s.rcv.value.tr.state.Running?
    requires Next(w, s, ReceiverDeclines, s1) && Next(w, s1, ReceiverHears(false), s2)
    ensures s1.rcv.value.tr.state.Cancelled? && s2.rcv.value.tr.state.Finished?
    ensures s2.rcv.value.disk.None? && s2.rcv.value.tr.done == w.size
  {
  }
}
