/** One person enrolling on a new connection while others are sending, taken apart at the lock
    boundaries (chatserver/server.go handleConn and backfill, chatserver/handle.go onMessage and
    fanOut). A sender checks, takes a number, files, looks up the connections and queues; the
    enrolling side reads the counter, registers, reads the history, queues it and says synced; the
    client reads what is queued; and the connection may be cut. These steps interleave in any
    order. Rooms are fixed and the resume is a delta. */
module Handoff {
  import opened Wrappers
  import opened Names
  import opened Messages
  import opened StoreModel
  import opened ServerModel
  import Cursors

  type Thread = nat

  datatype Phase = Checked | Minted | Stored | Looked | Finished
  {
    function Rank(): nat {
      match this case Checked => 0 case Minted => 1 case Stored => 2 case Looked => 3 case Finished => 4
    }
  }

  /** saw is whether this sender found the connection when it looked and, once it has finished,
      whether its frame was queued. */
  datatype Sender = Sender(m: Message, at: Phase, saw: bool)

  datatype Progress = Hello | Welcomed | Registered | Replaying | Synced
  {
    function Rank(): nat {
      match this case Hello => 0 case Welcomed => 1 case Registered => 2 case Replaying => 3 case Synced => 4
    }
  }

  /** Who enrols: what they call each conversation they may see, and their cursor. */
  datatype Who = Who(name: ConvId -> Option<ConvId>, from: nat)
  {
    predicate Sees(m: Message) { name(m.conv).Some? }

    function Named(m: Message): Frame
      requires Sees(m)
    {
      FrameOf(m, name(m.conv).value)
    }
  }

  /** A person in fixed rooms. */
  function Person(p: PeerId, rooms: Rooms, from: nat): Who { Who(c => ConvFor(c, p, rooms), from) }

  /** What a resume is owed of a store. */
  ghost predicate IsOwed(w: Who, ms: seq<Message>, t: map<MessageId, Message>) {
    && Sorted(ms)
    && (forall x :: x in ms ==> x.id in t && t[x.id] == x && x.num > w.from && w.Sees(x))
    && (forall id :: id in t && t[id].num > w.from && w.Sees(t[id]) ==> t[id] in ms)
  }

  /** For a person that is the delta the server computes. */
  lemma OwedIsDelta(p: PeerId, rooms: Rooms, from: nat, ms: seq<Message>, t: map<MessageId, Message>)
    ensures IsOwed(Person(p, rooms, from), ms, t) <==> IsDelta(ms, t, p, rooms, from)
  {
    forall x | x in ms ensures Person(p, rooms, from).Sees(x) <==> Sees(x.conv, p, rooms) {}
  }

  /** author names the sender that filed a message, for those filed since the run began; q is
      everything queued on the new connection so far, and the client has read the first of it. */
  datatype State = State(
    table: map<MessageId, Message>, counter: nat,
    senders: map<Thread, Sender>, author: map<MessageId, Thread>,
    at: Progress, cursor: nat, missed: seq<Message>, sent: nat, q: seq<Frame>, read: nat, cut: bool)
  {
    /** Whether looking up the person's connections finds this one. */
    predicate Live() { at.Rank() >= 2 && !cut }

    function Set(t: Thread, x: Sender): State { this.(senders := senders[t := x]) }
  }

  datatype Label =
    | Check(t: Thread, m: Message)
    | Mint(t: Thread)
    | File(t: Thread)
    | Look(t: Thread)
    | Push(t: Thread)
    | ReadCursor
    | Register
    | ReadHistory(ms: seq<Message>)
    | PushMissed
    | SaySynced
    | Other(f: Frame)
    | ReadOne
    | Cut
  {
    predicate BySender() { Check? || Mint? || File? || Look? || Push? }
  }

  predicate AtPhase(s: State, t: Thread, at: Phase) { t in s.senders && s.senders[t].at == at }

  function Filed(s: State, t: Thread): State
    requires t in s.senders
  {
    var m := s.senders[t].m;
    var s1 := s.Set(t, Sender(m, Stored, false));
    if m.id in s.table then s1 else s1.(table := s.table[m.id := m], author := s.author[m.id := t])
  }

  /** A frame for a connection that has been cut goes nowhere. */
  function Queued(w: Who, s: State, t: Thread): State
    requires t in s.senders
  {
    var x := s.senders[t];
    if x.saw && !s.cut && w.Sees(x.m) then s.(q := s.q + [w.Named(x.m)]).Set(t, x.(at := Finished))
    else s.Set(t, x.(at := Finished, saw := false))
  }

  ghost predicate SenderStep(w: Who, s: State, l: Label, s': State)
    requires l.BySender()
  {
    match l
    case Check(t, m) =>
      && t !in s.senders && m.id !in s.table && m.id != "" && m.conv != "" && m.sent != 0
      && |m.body| <= MAX_BODY_RUNES
      && s' == s.Set(t, Sender(m, Checked, false))
    case Mint(t) =>
      && AtPhase(s, t, Checked)
      && s' == s.(counter := s.counter + 1)
                .Set(t, Sender(s.senders[t].m.(num := s.counter + 1), Minted, false))
    case File(t) => AtPhase(s, t, Minted) && s' == Filed(s, t)
    case Look(t) =>
      && AtPhase(s, t, Stored)
      && s' == s.Set(t, Sender(s.senders[t].m, Looked, s.Live() && w.Sees(s.senders[t].m)))
    case Push(t) => AtPhase(s, t, Looked) && s' == Queued(w, s, t)
  }

  /** Other frames carry no message, and no number that has not been given out. */
  ghost predicate ConnStep(w: Who, s: State, l: Label, s': State)
    requires !l.BySender()
  {
    match l
    case ReadCursor => s.at == Hello && w.from <= s.counter && s' == s.(at := Welcomed, cursor := s.counter)
    case Register => s.at == Welcomed && s' == s.(at := Registered)
    case ReadHistory(ms) =>
      s.at == Registered && IsOwed(w, ms, s.table) && |ms| <= MAX_BACKLOG && s' == s.(at := Replaying, missed := ms)
    case PushMissed =>
      && s.at == Replaying && !s.cut && s.sent < |s.missed| && w.Sees(s.missed[s.sent])
      && s' == s.(sent := s.sent + 1, q := s.q + [w.Named(s.missed[s.sent])])
    case SaySynced =>
      && s.at == Replaying && !s.cut && s.sent == |s.missed|
      && s' == s.(at := Synced, q := s.q + [SyncedFrame(s.cursor, "")])
    case Other(f) => s.Live() && !f.MsgFrame? && Cursors.Num(f) <= s.counter && s' == s.(q := s.q + [f])
    case ReadOne => s.Live() && s.read < |s.q| && s' == s.(read := s.read + 1)
    case Cut => s.Live() && s' == s.(cut := true)
  }

  ghost predicate Next(w: Who, s: State, l: Label, s': State) {
    if l.BySender() then SenderStep(w, s, l, s') else ConnStep(w, s, l, s')
  }

  /** Any store the server can have, nobody sending yet. */
  ghost predicate Start(s: State) {
    && s.senders == map[] && s.author == map[] && s.at == Hello && s.missed == [] && s.sent == 0
    && s.q == [] && s.read == 0 && !s.cut && s.cursor == 0
    && StoredOk(s)
  }

  ghost predicate Continues(w: Who, states: seq<State>, labels: seq<Label>) {
    && |states| == |labels| + 1
    && forall i :: 0 <= i < |labels| ==> Next(w, states[i], labels[i], states[i + 1])
  }

  ghost predicate Run(w: Who, states: seq<State>, labels: seq<Label>) {
    Continues(w, states, labels) && Start(states[0])
  }

  // ------------------------------------------------------------------------- counting

  predicate Is(f: Frame, id: MessageId) { f.MsgFrame? && f.id == id }

  /** How many frames of a queue are for a message, under whatever number. */
  function Times(q: seq<Frame>, id: MessageId): nat {
    if q == [] then 0 else Times(q[..|q| - 1], id) + if Is(q[|q| - 1], id) then 1 else 0
  }

  lemma TimesMore(q: seq<Frame>, f: Frame)
    ensures forall id :: Times(q + [f], id) == Times(q, id) + if Is(f, id) then 1 else 0
  {
    assert (q + [f])[..|q|] == q;
  }

  lemma {:induction false} TimesOf(q: seq<Frame>, id: MessageId)
    ensures Times(q, id) > 0 <==> exists f :: f in q && Is(f, id)
  {
    if q != [] {
      TimesOf(q[..|q| - 1], id);
      assert q == q[..|q| - 1] + [q[|q| - 1]];
    }
  }

  predicate Numbered(s: State, t: Thread) { t in s.senders && s.senders[t].at.Rank() >= 1 }

  predicate AtLeastStored(s: State, t: Thread) { t in s.senders && s.senders[t].at.Rank() >= 2 }

  predicate AtLeastLooked(s: State, t: Thread) { t in s.senders && s.senders[t].at.Rank() >= 3 }

  predicate Pushed(s: State, t: Thread) { t in s.senders && s.senders[t].at == Finished && s.senders[t].saw }

  /** Its turn in the backlog has come. */
  ghost predicate Turned(s: State, id: MessageId) {
    exists j :: 0 <= j < s.sent <= |s.missed| && s.missed[j].id == id
  }

  /** The senders of a message whose frames have been queued. */
  ghost function Pushers(s: State, id: MessageId): set<Thread> {
    set t | t in s.senders && Pushed(s, t) && s.senders[t].m.id == id
  }

  // ----------------------------------------------------------------- what always holds

  ghost predicate StoredOk(s: State) {
    && (forall id :: id in s.table ==> s.table[id].id == id && 1 <= s.table[id].num <= s.counter)
    && (forall i, j :: i in s.table && j in s.table && s.table[i].num == s.table[j].num ==> i == j)
  }

  ghost predicate SendersOk(s: State) {
    && (forall t :: Numbered(s, t) ==> 1 <= s.senders[t].m.num <= s.counter)
    && (forall t, u :: Numbered(s, t) && Numbered(s, u) && s.senders[t].m.num == s.senders[u].m.num ==> t == u)
  }

  /** Whatever a sender has filed is there. */
  ghost predicate FiledIsThere(s: State) { forall t :: AtLeastStored(s, t) ==> s.senders[t].m.id in s.table }

  ghost predicate AuthorsFiled(s: State) {
    forall id :: id in s.author ==>
      id in s.table && AtLeastStored(s, s.author[id]) && s.senders[s.author[id]].m == s.table[id]
  }

  /** A sender shares its number with a stored message only as the one that filed it. */
  ghost predicate SharesAsAuthor(s: State) {
    forall t, id :: Numbered(s, t) && id in s.table && s.senders[t].m.num == s.table[id].num ==>
      id in s.author && s.author[id] == t
  }

  ghost predicate AuthorsOk(s: State) { FiledIsThere(s) && AuthorsFiled(s) && SharesAsAuthor(s) }

  ghost predicate HistoryOk(w: Who, s: State) {
    && s.sent <= |s.missed| && (s.at.Rank() < 3 ==> s.missed == [])
    && (forall x :: x in s.missed ==> x.id in s.table && s.table[x.id] == x && w.Sees(x) && x.num > w.from)
    && (forall i, j :: 0 <= i < j < |s.missed| ==> s.missed[i].id != s.missed[j].id)
    && (s.at == Synced ==> s.sent == |s.missed|)
  }

  /** Once the history has been read, whatever is owed and not in it is still with its sender,
      who has yet to look, or has looked and seen the connection. */
  ghost predicate NobodyMissed(w: Who, s: State) {
    s.at.Rank() >= 3 && !s.cut ==> forall id :: id in s.table && w.Sees(s.table[id]) && s.table[id].num > w.from ==>
      s.table[id] in s.missed || (id in s.author && Coming(s, s.author[id]))
  }

  predicate Coming(s: State, t: Thread) { t in s.senders && (s.senders[t].at == Stored || s.senders[t].saw) }

  ghost predicate SawOk(w: Who, s: State) {
    forall t :: t in s.senders && s.senders[t].saw ==>
      w.Sees(s.senders[t].m) && s.senders[t].at.Rank() >= 3 && s.at.Rank() >= 2
  }

  /** A message has been queued once out of the history, if its turn has come, and once by each
      of its senders that has queued it. */
  ghost predicate Counted(s: State) {
    forall id :: Times(s.q, id) == (if Turned(s, id) then 1 else 0) + |Pushers(s, id)|
  }

  ghost predicate FromHistory(w: Who, s: State, f: Frame) {
    exists j :: 0 <= j < s.sent <= |s.missed| && w.Sees(s.missed[j]) && f == w.Named(s.missed[j])
  }

  ghost predicate FromSender(w: Who, s: State, f: Frame) {
    exists t :: Pushed(s, t) && w.Sees(s.senders[t].m) && f == w.Named(s.senders[t].m)
  }

  ghost predicate FramesOk(w: Who, s: State) {
    && (forall f :: f in s.q && f.MsgFrame? ==> FromHistory(w, s, f) || FromSender(w, s, f))
    && (forall t :: Pushed(s, t) ==> w.Sees(s.senders[t].m) && w.Named(s.senders[t].m) in s.q)
  }

  /** No frame carries a number that has not been given out. */
  ghost predicate NumbersKnown(w: Who, s: State) {
    && s.read <= |s.q| && s.cursor <= s.counter && (s.at != Hello ==> w.from <= s.counter)
    && (s.at.Rank() < 2 ==> s.q == [] && !s.cut)
    && (forall f :: f in s.q ==> Cursors.Num(f) <= s.counter)
  }

  ghost predicate NumbersOk(s: State) { StoredOk(s) && SendersOk(s) && AuthorsOk(s) }

  ghost predicate OwedOk(w: Who, s: State) { HistoryOk(w, s) && NobodyMissed(w, s) && SawOk(w, s) }

  ghost predicate QueueOk(w: Who, s: State) { Counted(s) && FramesOk(w, s) && NumbersKnown(w, s) }

  ghost predicate Inv(w: Who, s: State) { NumbersOk(s) && OwedOk(w, s) && QueueOk(w, s) }

  // ----------------------------------------------------------------- numbers and authors

  lemma CheckKeepsNumbers(s: State, t: Thread, m: Message, s': State)
    requires NumbersOk(s) && t !in s.senders && s' == s.Set(t, Sender(m, Checked, false))
    ensures NumbersOk(s')
  {
    OthersKeepSenders(s, t, s');
    CheckKeepsAuthors(s, t, m, s');
  }

  lemma OthersKeepSenders(s: State, t: Thread, s': State)
    requires SendersOk(s) && s'.counter == s.counter && !Numbered(s', t)
    requires forall u :: Numbered(s', u) && u != t ==> Numbered(s, u) && s'.senders[u] == s.senders[u]
    ensures SendersOk(s')
  {
  }

  lemma CheckKeepsAuthors(s: State, t: Thread, m: Message, s': State)
    requires AuthorsOk(s) && t !in s.senders && s' == s.Set(t, Sender(m, Checked, false))
    ensures AuthorsOk(s')
  {
    forall u ensures Numbered(s', u) <==> Numbered(s, u) {}
    forall u ensures AtLeastStored(s', u) <==> AtLeastStored(s, u) {}
  }

  lemma MintKeepsNumbers(s: State, t: Thread, m: Message, s': State)
    requires NumbersOk(s) && AtPhase(s, t, Checked)
    requires s' == s.(counter := s.counter + 1).Set(t, Sender(m.(num := s.counter + 1), Minted, false))
    ensures NumbersOk(s')
  {
    MintKeepsSenders(s, t, m, s');
    MintKeepsAuthors(s, t, m, s');
  }

  lemma MintKeepsSenders(s: State, t: Thread, m: Message, s': State)
    requires SendersOk(s) && AtPhase(s, t, Checked)
    requires s' == s.(counter := s.counter + 1).Set(t, Sender(m.(num := s.counter + 1), Minted, false))
    ensures SendersOk(s')
  {
    assert forall u :: Numbered(s', u) <==> Numbered(s, u) || u == t;
  }

  lemma MintKeepsAuthors(s: State, t: Thread, m: Message, s': State)
    requires StoredOk(s) && AuthorsOk(s) && AtPhase(s, t, Checked)
    requires s' == s.(counter := s.counter + 1).Set(t, Sender(m.(num := s.counter + 1), Minted, false))
    ensures AuthorsOk(s')
  {
    assert forall u :: AtLeastStored(s', u) <==> AtLeastStored(s, u);
    assert FiledIsThere(s') && AuthorsFiled(s');
    MintShares(s, t, m, s');
  }

  lemma MintShares(s: State, t: Thread, m: Message, s': State)
    requires StoredOk(s) && SharesAsAuthor(s) && AtPhase(s, t, Checked)
    requires s' == s.(counter := s.counter + 1).Set(t, Sender(m.(num := s.counter + 1), Minted, false))
    ensures SharesAsAuthor(s')
  {
    assert forall u :: Numbered(s', u) && u != t ==> Numbered(s, u) && s'.senders[u] == s.senders[u];
  }

  lemma FileKeepsNumbers(s: State, t: Thread, s': State)
    requires NumbersOk(s) && AtPhase(s, t, Minted) && s' == Filed(s, t)
    ensures NumbersOk(s')
  {
    FileKeepsStored(s, t, s');
    MoveKeepsSenders(s, t, s'.senders[t], s');
    FileKeepsAuthors(s, t, s');
  }

  lemma FileKeepsStored(s: State, t: Thread, s': State)
    requires StoredOk(s) && SendersOk(s) && AuthorsOk(s) && AtPhase(s, t, Minted) && s' == Filed(s, t)
    ensures StoredOk(s')
  {
    var m := s.senders[t].m;
    MintedIsNew(s, t);
    assert s'.table == if m.id in s.table then s.table else s.table[m.id := m];
    assert 1 <= m.num <= s.counter by { assert Numbered(s, t); }
  }

  /** A number that has been given out and not filed is no stored message's. */
  lemma MintedIsNew(s: State, t: Thread)
    requires AuthorsFiled(s) && SharesAsAuthor(s) && AtPhase(s, t, Minted)
    ensures forall id :: id in s.table ==> s.table[id].num != s.senders[t].m.num
  {
    assert Numbered(s, t) && !AtLeastStored(s, t);
  }

  lemma FileKeepsAuthors(s: State, t: Thread, s': State)
    requires SendersOk(s) && AuthorsOk(s) && AtPhase(s, t, Minted) && s' == Filed(s, t)
    ensures AuthorsOk(s')
  {
    assert forall u :: AtLeastStored(s', u) <==> AtLeastStored(s, u) || u == t;
    FileKeepsFiled(s, t, s');
    FileShares(s, t, s');
  }

  lemma FileKeepsFiled(s: State, t: Thread, s': State)
    requires FiledIsThere(s) && AuthorsFiled(s) && AtPhase(s, t, Minted) && s' == Filed(s, t)
    ensures FiledIsThere(s') && AuthorsFiled(s')
  {
    FileKeepsThere(s, t, s');
    assert !AtLeastStored(s, t);
    assert forall u :: AtLeastStored(s', u) <==> AtLeastStored(s, u) || u == t;
  }

  lemma FileKeepsThere(s: State, t: Thread, s': State)
    requires FiledIsThere(s) && AtPhase(s, t, Minted) && s' == Filed(s, t)
    ensures FiledIsThere(s')
  {
    forall u | AtLeastStored(s', u) ensures s'.senders[u].m.id in s'.table { assert u != t ==> AtLeastStored(s, u); }
  }

  lemma FileShares(s: State, t: Thread, s': State)
    requires SendersOk(s) && AuthorsFiled(s) && SharesAsAuthor(s) && AtPhase(s, t, Minted) && s' == Filed(s, t)
    ensures SharesAsAuthor(s')
  {
    assert Numbered(s, t) && !AtLeastStored(s, t);
    forall u, id | Numbered(s', u) && id in s'.table && s'.senders[u].m.num == s'.table[id].num
      ensures id in s'.author && s'.author[id] == u
    {
      assert Numbered(s, u) && s'.senders[u].m == s.senders[u].m;
      if id in s.table { assert id in s.author && s.author[id] == u; }
    }
  }

  lemma MoveKeepsSenders(s: State, t: Thread, x: Sender, s': State)
    requires SendersOk(s) && Numbered(s, t) && x.m == s.senders[t].m && x.at.Rank() >= 1
    requires s'.counter == s.counter && s'.senders == s.senders[t := x]
    ensures SendersOk(s')
  {
    assert forall u :: Numbered(s', u) <==> Numbered(s, u);
    assert forall u :: u in s.senders ==> s'.senders[u].m == s.senders[u].m;
  }

  /** A sender that only moves on keeps its message and its number. */
  lemma MoveKeepsNumbers(s: State, t: Thread, x: Sender, s': State)
    requires NumbersOk(s) && AtLeastStored(s, t) && x.m == s.senders[t].m && x.at.Rank() >= 2
    requires s'.table == s.table && s'.counter == s.counter && s'.author == s.author && s'.senders == s.senders[t := x]
    ensures NumbersOk(s')
  {
    MoveKeepsSenders(s, t, x, s');
    MoveKeepsAuthors(s, t, x, s');
  }

  lemma MoveKeepsAuthors(s: State, t: Thread, x: Sender, s': State)
    requires AuthorsOk(s) && AtLeastStored(s, t) && x.m == s.senders[t].m && x.at.Rank() >= 2
    requires s'.table == s.table && s'.author == s.author && s'.senders == s.senders[t := x]
    ensures AuthorsOk(s')
  {
    assert forall u :: Numbered(s', u) <==> Numbered(s, u);
    assert forall u :: AtLeastStored(s', u) <==> AtLeastStored(s, u);
    assert forall u :: u in s.senders ==> s'.senders[u].m == s.senders[u].m;
  }

  lemma SameSendersKeepNumbers(s: State, s': State)
    requires NumbersOk(s) && s'.table == s.table && s'.counter == s.counter
    requires s'.senders == s.senders && s'.author == s.author
    ensures NumbersOk(s')
  {
    assert StoredOk(s');
    SameSendersKeepSenders(s, s');
    SameSendersKeepAuthors(s, s');
  }

  lemma SameSendersKeepSenders(s: State, s': State)
    requires SendersOk(s) && s'.counter == s.counter && s'.senders == s.senders
    ensures SendersOk(s')
  {
    assert forall t :: Numbered(s', t) <==> Numbered(s, t);
  }

  lemma SameSendersKeepAuthors(s: State, s': State)
    requires AuthorsOk(s) && s'.table == s.table && s'.senders == s.senders && s'.author == s.author
    ensures AuthorsOk(s')
  {
    assert forall t :: Numbered(s', t) <==> Numbered(s, t);
    assert forall t :: AtLeastStored(s', t) <==> AtLeastStored(s, t);
  }

  // --------------------------------------------------------------------- what is owed

  /** A change to one sender that leaves it no further from queueing what it should. */
  lemma SenderKeepsOwed(w: Who, s: State, t: Thread, s': State)
    requires OwedOk(w, s) && AuthorsFiled(s)
    requires s'.table == s.table && s'.author == s.author && s'.at == s.at && s'.cut == s.cut
    requires s'.missed == s.missed && s'.sent == s.sent && t in s'.senders
      && s'.senders == s.senders[t := s'.senders[t]]
    requires s'.senders[t].saw ==> w.Sees(s'.senders[t].m) && s'.senders[t].at.Rank() >= 3 && s.at.Rank() >= 2
    requires t in s.senders && s.at.Rank() >= 3 && !s.cut && w.Sees(s.senders[t].m) && Coming(s, t) ==> Coming(s', t)
    ensures OwedOk(w, s')
  {
    assert forall u :: u != t ==> (Coming(s', u) <==> Coming(s, u));
    assert forall id :: id in s.author ==> s.author[id] in s.senders;
  }

  lemma FileKeepsOwed(w: Who, s: State, t: Thread, s': State)
    requires OwedOk(w, s) && AuthorsFiled(s) && AtPhase(s, t, Minted) && s' == Filed(s, t)
    ensures OwedOk(w, s')
  {
    FileKeepsHistory(w, s, t, s');
    FileKeepsComing(w, s, t, s');
  }

  lemma FileKeepsComing(w: Who, s: State, t: Thread, s': State)
    requires NobodyMissed(w, s) && SawOk(w, s) && AuthorsFiled(s) && AtPhase(s, t, Minted) && s' == Filed(s, t)
    ensures NobodyMissed(w, s') && SawOk(w, s')
  {
    assert Coming(s', t);
    assert forall u :: Coming(s, u) ==> Coming(s', u);
  }

  lemma FileKeepsHistory(w: Who, s: State, t: Thread, s': State)
    requires HistoryOk(w, s) && AtPhase(s, t, Minted) && s' == Filed(s, t)
    ensures HistoryOk(w, s')
  {
  }

  lemma SameSendersKeepOwed(w: Who, s: State, s': State)
    requires OwedOk(w, s) && s'.table == s.table && s'.senders == s.senders && s'.author == s.author
    requires s'.missed == s.missed && s.sent <= s'.sent <= |s.missed| && (s.cut ==> s'.cut)
    requires s.at.Rank() <= s'.at.Rank() && (s'.at.Rank() < 3 || s.at.Rank() >= 3)
    requires s'.at == Synced ==> s'.sent == |s.missed|
    ensures OwedOk(w, s')
  {
    assert forall t :: Coming(s', t) <==> Coming(s, t);
  }

  // ----------------------------------------------------------------------- the queue

  /** Nothing is queued, and nobody's frame becomes queued. */
  lemma SameQueue(w: Who, s: State, s': State)
    requires QueueOk(w, s) && s'.q == s.q && s'.missed == s.missed && s'.sent == s.sent
    requires forall t :: Pushed(s, t) <==> Pushed(s', t)
    requires forall t :: Pushed(s, t) ==> t in s'.senders && s'.senders[t].m == s.senders[t].m
    requires s.counter <= s'.counter && s.read <= s'.read <= |s.q| && s'.cursor <= s'.counter
    requires s'.at != Hello ==> w.from <= s'.counter
    requires s'.at.Rank() < 2 ==> s'.q == [] && !s'.cut
    ensures QueueOk(w, s')
  {
    forall id ensures Pushers(s', id) == Pushers(s, id) && (Turned(s', id) <==> Turned(s, id)) {
      forall t ensures t in Pushers(s', id) <==> t in Pushers(s, id) { assert Pushed(s, t) <==> Pushed(s', t); }
    }
    SameFrames(w, s, s');
  }

  lemma SameFrames(w: Who, s: State, s': State)
    requires FramesOk(w, s) && s'.q == s.q && s'.missed == s.missed && s'.sent == s.sent
    requires forall t :: Pushed(s, t) <==> Pushed(s', t)
    requires forall t :: Pushed(s, t) ==> t in s'.senders && s'.senders[t].m == s.senders[t].m
    ensures FramesOk(w, s')
  {
    forall f | f in s'.q && f.MsgFrame? ensures FromHistory(w, s', f) || FromSender(w, s', f) {
      if FromSender(w, s, f) {
        var t :| Pushed(s, t) && w.Sees(s.senders[t].m) && f == w.Named(s.senders[t].m);
        assert Pushed(s', t);
      } else {
        assert FromHistory(w, s, f);
      }
    }
  }

  /** One more frame that is no message. */
  lemma OtherFrame(w: Who, s: State, f: Frame, s': State)
    requires QueueOk(w, s) && !f.MsgFrame? && Cursors.Num(f) <= s.counter && s.at.Rank() >= 2
    requires s' == s.(q := s.q + [f]) || s' == s.(q := s.q + [f], at := Synced)
    ensures QueueOk(w, s')
  {
    TimesMore(s.q, f);
    forall t ensures Pushed(s', t) <==> Pushed(s, t) {}
    forall id ensures Pushers(s', id) == Pushers(s, id) && (Turned(s', id) <==> Turned(s, id)) {
      forall t ensures t in Pushers(s', id) <==> t in Pushers(s, id) { assert Pushed(s, t) <==> Pushed(s', t); }
    }
    forall g | g in s'.q && g.MsgFrame? ensures FromHistory(w, s', g) || FromSender(w, s', g) {
      assert g in s.q;
      if FromSender(w, s, g) {
        var t :| Pushed(s, t) && w.Sees(s.senders[t].m) && g == w.Named(s.senders[t].m);
        assert Pushed(s', t);
      } else {
        assert FromHistory(w, s, g);
      }
    }
  }

  lemma PushersAfter(s: State, t: Thread, x: Sender, s': State, id: MessageId)
    requires AtPhase(s, t, Looked) && s'.senders == s.senders[t := x]
    requires x == s.senders[t].(at := Finished, saw := true)
    ensures t !in Pushers(s, id) && Pushers(s', id) == Pushers(s, id) + if x.m.id == id then {t} else {}
  {
    forall u ensures u in Pushers(s', id) <==> u in Pushers(s, id) || (u == t && x.m.id == id) {
      if u != t && u in s.senders { assert s'.senders[u] == s.senders[u]; }
    }
  }

  lemma PushCountsOne(w: Who, s: State, t: Thread, s': State, id: MessageId)
    requires AtPhase(s, t, Looked) && s' == Queued(w, s, t) && Pushed(s', t)
    ensures Turned(s', id) <==> Turned(s, id)
    ensures |Pushers(s', id)| == |Pushers(s, id)| + if s.senders[t].m.id == id then 1 else 0
  {
    PushersAfter(s, t, s'.senders[t], s', id);
  }

  /** A sender queues its frame. */
  lemma PushCounts(w: Who, s: State, t: Thread, s': State)
    requires Counted(s) && AtPhase(s, t, Looked) && s' == Queued(w, s, t) && Pushed(s', t)
    ensures Counted(s')
  {
    TimesMore(s.q, w.Named(s.senders[t].m));
    forall id ensures Times(s'.q, id) == (if Turned(s', id) then 1 else 0) + |Pushers(s', id)| {
      PushCountsOne(w, s, t, s', id);
    }
  }

  lemma PushFrames(w: Who, s: State, t: Thread, s': State)
    requires FramesOk(w, s) && AtPhase(s, t, Looked) && s' == Queued(w, s, t) && Pushed(s', t)
    ensures FramesOk(w, s')
  {
    forall u ensures Pushed(s', u) <==> Pushed(s, u) || u == t {}
    forall f | f in s'.q && f.MsgFrame? ensures FromHistory(w, s', f) || FromSender(w, s', f) {
      if f == w.Named(s.senders[t].m) { assert Pushed(s', t); }
      else if FromSender(w, s, f) {
        var u :| Pushed(s, u) && w.Sees(s.senders[u].m) && f == w.Named(s.senders[u].m);
        assert Pushed(s', u);
      } else {
        assert f in s.q && FromHistory(w, s, f);
      }
    }
  }

  lemma PushKeepsQueue(w: Who, s: State, t: Thread, s': State)
    requires QueueOk(w, s) && SendersOk(s) && AtPhase(s, t, Looked) && s' == Queued(w, s, t)
    requires s.senders[t].saw ==> s.at.Rank() >= 2
    ensures QueueOk(w, s')
  {
    if Pushed(s', t) {
      assert Numbered(s, t);
      PushCounts(w, s, t, s');
      PushFrames(w, s, t, s');
    } else {
      assert forall u :: Pushed(s, u) <==> Pushed(s', u);
      SameQueue(w, s, s');
    }
  }

  lemma TurnCounts(w: Who, s: State, s': State)
    requires HistoryOk(w, s) && Counted(s) && ConnStep(w, s, PushMissed, s')
    ensures Counted(s')
  {
    var f := w.Named(s.missed[s.sent]);
    TimesMore(s.q, f);
    forall id ensures Pushers(s', id) == Pushers(s, id) {
      forall t ensures t in Pushers(s', id) <==> t in Pushers(s, id) { assert Pushed(s, t) <==> Pushed(s', t); }
    }
    forall id ensures Turned(s', id) <==> Turned(s, id) || Is(f, id) {
      if Is(f, id) { assert s'.missed[s.sent].id == id; }
      if Turned(s, id) { var j :| 0 <= j < s.sent && s.missed[j].id == id; assert s'.missed[j].id == id; }
    }
  }

  lemma TurnFrames(w: Who, s: State, s': State)
    requires FramesOk(w, s) && ConnStep(w, s, PushMissed, s')
    ensures FramesOk(w, s')
  {
    forall t ensures Pushed(s', t) <==> Pushed(s, t) {}
    forall f | f in s'.q && f.MsgFrame? ensures FromHistory(w, s', f) || FromSender(w, s', f) {
      if f == w.Named(s'.missed[s.sent]) {
        assert FromHistory(w, s', f);
      } else if FromSender(w, s, f) {
        var t :| Pushed(s, t) && w.Sees(s.senders[t].m) && f == w.Named(s.senders[t].m);
        assert Pushed(s', t);
      } else {
        assert f in s.q && FromHistory(w, s, f);
        var j :| 0 <= j < s.sent && w.Sees(s.missed[j]) && f == w.Named(s.missed[j]);
        assert w.Sees(s'.missed[j]);
      }
    }
  }

  /** A sender on its way to queueing changes nothing in the queue. */
  lemma OnTheWayKeepsQueue(w: Who, s: State, t: Thread, x: Sender, s': State)
    requires QueueOk(w, s) && x.at != Finished && (t in s.senders ==> s.senders[t].at != Finished)
    requires s'.senders == s.senders[t := x] && s'.q == s.q && s'.missed == s.missed && s'.sent == s.sent
    requires s'.read == s.read && s'.cut == s.cut && s'.cursor == s.cursor && s'.at == s.at && s.counter <= s'.counter
    ensures QueueOk(w, s')
  {
    assert forall u :: Pushed(s, u) <==> Pushed(s', u);
    SameQueue(w, s, s');
  }

  // ------------------------------------------------------------------- step by step

  lemma CheckKeeps(w: Who, s: State, t: Thread, m: Message, s': State)
    requires Inv(w, s) && SenderStep(w, s, Check(t, m), s')
    ensures Inv(w, s')
  {
    CheckKeepsNumbers(s, t, m, s');
    SenderKeepsOwed(w, s, t, s');
    OnTheWayKeepsQueue(w, s, t, s'.senders[t], s');
  }

  lemma MintKeeps(w: Who, s: State, t: Thread, s': State)
    requires Inv(w, s) && SenderStep(w, s, Mint(t), s')
    ensures Inv(w, s')
  {
    MintKeepsNumbers(s, t, s.senders[t].m, s');
    MintKeepsOwed(w, s, t, s');
    OnTheWayKeepsQueue(w, s, t, s'.senders[t], s');
  }

  lemma MintKeepsOwed(w: Who, s: State, t: Thread, s': State)
    requires OwedOk(w, s) && AuthorsFiled(s) && SenderStep(w, s, Mint(t), s')
    ensures OwedOk(w, s')
  {
    assert !Coming(s, t);
    SenderKeepsOwed(w, s, t, s');
  }

  lemma FileKeeps(w: Who, s: State, t: Thread, s': State)
    requires Inv(w, s) && SenderStep(w, s, File(t), s')
    ensures Inv(w, s')
  {
    FileKeepsNumbers(s, t, s');
    FileKeepsOwed(w, s, t, s');
    FileKeepsQueue(w, s, t, s');
  }

  lemma FileKeepsQueue(w: Who, s: State, t: Thread, s': State)
    requires QueueOk(w, s) && AtPhase(s, t, Minted) && s' == Filed(s, t)
    ensures QueueOk(w, s')
  {
    OnTheWayKeepsQueue(w, s, t, Sender(s.senders[t].m, Stored, false), s');
  }

  lemma LookKeeps(w: Who, s: State, t: Thread, s': State)
    requires Inv(w, s) && SenderStep(w, s, Look(t), s')
    ensures Inv(w, s')
  {
    LookKeepsNumbers(w, s, t, s');
    LookKeepsOwed(w, s, t, s');
    OnTheWayKeepsQueue(w, s, t, s'.senders[t], s');
  }

  lemma LookKeepsNumbers(w: Who, s: State, t: Thread, s': State)
    requires NumbersOk(s) && SenderStep(w, s, Look(t), s')
    ensures NumbersOk(s')
  {
    MoveKeepsNumbers(s, t, s'.senders[t], s');
  }

  lemma LookKeepsOwed(w: Who, s: State, t: Thread, s': State)
    requires OwedOk(w, s) && AuthorsFiled(s) && SenderStep(w, s, Look(t), s')
    ensures OwedOk(w, s')
  {
    SenderKeepsOwed(w, s, t, s');
  }

  lemma PushKeeps(w: Who, s: State, t: Thread, s': State)
    requires Inv(w, s) && SenderStep(w, s, Push(t), s')
    ensures Inv(w, s')
  {
    PushKeepsNumbers(w, s, t, s');
    PushKeepsOwed(w, s, t, s');
    PushKeepsQueue(w, s, t, s');
  }

  lemma PushKeepsNumbers(w: Who, s: State, t: Thread, s': State)
    requires NumbersOk(s) && SenderStep(w, s, Push(t), s')
    ensures NumbersOk(s')
  {
    MoveKeepsNumbers(s, t, s'.senders[t], s');
  }

  lemma PushKeepsOwed(w: Who, s: State, t: Thread, s': State)
    requires OwedOk(w, s) && AuthorsFiled(s) && SenderStep(w, s, Push(t), s')
    ensures OwedOk(w, s')
  {
    SenderKeepsOwed(w, s, t, s');
  }

  lemma ReadHistoryKeeps(w: Who, s: State, ms: seq<Message>, s': State)
    requires Inv(w, s) && ConnStep(w, s, ReadHistory(ms), s')
    ensures Inv(w, s')
  {
    SameSendersKeepNumbers(s, s');
    ReadHistoryKeepsOwed(w, s, ms, s');
    ReadHistoryKeepsQueue(w, s, s');
  }

  lemma ReadHistoryKeepsOwed(w: Who, s: State, ms: seq<Message>, s': State)
    requires OwedOk(w, s) && ConnStep(w, s, ReadHistory(ms), s')
    ensures OwedOk(w, s')
  {
    SortedDistinct(ms);
    forall i, j | 0 <= i < j < |ms| ensures ms[i].id != ms[j].id {
      assert ms[i] in ms && ms[j] in ms;
      assert s.table[ms[i].id] == ms[i] && s.table[ms[j].id] == ms[j];
    }
  }

  lemma ReadHistoryKeepsQueue(w: Who, s: State, s': State)
    requires QueueOk(w, s) && s.missed == [] && s.sent == 0 && s' == s.(at := Replaying, missed := s'.missed)
    requires s.at == Registered
    ensures QueueOk(w, s')
  {
    forall t ensures Pushed(s', t) <==> Pushed(s, t) {}
    forall id ensures Pushers(s', id) == Pushers(s, id) && !Turned(s', id) && !Turned(s, id) {
      forall t ensures t in Pushers(s', id) <==> t in Pushers(s, id) { assert Pushed(s, t) <==> Pushed(s', t); }
    }
    forall f | f in s'.q && f.MsgFrame? ensures FromSender(w, s', f) {
      assert FromSender(w, s, f);
      var t :| Pushed(s, t) && w.Sees(s.senders[t].m) && f == w.Named(s.senders[t].m);
      assert Pushed(s', t);
    }
  }

  lemma PushMissedKeeps(w: Who, s: State, s': State)
    requires Inv(w, s) && ConnStep(w, s, PushMissed, s')
    ensures Inv(w, s')
  {
    SameSendersKeepNumbers(s, s');
    SameSendersKeepOwed(w, s, s');
    TurnCounts(w, s, s');
    TurnFrames(w, s, s');
    TurnIsKnown(w, s, s');
  }

  lemma TurnIsKnown(w: Who, s: State, s': State)
    requires StoredOk(s) && HistoryOk(w, s) && NumbersKnown(w, s) && ConnStep(w, s, PushMissed, s')
    ensures NumbersKnown(w, s')
  {
    assert s.missed[s.sent] in s.missed;
  }

  lemma ConnKeeps(w: Who, s: State, l: Label, s': State)
    requires Inv(w, s) && (l.ReadCursor? || l.Register? || l.ReadOne? || l.Cut?) && ConnStep(w, s, l, s')
    ensures Inv(w, s')
  {
    SameSendersKeepNumbers(s, s');
    SameSendersKeepOwed(w, s, s');
    ConnKeepsQueue(w, s, l, s');
  }

  lemma ConnKeepsQueue(w: Who, s: State, l: Label, s': State)
    requires QueueOk(w, s) && (l.ReadCursor? || l.Register? || l.ReadOne? || l.Cut?) && ConnStep(w, s, l, s')
    ensures QueueOk(w, s')
  {
    assert forall t :: Pushed(s, t) <==> Pushed(s', t);
    SameQueue(w, s, s');
  }

  lemma OtherFrameKeeps(w: Who, s: State, f: Frame, s': State)
    requires Inv(w, s) && !f.MsgFrame? && Cursors.Num(f) <= s.counter && s.at.Rank() >= 2
    requires s' == s.(q := s.q + [f])
      || (s.at == Replaying && s.sent == |s.missed| && s' == s.(q := s.q + [f], at := Synced))
    ensures Inv(w, s')
  {
    SameSendersKeepNumbers(s, s');
    SameSendersKeepOwed(w, s, s');
    OtherFrame(w, s, f, s');
  }

  lemma NextKeeps(w: Who, s: State, l: Label, s': State)
    requires Inv(w, s) && Next(w, s, l, s')
    ensures Inv(w, s')
  {
    match l
    case Check(t, m) => CheckKeeps(w, s, t, m, s');
    case Mint(t) => MintKeeps(w, s, t, s');
    case File(t) => FileKeeps(w, s, t, s');
    case Look(t) => LookKeeps(w, s, t, s');
    case Push(t) => PushKeeps(w, s, t, s');
    case ReadHistory(ms) => ReadHistoryKeeps(w, s, ms, s');
    case PushMissed => PushMissedKeeps(w, s, s');
    case SaySynced => OtherFrameKeeps(w, s, SyncedFrame(s.cursor, ""), s');
    case Other(f) => OtherFrameKeeps(w, s, f, s');
    case _ => ConnKeeps(w, s, l, s');
  }

  lemma StartOk(w: Who, s: State)
    requires Start(s)
    ensures Inv(w, s)
  {
    assert forall t :: !Pushed(s, t) && !Numbered(s, t) && !AtLeastStored(s, t);
    assert forall id :: !Turned(s, id) && Pushers(s, id) == {};
  }

  lemma {:induction false} ContinuesKeeps(w: Who, states: seq<State>, labels: seq<Label>, i: nat)
    requires Continues(w, states, labels) && i < |states| && Inv(w, states[0])
    ensures Inv(w, states[i])
  {
    if i > 0 {
      ContinuesKeeps(w, states, labels, i - 1);
      NextKeeps(w, states[i - 1], labels[i - 1], states[i]);
    }
  }

  lemma AlwaysInv(w: Who, states: seq<State>, labels: seq<Label>, i: nat)
    requires Run(w, states, labels) && i < |states|
    ensures Inv(w, states[i])
  {
    StartOk(w, states[0]);
    ContinuesKeeps(w, states, labels, i);
  }

  // ------------------------------------------------------------------ what follows

  predicate Owed(w: Who, s: State, id: MessageId) {
    id in s.table && w.Sees(s.table[id]) && s.table[id].num > w.from
  }

  /** The connection stands, the backlog has been said, and whoever filed the message has finished
      with it. */
  ghost predicate Settled(s: State, id: MessageId) {
    s.at == Synced && !s.cut && id in s.table && (id in s.author ==> AtPhase(s, s.author[id], Finished))
  }

  lemma InHistory(w: Who, s: State, id: MessageId)
    requires StoredOk(s) && HistoryOk(w, s) && s.at == Synced && id in s.table
    ensures Turned(s, id) <==> s.table[id] in s.missed
  {
    if s.table[id] in s.missed { var j :| 0 <= j < |s.missed| && s.missed[j] == s.table[id]; assert Turned(s, id); }
    if Turned(s, id) {
      var j :| 0 <= j < s.sent && s.missed[j].id == id;
      assert s.missed[j] in s.missed;
    }
  }

  /** No gap: whatever the interleaving, every visible message above the cursor the client said
      hello with is queued, once out of the history if it was in it and once by each sender of it
      that queued it. */
  lemma NoGap(w: Who, states: seq<State>, labels: seq<Label>, i: nat, id: MessageId)
    requires Run(w, states, labels) && i < |states|
    requires var s := states[i]; Settled(s, id) && Owed(w, s, id)
    ensures var s := states[i];
      && Times(s.q, id) == (if s.table[id] in s.missed then 1 else 0) + |Pushers(s, id)|
      && Times(s.q, id) >= 1
      && (s.table[id] in s.missed || (id in s.author && s.author[id] in Pushers(s, id)))
  {
    AlwaysInv(w, states, labels, i);
    var s := states[i];
    InHistory(w, s, id);
    if s.table[id] !in s.missed { assert s.author[id] in Pushers(s, id); }
  }

  /** And the history a person's handler reads in the middle of it all is, when it is not too long,
      the backlog of a server that holds at that moment what has been filed. */
  lemma HistoryIsBacklog(p: PeerId, rooms: Rooms, from: nat, states: seq<State>, labels: seq<Label>, i: nat, s: Server)
    requires Run(Person(p, rooms, from), states, labels) && i < |labels| && labels[i].ReadHistory?
    requires s.store.table == states[i].table && s.RoomsOf(p) == rooms
    ensures IsDelta(labels[i].ms, s.store.table, p, rooms, from)
    ensures |labels[i].ms| <= MAX_BACKLOG ==> IsBacklog(s, p, from, false, labels[i].ms)
  {
    assert Next(Person(p, rooms, from), states[i], labels[i], states[i + 1]);
    OwedIsDelta(p, rooms, from, labels[i].ms, s.store.table);
  }

  ghost predicate AtMostTwiceAsItself(w: Who, s: State, id: MessageId)
    requires id in s.table && w.Sees(s.table[id])
  {
    Times(s.q, id) <= 2 && forall f :: f in s.q && Is(f, id) ==> f == w.Named(s.table[id])
  }

  /** And at most twice, always under the number it is stored under, exactly when nobody but the
      sender that filed it has queued it: no resend of it lost a race. */
  lemma AtMostTwiceExactlyWhen(w: Who, states: seq<State>, labels: seq<Label>, i: nat, id: MessageId)
    requires Run(w, states, labels) && i < |states|
    requires var s := states[i]; Settled(s, id) && Owed(w, s, id)
    ensures var s := states[i];
      AtMostTwiceAsItself(w, s, id) <==> forall t :: t in Pushers(s, id) ==> id in s.author && s.author[id] == t
  {
    AlwaysInv(w, states, labels, i);
    NoGap(w, states, labels, i, id);
    var s := states[i];
    if AtMostTwiceAsItself(w, s, id) {
      forall t | t in Pushers(s, id) ensures id in s.author && s.author[id] == t { OnlyAuthorSaysIt(w, s, id, t); }
    }
    if forall t :: t in Pushers(s, id) ==> id in s.author && s.author[id] == t {
      AuthorAlone(s, id);
      forall f | f in s.q && Is(f, id) ensures f == w.Named(s.table[id]) { SaidByAuthor(w, s, id, f); }
    }
  }

  lemma OnlyAuthorSaysIt(w: Who, s: State, id: MessageId, t: Thread)
    requires Inv(w, s) && id in s.table && w.Sees(s.table[id]) && t in Pushers(s, id)
    requires forall f :: f in s.q && Is(f, id) ==> f == w.Named(s.table[id])
    ensures id in s.author && s.author[id] == t
  {
    assert Pushed(s, t) && Numbered(s, t);
    assert Is(w.Named(s.senders[t].m), id);
    assert s.senders[t].m.num == s.table[id].num;
  }

  lemma AuthorAlone(s: State, id: MessageId)
    requires forall t :: t in Pushers(s, id) ==> id in s.author && s.author[id] == t
    ensures |Pushers(s, id)| <= 1
  {
    if id in s.author { SubsetOfOne(Pushers(s, id), s.author[id]); } else { assert Pushers(s, id) == {}; }
  }

  lemma SubsetOfOne(a: set<Thread>, t: Thread)
    requires forall u :: u in a ==> u == t
    ensures |a| <= 1
  {
    assert a == {} || a == {t};
  }

  lemma SaidByAuthor(w: Who, s: State, id: MessageId, f: Frame)
    requires Inv(w, s) && id in s.table && w.Sees(s.table[id]) && f in s.q && Is(f, id)
    requires forall t :: t in Pushers(s, id) ==> id in s.author && s.author[id] == t
    ensures f == w.Named(s.table[id])
  {
    if FromHistory(w, s, f) {
      var j :| 0 <= j < s.sent <= |s.missed| && w.Sees(s.missed[j]) && f == w.Named(s.missed[j]);
      assert s.missed[j] in s.missed;
    } else {
      var t :| Pushed(s, t) && w.Sees(s.senders[t].m) && f == w.Named(s.senders[t].m);
      assert t in Pushers(s, id);
    }
  }

  // ------------------------------------------------------- exactly how often, and when

  ghost predicate Later(s: State, s': State) {
    && s.at.Rank() <= s'.at.Rank() && (s.cut ==> s'.cut)
    && (s.at.Rank() >= 3 ==> s'.missed == s.missed)
    && (forall id :: id in s.table ==> id in s'.table && s'.table[id] == s.table[id])
    && (forall id :: id in s.table ==> (id in s.author <==> id in s'.author))
    && (forall id :: id in s.table && id in s.author ==> s'.author[id] == s.author[id])
    && (forall t :: AtLeastStored(s, t) ==> AtLeastStored(s', t) && s'.senders[t].m == s.senders[t].m)
    && (forall t :: AtLeastLooked(s, t) ==>
          AtLeastLooked(s', t) && (!s'.cut ==> s'.senders[t].saw == s.senders[t].saw))
  }

  lemma SenderIsLater(w: Who, s: State, l: Label, s': State)
    requires l.BySender() && SawOk(w, s) && SenderStep(w, s, l, s')
    ensures Later(s, s')
  {
    match l
    case Check(t, m) => MovedIsLater(s, t, s');
    case Mint(t) => MovedIsLater(s, t, s');
    case File(t) => FiledIsLater(s, t, s');
    case Look(t) => MovedIsLater(s, t, s');
    case Push(t) => MovedIsLater(s, t, s');
  }

  lemma MovedIsLater(s: State, t: Thread, s': State)
    requires t in s'.senders && s'.senders == s.senders[t := s'.senders[t]]
    requires s'.table == s.table && s'.author == s.author && s'.at == s.at && s'.cut == s.cut && s'.missed == s.missed
    requires AtLeastStored(s, t) ==> AtLeastStored(s', t) && s'.senders[t].m == s.senders[t].m
    requires AtLeastLooked(s, t) ==> AtLeastLooked(s', t) && (!s.cut ==> s'.senders[t].saw == s.senders[t].saw)
    ensures Later(s, s')
  {
  }

  lemma FiledIsLater(s: State, t: Thread, s': State)
    requires AtPhase(s, t, Minted) && s' == Filed(s, t)
    ensures Later(s, s')
  {
    MovedIsLater(s, t, s.Set(t, Sender(s.senders[t].m, Stored, false)));
  }

  lemma ConnIsLater(w: Who, s: State, l: Label, s': State)
    requires !l.BySender() && ConnStep(w, s, l, s')
    ensures Later(s, s')
  {
    SameSendersIsLater(s, s');
  }

  lemma SameSendersIsLater(s: State, s': State)
    requires s'.table == s.table && s'.author == s.author && s'.senders == s.senders
    requires s.at.Rank() <= s'.at.Rank() && (s.cut ==> s'.cut) && (s.at.Rank() >= 3 ==> s'.missed == s.missed)
    ensures Later(s, s')
  {
  }

  lemma NextIsLater(w: Who, s: State, l: Label, s': State)
    requires SawOk(w, s) && Next(w, s, l, s')
    ensures Later(s, s')
  {
    if l.BySender() { SenderIsLater(w, s, l, s'); } else { ConnIsLater(w, s, l, s'); }
  }

  lemma StepIsLater(w: Who, states: seq<State>, labels: seq<Label>, k: nat)
    requires Run(w, states, labels) && k < |labels|
    ensures Later(states[k], states[k + 1])
  {
    AlwaysInv(w, states, labels, k);
    NextIsLater(w, states[k], labels[k], states[k + 1]);
  }

  lemma RunIsLater(w: Who, states: seq<State>, labels: seq<Label>, i: nat, j: nat)
    requires Run(w, states, labels) && i <= j < |states|
    ensures Later(states[i], states[j])
  {
    forall k | 0 <= k < |states| - 1 ensures Later(states[k], states[k + 1]) { StepIsLater(w, states, labels, k); }
    ChainIsLater(states, i, j);
  }

  lemma {:induction false} ChainIsLater(states: seq<State>, i: nat, j: nat)
    requires i <= j < |states| && forall k :: 0 <= k < |states| - 1 ==> Later(states[k], states[k + 1])
    ensures Later(states[i], states[j])
  {
    if i < j {
      ChainIsLater(states, i, j - 1);
      assert Later(states[j - 1], states[j - 1 + 1]);
      LaterTrans(states[i], states[j - 1], states[j]);
    }
  }

  lemma LaterTrans(a: State, b: State, c: State)
    requires Later(a, b) && Later(b, c)
    ensures Later(a, c)
  {
  }

  /** The steps of one message's sender and of the enrolling side, by their place in the run. */
  ghost predicate Places(labels: seq<Label>, t: Thread, file: nat, look: nat, register: nat, history: nat) {
    && file < |labels| && labels[file] == File(t)
    && look < |labels| && labels[look] == Look(t)
    && register < |labels| && labels[register] == Register
    && history < |labels| && labels[history].ReadHistory?
  }

  lemma SawExactlyWhen(w: Who, states: seq<State>, labels: seq<Label>, t: Thread, look: nat, register: nat)
    requires Run(w, states, labels) && look < |labels| && labels[look] == Look(t)
    requires register < |labels| && labels[register] == Register
    requires var s := states[|labels|]; !s.cut && t in s.senders && w.Sees(s.senders[t].m)
    ensures var s := states[|labels|]; s.senders[t].saw <==> register < look
  {
    RunIsLater(w, states, labels, look + 1, |labels|);
    assert Next(w, states[look], labels[look], states[look + 1]);
    assert AtLeastLooked(states[look + 1], t) && AtLeastStored(states[look + 1], t);
    RegisteredBy(w, states, labels, look, register);
  }

  lemma RegisteredBy(w: Who, states: seq<State>, labels: seq<Label>, i: nat, register: nat)
    requires Run(w, states, labels) && i < |labels| && !labels[i].Register?
    requires register < |labels| && labels[register] == Register
    ensures states[i].at.Rank() >= 2 <==> register < i
  {
    assert Next(w, states[register], labels[register], states[register + 1]);
    if register < i { RunIsLater(w, states, labels, register + 1, i); }
    if i < register { RunIsLater(w, states, labels, i, register); }
  }

  lemma OwedHolds(w: Who, h: State, s: State, id: MessageId)
    requires IsOwed(w, s.missed, h.table) && Later(h, s) && StoredOk(s) && Owed(w, s, id)
    ensures s.table[id] in s.missed <==> id in h.table
  {
  }

  lemma InHistoryExactlyWhen(w: Who, states: seq<State>, labels: seq<Label>, t: Thread, id: MessageId, file: nat,
                             history: nat)
    requires Run(w, states, labels) && file < |labels| && labels[file] == File(t)
    requires history < |labels| && labels[history].ReadHistory?
    requires var s := states[|labels|]; Owed(w, s, id) && id in s.author && s.author[id] == t
    ensures var s := states[|labels|]; s.table[id] in s.missed <==> file < history
  {
    FiledAlways(w, states, labels, |labels|);
    HistoryRead(w, states, labels, history);
    OwedHolds(w, states[history], states[|labels|], id);
    FiledBefore(w, states, labels, t, id, file, history);
  }

  lemma FiledBefore(w: Who, states: seq<State>, labels: seq<Label>, t: Thread, id: MessageId, file: nat, i: nat)
    requires Run(w, states, labels) && file < |labels| && labels[file] == File(t) && i < |labels|
    requires var s := states[|labels|]; id in s.author && s.author[id] == t
    ensures id in states[i].table <==> file < i
  {
    FiledAt(w, states, labels, t, id, file);
    if file < i { TableGrows(w, states, labels, file + 1, i, id); } else { TableGrows(w, states, labels, i, file, id); }
  }

  lemma FiledAlways(w: Who, states: seq<State>, labels: seq<Label>, i: nat)
    requires Run(w, states, labels) && i < |states|
    ensures StoredOk(states[i]) && AuthorsFiled(states[i])
  {
    AlwaysInv(w, states, labels, i);
  }

  lemma TableGrows(w: Who, states: seq<State>, labels: seq<Label>, i: nat, j: nat, id: MessageId)
    requires Run(w, states, labels) && i <= j < |states|
    ensures id in states[i].table ==> id in states[j].table
  {
    RunIsLater(w, states, labels, i, j);
  }

  lemma HistoryRead(w: Who, states: seq<State>, labels: seq<Label>, history: nat)
    requires Run(w, states, labels) && history < |labels| && labels[history].ReadHistory?
    ensures Later(states[history], states[|labels|])
    ensures IsOwed(w, states[|labels|].missed, states[history].table)
  {
    RunIsLater(w, states, labels, history, |labels|);
    RunIsLater(w, states, labels, history + 1, |labels|);
    assert Next(w, states[history], labels[history], states[history + 1]);
  }

  /** The author of a stored message stored it in its own filing step. */
  lemma FiledAt(w: Who, states: seq<State>, labels: seq<Label>, t: Thread, id: MessageId, file: nat)
    requires Run(w, states, labels) && file < |labels| && labels[file] == File(t)
    requires var s := states[|labels|]; id in s.author && s.author[id] == t
    ensures id !in states[file].table && id in states[file + 1].table
  {
    FiledAlways(w, states, labels, |labels|);
    FiledAlways(w, states, labels, file);
    RunIsLater(w, states, labels, file, |labels|);
    RunIsLater(w, states, labels, file + 1, |labels|);
    FileStep(w, states, labels, t, file);
    FiledFrom(states[file], states[file + 1], states[|labels|], t, id);
  }

  lemma FileStep(w: Who, states: seq<State>, labels: seq<Label>, t: Thread, file: nat)
    requires Run(w, states, labels) && file < |labels| && labels[file] == File(t)
    ensures AtPhase(states[file], t, Minted) && AtPhase(states[file + 1], t, Stored)
    ensures states[file + 1].senders[t].m.id in states[file + 1].table
  {
    assert Next(w, states[file], labels[file], states[file + 1]);
  }

  lemma FiledFrom(a: State, b: State, s: State, t: Thread, id: MessageId)
    requires AtPhase(a, t, Minted) && AtPhase(b, t, Stored) && b.senders[t].m.id in b.table
    requires Later(a, s) && Later(b, s)
    requires AuthorsFiled(a) && AuthorsFiled(s) && StoredOk(s) && id in s.author && s.author[id] == t
    ensures id !in a.table && id in b.table
  {
    assert AtLeastStored(b, t) && !AtLeastStored(a, t);
  }

  /** By its own sender and the history a message is queued twice exactly when it was filed before
      the history was read and its sender looked after the connection was registered, and once
      otherwise; every other sender that has queued it adds one. */
  lemma TwiceExactlyWhen(w: Who, states: seq<State>, labels: seq<Label>, t: Thread, id: MessageId,
                         file: nat, look: nat, register: nat, history: nat)
    requires Run(w, states, labels) && Places(labels, t, file, look, register, history)
    requires var s := states[|labels|]; Settled(s, id) && Owed(w, s, id) && id in s.author && s.author[id] == t
    ensures var s := states[|labels|];
      Times(s.q, id) == (if file < history && register < look then 2 else 1) + |Pushers(s, id) - {t}|
  {
    var s := states[|labels|];
    FiledAlways(w, states, labels, |labels|);
    NoGap(w, states, labels, |labels|, id);
    SawExactlyWhen(w, states, labels, t, look, register);
    InHistoryExactlyWhen(w, states, labels, t, id, file, history);
    AuthorAmong(s, id, t);
  }

  lemma AuthorAmong(s: State, id: MessageId, t: Thread)
    requires AuthorsFiled(s) && StoredOk(s) && id in s.author && s.author[id] == t && AtPhase(s, t, Finished)
    ensures |Pushers(s, id)| == |Pushers(s, id) - {t}| + if s.senders[t].saw then 1 else 0
  {
    assert t in Pushers(s, id) <==> s.senders[t].saw;
    if s.senders[t].saw { assert Pushers(s, id) == (Pushers(s, id) - {t}) + {t}; }
    else { assert Pushers(s, id) - {t} == Pushers(s, id); }
  }

  // ------------------------------------------------- what is lost when the connection is cut

  function Highest(q: seq<Frame>): nat {
    if q == [] then 0 else Max(Highest(q[..|q| - 1]), Cursors.Num(q[|q| - 1]))
  }

  /** The cursor of the client: what it said hello with, or the highest number it has read. */
  function Reached(w: Who, s: State): nat
    requires s.read <= |s.q|
  {
    Max(w.from, Highest(s.q[..s.read]))
  }

  ghost predicate Got(s: State, id: MessageId)
    requires s.read <= |s.q|
  {
    exists i :: 0 <= i < s.read && Is(s.q[i], id)
  }

  /** Filed and visible, never read on this connection, and not above the cursor, so that no later
      hello asks for it. A copy the client already has, or the tail of a room it joins later, is not
      looked at here. */
  ghost predicate Lost(w: Who, s: State, id: MessageId) {
    s.read <= |s.q| && Owed(w, s, id) && s.table[id].num <= Reached(w, s) && !Got(s, id)
  }

  /** A number on its way to a message that is not filed yet and will be passed over. */
  ghost predicate Doomed(w: Who, s: State, t: Thread) {
    && s.read <= |s.q| && AtPhase(s, t, Minted)
    && var m := s.senders[t].m; m.id !in s.table && w.Sees(m) && w.from < m.num <= Reached(w, s)
  }

  /** What is not read is not queued, or queued behind what has been read; and it is not queued
      exactly when its turn has not come and none of its senders has queued it. */
  lemma NotQueuedExactlyWhen(w: Who, s: State, id: MessageId)
    requires Inv(w, s)
    ensures Times(s.q, id) == 0 <==> !Turned(s, id) && Pushers(s, id) == {}
    ensures Times(s.q, id) == 0 ==> !Got(s, id)
  {
    TimesOf(s.q, id);
    if Got(s, id) { var i :| 0 <= i < s.read && Is(s.q[i], id); assert s.q[i] in s.q; }
  }

  /** What later steps make of a connection that has been cut: nothing is queued or read, and what
      is filed anew had its number then or gets one above all that had been given out. */
  ghost predicate AfterCut(s: State, s': State) {
    && s'.cut && s'.q == s.q && s'.read == s.read && s.counter <= s'.counter
    && (forall id :: id in s.table ==> id in s'.table && s'.table[id] == s.table[id])
    && (forall id :: id in s'.table && id !in s.table ==> WasComing(s, s'.table[id]))
    && (forall t :: AtPhase(s', t, Minted) ==> s'.senders[t].m.num > s.counter || HadIt(s, t, s'.senders[t].m))
  }

  ghost predicate WasComing(s: State, m: Message) { m.num > s.counter || exists t :: HadIt(s, t, m) }

  predicate HadIt(s: State, t: Thread, m: Message) { AtPhase(s, t, Minted) && s.senders[t].m == m }

  lemma CutStays(w: Who, s: State, l: Label, s': State)
    requires s.cut && Next(w, s, l, s')
    ensures AfterCut(s, s')
  {
    if l.BySender() { CutStaysForSenders(w, s, l, s'); }
    else { assert forall t :: AtPhase(s', t, Minted) ==> HadIt(s, t, s'.senders[t].m); }
  }

  lemma CutStaysForSenders(w: Who, s: State, l: Label, s': State)
    requires s.cut && l.BySender() && SenderStep(w, s, l, s')
    ensures AfterCut(s, s')
  {
    forall t | AtPhase(s', t, Minted) ensures s'.senders[t].m.num > s.counter || HadIt(s, t, s'.senders[t].m) {}
    if l.File? { assert HadIt(s, l.t, s.senders[l.t].m); }
  }

  lemma AfterCutTrans(a: State, b: State, c: State)
    requires AfterCut(a, b) && AfterCut(b, c)
    ensures AfterCut(a, c)
  {
    forall id | id in c.table && id !in a.table ensures WasComing(a, c.table[id]) {
      if id !in b.table && c.table[id].num <= a.counter {
        var t :| HadIt(b, t, c.table[id]);
        assert HadIt(a, t, c.table[id]);
      }
    }
  }

  lemma {:induction false} StaysCut(w: Who, states: seq<State>, labels: seq<Label>, i: nat)
    requires Continues(w, states, labels) && i < |states| && states[0].cut
    ensures AfterCut(states[0], states[i])
  {
    if i == 0 {
      assert forall t :: AtPhase(states[0], t, Minted) ==> HadIt(states[0], t, states[0].senders[t].m);
    } else {
      StaysCut(w, states, labels, i - 1);
      CutStays(w, states[i - 1], labels[i - 1], states[i]);
      AfterCutTrans(states[0], states[i - 1], states[i]);
    }
  }

  lemma {:induction false} HighestBelow(q: seq<Frame>, n: nat)
    requires forall f :: f in q ==> Cursors.Num(f) <= n
    ensures Highest(q) <= n
  {
    if q != [] {
      assert q == q[..|q| - 1] + [q[|q| - 1]];
      HighestBelow(q[..|q| - 1], n);
    }
  }

  lemma LostWasComing(w: Who, s: State, s': State, id: MessageId)
    requires StoredOk(s') && NumbersKnown(w, s) && AfterCut(s, s') && s.at != Hello && Lost(w, s', id)
    ensures Lost(w, s, id) || exists t :: Doomed(w, s, t)
  {
    assert forall f :: f in s.q[..s.read] ==> f in s.q;
    HighestBelow(s.q[..s.read], s.counter);
    if id !in s.table {
      var t :| HadIt(s, t, s'.table[id]);
      assert Doomed(w, s, t);
    }
  }

  /** Filing it makes it lost. */
  lemma DoomedIsLost(w: Who, s: State, t: Thread) returns (s': State)
    requires Inv(w, s) && Doomed(w, s, t)
    ensures Next(w, s, File(t), s') && Lost(w, s', s.senders[t].m.id)
  {
    s' := Filed(s, t);
    var id := s.senders[t].m.id;
    forall j | 0 <= j < s.sent ensures s.missed[j].id != id { assert s.missed[j] in s.missed; }
    forall u ensures u !in Pushers(s, id) { assert Pushed(s, u) ==> AtLeastStored(s, u); }
    assert Pushers(s, id) == {};
    NotQueuedExactlyWhen(w, s, id);
  }

  ghost predicate LosesSomething(w: Who, s: State) {
    exists states, labels, id ::
      Continues(w, states, labels) && states[0] == s && Lost(w, states[|labels|], id)
  }

  lemma LosingLater(w: Who, s: State)
    requires Inv(w, s) && s.cut && LosesSomething(w, s)
    ensures (exists id :: Lost(w, s, id)) || (exists t :: Doomed(w, s, t))
  {
    var more, steps, id :| Continues(w, more, steps) && more[0] == s && Lost(w, more[|steps|], id);
    ContinuesKeeps(w, more, steps, |steps|);
    StaysCut(w, more, steps, |steps|);
    LostWasComing(w, s, more[|steps|], id);
  }

  lemma LostAlready(w: Who, s: State, id: MessageId)
    requires Lost(w, s, id)
    ensures LosesSomething(w, s)
  {
    var none: seq<Label> := [];
    var one := [s];
    assert Continues(w, one, none) && one[0] == s && Lost(w, one[|none|], id);
  }

  lemma LostSoon(w: Who, s: State, t: Thread)
    requires Inv(w, s) && Doomed(w, s, t)
    ensures LosesSomething(w, s)
  {
    var s' := DoomedIsLost(w, s, t);
    var two, filing := [s, s'], [File(t)];
    assert Continues(w, two, filing) && two[0] == s && Lost(w, two[|filing|], s.senders[t].m.id);
  }

  /** Once a connection is cut, some continuation loses a message for good exactly when, at the
      cut, a filed message numbered up to the client's cursor had not been read, or a sender held
      such a number for a message not filed yet. */
  lemma CutLosesExactlyWhen(w: Who, states: seq<State>, labels: seq<Label>, i: nat)
    requires Run(w, states, labels) && i < |states| && states[i].cut
    ensures LosesSomething(w, states[i])
       <==> (exists id :: Lost(w, states[i], id)) || (exists t :: Doomed(w, states[i], t))
  {
    AlwaysInv(w, states, labels, i);
    if LosesSomething(w, states[i]) { LosingLater(w, states[i]); }
    if id :| Lost(w, states[i], id) { LostAlready(w, states[i], id); }
    if t :| Doomed(w, states[i], t) { LostSoon(w, states[i], t); }
  }

  // ------------------------------------------- what the handlers, taken apart, do not give

  /** Two connections resending one id at once can both pass the check. A sender announces the
      number the message is stored under exactly when the id was not stored before it filed. */
  lemma AnnouncedIsStoredExactlyWhen(w: Who, states: seq<State>, labels: seq<Label>, i: nat)
    requires Run(w, states, labels) && i < |labels| && labels[i].File?
    ensures labels[i].t in states[i + 1].senders && states[i + 1].senders[labels[i].t].m.id in states[i + 1].table
    ensures var s, s' := states[i], states[i + 1];
      var m := s'.senders[labels[i].t].m;
      s'.table[m.id].num == m.num <==> m.id !in s.table
  {
    AlwaysInv(w, states, labels, i);
    assert Next(w, states[i], labels[i], states[i + 1]);
    FiledUnderItsNumber(states[i], labels[i].t);
  }

  lemma FiledUnderItsNumber(s: State, t: Thread)
    requires AuthorsOk(s) && AtPhase(s, t, Minted)
    ensures s.senders[t].m.id in s.table ==> s.table[s.senders[t].m.id].num != s.senders[t].m.num
  {
    assert Numbered(s, t) && !AtLeastStored(s, t);
  }

  function Blank(): State { State(map[], 0, map[], map[], Hello, 0, [], 0, [], 0, false) }

  lemma RunMore(w: Who, states: seq<State>, labels: seq<Label>, l: Label, s': State)
    returns (states': seq<State>, labels': seq<Label>)
    requires Run(w, states, labels) && Next(w, states[|labels|], l, s')
    ensures Run(w, states', labels') && states'[|labels'|] == s'
  {
    states', labels' := states + [s'], labels + [l];
    forall i | 0 <= i < |labels'| ensures Next(w, states'[i], labels'[i], states'[i + 1]) {
      if i < |labels| { assert Next(w, states[i], labels[i], states[i + 1]); }
    }
  }

  predicate Sendable(m: Message) { m.id != "" && m.conv != "" && m.sent != 0 && |m.body| <= MAX_BODY_RUNES }

  /** The senders of two resends that have both filed, the first under n and the second in vain
      with n + 1. */
  function Raced(m: Message, n: nat): map<Thread, Sender> {
    map[0 := Sender(m.(num := n), Stored, false), 1 := Sender(m.(num := n + 1), Stored, false)]
  }

  /** Both pass the check, both take a number, and the later one goes on with a number that is not
      the one the message is stored under. */
  lemma RacingResendsTakeTwoNumbers(w: Who, states: seq<State>, labels: seq<Label>, m: Message)
    returns (states': seq<State>, labels': seq<Label>)
    requires Run(w, states, labels) && Sendable(m) && m.id !in states[|labels|].table
    requires states[|labels|].senders == map[]
    ensures Run(w, states', labels')
    ensures var s := states[|labels|];
      var n := s.counter + 1;
      states'[|labels'|] == s.(counter := n + 1, senders := Raced(m, n),
                               table := s.table[m.id := m.(num := n)], author := s.author[m.id := 0])
  {
    var s := states[|labels|];
    var n := s.counter + 1;
    var a, b := m.(num := n), m.(num := n + 1);
    var s1 := s.(senders := map[0 := Sender(m, Checked, false)]);
    states', labels' := RunMore(w, states, labels, Check(0, m), s1);
    var s2 := s.(senders := map[0 := Sender(m, Checked, false), 1 := Sender(m, Checked, false)]);
    states', labels' := RunMore(w, states', labels', Check(1, m), s2);
    states', labels' := BothMint(w, states', labels', s, m);
    states', labels' := BothFile(w, states', labels', s, m);
  }

  lemma BothMint(w: Who, states: seq<State>, labels: seq<Label>, s: State, m: Message)
    returns (states': seq<State>, labels': seq<Label>)
    requires Run(w, states, labels)
    requires states[|labels|] == s.(senders := map[0 := Sender(m, Checked, false), 1 := Sender(m, Checked, false)])
    ensures Run(w, states', labels')
    ensures states'[|labels'|] ==
      s.(counter := s.counter + 2,
         senders := map[0 := Sender(m.(num := s.counter + 1), Minted, false),
                        1 := Sender(m.(num := s.counter + 2), Minted, false)])
  {
    var n := s.counter + 1;
    var a, b := m.(num := n), m.(num := n + 1);
    var s3 := s.(counter := n, senders := map[0 := Sender(a, Minted, false), 1 := Sender(m, Checked, false)]);
    states', labels' := RunMore(w, states, labels, Mint(0), s3);
    var s4 := s.(counter := n + 1, senders := map[0 := Sender(a, Minted, false), 1 := Sender(b, Minted, false)]);
    states', labels' := RunMore(w, states', labels', Mint(1), s4);
  }

  lemma BothFile(w: Who, states: seq<State>, labels: seq<Label>, s: State, m: Message)
    returns (states': seq<State>, labels': seq<Label>)
    requires m.id !in s.table
    requires Run(w, states, labels) && states[|labels|] ==
      s.(counter := s.counter + 2,
         senders := map[0 := Sender(m.(num := s.counter + 1), Minted, false),
                        1 := Sender(m.(num := s.counter + 2), Minted, false)])
    ensures Run(w, states', labels')
    ensures var n := s.counter + 1;
      states'[|labels'|] == s.(counter := n + 1, senders := Raced(m, n),
                               table := s.table[m.id := m.(num := n)], author := s.author[m.id := 0])
  {
    var s4, n := states[|labels|], s.counter + 1;
    var s5 := s.(counter := n + 1, table := s.table[m.id := m.(num := n)], author := s.author[m.id := 0],
                 senders := map[0 := Sender(m.(num := n), Stored, false),
                                1 := Sender(m.(num := n + 1), Minted, false)]);
    assert s4.Set(0, Sender(m.(num := n), Stored, false)).senders == s5.senders;
    states', labels' := RunMore(w, states, labels, File(0), s5);
    LoserFiles(s5, m, n);
    states', labels' := RunMore(w, states', labels', File(1), s5.(senders := Raced(m, n)));
  }

  /** The second to file finds the message there and stores nothing. */
  lemma LoserFiles(s: State, m: Message, n: nat)
    requires m.id in s.table
    requires s.senders == map[0 := Sender(m.(num := n), Stored, false), 1 := Sender(m.(num := n + 1), Minted, false)]
    ensures Filed(s, 1) == s.(senders := Raced(m, n))
  {
    assert Filed(s, 1).senders == Raced(m, n);
  }

  /** A connection registered on an empty store. */
  lemma Registering(w: Who) returns (states: seq<State>, labels: seq<Label>)
    requires w.from == 0
    ensures Run(w, states, labels) && states[|labels|] == Blank().(at := Registered)
  {
    var s0 := Blank();
    assert Run(w, [s0], []);
    states, labels := RunMore(w, [s0], [], ReadCursor, s0.(at := Welcomed));
    states, labels := RunMore(w, states, labels, Register, s0.(at := Registered));
  }

  /** The history, read when it holds one message and said in full. */
  lemma Replayed(w: Who, states: seq<State>, labels: seq<Label>, m: Message)
    returns (states': seq<State>, labels': seq<Label>)
    requires Run(w, states, labels) && w.from == 0 && w.Sees(m) && m.num > 0
    requires var s := states[|labels|];
      s.at == Registered && !s.cut && s.table == map[m.id := m] && s.missed == [] && s.sent == 0
    ensures Run(w, states', labels')
    ensures var s := states[|labels|];
      states'[|labels'|] ==
        s.(at := Synced, missed := [m], sent := 1, q := s.q + [w.Named(m)] + [SyncedFrame(s.cursor, "")])
  {
    var s := states[|labels|];
    assert IsOwed(w, [m], s.table);
    var s1 := s.(at := Replaying, missed := [m]);
    states', labels' := RunMore(w, states, labels, ReadHistory([m]), s1);
    var s2 := s1.(sent := 1, q := s.q + [w.Named(m)]);
    states', labels' := RunMore(w, states', labels', PushMissed, s2);
    states', labels' :=
      RunMore(w, states', labels', SaySynced, s2.(at := Synced, q := s2.q + [SyncedFrame(s.cursor, "")]));
  }

  /** A sender looks and queues. */
  lemma Delivered(w: Who, states: seq<State>, labels: seq<Label>, t: Thread)
    returns (states': seq<State>, labels': seq<Label>)
    requires Run(w, states, labels) && AtPhase(states[|labels|], t, Stored)
    requires states[|labels|].Live() && w.Sees(states[|labels|].senders[t].m)
    ensures Run(w, states', labels')
    ensures var s := states[|labels|];
      var m := s.senders[t].m;
      states'[|labels'|] == s.(senders := s.senders[t := Sender(m, Finished, true)], q := s.q + [w.Named(m)])
  {
    var s := states[|labels|];
    var m := s.senders[t].m;
    var s1 := s.Set(t, Sender(m, Looked, true));
    states', labels' := RunMore(w, states, labels, Look(t), s1);
    var s2 := s.(senders := s.senders[t := Sender(m, Finished, true)], q := s.q + [w.Named(m)]);
    assert Queued(w, s1, t) == s2;
    states', labels' := RunMore(w, states', labels', Push(t), s2);
  }

  /** So a message can be queued three times, once under a number it is not stored under: filed by
      one of two racing resends before the history is read, and queued by both behind it. */
  lemma QueuedThreeTimes(w: Who, m: Message) returns (states: seq<State>, labels: seq<Label>)
    requires w.from == 0 && w.Sees(m) && Sendable(m)
    ensures Run(w, states, labels)
    ensures var s := states[|labels|];
      && Settled(s, m.id) && Owed(w, s, m.id) && s.table[m.id] == m.(num := 1)
      && w.Sees(m.(num := 1)) && w.Sees(m.(num := 2))
      && s.q == [w.Named(m.(num := 1)), SyncedFrame(0, ""), w.Named(m.(num := 1)), w.Named(m.(num := 2))]
      && Times(s.q, m.id) == 3
  {
    var a, b := m.(num := 1), m.(num := 2);
    states, labels := Registering(w);
    states, labels := RacingResendsTakeTwoNumbers(w, states, labels, m);
    states, labels := Replayed(w, states, labels, a);
    states, labels := Delivered(w, states, labels, 0);
    states, labels := Delivered(w, states, labels, 1);
    var f, y, g := w.Named(a), SyncedFrame(0, ""), w.Named(b);
    assert states[|labels|].q == [] + [f] + [y] + [f] + [g];
    TimesMore([], f);
    TimesMore([] + [f], y);
    TimesMore([] + [f] + [y], f);
    TimesMore([] + [f] + [y] + [f], g);
  }

  /** One message sent from start to finish while the connection is registered. */
  lemma SentLive(w: Who, states: seq<State>, labels: seq<Label>, b: Message)
    returns (states': seq<State>, labels': seq<Label>)
    requires Run(w, states, labels) && states[|labels|].senders == map[] && states[|labels|].Live()
    requires w.Sees(b) && b.id !in states[|labels|].table && Sendable(b)
    ensures Run(w, states', labels')
    ensures var s := states[|labels|];
      var n := b.(num := s.counter + 1);
      && w.Sees(n)
      && states'[|labels'|] ==
         s.(counter := s.counter + 1, table := s.table[n.id := n], author := s.author[n.id := 0],
            senders := map[0 := Sender(n, Finished, true)], q := s.q + [w.Named(n)])
  {
    var s := states[|labels|];
    var n := b.(num := s.counter + 1);
    var s1 := s.(senders := map[0 := Sender(b, Checked, false)]);
    states', labels' := RunMore(w, states, labels, Check(0, b), s1);
    var s2 := s.(senders := map[0 := Sender(n, Minted, false)], counter := s.counter + 1);
    states', labels' := RunMore(w, states', labels', Mint(0), s2);
    states', labels' := FiledAlone(w, states', labels', n);
    states', labels' := Delivered(w, states', labels', 0);
  }

  lemma FiledAlone(w: Who, states: seq<State>, labels: seq<Label>, n: Message)
    returns (states': seq<State>, labels': seq<Label>)
    requires Run(w, states, labels) && states[|labels|].senders == map[0 := Sender(n, Minted, false)]
    requires n.id !in states[|labels|].table
    ensures Run(w, states', labels')
    ensures var s := states[|labels|];
      states'[|labels'|] ==
        s.(senders := map[0 := Sender(n, Stored, false)], table := s.table[n.id := n], author := s.author[n.id := 0])
  {
    var s := states[|labels|];
    var s3 :=
      s.(senders := map[0 := Sender(n, Stored, false)], table := s.table[n.id := n], author := s.author[n.id := 0]);
    assert Filed(s, 0) == s3;
    states', labels' := RunMore(w, states, labels, File(0), s3);
  }

  /** The client reads the first frame there is, and the connection is cut. */
  lemma ReadAndCut(w: Who, states: seq<State>, labels: seq<Label>) returns (states': seq<State>, labels': seq<Label>)
    requires Run(w, states, labels) && states[|labels|].Live() && states[|labels|].read == 0 && states[|labels|].q != []
    ensures Run(w, states', labels') && states'[|labels'|] == states[|labels|].(read := 1, cut := true)
  {
    var s := states[|labels|];
    states', labels' := RunMore(w, states, labels, ReadOne, s.(read := 1));
    states', labels' := RunMore(w, states', labels', Cut, s.(read := 1, cut := true));
  }

  /** A live message can be queued ahead of older backlog. A client cut off in between has read
      number 2 and not number 1, and asks for nothing below 2 when it comes back. */
  lemma CutBetweenLosesOlder(w: Who, a: Message, b: Message) returns (states: seq<State>, labels: seq<Label>)
    requires w.from == 0 && w.Sees(a) && w.Sees(b) && a.num == 1 && a.id != b.id && Sendable(b)
    ensures Run(w, states, labels)
    ensures var s := states[|labels|]; s.cut && Lost(w, s, a.id) && Reached(w, s) == 2
  {
    var s0 := Blank().(table := map[a.id := a], counter := 1);
    assert Run(w, [s0], []);
    var s1 := s0.(at := Welcomed, cursor := 1);
    states, labels := RunMore(w, [s0], [], ReadCursor, s1);
    states, labels := RunMore(w, states, labels, Register, s1.(at := Registered));
    assert IsOwed(w, [a], s1.table);
    states, labels := RunMore(w, states, labels, ReadHistory([a]), s1.(at := Replaying, missed := [a]));
    states, labels := SentLive(w, states, labels, b);
    states, labels := ReadAndCut(w, states, labels);
    OneRead(w, states[|labels|], b.(num := 2));
  }

  lemma OneRead(w: Who, s: State, n: Message)
    requires w.Sees(n) && s.q == [] + [w.Named(n)] && s.read == 1
    ensures Reached(w, s) == Max(w.from, n.num)
    ensures forall id :: Got(s, id) <==> id == n.id
  {
    var f := w.Named(n);
    assert s.q[..1] == [f] && [f][..0] == [] && Cursors.Num(f) == n.num;
    assert Highest([f]) == Max(Highest([]), n.num);
    assert Is(s.q[0], n.id);
  }

  /** Two messages under way: number 1 given to the one, number 2 to the other. */
  lemma BothMinted(w: Who, a: Message, b: Message) returns (states: seq<State>, labels: seq<Label>)
    requires w.from == 0 && a.id != b.id && Sendable(a) && Sendable(b)
    ensures Run(w, states, labels) && states[|labels|] == Blank().(at := Registered, counter := 2,
      senders := map[1 := Sender(a.(num := 1), Minted, false), 0 := Sender(b.(num := 2), Minted, false)])
  {
    states, labels := Registering(w);
    var s0 := states[|labels|];
    var x := Sender(a.(num := 1), Minted, false);
    var s1 := s0.(senders := map[1 := Sender(a, Checked, false)]);
    states, labels := RunMore(w, states, labels, Check(1, a), s1);
    var s2 := s0.(counter := 1, senders := map[1 := x]);
    states, labels := RunMore(w, states, labels, Mint(1), s2);
    var s3 := s2.(senders := map[1 := x, 0 := Sender(b, Checked, false)]);
    states, labels := RunMore(w, states, labels, Check(0, b), s3);
    var s4 := s2.(counter := 2, senders := map[1 := x, 0 := Sender(b.(num := 2), Minted, false)]);
    states, labels := RunMore(w, states, labels, Mint(0), s4);
  }

  /** And a number given out but not filed when the connection is cut is lost as soon as it is:
      the client has read number 2, and number 1 is filed behind its back. */
  lemma CutWhileFilingLosesOlder(w: Who, a: Message, b: Message) returns (states: seq<State>, labels: seq<Label>)
    requires w.from == 0 && w.Sees(a) && w.Sees(b) && a.id != b.id && Sendable(a) && Sendable(b)
    ensures Run(w, states, labels)
    ensures var s := states[|labels|];
      && s.cut && s.read <= |s.q| && Reached(w, s) == 2
      && Doomed(w, s, 1) && s.senders[1].m == a.(num := 1) && forall id :: !Lost(w, s, id)
  {
    states, labels := BothMinted(w, a, b);
    var s0, n := states[|labels|], b.(num := 2);
    var s1 :=
      s0.(senders := s0.senders[0 := Sender(n, Stored, false)], table := map[b.id := n], author := map[b.id := 0]);
    assert Filed(s0, 0) == s1;
    states, labels := RunMore(w, states, labels, File(0), s1);
    states, labels := Delivered(w, states, labels, 0);
    states, labels := ReadAndCut(w, states, labels);
    OneRead(w, states[|labels|], n);
  }
}
