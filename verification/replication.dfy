/** One server, any number of client caches, and the connections between them, which may be
    cut at any moment. One handler of the server and one applied frame of a client are one step
    each; a connection is the queue of frames the client has not read yet. */
module Replication {
  import opened Names
  import opened Messages
  import opened StoreModel
  import opened Journal
  import opened ServerModel
  import opened ClientModel
  import opened Cursors

  type ClientId = nat

  datatype System = System(server: Server, clients: map<ClientId, Client>, links: map<ClientId, ConnId>)
  {
    function Table(): map<MessageId, Message> { server.store.table }
    function Top(): nat { server.store.nextSeq }

    function SetStore(c: ClientId, st: Store): System
      requires c in clients
    {
      this.(clients := clients[c := clients[c].(store := st)])
    }
  }

  datatype Label =
    | Compose(c: ClientId, m: Message)
    | LocalNote(c: ClientId, m: Message)
    | SetDelivery(c: ClientId, id: MessageId, st: Delivery)
    | LocalRead(c: ClientId, conv: ConvId)
    | ChangeRooms(c: ClientId, rooms: Rooms)
    | Deliver(c: ClientId, id: MessageId, k: ConnId, now: int)
    | Enrol(c: ClientId, k: ConnId, foreign: bool, ms: seq<Message>)
    | Receive(c: ClientId, now: int)
    | Drop(c: ClientId)
    | Join(c: ClientId, name: string, history: seq<Message>)
    | Leave(c: ClientId, name: string)
    | ClientRestart(c: ClientId, names: seq<ConvId>)
    | ServerRestart(names: seq<ConvId>)

  /** Ids are minted at random: a new one is nowhere yet. */
  ghost predicate Fresh(s: System, id: MessageId) {
    id != "" && id !in s.Table() && forall c :: c in s.clients ==> id !in s.clients[c].store.table
  }

  function Frame0(m: Message): Frame { FrameOf(m, m.conv) }

  ghost predicate Start(s: System) {
    && s.server == Server(Empty(true), map[], map[], map[])
    && s.links == map[]
    && forall c :: c in s.clients ==>
        var cl := s.clients[c]; ValidId(cl.self) && cl.store == Empty(true) && cl.cursor == cl.saved == 0
  }

  /** A client's own messages that have been typed by a person, which are all it ever sends. */
  predicate Sendable(t: map<MessageId, Message>, id: MessageId) {
    id in t && t[id].mine && !t[id].system
  }

  function Unlink(s: System, c: ClientId): System
    requires c in s.links
  {
    s.(links := s.links - {c}, server := Gone(s.server, s.links[c]))
  }

  ghost predicate Next(s: System, l: Label, s': System) {
    match l
    case ServerRestart(names) =>
      && Lists(names, s.server.store)
      && s' == s.(server := Server(Reload(s.server.store, names), s.server.roster, map[], map[]), links := map[])
    case _ => l.c in s.clients && ClientNext(s, l, s.clients[l.c], s')
  }

  ghost predicate ClientNext(s: System, l: Label, cl: Client, s': System)
    requires !l.ServerRestart? && l.c in s.clients && s.clients[l.c] == cl
  {
    var c := l.c;
    match l
    case Compose(_, m) =>
      && Fresh(s, m.id) && m.from == cl.self && m.mine && m.read && !m.system && m.num == 0 && m.conv != ""
      && |m.body| <= MAX_BODY_RUNES && m.sent != 0
      && s' == s.SetStore(c, AppendMsg(cl.store, m, 0).0)
    case LocalNote(_, m) =>
      && Fresh(s, m.id) && m.from == cl.self && m.mine && m.read && m.system && m.num == cl.cursor && m.conv != ""
      && s' == s.SetStore(c, AppendMsg(cl.store, m, 0).0)
    case SetDelivery(_, id, st) => s' == s.SetStore(c, SetState(cl.store, id, st).0)
    case LocalRead(_, conv) => s' == s.SetStore(c, MarkRead(cl.store, conv).0)
    case ChangeRooms(_, rooms) => s' == s.(clients := s.clients[c := cl.(rooms := rooms)])
    case Deliver(_, id, k, now) =>
      && Sendable(cl.store.table, id) && cl.self in s.server.roster
      && s' == s.(server := OnMessage(s.server, k, cl.self, Frame0(cl.store.table[id]), now))
    case Enrol(_, k, foreign, ms) =>
      var reset := Reset(s.server, cl.cursor, foreign);
      && c !in s.links && k !in s.server.conns
      && IsBacklog(Enlisted(s.server, cl.self, cl.rooms), cl.self, cl.cursor, reset, ms)
      && s' == System(Enrolled(s.server, k, cl.self, cl.rooms, ms),
                      s.clients[c := Welcomed(cl, reset, foreign)], s.links[c := k])
    case Receive(_, now) =>
      && c in s.links && s.links[c] in s.server.out && s.server.out[s.links[c]] != []
      && var q := s.server.out[s.links[c]];
         s' == s.(server := s.server.(out := s.server.out[s.links[c] := q[1..]]),
                  clients := s.clients[c := ApplyFrame(cl, q[0], now)])
    case Drop(_) => c in s.links && s' == Unlink(s, c).(clients := s.clients[c := cl.(saved := cl.cursor)])
    case Join(_, name, history) =>
      && c in s.links && IsListing(history, s.Table(), RoomConv(name))
      && s' == s.(server := OnJoin(s.server, s.links[c], cl.self, name, history))
    case Leave(_, name) => c in s.links && s' == s.(server := OnLeave(s.server, cl.self, name))
    case ClientRestart(_, names) =>
      && Lists(names, cl.store)
      && var s1 := if c in s.links then Unlink(s, c) else s;
         s' == s1.(clients := s1.clients[c := cl.(store := Reload(cl.store, names), cursor := cl.saved)])
  }

  ghost predicate Run(states: seq<System>, labels: seq<Label>) {
    && |states| == |labels| + 1 && Start(states[0])
    && forall i :: 0 <= i < |labels| ==> Next(states[i], labels[i], states[i + 1])
  }

  // ---------------------------------------------------------------- what always holds

  /** The server's numbers: every message has one, no two share one, and the counter is the
      last one used. */
  ghost predicate Numbered(t: map<MessageId, Message>, top: nat) {
    && (forall id :: id in t ==>
          1 <= t[id].num <= top && t[id].from != "" && !t[id].system && Filable(t[id].conv))
    && (forall i, j :: i in t && j in t && t[i].num == t[j].num ==> i == j)
    && (top > 0 ==> exists id :: id in t && t[id].num == top)
  }

  ghost predicate ServerOk(s: Server) {
    && RosterOk(s) && JournalOk(s.store) && TableOk(s.store.table, s.store.nextSeq)
    && Numbered(s.store.table, s.store.nextSeq)
  }

  /** A frame on its way says what the server's table says. */
  ghost predicate FrameOk(f: Frame, t: map<MessageId, Message>, top: nat) {
    match f
    case MsgFrame(id, conv, from, body, _, num, system, _) =>
      id in t && conv != "" && from == t[id].from && body == t[id].body && num == t[id].num && !system
    case SeqFrame(id, num) => id in t && num == t[id].num
    case SyncedFrame(cursor, _) => cursor <= top
    case ErrorFrame(_) => true
  }

  ghost predicate QueueOk(q: seq<Frame>, t: map<MessageId, Message>, top: nat) {
    forall i :: 0 <= i < |q| ==> FrameOk(q[i], t, top)
  }

  /** A client's copy against the server's: no number yet, or the server's number. */
  ghost predicate CopyOk(m: Message, self: PeerId, t: map<MessageId, Message>) {
    && (m.system ==> m.id !in t)
    && (!m.system && m.id !in t ==> m.num == 0)
    && (m.id in t ==> m.num == 0 || m.num == t[m.id].num)
    && (m.num == 0 && !m.system ==> m.mine && (m.id in t ==> t[m.id].from == self))
  }

  ghost predicate ClientOk(cl: Client, t: map<MessageId, Message>, top: nat) {
    && ValidId(cl.self) && JournalOk(cl.store) && TableOk(cl.store.table, cl.store.nextSeq)
    && cl.saved <= top && cl.cursor <= top
    && forall id :: id in cl.store.table ==> CopyOk(cl.store.table[id], cl.self, t)
  }

  /** A message the server has not filed is with one client only. */
  ghost predicate PrivateOk(s: System) {
    forall c, d, id :: c in s.clients && d in s.clients && c != d ==>
      id in s.clients[c].store.table && id in s.clients[d].store.table ==> id in s.Table()
  }

  ghost predicate LinksOk(s: System) {
    && (forall c :: c in s.links ==>
          c in s.clients && s.links[c] in s.server.conns && s.server.conns[s.links[c]] == s.clients[c].self)
    && (forall c, d :: c in s.links && d in s.links && s.links[c] == s.links[d] ==> c == d)
  }

  ghost predicate Inv(s: System) {
    && ServerOk(s.server) && LinksOk(s) && PrivateOk(s)
    && (forall k :: k in s.server.out ==> QueueOk(s.server.out[k], s.Table(), s.Top()))
    && (forall c :: c in s.clients ==> ClientOk(s.clients[c], s.Table(), s.Top()))
  }

  // ------------------------------------------------------------- one client changes

  /** A client may change as it likes as long as it stays well-formed and picks up only ids that
      are filed or that nobody else has. */
  lemma ClientChanges(s: System, c: ClientId, cl: Client)
    requires Inv(s) && c in s.clients && cl.self == s.clients[c].self
    requires ClientOk(cl, s.Table(), s.Top())
    requires forall id :: id in cl.store.table && id !in s.clients[c].store.table ==> id in s.Table() || Fresh(s, id)
    ensures Inv(s.(clients := s.clients[c := cl]))
  {
    PrivateChanges(s, c, cl);
  }

  lemma PrivateChanges(s: System, c: ClientId, cl: Client)
    requires PrivateOk(s) && c in s.clients
    requires forall id :: id in cl.store.table && id !in s.clients[c].store.table ==> id in s.Table() || Fresh(s, id)
    ensures PrivateOk(s.(clients := s.clients[c := cl]))
  {
    var s' := s.(clients := s.clients[c := cl]);
    forall a, b, id | a in s'.clients && b in s'.clients && a != b
      && id in s'.clients[a].store.table && id in s'.clients[b].store.table
      ensures id in s'.Table()
    {
      if a == c { NewcomerShares(s, c, cl, b, id); }
      else if b == c { NewcomerShares(s, c, cl, a, id); }
      else { assert id in s.Table(); }
      assert s'.Table() == s.Table();
    }
  }

  lemma NewcomerShares(s: System, c: ClientId, cl: Client, d: ClientId, id: MessageId)
    requires PrivateOk(s) && c in s.clients && d in s.clients && c != d
    requires id in cl.store.table && id in s.clients[d].store.table
    requires id !in s.clients[c].store.table ==> id in s.Table() || Fresh(s, id)
    ensures id in s.Table()
  {
  }

  lemma ComposeKeeps(s: System, c: ClientId, m: Message)
    requires Inv(s) && c in s.clients && Fresh(s, m.id) && m.mine && m.conv != ""
    requires (m.system && m.num == s.clients[c].cursor) || (!m.system && m.num == 0 && m.from == s.clients[c].self)
    ensures Inv(s.SetStore(c, AppendMsg(s.clients[c].store, m, 0).0))
  {
    var cl := s.clients[c];
    AppendKeepsJournal(cl.store, m, 0);
    var cl' := cl.(store := AppendMsg(cl.store, m, 0).0);
    ExecKeepsTable(cl.store, DoAppend(m, 0));
    assert ClientOk(cl', s.Table(), s.Top());
    ClientChanges(s, c, cl');
  }

  lemma SetDeliveryKeeps(s: System, c: ClientId, id: MessageId, st: Delivery)
    requires Inv(s) && c in s.clients
    ensures Inv(s.SetStore(c, SetState(s.clients[c].store, id, st).0))
  {
    var cl := s.clients[c];
    SetStateKeepsJournal(cl.store, id, st);
    ClientChanges(s, c, cl.(store := SetState(cl.store, id, st).0));
  }

  lemma LocalReadKeeps(s: System, c: ClientId, conv: ConvId)
    requires Inv(s) && c in s.clients
    ensures Inv(s.SetStore(c, MarkRead(s.clients[c].store, conv).0))
  {
    var cl := s.clients[c];
    MarkReadKeepsJournal(cl.store, conv);
    MarkReadKeepsClient(cl, conv, s.Table(), s.Top());
    ClientChanges(s, c, cl.(store := MarkRead(cl.store, conv).0));
  }

  lemma MarkReadKeepsClient(cl: Client, conv: ConvId, t: map<MessageId, Message>, top: nat)
    requires ClientOk(cl, t, top) && JournalOk(MarkRead(cl.store, conv).0)
    ensures ClientOk(cl.(store := MarkRead(cl.store, conv).0), t, top)
  {
    var u := MarkRead(cl.store, conv).0.table;
    forall id | id in u ensures CopyOk(u[id], cl.self, t) { assert CopyOk(cl.store.table[id], cl.self, t); }
  }

  // ------------------------------------------------------------- a client reads a frame

  /** What a client is sure to hold: the messages it has with their numbers. */
  ghost function Held(cl: Client): set<MessageId> {
    set id | id in cl.store.table && cl.store.table[id].num != 0
  }

  lemma ConfirmKeepsClient(cl: Client, id: MessageId, num: nat, t: map<MessageId, Message>, top: nat)
    requires ClientOk(cl, t, top) && TableOk(t, top) && id in t && num == t[id].num && num > 0
    ensures ClientOk(cl.(store := Confirm(cl.store, id, num).0), t, top)
    ensures Held(cl) <= Held(cl.(store := Confirm(cl.store, id, num).0))
    ensures id in cl.store.table ==> id in Held(cl.(store := Confirm(cl.store, id, num).0))
  {
    ConfirmKeepsJournal(cl.store, id, num);
  }

  lemma AppendKeepsClient(cl: Client, m: Message, now: int, t: map<MessageId, Message>, top: nat)
    requires ClientOk(cl, t, top) && m.id in t && m.id != "" && m.conv != "" && m.num == t[m.id].num && m.num > 0
      && !m.system
    ensures ClientOk(cl.(store := AppendMsg(cl.store, m, now).0), t, top)
    ensures Held(cl) <= Held(cl.(store := AppendMsg(cl.store, m, now).0))
    ensures m.id !in cl.store.table ==> m.id in Held(cl.(store := AppendMsg(cl.store, m, now).0))
  {
    AppendKeepsJournal(cl.store, m, now);
    ExecKeepsTable(cl.store, DoAppend(m, now));
  }

  lemma AdvanceKeepsClient(cl: Client, n: nat, t: map<MessageId, Message>, top: nat)
    requires ClientOk(cl, t, top) && n <= top
    ensures ClientOk(Advance(cl, n), t, top) && Advance(cl, n).cursor == Max(cl.cursor, n)
  {
  }

  ghost predicate Applied(cl: Client, f: Frame, cl': Client, t: map<MessageId, Message>, top: nat) {
    && ClientOk(cl', t, top) && cl'.self == cl.self && cl'.rooms == cl.rooms
    && cl'.cursor == Max(cl.cursor, Num(f))
    && Held(cl) + Brings(f) <= Held(cl')
    && (forall id :: id in cl'.store.table ==> id in cl.store.table || id in t)
  }

  lemma ApplyOwnKeeps(cl: Client, f: Frame, now: int, t: map<MessageId, Message>, top: nat)
    requires ClientOk(cl, t, top) && FrameOk(f, t, top) && TableOk(t, top) && Numbered(t, top)
    requires f.MsgFrame? && f.from == cl.self
    ensures Applied(cl, f, ApplyMessage(cl, f, now), t, top)
  {
    AdvanceKeepsClient(cl, f.num, t, top);
    var c1, m := Advance(cl, f.num), MessageFromFrame(f, f.from, now).value;
    ConfirmKeepsClient(c1, f.id, f.num, t, top);
    if f.id !in c1.store.table {
      var c2 := c1.(store := Confirm(c1.store, f.id, f.num).0);
      AppendKeepsClient(c2, m.(mine := true, read := true, state := Delivered), now, t, top);
    }
  }

  lemma ApplyOthersKeeps(cl: Client, f: Frame, now: int, t: map<MessageId, Message>, top: nat)
    requires ClientOk(cl, t, top) && FrameOk(f, t, top) && TableOk(t, top) && Numbered(t, top)
    requires f.MsgFrame? && f.from != cl.self
    ensures Applied(cl, f, ApplyMessage(cl, f, now), t, top)
  {
    AdvanceKeepsClient(cl, f.num, t, top);
    var c1 := Advance(cl, f.num);
    AppendKeepsClient(c1, MessageFromFrame(f, f.from, now).value, now, t, top);
    assert f.id in c1.store.table ==> CopyOk(c1.store.table[f.id], cl.self, t);
  }

  /** Applying any frame of the server keeps the cache right; a message frame leaves the message
      held with its number, and the cursor goes exactly where the frame says. */
  lemma ApplyKeepsClient(cl: Client, f: Frame, now: int, t: map<MessageId, Message>, top: nat)
    requires ClientOk(cl, t, top) && FrameOk(f, t, top) && TableOk(t, top) && Numbered(t, top)
    ensures Applied(cl, f, ApplyFrame(cl, f, now), t, top)
  {
    match f
    case MsgFrame(_, _, _, _, _, _, _, _) =>
      if f.from == cl.self { ApplyOwnKeeps(cl, f, now, t, top); } else { ApplyOthersKeeps(cl, f, now, t, top); }
    case SeqFrame(id, num) =>
      AdvanceKeepsClient(cl, num, t, top);
      ConfirmKeepsClient(Advance(cl, num), id, num, t, top);
    case SyncedFrame(n, _) => AdvanceKeepsClient(cl, n, t, top);
    case ErrorFrame(_) =>
  }

  function Read(s: System, c: ClientId, cl: Client): System
    requires c in s.links && s.links[c] in s.server.out && s.server.out[s.links[c]] != []
  {
    s.(server := s.server.(out := s.server.out[s.links[c] := s.server.out[s.links[c]][1..]]),
       clients := s.clients[c := cl])
  }

  lemma ReceiveKeeps(s: System, c: ClientId, now: int)
    requires Inv(s) && c in s.links && s.server.out[s.links[c]] != []
    ensures Inv(Read(s, c, ApplyFrame(s.clients[c], s.server.out[s.links[c]][0], now)))
  {
    var q := s.server.out[s.links[c]];
    assert QueueOk(q, s.Table(), s.Top());
    var cl := ApplyFrame(s.clients[c], q[0], now);
    ApplyKeepsClient(s.clients[c], q[0], now, s.Table(), s.Top());
    ClientChanges(s, c, cl);
    var s1 := s.(clients := s.clients[c := cl]);
    QueueShrinks(s1, s.links[c]);
  }

  lemma QueueShrinks(s: System, k: ConnId)
    requires Inv(s) && k in s.server.out && s.server.out[k] != []
    ensures Inv(s.(server := s.server.(out := s.server.out[k := s.server.out[k][1..]])))
  {
    var q := s.server.out[k];
    assert QueueOk(q, s.Table(), s.Top());
    assert QueueOk(q[1..], s.Table(), s.Top());
  }

  lemma UnlinkKeeps(s: System, c: ClientId)
    requires Inv(s) && c in s.links
    ensures Inv(Unlink(s, c))
  {
  }

  lemma DropKeeps(s: System, c: ClientId)
    requires Inv(s) && c in s.links
    ensures Inv(Unlink(s, c).(clients := s.clients[c := s.clients[c].(saved := s.clients[c].cursor)]))
  {
    UnlinkKeeps(s, c);
    ClientChanges(Unlink(s, c), c, s.clients[c].(saved := s.clients[c].cursor));
  }

  lemma ClientRestartKeeps(s: System, c: ClientId, names: seq<ConvId>)
    requires Inv(s) && c in s.clients && Lists(names, s.clients[c].store)
    ensures var cl := s.clients[c];
      Inv(s.(clients := s.clients[c := cl.(store := Reload(cl.store, names), cursor := cl.saved)]))
    ensures Held(s.clients[c].(store := Reload(s.clients[c].store, names))) == Held(s.clients[c])
  {
    var cl := s.clients[c];
    RestartBringsEverythingBack(cl.store, names);
    var r := Reload(cl.store, names);
    forall id | id in r.table ensures CopyOk(r.table[id], cl.self, s.Table()) {
      assert Durable(cl.store.table[id]) == Durable(r.table[id]);
    }
    forall id | id in r.table ensures r.table[id].num == cl.store.table[id].num {
      assert Durable(cl.store.table[id]) == Durable(r.table[id]);
    }
    ClientChanges(s, c, cl.(store := r, cursor := cl.saved));
  }

  // ------------------------------------------------------- the server takes a message

  predicate Accepts(s: Server, sender: PeerId, f: Frame)
    requires f.MsgFrame?
  {
    f.id != "" && |f.body| <= MAX_BODY_RUNES && Route(s, sender, f.conv).To? && f.id !in s.store.table
  }

  function TheMessage(s: Server, sender: PeerId, f: Frame, now: int): Message
    requires f.MsgFrame? && Accepts(s, sender, f)
  {
    Stamped(s, MessageFromFrame(f, sender, now).value, Route(s, sender, f.conv).conv)
  }

  /** What a connection is sent of an accepted message: the message if its owner can see it,
      then the number if its owner is the sender. */
  function Heard(s: Server, m: Message, k: ConnId): seq<Frame>
    requires k in s.conns
  {
    (match ConvFor(m.conv, s.conns[k], s.RoomsOf(s.conns[k]))
     case None => []
     case Some(name) => [FrameOf(m, name)])
    + if s.conns[k] == m.from then [SeqFrame(m.id, m.num)] else []
  }

  lemma AcceptEffect(s: Server, k: ConnId, sender: PeerId, f: Frame, now: int)
    requires RosterOk(s) && sender in s.roster && f.MsgFrame? && Accepts(s, sender, f)
    ensures var s', m := OnMessage(s, k, sender, f, now), TheMessage(s, sender, f, now);
      && s'.roster == s.roster && s'.conns == s.conns && s'.out.Keys == s.out.Keys
      && s'.store == AppendMsg(NextSeq(s.store).0, m, now).0
      && (forall j :: j in s.out ==> s'.out[j] == s.out[j] + Heard(s, m, j))
  {
    RecipientsAreWhoSees(s, sender, f.conv);
    var m, who := TheMessage(s, sender, f, now), Route(s, sender, f.conv).who;
    var s1 := s.(store := AppendMsg(NextSeq(s.store).0, m, now).0);
    var s' := SendTo(FanOut(s1, m, who), sender, SeqFrame(m.id, m.num));
    assert OnMessage(s, k, sender, f, now) == s';
    forall j | j in s.out ensures s'.out[j] == s.out[j] + Heard(s, m, j) { HeardByOne(s1, m, who, j); }
  }

  lemma HeardByOne(s: Server, m: Message, who: set<PeerId>, j: ConnId)
    requires j in s.out && j in s.conns
    requires s.conns[j] in who <==> Sees(m.conv, s.conns[j], s.RoomsOf(s.conns[j]))
    ensures SendTo(FanOut(s, m, who), m.from, SeqFrame(m.id, m.num)).out[j] == s.out[j] + Heard(s, m, j)
  {
  }

  lemma FiledAsSent(s: Server, sender: PeerId, f: Frame, now: int)
    requires f.MsgFrame? && Accepts(s, sender, f) && RosterOk(s) && sender in s.roster
    ensures var m := TheMessage(s, sender, f, now);
      && Filed(m, now) == m && Filable(m.conv) && m.conv != "" && m.num == s.store.nextSeq + 1 && m.from == sender
      && m.id == f.id
      && AppendMsg(NextSeq(s.store).0, m, now).0.table == s.store.table[m.id := m]
      && AppendMsg(NextSeq(s.store).0, m, now).0.nextSeq == m.num
  {
    RecipientsAreWhoSees(s, sender, f.conv);
    FilableNonEmpty(Route(s, sender, f.conv).conv);
  }

  lemma FilableNonEmpty(conv: ConvId)
    requires Filable(conv)
    ensures conv != "" && forall p, rooms :: Sees(conv, p, rooms) ==> ConvFor(conv, p, rooms).value != ""
  {
  }

  lemma AcceptKeepsServer(s: Server, k: ConnId, sender: PeerId, f: Frame, now: int)
    requires ServerOk(s) && sender in s.roster && f.MsgFrame? && Accepts(s, sender, f) && !f.system
    ensures ServerOk(OnMessage(s, k, sender, f, now))
  {
    AcceptEffect(s, k, sender, f, now);
    FiledAsSent(s, sender, f, now);
    var m := TheMessage(s, sender, f, now);
    ValidIdHasNoPlus(sender);
    MintKeepsJournal(s.store);
    AppendKeepsJournal(NextSeq(s.store).0, m, now);
    NumberedGrows(s.store.table, s.store.nextSeq, m);
  }

  lemma NumberedGrows(t: map<MessageId, Message>, top: nat, m: Message)
    requires Numbered(t, top) && m.id !in t && m.num == top + 1 && m.from != "" && !m.system && Filable(m.conv)
    ensures Numbered(t[m.id := m], top + 1)
  {
    assert t[m.id := m][m.id].num == top + 1;
  }

  /** Anything else changes nothing but one queue, by one answer that is no message. */
  lemma RefuseEffect(s: Server, k: ConnId, sender: PeerId, f: Frame, now: int) returns (reply: Frame)
    requires f.MsgFrame? && !Accepts(s, sender, f)
    ensures OnMessage(s, k, sender, f, now) == s.Send(k, [reply])
    ensures !reply.MsgFrame? && FrameOk(reply, s.store.table, s.store.nextSeq)
  {
    reply := match MessageFromFrame(f, sender, now)
      case None => ErrorFrame(ERR_BAD_FRAME)
      case Some(m0) =>
        match Route(s, sender, f.conv)
        case Refuse(code) => ErrorFrame(code)
        case To(_, _) => SeqFrame(m0.id, s.store.table[m0.id].num);
  }

  lemma SendKeeps(s: System, k: ConnId, fs: seq<Frame>)
    requires Inv(s) && QueueOk(fs, s.Table(), s.Top())
    ensures Inv(s.(server := s.server.Send(k, fs)))
  {
    if k in s.server.out {
      var q := s.server.out[k];
      assert QueueOk(q, s.Table(), s.Top());
      assert QueueOk(q + fs, s.Table(), s.Top());
    }
  }

  lemma HeardOk(s: Server, m: Message, k: ConnId, t: map<MessageId, Message>, top: nat)
    requires k in s.conns && m.id in t && t[m.id] == m && !m.system && Filable(m.conv)
    ensures QueueOk(Heard(s, m, k), t, top)
  {
    FilableNonEmpty(m.conv);
  }

  lemma FrameOkGrows(f: Frame, t: map<MessageId, Message>, top: nat, m: Message)
    requires FrameOk(f, t, top) && m.id !in t && m.num > top
    ensures FrameOk(f, t[m.id := m], m.num)
  {
  }

  /** A client's own unfiled message gets filed under its own name: every copy stays right. */
  lemma ClientOkGrows(cl: Client, t: map<MessageId, Message>, top: nat, m: Message)
    requires ClientOk(cl, t, top) && m.id !in t && m.num == top + 1
    requires m.id in cl.store.table ==> !cl.store.table[m.id].system && m.from == cl.self
    ensures ClientOk(cl, t[m.id := m], top + 1)
  {
    forall id | id in cl.store.table ensures CopyOk(cl.store.table[id], cl.self, t[m.id := m]) {
      assert CopyOk(cl.store.table[id], cl.self, t);
      assert cl.store.table[id].id == id;
    }
  }

  lemma DeliverKeeps(s: System, c: ClientId, id: MessageId, k: ConnId, now: int)
    requires Inv(s) && c in s.clients && Sendable(s.clients[c].store.table, id)
    requires s.clients[c].self in s.server.roster
    ensures Inv(s.(server := OnMessage(s.server, k, s.clients[c].self, Frame0(s.clients[c].store.table[id]), now)))
  {
    var cl := s.clients[c];
    var f := Frame0(cl.store.table[id]);
    assert ClientOk(cl, s.Table(), s.Top()) && f.id == id;
    if !Accepts(s.server, cl.self, f) {
      var reply := RefuseEffect(s.server, k, cl.self, f, now);
      SendKeeps(s, k, [reply]);
    } else {
      AcceptEffect(s.server, k, cl.self, f, now);
      FiledAsSent(s.server, cl.self, f, now);
      AcceptKeepsServer(s.server, k, cl.self, f, now);
      var m := TheMessage(s.server, cl.self, f, now);
      var s' := s.(server := OnMessage(s.server, k, cl.self, f, now));
      forall j | j in s'.server.out ensures QueueOk(s'.server.out[j], s'.Table(), s'.Top()) {
        QueueGrows(s.server.out[j], Heard(s.server, m, j), s.Table(), s.Top(), m, s.server, j);
      }
      forall d | d in s'.clients ensures ClientOk(s'.clients[d], s'.Table(), s'.Top()) {
        assert d != c ==> id !in s.clients[d].store.table;
        ClientOkGrows(s.clients[d], s.Table(), s.Top(), m);
      }
    }
  }

  lemma QueueGrows(q: seq<Frame>, more: seq<Frame>, t: map<MessageId, Message>, top: nat, m: Message, s: Server,
                   k: ConnId)
    requires QueueOk(q, t, top) && k in s.conns && more == Heard(s, m, k)
    requires m.id !in t && m.num > top && !m.system && Filable(m.conv)
    ensures QueueOk(q + more, t[m.id := m], m.num)
  {
    HeardOk(s, m, k, t[m.id := m], m.num);
    forall i | 0 <= i < |q| ensures FrameOk(q[i], t[m.id := m], m.num) { FrameOkGrows(q[i], t, top, m); }
  }

  // ---------------------------------------------------------------- enrolment and rooms

  /** Messages of the table, renamed for a reader, are right frames. */
  lemma {:induction false} RenamedOk(ms: seq<Message>, p: PeerId, rooms: Rooms, t: map<MessageId, Message>, top: nat)
    requires Numbered(t, top) && forall x :: x in ms ==> x.id in t && t[x.id] == x
    ensures QueueOk(Renamed(ms, p, rooms), t, top)
  {
    if ms != [] {
      var init, m := ms[..|ms| - 1], ms[|ms| - 1];
      RenamedOk(init, p, rooms, t, top);
      FilableNonEmpty(m.conv);
    }
  }

  lemma BacklogStored(s: Server, p: PeerId, cursor: nat, reset: bool, ms: seq<Message>)
    requires IsBacklog(s, p, cursor, reset, ms)
    ensures forall x :: x in ms ==> x.id in s.store.table && s.store.table[x.id] == x
  {
  }

  lemma EnlistKeeps(s: System, p: PeerId, rooms: Rooms)
    requires Inv(s) && ValidId(p)
    ensures Inv(s.(server := Enlisted(s.server, p, rooms)))
  {
  }

  lemma EnrolKeeps(s: System, c: ClientId, k: ConnId, reset: bool, foreign: bool, ms: seq<Message>)
    requires Inv(s) && c in s.clients && c !in s.links && k !in s.server.conns
    requires var cl := s.clients[c]; IsBacklog(Enlisted(s.server, cl.self, cl.rooms), cl.self, cl.cursor, reset, ms)
    ensures Inv(System(Enrolled(s.server, k, s.clients[c].self, s.clients[c].rooms, ms),
                       s.clients[c := Welcomed(s.clients[c], reset, foreign)], s.links[c := k]))
  {
    var cl := s.clients[c];
    var s1 := s.(server := Enlisted(s.server, cl.self, cl.rooms));
    EnlistKeeps(s, cl.self, cl.rooms);
    BacklogStored(s1.server, cl.self, cl.cursor, reset, ms);
    RenamedOk(ms, cl.self, s1.server.RoomsOf(cl.self), s.Table(), s.Top());
    var q := Renamed(ms, cl.self, s1.server.RoomsOf(cl.self)) + [SyncedFrame(s.Top(), "")];
    assert QueueOk(q, s.Table(), s.Top());
    ClientChanges(s1, c, Welcomed(cl, reset, foreign));
    Registers(s1.(clients := s.clients[c := Welcomed(cl, reset, foreign)]), c, k, q);
  }

  lemma Registers(s: System, c: ClientId, k: ConnId, q: seq<Frame>)
    requires Inv(s) && c in s.clients && c !in s.links && k !in s.server.conns
    requires QueueOk(q, s.Table(), s.Top()) && s.clients[c].self in s.server.roster
    ensures Inv(System(s.server.(conns := s.server.conns[k := s.clients[c].self], out := s.server.out[k := q]),
                       s.clients, s.links[c := k]))
  {
    RegistersLinks(s, c, k, q);
    assert RosterOk(s.server.(conns := s.server.conns[k := s.clients[c].self], out := s.server.out[k := q]));
  }

  lemma RegistersLinks(s: System, c: ClientId, k: ConnId, q: seq<Frame>)
    requires LinksOk(s) && c in s.clients && c !in s.links && k !in s.server.conns
    ensures LinksOk(System(s.server.(conns := s.server.conns[k := s.clients[c].self], out := s.server.out[k := q]),
                           s.clients, s.links[c := k]))
  {
  }

  lemma VerbatimOk(ms: seq<Message>, t: map<MessageId, Message>, top: nat)
    requires Numbered(t, top) && forall i :: 0 <= i < |ms| ==> ms[i].id in t && t[ms[i].id] == ms[i]
    ensures QueueOk(Verbatim(ms), t, top)
  {
    forall i | 0 <= i < |ms| ensures FrameOk(Verbatim(ms)[i], t, top) { FilableNonEmpty(ms[i].conv); }
  }

  lemma JoinKeeps(s: System, c: ClientId, name: string, history: seq<Message>)
    requires Inv(s) && c in s.links && IsListing(history, s.Table(), RoomConv(name))
    ensures Inv(s.(server := OnJoin(s.server, s.links[c], s.clients[c].self, name, history)))
  {
    var p, room := s.clients[c].self, CanonRoom(name);
    assert ClientOk(s.clients[c], s.Table(), s.Top());
    if room == "" || |room| > MAX_ROOM {
      SendKeeps(s, s.links[c], [ErrorFrame(ERR_BAD_FRAME)]);
    } else if HasRoom(s.server.RoomsOf(p), room) {
      HistoryKeeps(s, s.links[c], room, history);
    } else {
      EnlistKeeps(s, p, s.server.RoomsOf(p) + [room]);
      HistoryKeeps(s.(server := Enlisted(s.server, p, s.server.RoomsOf(p) + [room])), s.links[c], room, history);
    }
  }

  lemma HistoryKeeps(s: System, k: ConnId, room: string, history: seq<Message>)
    requires Inv(s) && forall i :: 0 <= i < |history| ==>
      history[i].id in s.Table() && s.Table()[history[i].id] == history[i]
    ensures Inv(s.(server := s.server.Send(k, Verbatim(Tail(history, BACKLOG_WINDOW)) + [SyncedFrame(s.Top(), room)])))
  {
    VerbatimOk(Tail(history, BACKLOG_WINDOW), s.Table(), s.Top());
    SendKeeps(s, k, Verbatim(Tail(history, BACKLOG_WINDOW)) + [SyncedFrame(s.Top(), room)]);
  }

  /** Two tables the rest of the system cannot tell apart. */
  ghost predicate Alike(t: map<MessageId, Message>, u: map<MessageId, Message>) {
    && t.Keys == u.Keys
    && forall id :: id in t ==>
        && t[id].num == u[id].num && t[id].from == u[id].from && t[id].system == u[id].system
        && t[id].conv == u[id].conv && t[id].body == u[id].body
  }

  lemma ReloadedServer(st: Store, names: seq<ConvId>)
    requires JournalOk(st) && Numbered(st.table, st.nextSeq) && Lists(names, st)
    ensures var r := Reload(st, names);
      && JournalOk(r) && TableOk(r.table, r.nextSeq)
      && Alike(st.table, r.table) && r.nextSeq == st.nextSeq && Numbered(r.table, r.nextSeq)
  {
    var r := Reload(st, names);
    RestartBringsEverythingBack(st, names);
    ReloadCounter(st, names);
    forall id | id in st.table
      ensures st.table[id].num == r.table[id].num && st.table[id].from == r.table[id].from
           && st.table[id].system == r.table[id].system && st.table[id].conv == r.table[id].conv
           && st.table[id].body == r.table[id].body
    {
      assert Durable(st.table[id]) == Durable(r.table[id]);
    }
    AlikeNumbered(st.table, st.nextSeq, r.table, r.nextSeq);
  }

  lemma AlikeNumbered(t: map<MessageId, Message>, top: nat, u: map<MessageId, Message>, top': nat)
    requires Numbered(t, top) && Alike(t, u) && top' <= top
    requires forall id :: id in u ==> u[id].num <= top'
    ensures top' == top && Numbered(u, top')
  {
    if top > 0 {
      var id :| id in t && t[id].num == top;
      assert u[id].num == top;
    }
  }

  lemma AlikeClient(cl: Client, t: map<MessageId, Message>, u: map<MessageId, Message>, top: nat)
    requires ClientOk(cl, t, top) && Alike(t, u)
    ensures ClientOk(cl, u, top)
  {
    forall id | id in cl.store.table ensures CopyOk(cl.store.table[id], cl.self, u) {
      assert CopyOk(cl.store.table[id], cl.self, t);
    }
  }

  lemma ServerRestartKeeps(s: System, names: seq<ConvId>)
    requires Inv(s) && Lists(names, s.server.store)
    ensures Inv(s.(server := Server(Reload(s.server.store, names), s.server.roster, map[], map[]), links := map[]))
  {
    ReloadedServer(s.server.store, names);
    var r := Reload(s.server.store, names);
    forall c | c in s.clients ensures ClientOk(s.clients[c], r.table, r.nextSeq) {
      AlikeClient(s.clients[c], s.Table(), r.table, s.Top());
    }
  }

  /** The counter read back is not above the one that was lost. */
  lemma ReloadCounter(s: Store, names: seq<ConvId>)
    requires JournalOk(s)
    ensures Reload(s, names).nextSeq <= s.nextSeq
  {
    LoadDirCounter(Store(s.persist, map[], map[], 0, s.files), s, names);
  }

  lemma {:induction false} LoadDirCounter(b: Store, s: Store, names: seq<ConvId>)
    requires JournalOk(s) && b.files == s.files && b.nextSeq == 0
    ensures LoadDir(b, names).nextSeq <= s.nextSeq && LoadDir(b, names).files == s.files
  {
    if names != [] {
      LoadDirCounter(b, s, Init(names));
      assert FileAgrees(s, Last(names));
    }
  }

  lemma NextKeeps(s: System, l: Label, s': System)
    requires Inv(s) && Next(s, l, s')
    ensures Inv(s')
  {
    if l.Compose? || l.LocalNote? || l.SetDelivery? || l.LocalRead? || l.ChangeRooms? {
      CacheStepKeeps(s, l, s');
    } else {
      LinkStepKeeps(s, l, s');
    }
  }

  lemma CacheStepKeeps(s: System, l: Label, s': System)
    requires Inv(s) && Next(s, l, s')
      && (l.Compose? || l.LocalNote? || l.SetDelivery? || l.LocalRead? || l.ChangeRooms?)
    ensures Inv(s')
  {
    match l
    case Compose(c, m) => ComposeKeeps(s, c, m);
    case LocalNote(c, m) => ComposeKeeps(s, c, m);
    case SetDelivery(c, id, st) => SetDeliveryKeeps(s, c, id, st);
    case LocalRead(c, conv) => LocalReadKeeps(s, c, conv);
    case ChangeRooms(c, rooms) => ClientChanges(s, c, s.clients[c].(rooms := rooms));
  }

  lemma LinkStepKeeps(s: System, l: Label, s': System)
    requires Inv(s) && Next(s, l, s')
    requires !(l.Compose? || l.LocalNote? || l.SetDelivery? || l.LocalRead? || l.ChangeRooms?)
    ensures Inv(s')
  {
    match l
    case Deliver(c, id, k, now) => DeliverKeeps(s, c, id, k, now);
    case Enrol(c, k, foreign, ms) => EnrolKeeps(s, c, k, Reset(s.server, s.clients[c].cursor, foreign), foreign, ms);
    case Receive(c, now) => ReceiveKeeps(s, c, now);
    case Drop(c) => DropKeeps(s, c);
    case Join(c, name, history) => JoinKeeps(s, c, name, history);
    case Leave(c, name) =>
      EnlistKeeps(s, s.clients[c].self, Without(s.server.RoomsOf(s.clients[c].self), CanonRoom(name)));
    case ClientRestart(c, names) =>
      if c in s.links { UnlinkKeeps(s, c); }
      ClientRestartKeeps(if c in s.links then Unlink(s, c) else s, c, names);
    case ServerRestart(names) => ServerRestartKeeps(s, names);
  }

  lemma InitOk(s: System)
    requires Start(s)
    ensures Inv(s)
  {
    RunKeepsJournal([]);
  }

  /** Every reachable state of the server and its clients. */
  lemma {:induction false} AlwaysInv(states: seq<System>, labels: seq<Label>)
    requires Run(states, labels)
    ensures forall i :: 0 <= i < |states| ==> Inv(states[i])
  {
    if labels == [] {
      InitOk(states[0]);
    } else {
      var n := |labels| - 1;
      AlwaysInv(states[..n + 1], labels[..n]);
      assert states[..n + 1][n] == states[n];
      NextKeeps(states[n], labels[n], states[n + 1]);
      forall i | 0 <= i < |states| ensures Inv(states[i]) {
        if i <= n { assert states[..n + 1][i] == states[i]; }
      }
    }
  }
}
