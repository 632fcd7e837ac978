/** What a message says. A message is written once; the server files it, relays it and keeps it, and
    everybody who has a copy reads what was typed, in the conversation it is filed under
    (chatserver/handle.go, onMessage and fanOut; chatclientd/link.go, onMessage). */
module Texts {
  import opened Wrappers
  import opened Names
  import opened Messages
  import opened StoreModel
  import opened Journal
  import opened ServerModel
  import opened ClientModel
  import opened Replication
  import Guarantees
  import Marks

  /** What the server calls a conversation that p calls conv. */
  function FiledUnder(p: PeerId, conv: ConvId): ConvId {
    if IsRoom(conv) then RoomConv(Room(conv)) else DirectKey(p, ConvPeer(conv))
  }

  /** Everything a person reads of a message. */
  predicate SameText(a: Message, b: Message) {
    a.body == b.body && a.sent == b.sent && a.transfer == b.transfer && a.system == b.system && a.conv == b.conv
  }

  /** p's copy m says what x says, in the conversation x is filed under. */
  predicate Agrees(m: Message, p: PeerId, x: Message) {
    && m.body == x.body && m.sent == x.sent && m.transfer == x.transfer && m.system == x.system
    && FiledUnder(p, m.conv) == x.conv
  }

  /** And so does a frame on its way to p. */
  predicate Tells(f: Frame, p: PeerId, x: Message)
    requires f.MsgFrame?
  {
    && f.body == x.body && f.sent == x.sent && f.transfer == x.transfer && f.system == x.system
    && FiledUnder(p, f.conv) == x.conv
  }

  // --------------------------------------------------------------- what always holds

  ghost predicate Timed(t: map<MessageId, Message>) { forall id :: id in t && !t[id].system ==> t[id].sent != 0 }

  ghost predicate CopiesTold(cl: Client, t: map<MessageId, Message>) {
    forall id :: id in cl.store.table && id in t ==> Agrees(cl.store.table[id], cl.self, t[id])
  }

  ghost predicate ClientTold(cl: Client, t: map<MessageId, Message>) { Timed(cl.store.table) && CopiesTold(cl, t) }

  ghost predicate QueueTold(q: seq<Frame>, p: PeerId, t: map<MessageId, Message>) {
    forall i :: 0 <= i < |q| && q[i].MsgFrame? ==> q[i].id in t && Tells(q[i], p, t[q[i].id])
  }

  ghost predicate QueuesTold(s: System) {
    forall k :: k in s.server.out && k in s.server.conns ==> QueueTold(s.server.out[k], s.server.conns[k], s.Table())
  }

  ghost predicate ClientsTold(s: System) { forall c :: c in s.clients ==> ClientTold(s.clients[c], s.Table()) }

  ghost predicate Told(s: System) { Timed(s.Table()) && QueuesTold(s) && ClientsTold(s) }

  /** The server keeps what it has as it is. */
  ghost predicate Kept(t: map<MessageId, Message>, u: map<MessageId, Message>) {
    forall id :: id in t ==> id in u && SameText(t[id], u[id])
  }

  // ------------------------------------------------------------------- the server files

  /** The name somebody is given for a conversation leads back to it. */
  lemma NameLeadsBack(conv: ConvId, p: PeerId, rooms: Rooms, name: ConvId)
    requires Filable(conv) && ConvFor(conv, p, rooms) == Some(name)
    ensures FiledUnder(p, name) == conv
  {
    if r :| CanonRoom(r) != "" && conv == RoomConv(r) {
      NamesAreDisjoint("", "", "", r);
      CanonRoomIdempotent(r);
    } else {
      var a, b :| ValidId(a) && ValidId(b) && a != b && conv == DirectKey(a, b);
      DirectSeen(a, b);
      DirectKeySymmetric(a, b);
      NamesAreDisjoint(a, b, a, "");
      NamesAreDisjoint(a, b, b, "");
    }
  }

  lemma RoutedUnder(s: Server, p: PeerId, conv: ConvId)
    requires Route(s, p, conv).To?
    ensures Route(s, p, conv).conv == FiledUnder(p, conv)
  {
    CanonRoomIdempotent(Room(conv));
  }

  /** What the server takes on is what its author's copy says. */
  lemma TakenAsTyped(s: System, l: Label, s': System)
    requires RosterOk(s.server) && Next(s, l, s') && l.Deliver? && Keyed(s.clients[l.c].store.table)
    requires Timed(s.clients[l.c].store.table)
    ensures s'.Table() == s.Table() ||
      (l.id !in s.Table() && l.id in s'.Table() && s'.Table() == s.Table()[l.id := s'.Table()[l.id]]
       && Agrees(s.clients[l.c].store.table[l.id], s.clients[l.c].self, s'.Table()[l.id]))
  {
    var cl := s.clients[l.c];
    var f := Frame0(cl.store.table[l.id]);
    assert s'.server == OnMessage(s.server, l.k, cl.self, f, l.now);
    if Accepts(s.server, cl.self, f) {
      AcceptEffect(s.server, l.k, cl.self, f, l.now);
      FiledAsSent(s.server, cl.self, f, l.now);
      RoutedUnder(s.server, cl.self, f.conv);
    } else {
      var reply := RefuseEffect(s.server, l.k, cl.self, f, l.now);
    }
  }

  lemma ReloadKeepsText(st: Store, names: seq<ConvId>)
    requires JournalOk(st) && Lists(names, st)
    ensures Kept(st.table, Reload(st, names).table) && Reload(st, names).table.Keys == st.table.Keys
  {
    RestartBringsEverythingBack(st, names);
    forall id | id in st.table ensures SameText(st.table[id], Reload(st, names).table[id]) {
      assert Durable(st.table[id]) == Durable(Reload(st, names).table[id]);
    }
  }

  lemma DeliverKept(s: System, l: Label, s': System)
    requires RosterOk(s.server) && Next(s, l, s') && l.Deliver? && Keyed(s.clients[l.c].store.table)
    requires Timed(s.Table()) && Timed(s.clients[l.c].store.table)
    ensures Kept(s.Table(), s'.Table()) && Timed(s'.Table())
  {
    TakenAsTyped(s, l, s');
  }

  /** Whatever the step, what the server has stays as it is. */
  lemma TableKept(s: System, l: Label, s': System)
    requires ServerOk(s.server) && Next(s, l, s') && Timed(s.Table())
    requires forall c :: c in s.clients ==> Keyed(s.clients[c].store.table) && Timed(s.clients[c].store.table)
    ensures Kept(s.Table(), s'.Table()) && Timed(s'.Table())
  {
    if l.Deliver? {
      DeliverKept(s, l, s');
    } else if l.ServerRestart? {
      ReloadKeepsText(s.server.store, l.names);
    } else {
      Guarantees.StoreUnchanged(s, l, s');
    }
  }

  lemma ToldTables(s: System)
    requires Inv(s) && Told(s)
    ensures ServerOk(s.server) && Timed(s.Table())
    ensures forall c :: c in s.clients ==>
      Keyed(s.clients[c].store.table) && Timed(s.clients[c].store.table) && JournalOk(s.clients[c].store)
  {
    forall c | c in s.clients
      ensures Keyed(s.clients[c].store.table) && Timed(s.clients[c].store.table) && JournalOk(s.clients[c].store)
    {
      assert ClientOk(s.clients[c], s.Table(), s.Top()) && ClientTold(s.clients[c], s.Table());
    }
  }

  // ------------------------------------------------------------------- what is queued

  lemma EntitledTells(s: System, k: ConnId, f: Frame)
    requires k in s.server.conns && Guarantees.Entitled(s, k, f) && f.MsgFrame? && Numbered(s.Table(), s.Top())
    ensures f.id in s.Table() && Tells(f, s.server.conns[k], s.Table()[f.id])
  {
    var p := s.server.conns[k];
    NameLeadsBack(s.Table()[f.id].conv, p, s.server.RoomsOf(p), f.conv);
  }

  lemma QueueOfTold(q: seq<Frame>, p: PeerId, t: map<MessageId, Message>, u: map<MessageId, Message>)
    requires QueueTold(q, p, t) && Kept(t, u)
    ensures QueueTold(q, p, u) && (q != [] ==> QueueTold(q[1..], p, u))
  {
    assert forall i :: 0 <= i < |q| && q[i].MsgFrame? ==> Tells(q[i], p, t[q[i].id]);
    if q != [] { assert forall i :: 0 <= i < |q[1..]| ==> q[1..][i] == q[i + 1]; }
  }

  lemma QueueJoins(a: seq<Frame>, b: seq<Frame>, p: PeerId, t: map<MessageId, Message>)
    requires QueueTold(a, p, t) && QueueTold(b, p, t)
    ensures QueueTold(a + b, p, t)
  {
  }

  /** Whose connection it is does not change while it is there. */
  lemma SameOwner(s: System, l: Label, s': System, k: ConnId)
    requires Next(s, l, s') && RosterOk(s.server) && k in s'.server.out && k in s.server.out
    ensures k in s.server.conns && k in s'.server.conns && s'.server.conns[k] == s.server.conns[k]
  {
    if l.Deliver? {
      DeliverKeepsConns(s.server, l.k, s.clients[l.c].self, Frame0(s.clients[l.c].store.table[l.id]), l.now);
    }
  }

  lemma DeliverKeepsConns(s: Server, k: ConnId, sender: PeerId, f: Frame, now: int)
    requires f.MsgFrame?
    ensures OnMessage(s, k, sender, f, now).conns == s.conns
  {
  }

  lemma QueueStays(s: System, l: Label, s': System, k: ConnId)
    requires RosterOk(s.server) && Numbered(s'.Table(), s'.Top()) && Next(s, l, s') && QueuesTold(s)
    requires k in s'.server.out && k in s'.server.conns && Kept(s.Table(), s'.Table())
    requires Guarantees.TellsOnlyTheEntitled(s, l, s', k)
    ensures QueueTold(s'.server.out[k], s'.server.conns[k], s'.Table())
  {
    var fs: seq<Frame> :| Guarantees.Queued(s, l, s', k, fs)
              && forall i :: 0 <= i < |fs| ==> Guarantees.Entitled(s', k, fs[i]);
    var p := s'.server.conns[k];
    forall i | 0 <= i < |fs| && fs[i].MsgFrame?
      ensures fs[i].id in s'.Table() && Tells(fs[i], p, s'.Table()[fs[i].id])
    {
      assert Guarantees.Entitled(s', k, fs[i]);
      EntitledTells(s', k, fs[i]);
    }
    assert QueueTold(fs, p, s'.Table());
    OldAndNew(s, l, s', k, fs);
  }

  lemma OldAndNew(s: System, l: Label, s': System, k: ConnId, fs: seq<Frame>)
    requires RosterOk(s.server) && Next(s, l, s') && QueuesTold(s) && k in s'.server.out && k in s'.server.conns
    requires Kept(s.Table(), s'.Table()) && Guarantees.Queued(s, l, s', k, fs)
    requires QueueTold(fs, s'.server.conns[k], s'.Table())
    ensures QueueTold(s'.server.out[k], s'.server.conns[k], s'.Table())
  {
    var p := s'.server.conns[k];
    var before := if k !in s.server.out then [] else s.server.out[k];
    if k in s.server.out {
      SameOwner(s, l, s', k);
      QueueOfTold(before, p, s.Table(), s'.Table());
    }
    var left := if l.Receive? && l.c in s.links && s.links[l.c] == k && before != [] then before[1..] else before;
    QueueJoins(left, fs, p, s'.Table());
  }

  // ------------------------------------------------------------------- what is held

  lemma AppendLands(s: Store, m: Message, now: int, id: MessageId)
    requires m.sent != 0 && |m.body| <= MAX_BODY_RUNES && id in AppendMsg(s, m, now).0.table
    ensures var x := AppendMsg(s, m, now).0.table[id];
      (id in s.table && SameText(x, s.table[id])) || (id == m.id && SameText(x, m))
  {
  }

  lemma ConfirmLands(s: Store, id: MessageId, num: nat, i: MessageId)
    requires i in Confirm(s, id, num).0.table
    ensures i in s.table && SameText(Confirm(s, id, num).0.table[i], s.table[i])
  {
  }

  /** What a relayed message makes of a cache. */
  lemma MessageLands(cl: Client, f: Frame, now: int, id: MessageId)
    requires f.MsgFrame? && f.sent != 0 && id in ApplyMessage(cl, f, now).store.table
    ensures var m := ApplyMessage(cl, f, now).store.table[id];
      || (id in cl.store.table && SameText(m, cl.store.table[id]))
      || (id == f.id && m.conv == f.conv && m.body == f.body && m.sent == f.sent && m.transfer == f.transfer
          && m.system == f.system)
  {
    match MessageFromFrame(f, f.from, now)
    case None =>
    case Some(m) =>
      if f.from == "" {
      } else if f.from != cl.self {
        AppendLands(cl.store, m, now, id);
      } else {
        OwnLands(cl.store, m, now, id);
      }
  }

  lemma OwnLands(s: Store, m: Message, now: int, id: MessageId)
    requires m.sent != 0 && |m.body| <= MAX_BODY_RUNES
    ensures var st := Confirm(s, m.id, m.num).0;
      && (id in st.table ==> id in s.table && SameText(st.table[id], s.table[id]))
      && (id in AppendMsg(st, m.(mine := true, read := true, state := Delivered), now).0.table ==>
            var x := AppendMsg(st, m.(mine := true, read := true, state := Delivered), now).0.table[id];
            (id in s.table && SameText(x, s.table[id])) || (id == m.id && SameText(x, m)))
  {
    var st, own := Confirm(s, m.id, m.num).0, m.(mine := true, read := true, state := Delivered);
    if id in st.table { ConfirmLands(s, m.id, m.num, id); }
    if id in AppendMsg(st, own, now).0.table { AppendLands(st, own, now, id); }
  }

  lemma FrameKeepsTold(cl: Client, f: Frame, now: int, t: map<MessageId, Message>)
    requires ClientTold(cl, t) && Timed(t)
    requires f.MsgFrame? ==> f.id in t && !t[f.id].system && Tells(f, cl.self, t[f.id])
    ensures ClientTold(ApplyFrame(cl, f, now), t)
  {
    var cl' := ApplyFrame(cl, f, now);
    if f.MsgFrame? {
      forall id | id in cl'.store.table
        ensures !cl'.store.table[id].system ==> cl'.store.table[id].sent != 0
        ensures id in t ==> Agrees(cl'.store.table[id], cl.self, t[id])
      {
        MessageLands(cl, f, now, id);
      }
    }
  }

  lemma ReceiveKeepsTold(s: System, l: Label, s': System)
    requires Inv(s) && Next(s, l, s') && l.Receive? && Told(s)
    ensures ClientTold(s'.clients[l.c], s.Table())
  {
    var k := s.links[l.c];
    var q := s.server.out[k];
    assert QueueTold(q, s.server.conns[k], s.Table()) && s.server.conns[k] == s.clients[l.c].self;
    assert ClientTold(s.clients[l.c], s.Table());
    FrameKeepsTold(s.clients[l.c], q[0], l.now, s.Table());
  }

  lemma RestartKeepsTold(s: System, l: Label, s': System)
    requires Next(s, l, s') && l.ClientRestart? && JournalOk(s.clients[l.c].store)
    requires ClientTold(s.clients[l.c], s.Table())
    ensures ClientTold(s'.clients[l.c], s.Table())
  {
    ReloadKeepsText(s.clients[l.c].store, l.names);
  }

  lemma CacheKeepsTold(s: System, l: Label, s': System)
    requires Next(s, l, s') && Marks.CacheStep(l) && Keyed(s.clients[l.c].store.table)
    requires ClientTold(s.clients[l.c], s.Table())
    ensures ClientTold(s'.clients[l.c], s.Table())
  {
  }

  lemma OwnStepKeepsTold(s: System, l: Label, s': System)
    requires Inv(s) && Next(s, l, s') && Told(s) && !l.ServerRestart?
    requires Marks.CacheStep(l) || l.Receive? || l.ClientRestart?
    ensures l.c in s'.clients && ClientTold(s'.clients[l.c], s.Table())
  {
    Marks.SameClients(s, l, s');
    ToldTables(s);
    assert ClientTold(s.clients[l.c], s.Table());
    if l.Receive? {
      ReceiveKeepsTold(s, l, s');
    } else if l.ClientRestart? {
      RestartKeepsTold(s, l, s');
    } else {
      CacheKeepsTold(s, l, s');
    }
  }

  /** The server's table has moved on under a client that has not. */
  lemma DeliverMoves(s: System, l: Label, s': System, c: ClientId)
    requires RosterOk(s.server) && PrivateOk(s) && Next(s, l, s') && l.Deliver? && c in s.clients
    requires Keyed(s.clients[l.c].store.table) && Timed(s.clients[l.c].store.table)
    requires CopiesTold(s.clients[c], s.Table())
    ensures CopiesTold(s.clients[c], s'.Table())
  {
    TakenAsTyped(s, l, s');
    assert c != l.c && l.id !in s.Table() ==> l.id !in s.clients[c].store.table;
  }

  lemma TableMoves(s: System, l: Label, s': System, c: ClientId)
    requires Inv(s) && Next(s, l, s') && Told(s) && c in s.clients
    ensures CopiesTold(s.clients[c], s'.Table())
  {
    ToldTables(s);
    assert ClientTold(s.clients[c], s.Table());
    if l.Deliver? {
      DeliverMoves(s, l, s', c);
    } else if l.ServerRestart? {
      ReloadKeepsText(s.server.store, l.names);
    } else {
      Guarantees.StoreUnchanged(s, l, s');
    }
  }

  lemma OthersStay(s: System, l: Label, s': System, c: ClientId)
    requires Inv(s) && Next(s, l, s') && Told(s) && c in s.clients
    requires l.ServerRestart? || l.c != c || !(Marks.CacheStep(l) || l.Receive? || l.ClientRestart?)
    ensures c in s'.clients && ClientTold(s'.clients[c], s'.Table())
  {
    assert ClientTold(s.clients[c], s.Table());
    Marks.OthersKeep(s, l, s', c);
    TableMoves(s, l, s', c);
  }

  lemma ClientStays(s: System, l: Label, s': System, c: ClientId)
    requires Inv(s) && Next(s, l, s') && Told(s) && c in s.clients
    ensures c in s'.clients && ClientTold(s'.clients[c], s'.Table())
  {
    if l.ServerRestart? || l.c != c || !(Marks.CacheStep(l) || l.Receive? || l.ClientRestart?) {
      OthersStay(s, l, s', c);
    } else {
      OwnStepKeepsTold(s, l, s');
      Guarantees.StoreUnchanged(s, l, s');
    }
  }

  // --------------------------------------------------------------------------- runs

  lemma StepTold(s: System, l: Label, s': System)
    requires Inv(s) && Inv(s') && Next(s, l, s') && Told(s)
    ensures Told(s')
  {
    ToldTables(s);
    TableKept(s, l, s');
    QueuesStay(s, l, s');
    ClientsStay(s, l, s');
  }

  lemma QueuesStay(s: System, l: Label, s': System)
    requires Inv(s) && ServerOk(s'.server) && Next(s, l, s') && QueuesTold(s) && Kept(s.Table(), s'.Table())
    ensures QueuesTold(s')
  {
    forall k | k in s'.server.out && k in s'.server.conns
      ensures QueueTold(s'.server.out[k], s'.server.conns[k], s'.Table())
    {
      Guarantees.NextTells(s, l, s', k);
      QueueStays(s, l, s', k);
    }
  }

  lemma ClientsStay(s: System, l: Label, s': System)
    requires Inv(s) && Next(s, l, s') && Told(s)
    ensures ClientsTold(s')
  {
    Marks.SameClients(s, l, s');
    forall c | c in s'.clients ensures ClientTold(s'.clients[c], s'.Table()) { ClientStays(s, l, s', c); }
  }

  lemma ToldOn(states: seq<System>, labels: seq<Label>, n: nat)
    requires Run(states, labels) && n < |labels| && Told(states[n])
    ensures Told(states[n + 1])
  {
    AlwaysInv(states, labels);
    assert Inv(states[n]) && Inv(states[n + 1]) && Next(states[n], labels[n], states[n + 1]);
    StepTold(states[n], labels[n], states[n + 1]);
  }

  lemma {:induction false} AlwaysTold(states: seq<System>, labels: seq<Label>, n: nat)
    requires Run(states, labels) && n < |states|
    ensures Told(states[n])
  {
    if n > 0 {
      AlwaysTold(states, labels, n - 1);
      ToldOn(states, labels, n - 1);
    }
  }

  /** In every reachable state a copy of a message that the server has filed, whoever has it and
      however it came there, is from the same person, says the same, was written at the same time,
      and stands in the conversation the server files it under. */
  lemma EverybodyReadsTheSame(states: seq<System>, labels: seq<Label>, n: nat, c: ClientId, id: MessageId)
    requires Run(states, labels) && n < |states| && c in states[0].clients
    ensures c in states[n].clients
    ensures var cl, t := states[n].clients[c], states[n].Table();
      id in cl.store.table && id in t ==>
        cl.store.table[id].from == t[id].from && Agrees(cl.store.table[id], cl.self, t[id])
  {
    AlwaysTold(states, labels, n);
    Marks.AlwaysMarked(states, labels, n, c);
    assert ClientTold(states[n].clients[c], states[n].Table());
  }

  lemma TextStays(states: seq<System>, labels: seq<Label>, n: nat, id: MessageId)
    requires Run(states, labels) && n < |labels| && id in states[n].Table()
    ensures id in states[n + 1].Table() && SameText(states[n].Table()[id], states[n + 1].Table()[id])
  {
    AlwaysTold(states, labels, n);
    AlwaysInv(states, labels);
    assert Inv(states[n]) && Next(states[n], labels[n], states[n + 1]);
    ToldTables(states[n]);
    TableKept(states[n], labels[n], states[n + 1]);
  }

  /** And what the server has filed is never lost and never says anything else. */
  lemma {:induction false} TextIsForEver(states: seq<System>, labels: seq<Label>, i: nat, j: nat, id: MessageId)
    requires Run(states, labels) && i <= j < |states| && id in states[i].Table()
    ensures id in states[j].Table() && SameText(states[i].Table()[id], states[j].Table()[id])
  {
    if i < j {
      TextIsForEver(states, labels, i, j - 1, id);
      TextStays(states, labels, j - 1, id);
    }
  }
}
