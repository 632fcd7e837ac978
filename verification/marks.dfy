/** Whose message a copy is, and whether it has been read (chatclientd/link.go, onMessage; chat/store.go,
    Append, MarkRead and loadLog). */
module Marks {
  import opened Names
  import opened Messages
  import opened StoreModel
  import opened Journal
  import opened ServerModel
  import opened ClientModel
  import opened Replication
  import Guarantees

  // ------------------------------------------------------------------- one frame

  /** Our own message comes back, from this machine or another: it ends up numbered and delivered,
      ours and read, and nothing else changes, not even an unread count. */
  lemma OwnFrameLands(cl: Client, f: Frame, now: int)
    requires f.MsgFrame? && f.from == cl.self != "" && f.id != "" && f.conv != "" && |f.body| <= MAX_BODY_RUNES
    ensures var st, st' := cl.store, ApplyMessage(cl, f, now).store;
      && f.id in st'.table && st'.unread == st.unread
      && st'.table == st.table[f.id := st'.table[f.id]]
      && st'.table[f.id] ==
           (if f.id in st.table then st.table[f.id].(num := f.num, state := Delivered)
            else Filed(Message(f.id, f.conv, cl.self, f.body, f.sent, f.num, true, Delivered, true, f.transfer,
                               f.system), now))
  {
  }

  /** Somebody else's is filed once, as theirs and not read. */
  lemma OtherFrameLands(cl: Client, f: Frame, now: int)
    requires f.MsgFrame? && f.from != cl.self && f.from != "" && f.id != "" && f.conv != ""
      && |f.body| <= MAX_BODY_RUNES
    ensures var st, st' := cl.store, ApplyMessage(cl, f, now).store;
      && (f.id in st.table ==> st' == st)
      && (f.id !in st.table ==>
            && st'.table == st.table[f.id :=
                 Filed(Message(f.id, f.conv, f.from, f.body, f.sent, f.num, false, Unset, false, f.transfer,
                               f.system), now)]
            && st'.Unread(f.conv) == st.Unread(f.conv) + (if f.system then 0 else 1)
            && forall c :: c != f.conv ==> st'.Unread(c) == st.Unread(c))
  {
  }

  /** A number that comes back fixes our own copy in its place, and it waits no longer. */
  lemma NumberLands(cl: Client, id: MessageId, num: nat, now: int)
    ensures var cl' := ApplyFrame(cl, SeqFrame(id, num), now);
      && cl'.cursor == Max(cl.cursor, num) && cl'.store.unread == cl.store.unread
      && cl'.store.table ==
           if id in cl.store.table then cl.store.table[id := cl.store.table[id].(num := num, state := Delivered)]
           else cl.store.table
  {
  }

  /** Synced leaves the cache alone, and puts the cursor it leads to on disk. */
  lemma SyncedLands(cl: Client, n: nat, room: string, now: int)
    ensures var cl' := ApplyFrame(cl, SyncedFrame(n, room), now);
      cl'.store == cl.store && cl'.cursor == cl'.saved == Max(cl.cursor, n)
  {
  }

  // --------------------------------------------------------------- what always holds

  /** It is ours exactly when it is from us, and what is ours is read. */
  predicate MarkOk(m: Message, self: PeerId) {
    (m.mine <==> m.from == self) && (m.mine ==> m.read) && (!m.mine ==> !m.system)
  }

  /** On disk only our own is read already when it is filed. */
  predicate LineMarked(l: LogLine, self: PeerId) {
    l.MsgLine? ==> MarkOk(l.m, self) && (l.m.read ==> l.m.mine)
  }

  ghost predicate TableMarked(t: map<MessageId, Message>, self: PeerId) { forall id :: id in t ==> MarkOk(t[id], self) }

  ghost predicate LinesMarked(s: Store, self: PeerId) {
    forall c, l :: l in s.File(c).lines ==> LineMarked(l, self)
  }

  ghost predicate StoreMarked(s: Store, self: PeerId) {
    TableMarked(s.table, self) && LinesMarked(s, self) && UnreadOk(s)
  }

  /** A copy names the sender the server names. */
  ghost predicate SameSender(cl: Client, t: map<MessageId, Message>) {
    forall id :: id in cl.store.table && id in t ==> cl.store.table[id].from == t[id].from
  }

  ghost predicate ClientMarked(cl: Client, t: map<MessageId, Message>) {
    StoreMarked(cl.store, cl.self) && SameSender(cl, t)
  }

  ghost predicate AllMarked(s: System) { forall c :: c in s.clients ==> ClientMarked(s.clients[c], s.Table()) }

  // ------------------------------------------------------------------- operations

  lemma LogKeepsMarked(s: Store, c: ConvId, l: LogLine, self: PeerId)
    requires LinesMarked(s, self) && LineMarked(l, self)
    ensures LinesMarked(s.Log(c, l), self)
  {
    forall d, k | k in s.Log(c, l).File(d).lines ensures LineMarked(k, self) {
      if k !in s.File(d).lines { assert k == l || k == Garbled; }
    }
  }

  lemma AppendKeepsMarked(s: Store, m: Message, now: int, self: PeerId)
    requires StoreMarked(s, self) && TableOk(s.table, s.nextSeq) && MarkOk(m, self) && (m.read ==> m.mine)
    ensures StoreMarked(AppendMsg(s, m, now).0, self)
  {
    AppendKeepsStoreOk(s, m, now);
    if AppendMsg(s, m, now).1 == Added {
      LogKeepsMarked(s, m.conv, MsgLine(Filed(m, now)), self);
      assert forall d :: AppendMsg(s, m, now).0.File(d) == s.Log(m.conv, MsgLine(Filed(m, now))).File(d);
    }
  }

  lemma ConfirmKeepsMarked(s: Store, id: MessageId, num: nat, self: PeerId)
    requires StoreMarked(s, self) && TableOk(s.table, s.nextSeq)
    ensures StoreMarked(Confirm(s, id, num).0, self)
  {
    ConfirmKeepsStoreOk(s, id, num);
    if id in s.table {
      LogKeepsMarked(s, s.table[id].conv, NumLine(id, num, Delivered), self);
      assert forall d :: Confirm(s, id, num).0.File(d) == s.Log(s.table[id].conv, NumLine(id, num, Delivered)).File(d);
    } else {
      assert forall d :: Confirm(s, id, num).0.File(d) == s.File(d);
    }
  }

  lemma SetStateKeepsMarked(s: Store, id: MessageId, st: Delivery, self: PeerId)
    requires StoreMarked(s, self) && TableOk(s.table, s.nextSeq)
    ensures StoreMarked(SetState(s, id, st).0, self)
  {
    SetStateKeepsStoreOk(s, id, st);
    if id in s.table {
      LogKeepsMarked(s, s.table[id].conv, StateLine(id, st), self);
      assert forall d :: SetState(s, id, st).0.File(d) == s.Log(s.table[id].conv, StateLine(id, st)).File(d);
    }
  }

  lemma MarkReadKeepsMarked(s: Store, c: ConvId, self: PeerId)
    requires StoreMarked(s, self) && TableOk(s.table, s.nextSeq)
    ensures StoreMarked(MarkRead(s, c).0, self)
  {
    MarkReadKeepsStoreOk(s, c);
    LogKeepsMarked(s, c, ReadLine, self);
    assert forall d :: MarkRead(s, c).0.File(d) == if s.Unread(c) > 0 then s.Log(c, ReadLine).File(d) else s.File(d);
  }

  // --------------------------------------------------------------------- a restart

  lemma {:induction false} FromALine(ls: seq<LogLine>, id: MessageId)
    requires id in MsgTable(ls)
    ensures MsgLine(MsgTable(ls)[id]) in ls
  {
    if Last(ls).MsgLine? && Last(ls).m.id == id && id != "" {
      assert Last(ls) in ls;
    } else {
      FromALine(Init(ls), id);
      assert forall l :: l in Init(ls) ==> l in ls;
    }
  }

  lemma {:induction false} LoadDirUnread(b: Store, names: seq<ConvId>, c: ConvId)
    requires b.unread == map[] && forall i, j :: 0 <= i < j < |names| ==> names[i] != names[j]
    ensures LoadDir(b, names).Unread(c) == if c in names then LoadedUnread(b.File(c).Read()) else 0
  {
    if names != [] {
      var init, last := Init(names), Last(names);
      LoadDirUnread(b, init, c);
      LoadDirUnread(b, init, last);
      assert names == init + [last] && last !in init;
      OneFileUnread(LoadDir(b, init), last, b.File(last).Read(), c);
    }
  }

  lemma OneFileUnread(r: Store, d: ConvId, ls: seq<LogLine>, c: ConvId)
    requires r.Unread(d) == 0
    ensures LoadFile(r, d, ls).Unread(c) == if c == d then LoadedUnread(ls) else r.Unread(c)
  {
    if MsgTable(ls) == map[] { assert LoadedUnreadIds(ls) == {}; }
  }

  /** After a restart the counts are again those of what is in memory. */
  lemma ReloadKeepsUnread(s: Store, names: seq<ConvId>, self: PeerId, c: ConvId)
    requires JournalOk(s) && LinesMarked(s, self) && Lists(names, s)
    ensures Reload(s, names).Unread(c) == |UnreadIds(Reload(s, names).table, c)|
  {
    var b, r, ls := Store(s.persist, map[], map[], 0, s.files), Reload(s, names), s.File(c).lines;
    ReloadReads(s, names);
    LoadDirUnread(b, names, c);
    assert FileAgrees(s, c) && b.File(c) == s.File(c);
    assert c !in names ==> ls == [] && LoadedUnread(ls) == 0 by { if c !in names { assert LoadedUnreadIds([]) == {}; } }
    forall id ensures id in UnreadIds(r.table, c) <==> !HasRead(ls) && id in LoadedUnreadIds(ls) {
      ReloadedCounts(s, names, self, c, id);
    }
    assert UnreadIds(r.table, c) == if HasRead(ls) then {} else LoadedUnreadIds(ls);
  }

  lemma ReloadReads(s: Store, names: seq<ConvId>)
    requires JournalOk(s) && Lists(names, s)
    ensures var r := Reload(s, names);
      && r.files == s.files && r.persist == s.persist
      && (forall id :: id in r.table ==>
            HasMsg(s.File(r.table[id].conv).lines, id) && r.table[id] == LoadedMsg(s.File(r.table[id].conv).lines, id))
      && (forall c, id :: HasMsg(s.File(c).lines, id) ==> id in r.table && r.table[id].conv == c)
  {
    JournalOkFiles(s);
    FilesOkLoadable(s);
    var b := Store(s.persist, map[], map[], 0, s.files);
    assert forall c :: b.File(c) == s.File(c);
    LoadDirReads(b, s, names);
    forall c, id | HasMsg(s.File(c).lines, id) ensures id in Reload(s, names).table
      && Reload(s, names).table[id].conv == c {
      assert c in names;
      FileOkKeys(s.File(c).lines, c);
      assert HasMsg(s.File(c).Read(), id);
    }
  }

  lemma ReloadedCounts(s: Store, names: seq<ConvId>, self: PeerId, c: ConvId, id: MessageId)
    requires JournalOk(s) && LinesMarked(s, self) && Lists(names, s)
    ensures var r, ls := Reload(s, names), s.File(c).lines;
      id in UnreadIds(r.table, c) <==> !HasRead(ls) && id in LoadedUnreadIds(ls)
  {
    var r, ls := Reload(s, names), s.File(c).lines;
    ReloadReads(s, names);
    if HasMsg(ls, id) {
      FromALine(ls, id);
      assert LineMarked(MsgLine(MsgTable(ls)[id]), self);
    }
  }

  /** A restart brings every message back as it was, but that what was on its way is queued again,
      and what a read line covers is read. */
  lemma RestartSettles(s: Store, names: seq<ConvId>, id: MessageId)
    requires JournalOk(s) && Lists(names, s) && id in s.table
    ensures id in Reload(s, names).table
    ensures var m, r := s.table[id], Reload(s, names).table[id];
      && r == m.(state := if m.mine && m.state == Sending then Queued else m.state, read := r.read)
      && (HasRead(s.File(m.conv).lines) ==> r.read)
  {
    var m := s.table[id];
    ReloadReads(s, names);
    assert FileAgrees(s, m.conv);
    assert HasMsg(s.File(m.conv).lines, id);
  }

  lemma ReloadKeepsMarked(s: Store, names: seq<ConvId>, self: PeerId)
    requires JournalOk(s) && StoreMarked(s, self) && Lists(names, s)
    ensures StoreMarked(Reload(s, names), self)
  {
    var r := Reload(s, names);
    ReloadReads(s, names);
    assert forall c :: r.File(c) == s.File(c);
    forall id | id in r.table ensures MarkOk(r.table[id], self) {
      var ls := s.File(r.table[id].conv).lines;
      FromALine(ls, id);
      assert LineMarked(MsgLine(MsgTable(ls)[id]), self);
    }
    forall c ensures r.Unread(c) == |UnreadIds(r.table, c)| { ReloadKeepsUnread(s, names, self, c); }
  }

  // ------------------------------------------------------------------- one client's step

  lemma FrameKeepsMarked(cl: Client, f: Frame, now: int, t: map<MessageId, Message>, top: nat)
    requires ClientOk(cl, t, top) && FrameOk(f, t, top) && Numbered(t, top) && StoreMarked(cl.store, cl.self)
    ensures StoreMarked(ApplyFrame(cl, f, now).store, cl.self)
  {
    match f
    case MsgFrame(_, _, _, _, _, _, _, _) => MessageKeepsMarked(cl, f, now);
    case SeqFrame(id, num) => ConfirmKeepsMarked(cl.store, id, num, cl.self);
    case _ =>
  }

  lemma MessageKeepsMarked(cl: Client, f: Frame, now: int)
    requires f.MsgFrame? && !f.system && TableOk(cl.store.table, cl.store.nextSeq) && StoreMarked(cl.store, cl.self)
    ensures StoreMarked(ApplyMessage(cl, f, now).store, cl.self)
  {
    match MessageFromFrame(f, f.from, now)
    case None =>
    case Some(m) =>
      if f.from != cl.self {
        AppendKeepsMarked(cl.store, m, now, cl.self);
      } else {
        OwnKeepsMarked(cl.store, m, now, cl.self);
      }
  }

  lemma OwnKeepsMarked(s: Store, m: Message, now: int, self: PeerId)
    requires StoreMarked(s, self) && TableOk(s.table, s.nextSeq) && m.from == self
    ensures StoreMarked(Confirm(s, m.id, m.num).0, self)
    ensures m.id !in s.table ==>
      StoreMarked(AppendMsg(Confirm(s, m.id, m.num).0, m.(mine := true, read := true, state := Delivered), now).0, self)
  {
    ConfirmKeepsMarked(s, m.id, m.num, self);
    if m.id !in s.table {
      AppendKeepsMarked(Confirm(s, m.id, m.num).0, m.(mine := true, read := true, state := Delivered), now, self);
    }
  }

  ghost predicate SendersKept(t: map<MessageId, Message>, u: map<MessageId, Message>, id: MessageId, from: PeerId) {
    forall i :: i in u ==> (i in t && u[i].from == t[i].from) || (i == id && u[i].from == from)
  }

  lemma AppendKeepsSenders(s: Store, m: Message, now: int)
    ensures SendersKept(s.table, AppendMsg(s, m, now).0.table, m.id, m.from)
  {
  }

  lemma ConfirmKeepsSenders(s: Store, id: MessageId, num: nat, from: PeerId)
    ensures SendersKept(s.table, Confirm(s, id, num).0.table, id, from)
  {
  }

  lemma MessageKeepsSenders(cl: Client, f: Frame, now: int)
    requires f.MsgFrame?
    ensures SendersKept(cl.store.table, ApplyMessage(cl, f, now).store.table, f.id, f.from)
  {
    match MessageFromFrame(f, f.from, now)
    case None =>
    case Some(m) =>
      AppendKeepsSenders(cl.store, m, now);
      ConfirmKeepsSenders(cl.store, m.id, m.num, f.from);
      AppendKeepsSenders(Confirm(cl.store, m.id, m.num).0, m.(mine := true, read := true, state := Delivered), now);
  }

  lemma FrameKeepsSender(cl: Client, f: Frame, now: int, t: map<MessageId, Message>, top: nat)
    requires FrameOk(f, t, top) && SameSender(cl, t)
    ensures SameSender(ApplyFrame(cl, f, now), t)
  {
    match f
    case MsgFrame(_, _, _, _, _, _, _, _) => MessageKeepsSenders(cl, f, now);
    case SeqFrame(id, num) =>
      ConfirmKeepsSenders(cl.store, id, num, if id in cl.store.table then cl.store.table[id].from else "");
    case _ =>
  }

  predicate CacheStep(l: Label) { l.Compose? || l.LocalNote? || l.SetDelivery? || l.LocalRead? }

  lemma CacheStepKeepsMarked(s: System, l: Label, s': System)
    requires Next(s, l, s') && CacheStep(l) && ClientOk(s.clients[l.c], s.Table(), s.Top())
    requires ClientMarked(s.clients[l.c], s.Table())
    ensures l.c in s'.clients && ClientMarked(s'.clients[l.c], s.Table())
  {
    var cl := s.clients[l.c];
    match l
    case Compose(_, m) => AppendKeepsMarked(cl.store, m, 0, cl.self);
    case LocalNote(_, m) => AppendKeepsMarked(cl.store, m, 0, cl.self);
    case SetDelivery(_, id, st) => SetStateKeepsMarked(cl.store, id, st, cl.self);
    case LocalRead(_, conv) => MarkReadKeepsMarked(cl.store, conv, cl.self);
  }

  lemma ReceiveKeepsMarked(s: System, l: Label, s': System)
    requires Inv(s) && Next(s, l, s') && l.Receive? && ClientMarked(s.clients[l.c], s.Table())
    ensures l.c in s'.clients && ClientMarked(s'.clients[l.c], s.Table())
  {
    var q := s.server.out[s.links[l.c]];
    assert QueueOk(q, s.Table(), s.Top()) && ClientOk(s.clients[l.c], s.Table(), s.Top());
    FrameKeepsMarked(s.clients[l.c], q[0], l.now, s.Table(), s.Top());
    FrameKeepsSender(s.clients[l.c], q[0], l.now, s.Table(), s.Top());
    ApplyKeepsClient(s.clients[l.c], q[0], l.now, s.Table(), s.Top());
  }

  lemma RestartKeepsMarked(s: System, l: Label, s': System)
    requires Next(s, l, s') && l.ClientRestart? && ClientOk(s.clients[l.c], s.Table(), s.Top())
    requires ClientMarked(s.clients[l.c], s.Table())
    ensures l.c in s'.clients && ClientMarked(s'.clients[l.c], s.Table())
  {
    var cl := s.clients[l.c];
    ReloadKeepsMarked(cl.store, l.names, cl.self);
    RestartBringsEverythingBack(cl.store, l.names);
    var r := Reload(cl.store, l.names);
    forall id | id in r.table ensures r.table[id].from == cl.store.table[id].from {
      assert Durable(cl.store.table[id]) == Durable(r.table[id]);
    }
  }

  // -------------------------------------------------------------------- the system's step

  /** The others, and the rest of the steps, leave the caches alone. */
  lemma OthersKeep(s: System, l: Label, s': System, d: ClientId)
    requires Next(s, l, s') && d in s.clients
    requires l.ServerRestart? || l.c != d || !(CacheStep(l) || l.Receive? || l.ClientRestart?)
    ensures d in s'.clients && s'.clients[d].store == s.clients[d].store && s'.clients[d].self == s.clients[d].self
  {
  }

  lemma SameClients(s: System, l: Label, s': System)
    requires Next(s, l, s')
    ensures s'.clients.Keys == s.clients.Keys
  {
  }

  /** What the server has of a message is from whom it was, and what it takes on is from whom the
      one client that has it says. */
  lemma SendersStay(s: System, l: Label, s': System, d: ClientId)
    requires Inv(s) && Next(s, l, s') && d in s.clients && ClientMarked(s.clients[d], s.Table())
    ensures SameSender(s.clients[d], s'.Table())
  {
    if l.Deliver? {
      DeliverKeepsSenders(s, l, s', d);
    } else if l.ServerRestart? {
      assert ServerOk(s.server);
      ReloadedServer(s.server.store, l.names);
    } else {
      Guarantees.StoreUnchanged(s, l, s');
    }
  }

  lemma DeliverKeepsSenders(s: System, l: Label, s': System, d: ClientId)
    requires Inv(s) && Next(s, l, s') && l.Deliver? && d in s.clients && ClientMarked(s.clients[d], s.Table())
    ensures SameSender(s.clients[d], s'.Table())
  {
    assert ClientOk(s.clients[l.c], s.Table(), s.Top());
    DeliveredTable(s, l, s');
    assert d != l.c && l.id !in s.Table() ==> l.id !in s.clients[d].store.table;
  }

  lemma DeliveredTable(s: System, l: Label, s': System)
    requires RosterOk(s.server) && Next(s, l, s') && l.Deliver? && Keyed(s.clients[l.c].store.table)
    ensures s'.Table() == s.Table() ||
      (l.id !in s.Table() && l.id in s'.Table() && s'.Table() == s.Table()[l.id := s'.Table()[l.id]]
       && s'.Table()[l.id].from == s.clients[l.c].self)
  {
    var cl := s.clients[l.c];
    var f := Frame0(cl.store.table[l.id]);
    assert s'.server == OnMessage(s.server, l.k, cl.self, f, l.now);
    if Accepts(s.server, cl.self, f) {
      AcceptEffect(s.server, l.k, cl.self, f, l.now);
      FiledAsSent(s.server, cl.self, f, l.now);
    } else {
      var reply := RefuseEffect(s.server, l.k, cl.self, f, l.now);
    }
  }

  lemma StepKeepsMarks(s: System, l: Label, s': System, d: ClientId)
    requires Inv(s) && Next(s, l, s') && d in s.clients && ClientMarked(s.clients[d], s.Table())
    ensures d in s'.clients && ClientMarked(s'.clients[d], s'.Table())
  {
    SendersStay(s, l, s', d);
    if l.ServerRestart? || l.c != d || !(CacheStep(l) || l.Receive? || l.ClientRestart?) {
      OthersKeep(s, l, s', d);
    } else {
      OwnStepKeepsMarked(s, l, s');
    }
  }

  lemma OwnStepKeepsMarked(s: System, l: Label, s': System)
    requires Inv(s) && Next(s, l, s') && (CacheStep(l) || l.Receive? || l.ClientRestart?)
    requires ClientMarked(s.clients[l.c], s.Table())
    ensures l.c in s'.clients && ClientMarked(s'.clients[l.c], s'.Table())
  {
    Guarantees.StoreUnchanged(s, l, s');
    assert ClientOk(s.clients[l.c], s.Table(), s.Top());
    if l.Receive? { ReceiveKeepsMarked(s, l, s'); }
    else if l.ClientRestart? { RestartKeepsMarked(s, l, s'); }
    else { CacheStepKeepsMarked(s, l, s'); }
  }

  lemma {:induction false} AlwaysMarked(states: seq<System>, labels: seq<Label>, n: nat, d: ClientId)
    requires Run(states, labels) && n < |states| && d in states[0].clients
    ensures d in states[n].clients && ClientMarked(states[n].clients[d], states[n].Table())
  {
    if n == 0 {
      NothingMarked(states[0], d);
    } else {
      AlwaysMarked(states, labels, n - 1, d);
      StepMarked(states, labels, n - 1, d);
    }
  }

  lemma NothingMarked(s: System, d: ClientId)
    requires Start(s) && d in s.clients
    ensures ClientMarked(s.clients[d], s.Table())
  {
    assert forall c :: UnreadIds(Empty(true).table, c) == {};
  }

  lemma StepMarked(states: seq<System>, labels: seq<Label>, n: nat, d: ClientId)
    requires Run(states, labels) && n < |labels|
    requires d in states[n].clients && ClientMarked(states[n].clients[d], states[n].Table())
    ensures d in states[n + 1].clients && ClientMarked(states[n + 1].clients[d], states[n + 1].Table())
  {
    AlwaysInv(states, labels);
    assert Inv(states[n]) && Next(states[n], labels[n], states[n + 1]);
    StepKeepsMarks(states[n], labels[n], states[n + 1], d);
  }

  // --------------------------------------------------------------------- what follows

  /** In every reachable state a copy of a message of the server's is marked as ours exactly when it
      is from us, on whatever machine we wrote it, and then it is read and counts nowhere. */
  lemma OwnExactlyWhen(states: seq<System>, labels: seq<Label>, n: nat, d: ClientId, id: MessageId)
    requires Run(states, labels) && n < |states| && d in states[0].clients
    ensures d in states[n].clients
    ensures var cl, t := states[n].clients[d], states[n].Table();
      id in cl.store.table && id in t ==>
        var m := cl.store.table[id];
        && (m.mine <==> t[id].from == cl.self)
        && (t[id].from == cl.self ==> m.read && !Counts(m))
  {
    AlwaysMarked(states, labels, n, d);
    var cl := states[n].clients[d];
    assert id in cl.store.table ==> MarkOk(cl.store.table[id], cl.self);
  }

  /** And the unread count of a conversation is the number of messages in it that are from others
      and have not been read. */
  lemma UnreadIsOthers(states: seq<System>, labels: seq<Label>, n: nat, d: ClientId, c: ConvId)
    requires Run(states, labels) && n < |states| && d in states[0].clients
    ensures d in states[n].clients
    ensures var cl := states[n].clients[d];
      cl.store.Unread(c) ==
        |set id | id in cl.store.table && cl.store.table[id].conv == c
                  && cl.store.table[id].from != cl.self && !cl.store.table[id].read|
  {
    AlwaysMarked(states, labels, n, d);
    var cl := states[n].clients[d];
    assert UnreadIds(cl.store.table, c) ==
      set id | id in cl.store.table && cl.store.table[id].conv == c
               && cl.store.table[id].from != cl.self && !cl.store.table[id].read by {
      assert forall id :: id in cl.store.table ==> MarkOk(cl.store.table[id], cl.self);
    }
  }
}
