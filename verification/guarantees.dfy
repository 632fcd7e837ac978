/** What the replicated conversation is for: one number per message for ever, the same order on
    every machine, a cursor that never claims more than the client holds, and nothing sent to
    anybody who may not see it. */
module Guarantees {
  import opened Wrappers
  import opened Names
  import opened Messages
  import opened StoreModel
  import opened Journal
  import opened ServerModel
  import opened Replication

  // ------------------------------------------------------ exactly-once sequencing

  /** One frame from one connection; nothing is assumed about who sends what. */
  datatype Input = Input(k: ConnId, sender: PeerId, f: Frame, now: int)

  function Feed(s: Server, ins: seq<Input>): Server
    requires forall i :: 0 <= i < |ins| ==> ins[i].f.MsgFrame?
  {
    if ins == [] then s
    else
      var i := ins[|ins| - 1];
      OnMessage(Feed(s, ins[..|ins| - 1]), i.k, i.sender, i.f, i.now)
  }

  ghost predicate OneNumberEach(t: map<MessageId, Message>, top: nat) {
    && (forall id :: id in t ==> 1 <= t[id].num <= top)
    && (forall i, j :: i in t && j in t && t[i].num == t[j].num ==> i == j)
  }

  /** u extends t by messages numbered after everything in t, one number each, none skipped. */
  ghost predicate Extends(t: map<MessageId, Message>, top: nat, u: map<MessageId, Message>, top': nat) {
    && (forall id :: id in t ==> id in u && u[id] == t[id])
    && (forall id :: id in u && id !in t ==> u[id].num > top)
    && top' - top == |u| - |t|
  }

  /** A frame stores nothing, or one new message with the next number. */
  lemma OnMessageFiles(s: Server, k: ConnId, sender: PeerId, f: Frame, now: int)
    requires f.MsgFrame?
    ensures var st, st' := s.store, OnMessage(s, k, sender, f, now).store;
      || st' == st
      || (f.id !in st.table && f.id in st'.table && st'.table == st.table[f.id := st'.table[f.id]]
          && st'.table[f.id].num == st'.nextSeq == st.nextSeq + 1)
  {
  }

  lemma SizeGrows(t: map<MessageId, Message>, id: MessageId, m: Message)
    requires id !in t
    ensures |t[id := m]| == |t| + 1
  {
    assert t[id := m].Keys == t.Keys + {id};
  }

  lemma NumberGrows(t: map<MessageId, Message>, top: nat, id: MessageId, m: Message)
    requires OneNumberEach(t, top) && id !in t && m.num == top + 1
    ensures OneNumberEach(t[id := m], top + 1)
  {
  }

  lemma OneMore(t: map<MessageId, Message>, top: nat, id: MessageId, m: Message)
    requires OneNumberEach(t, top) && id !in t && m.num == top + 1
    ensures OneNumberEach(t[id := m], top + 1) && Extends(t, top, t[id := m], top + 1)
  {
    SizeGrows(t, id, m);
    NumberGrows(t, top, id, m);
  }

  lemma ExtendsFurther(t: map<MessageId, Message>, a: nat, u: map<MessageId, Message>, b: nat,
                       v: map<MessageId, Message>, c: nat)
    requires Extends(t, a, u, b) && Extends(u, b, v, c) && a <= b
    ensures Extends(t, a, v, c)
  {
  }

  /** Over any run of message frames, resends from anywhere included: a stored message never
      changes, numbers are never shared, later acceptances have higher numbers, and the counter
      counts the messages. */
  lemma {:induction false} ExactlyOnce(s: Server, ins: seq<Input>)
    requires forall i :: 0 <= i < |ins| ==> ins[i].f.MsgFrame?
    requires OneNumberEach(s.store.table, s.store.nextSeq)
    ensures var st, st' := s.store, Feed(s, ins).store;
      && OneNumberEach(st'.table, st'.nextSeq)
      && Extends(st.table, st.nextSeq, st'.table, st'.nextSeq)
      && st.nextSeq <= st'.nextSeq
  {
    if ins != [] {
      var i := ins[|ins| - 1];
      ExactlyOnce(s, ins[..|ins| - 1]);
      var st, mid, st' := s.store, Feed(s, ins[..|ins| - 1]).store, Feed(s, ins).store;
      OnMessageFiles(Feed(s, ins[..|ins| - 1]), i.k, i.sender, i.f, i.now);
      if st' != mid {
        OneMore(mid.table, mid.nextSeq, i.f.id, st'.table[i.f.id]);
        ExtendsFurther(st.table, st.nextSeq, mid.table, mid.nextSeq, st'.table, st'.nextSeq);
      }
    }
  }

  /** Every number is kept, and what is new is numbered after everything before. */
  ghost predicate Later(s: System, s': System) {
    && (forall id :: id in s.Table() ==> id in s'.Table() && s'.Table()[id].num == s.Table()[id].num)
    && (forall id :: id in s'.Table() && id !in s.Table() ==> s'.Table()[id].num > s.Top())
    && s'.Top() >= s.Top()
  }

  lemma StoreUnchanged(s: System, l: Label, s': System)
    requires Next(s, l, s') && !l.Deliver? && !l.ServerRestart?
    ensures s'.server.store == s.server.store && Later(s, s')
  {
  }

  lemma DeliverIsLater(s: System, l: Label, s': System)
    requires Next(s, l, s') && l.Deliver?
    ensures Later(s, s')
  {
    var f := Frame0(s.clients[l.c].store.table[l.id]);
    OnMessageFiles(s.server, l.k, s.clients[l.c].self, f, l.now);
    assert s'.server == OnMessage(s.server, l.k, s.clients[l.c].self, f, l.now);
  }

  lemma ReloadKeepsNumbers(st: Store, names: seq<ConvId>)
    requires JournalOk(st) && Numbered(st.table, st.nextSeq) && Lists(names, st)
    ensures var r := Reload(st, names);
      && r.table.Keys == st.table.Keys && r.nextSeq == st.nextSeq
      && forall id :: id in st.table ==> r.table[id].num == st.table[id].num
  {
    ReloadedServer(st, names);
  }

  lemma RestartIsLater(s: System, l: Label, s': System)
    requires JournalOk(s.server.store) && Numbered(s.Table(), s.Top()) && Next(s, l, s') && l.ServerRestart?
    ensures Later(s, s')
  {
    ReloadKeepsNumbers(s.server.store, l.names);
  }

  lemma LaterStill(a: System, b: System, c: System)
    requires Later(a, b) && Later(b, c)
    ensures Later(a, c)
  {
  }

  lemma NextIsLater(s: System, l: Label, s': System)
    requires JournalOk(s.server.store) && Numbered(s.Table(), s.Top()) && Next(s, l, s')
    ensures Later(s, s')
  {
    if l.Deliver? {
      DeliverIsLater(s, l, s');
    } else if l.ServerRestart? {
      RestartIsLater(s, l, s');
    } else {
      StoreUnchanged(s, l, s');
    }
  }

  /** The same over whole runs of the system, restarts included. A server that dies in mid-line is
      another matter: see torn.dfy. */
  lemma {:induction false} NumbersAreForEver(states: seq<System>, labels: seq<Label>, i: nat, j: nat)
    requires Run(states, labels) && i <= j < |states|
    ensures Later(states[i], states[j])
  {
    if i < j {
      NumbersAreForEver(states, labels, i, j - 1);
      StepIsLater(states, labels, j - 1);
      LaterStill(states[i], states[j - 1], states[j]);
    }
  }

  lemma StepIsLater(states: seq<System>, labels: seq<Label>, i: nat)
    requires Run(states, labels) && i < |labels|
    ensures Later(states[i], states[i + 1])
  {
    AlwaysServerOk(states, labels, i);
    NextIsLater(states[i], labels[i], states[i + 1]);
  }

  lemma AlwaysServerOk(states: seq<System>, labels: seq<Label>, i: nat)
    requires Run(states, labels) && i < |states|
    ensures ServerOk(states[i].server)
  {
    AlwaysInv(states, labels);
    assert Inv(states[i]);
  }

  // ---------------------------------------------------------------- convergence

  /** What is sequenced in a client's list, as the server has it. */
  function ServerCopies(l: seq<Message>, t: map<MessageId, Message>): seq<Message> {
    if l == [] then []
    else
      ServerCopies(l[..|l| - 1], t) +
      if l[|l| - 1].num != 0 && l[|l| - 1].id in t then [t[l[|l| - 1].id]] else []
  }

  lemma {:induction false} ServerCopiesFrom(l: seq<Message>, t: map<MessageId, Message>, x: Message)
    requires Keyed(t)
    ensures x in ServerCopies(l, t) <==> exists i :: 0 <= i < |l| && l[i].num != 0 && l[i].id in t && t[l[i].id] == x
  {
    if l != [] {
      ServerCopiesFrom(l[..|l| - 1], t, x);
      if exists i :: 0 <= i < |l| && l[i].num != 0 && l[i].id in t && t[l[i].id] == x {
        var i :| 0 <= i < |l| && l[i].num != 0 && l[i].id in t && t[l[i].id] == x;
        assert i < |l| - 1 ==> l[..|l| - 1][i] == l[i];
      }
    }
  }

  lemma {:induction false} ServerCopiesSorted(l: seq<Message>, t: map<MessageId, Message>)
    requires Sorted(l) && Keyed(t) && DistinctIds(l)
    requires forall i, j :: i in t && j in t && t[i].num == t[j].num ==> i == j
    requires forall i :: 0 <= i < |l| && l[i].num != 0 && l[i].id in t ==> t[l[i].id].num == l[i].num
    ensures Sorted(ServerCopies(l, t))
  {
    if l != [] {
      var init, m := l[..|l| - 1], l[|l| - 1];
      forall i, j | 0 <= i < j < |init| ensures Less(init[i], init[j]) { assert Less(l[i], l[j]); }
      ServerCopiesSorted(init, t);
      var a := ServerCopies(init, t);
      if m.num != 0 && m.id in t {
        forall k | 0 <= k < |a| ensures Less(a[k], t[m.id]) {
          ServerCopiesFrom(init, t, a[k]);
          var i :| 0 <= i < |init| && init[i].num != 0 && init[i].id in t && t[init[i].id] == a[k];
          assert Less(l[i], l[|l| - 1]) && l[i].id != m.id;
        }
      }
    }
  }

  /** In every reachable state, whatever a client shows in a conversation and the server has
      numbered, it shows in the server's order; two clients that show the same numbered
      messages show them in the same order. */
  lemma SameOrderEverywhere(states: seq<System>, labels: seq<Label>, n: nat, c: ClientId, d: ClientId,
                            x: ConvId, y: ConvId, a: seq<Message>, b: seq<Message>)
    requires Run(states, labels) && n < |states| && c in states[n].clients && d in states[n].clients
    requires IsListing(a, states[n].clients[c].store.table, x)
    requires IsListing(b, states[n].clients[d].store.table, y)
    ensures var t := states[n].Table();
      && Sorted(ServerCopies(a, t))
      && ((forall m :: m in ServerCopies(a, t) <==> m in ServerCopies(b, t)) ==>
          ServerCopies(a, t) == ServerCopies(b, t))
  {
    AlwaysInv(states, labels);
    ClientListOrdered(states[n], c, x, a);
    ClientListOrdered(states[n], d, y, b);
    var t := states[n].Table();
    if forall m :: m in ServerCopies(a, t) <==> m in ServerCopies(b, t) {
      SortedUnique(ServerCopies(a, t), ServerCopies(b, t));
    }
  }

  lemma ClientListOrdered(s: System, c: ClientId, x: ConvId, a: seq<Message>)
    requires Inv(s) && c in s.clients && IsListing(a, s.clients[c].store.table, x)
    ensures Sorted(ServerCopies(a, s.Table()))
  {
    var cl, t := s.clients[c], s.Table();
    assert ClientOk(cl, t, s.Top());
    SortedDistinct(a);
    forall i | 0 <= i < |a| ensures a[i].num != 0 && a[i].id in t ==> t[a[i].id].num == a[i].num {
      assert CopyOk(cl.store.table[a[i].id], cl.self, t);
    }
    ServerCopiesSorted(a, t);
  }

  /** Every copy of a message the server has filed carries no number yet or the server's. */
  lemma CopiesAgree(states: seq<System>, labels: seq<Label>, n: nat, c: ClientId, id: MessageId)
    requires Run(states, labels) && n < |states| && c in states[n].clients
    requires id in states[n].clients[c].store.table && id in states[n].Table()
    ensures var num := states[n].clients[c].store.table[id].num;
      num == 0 || num == states[n].Table()[id].num
  {
    AlwaysInv(states, labels);
    assert ClientOk(states[n].clients[c], states[n].Table(), states[n].Top());
    assert CopyOk(states[n].clients[c].store.table[id], states[n].clients[c].self, states[n].Table());
  }

  // ------------------------------------------------------------------ entitlement

  /** The frame is a message of the server's, named as its reader names it, and its reader may
      see it at this moment. */
  ghost predicate Entitled(s: System, k: ConnId, f: Frame)
    requires k in s.server.conns
  {
    f.MsgFrame? ==>
      && f.id in s.Table()
      && ConvFor(s.Table()[f.id].conv, s.server.conns[k], s.server.RoomsOf(s.server.conns[k])) == Some(f.conv)
      && f == FrameOf(s.Table()[f.id], f.conv)
  }

  /** The frames a step puts on a connection: what follows what was left of its queue. */
  ghost predicate Queued(s: System, l: Label, s': System, k: ConnId, fs: seq<Frame>)
    requires k in s'.server.out
  {
    var before := if k !in s.server.out then [] else s.server.out[k];
    var left := if l.Receive? && l.c in s.links && s.links[l.c] == k && before != [] then before[1..] else before;
    s'.server.out[k] == left + fs
  }

  ghost predicate TellsOnlyTheEntitled(s: System, l: Label, s': System, k: ConnId)
    requires k in s'.server.out && k in s'.server.conns
  {
    exists fs ::
      && Queued(s, l, s', k, fs)
      && forall i :: 0 <= i < |fs| ==> Entitled(s', k, fs[i])
  }

  lemma {:induction false} RenamedEntitled(s: System, k: ConnId, ms: seq<Message>, i: nat)
    requires k in s.server.conns && (forall x :: x in ms ==> x.id in s.Table() && s.Table()[x.id] == x)
    requires i < |Renamed(ms, s.server.conns[k], s.server.RoomsOf(s.server.conns[k]))|
    ensures Entitled(s, k, Renamed(ms, s.server.conns[k], s.server.RoomsOf(s.server.conns[k]))[i])
  {
    var p := s.server.conns[k];
    var init := Renamed(ms[..|ms| - 1], p, s.server.RoomsOf(p));
    if i < |init| { RenamedEntitled(s, k, ms[..|ms| - 1], i); }
  }

  lemma HistoryEntitled(s: System, k: ConnId, name: string, history: seq<Message>, i: nat)
    requires k in s.server.conns && IsListing(history, s.Table(), RoomConv(name))
    requires HasRoom(s.server.RoomsOf(s.server.conns[k]), CanonRoom(name))
    requires i < |Tail(history, BACKLOG_WINDOW)|
    ensures Entitled(s, k, Verbatim(Tail(history, BACKLOG_WINDOW))[i])
  {
    NamesAreDisjoint("", "", "", name);
  }

  lemma QuietOtherwise(s: System, l: Label, s': System, k: ConnId)
    requires Next(s, l, s') && k in s'.server.out && k in s'.server.conns && !l.Deliver?
    requires RosterOk(s.server) && LinksOk(s)
    requires (l.Enrol? ==> l.k != k) && (l.Join? ==> s.links[l.c] != k)
    ensures TellsOnlyTheEntitled(s, l, s', k)
  {
    assert Queued(s, l, s', k, []) by { assert s'.server.out[k] + [] == s'.server.out[k]; }
  }

  lemma HeardEntitled(s: System, s': System, m: Message, k: ConnId, i: nat)
    requires k in s.server.conns && s'.server.conns == s.server.conns && s'.server.roster == s.server.roster
    requires m.id in s'.Table() && s'.Table()[m.id] == m && i < |Heard(s.server, m, k)|
    ensures k in s'.server.conns && Entitled(s', k, Heard(s.server, m, k)[i])
  {
  }

  lemma DeliverTells(s: System, l: Label, s': System, k: ConnId)
    requires Next(s, l, s') && k in s'.server.out && k in s'.server.conns && l.Deliver?
    requires RosterOk(s.server)
    ensures TellsOnlyTheEntitled(s, l, s', k)
  {
    var cl := s.clients[l.c];
    var f := Frame0(cl.store.table[l.id]);
    assert s'.server == OnMessage(s.server, l.k, cl.self, f, l.now);
    if Accepts(s.server, cl.self, f) {
      AcceptEffect(s.server, l.k, cl.self, f, l.now);
      FiledAsSent(s.server, cl.self, f, l.now);
      var m := TheMessage(s.server, cl.self, f, l.now);
      var fs := Heard(s.server, m, k);
      assert Queued(s, l, s', k, fs);
      forall i | 0 <= i < |fs| ensures Entitled(s', k, fs[i]) { HeardEntitled(s, s', m, k, i); }
    } else {
      var reply := RefuseEffect(s.server, l.k, cl.self, f, l.now);
      assert Queued(s, l, s', k, if l.k == k then [reply] else []);
    }
  }

  lemma EnrolTells(s: System, l: Label, s': System)
    requires l.Enrol? && Next(s, l, s') && s.server.out.Keys == s.server.conns.Keys
    ensures l.k in s'.server.out && l.k in s'.server.conns
    ensures TellsOnlyTheEntitled(s, l, s', l.k)
  {
    var cl := s.clients[l.c];
    var s1 := Enlisted(s.server, cl.self, cl.rooms);
    BacklogStored(s1, cl.self, cl.cursor, Reset(s.server, cl.cursor, l.foreign), l.ms);
    var fs := s'.server.out[l.k];
    assert Queued(s, l, s', l.k, fs);
    forall i | 0 <= i < |fs| ensures Entitled(s', l.k, fs[i]) {
      if i < |fs| - 1 { RenamedEntitled(s', l.k, l.ms, i); }
    }
  }

  lemma JoinTells(s: System, l: Label, s': System)
    requires l.Join? && Next(s, l, s') && RosterOk(s.server) && LinksOk(s)
    ensures s.links[l.c] in s'.server.out && s.links[l.c] in s'.server.conns
    ensures TellsOnlyTheEntitled(s, l, s', s.links[l.c])
  {
    var p, room, k := s.clients[l.c].self, CanonRoom(l.name), s.links[l.c];
    if room == "" || |room| > MAX_ROOM {
      assert Queued(s, l, s', k, [ErrorFrame(ERR_BAD_FRAME)]);
    } else {
      var fs := Verbatim(Tail(l.history, BACKLOG_WINDOW)) + [SyncedFrame(s.Top(), room)];
      CanonRoomIdempotent(l.name);
      CanonRoomsKeeps(s.server.RoomsOf(p), room);
      assert Queued(s, l, s', k, fs);
      forall i | 0 <= i < |fs| ensures Entitled(s', k, fs[i]) {
        if i < |fs| - 1 { HistoryEntitled(s', k, l.name, l.history, i); }
      }
    }
  }

  lemma NextTells(s: System, l: Label, s': System, k: ConnId)
    requires Next(s, l, s') && RosterOk(s.server) && LinksOk(s)
    requires k in s'.server.out && k in s'.server.conns
    ensures TellsOnlyTheEntitled(s, l, s', k)
  {
    if l.Deliver? {
      DeliverTells(s, l, s', k);
    } else if l.Enrol? && l.k == k {
      EnrolTells(s, l, s');
    } else if l.Join? && s.links[l.c] == k {
      JoinTells(s, l, s');
    } else {
      QuietOtherwise(s, l, s', k);
    }
  }

  /** Everything a step of a reachable state queues on a connection is a message its owner is
      entitled to in the state it is queued in, by fan-out, backlog or join alike. */
  lemma OnlyTheEntitledAreTold(states: seq<System>, labels: seq<Label>, n: nat, k: ConnId)
    requires Run(states, labels) && n < |labels| && k in states[n + 1].server.out
    ensures k in states[n + 1].server.conns
    ensures TellsOnlyTheEntitled(states[n], labels[n], states[n + 1], k)
  {
    AlwaysServerOk(states, labels, n);
    AlwaysServerOk(states, labels, n + 1);
    AlwaysInv(states, labels);
    assert Inv(states[n]);
    NextTells(states[n], labels[n], states[n + 1], k);
  }
}
