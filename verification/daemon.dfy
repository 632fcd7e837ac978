/** The client daemon as the program runs it (chatclientd/daemon.go, chatclientd/link.go): the
    cache, the cursor, and a connection that takes a frame or is gone. */
module Daemons {
  import opened Wrappers
  import opened Names
  import opened Messages
  import opened StoreModel
  import opened ServerModel
  import opened ClientModel
  import opened Cursors
  import ChatStores

  /** What is cut from the end of a line before it is sent. */
  function TrimTail(s: string): string {
    if s != "" && s[|s| - 1] in {' ', '\t', '\r', '\n'} then TrimTail(s[..|s| - 1]) else s
  }

  predicate Blank(s: string) { TrimRight(TrimLeft(s)) == "" }

  /** body is text without the spaces, tabs, returns and newlines at its end, and without more. */
  predicate CutTail(text: string, body: string) {
    && body <= text
    && (forall i :: |body| <= i < |text| ==> text[i] in {' ', '\t', '\r', '\n'})
    && (body != "" ==> body[|body| - 1] !in {' ', '\t', '\r', '\n'})
  }

  lemma {:induction false} TrimTailCuts(text: string)
    ensures CutTail(text, TrimTail(text))
  {
    if text != "" && text[|text| - 1] in {' ', '\t', '\r', '\n'} { TrimTailCuts(text[..|text| - 1]); }
  }

  /** There is one such body. */
  lemma OneCut(text: string, a: string, b: string)
    requires CutTail(text, a) && CutTail(text, b)
    ensures a == b
  {
    assert forall i :: 0 <= i < |a| ==> a[i] == text[i];
    assert forall i :: 0 <= i < |b| ==> b[i] == text[i];
  }

  /** What is left is blank exactly when all of the text was white space. */
  lemma BlankExactlyWhen(text: string)
    ensures Blank(TrimTail(text)) <==> AllSpace(text)
  {
    TrimTailCuts(text);
    TrimmedAwayExactlyWhen(TrimTail(text));
    assert AllSpace(TrimTail(text)) ==> forall i :: 0 <= i < |text| ==>
      IsSpace(if i < |TrimTail(text)| then TrimTail(text)[i] else text[i]);
  }

  /** The store once each of these has been handed to the connection. */
  function SendingAll(s: Store, ms: seq<Message>): Store {
    if ms == [] then s else SetState(SendingAll(s, ms[..|ms| - 1]), ms[|ms| - 1].id, Sending).0
  }

  /** q is everything still waiting, in the order everybody lists messages in. */
  ghost predicate IsQueue(q: seq<Message>, t: map<MessageId, Message>) {
    Sorted(q) && ChatStores.Selects(q, t, ChatStores.Waiting)
  }

  /** What waits for a number is offered by the clock it was written at, the earliest first. */
  lemma EarliestFirst(q: seq<Message>, t: map<MessageId, Message>, i: nat, j: nat)
    requires IsQueue(q, t) && i < j < |q|
    ensures q[i].num == 0 ==> q[j].num == 0 && q[i].sent <= q[j].sent
    ensures q[j].num != 0 ==> 0 < q[i].num <= q[j].num
  {
    ListedInOrder(q, i, j);
  }

  predicate Among(ms: seq<Message>, id: MessageId) { exists m :: m in ms && m.id == id }

  lemma AmongMore(ms: seq<Message>, m: Message, id: MessageId)
    ensures Among(ms + [m], id) <==> Among(ms, id) || m.id == id
  {
    assert m in ms + [m];
    if Among(ms, id) { var x :| x in ms && x.id == id; assert x in ms + [m]; }
  }

  /** Handing messages over loses none and changes nothing but their delivery state. */
  lemma {:induction false} SendingAllKeeps(s: Store, ms: seq<Message>)
    ensures SendingAll(s, ms).table.Keys == s.table.Keys
    ensures forall id :: id in s.table ==>
      SendingAll(s, ms).table[id] == if Among(ms, id) then s.table[id].(state := Sending) else s.table[id]
  {
    if ms != [] {
      var init, last := ms[..|ms| - 1], ms[|ms| - 1];
      SendingAllKeeps(s, init);
      assert ms == init + [last];
      forall id | id in s.table
        ensures SendingAll(s, ms).table[id] == if Among(ms, id) then s.table[id].(state := Sending) else s.table[id]
      {
        AmongMore(init, last, id);
      }
    }
  }

  /** So a flush leaves exactly the same messages waiting. */
  lemma FlushKeepsQueue(s: Store, q: seq<Message>, k: nat)
    requires Keyed(s.table) && IsQueue(q, s.table) && k <= |q|
    ensures SendingAll(s, q[..k]).table.Keys == s.table.Keys
    ensures forall id :: id in s.table ==>
      (ChatStores.Waiting(SendingAll(s, q[..k]).table[id]) <==> ChatStores.Waiting(s.table[id]))
  {
    SendingAllKeeps(s, q[..k]);
    forall id | id in s.table && Among(q[..k], id) ensures ChatStores.Waiting(s.table[id]) {
      var m :| m in q[..k] && m.id == id;
      assert m in q;
    }
  }

  lemma OneMoreSent(s: Store, q: seq<Message>, i: nat)
    requires i < |q|
    ensures SendingAll(s, q[..i + 1]) == SetState(SendingAll(s, q[..i]), q[i].id, Sending).0
    ensures Verbatim(q[..i + 1]) == Verbatim(q[..i]) + [FrameOf(q[i], q[i].conv)]
  {
    assert q[..i + 1][..i] == q[..i];
  }

  /** Where a frame takes the cursor: a message from nobody is dropped. */
  function Reached(f: Frame): nat { if f.MsgFrame? && f.from == "" then 0 else Num(f) }

  function Highest(n: nat, fs: seq<Frame>): nat {
    if fs == [] then n else Max(Highest(n, fs[..|fs| - 1]), Reached(fs[|fs| - 1]))
  }

  /** Which is the highest of them, and where it started if nothing was higher. */
  lemma {:induction false} HighestIs(n: nat, fs: seq<Frame>)
    ensures n <= Highest(n, fs) && forall f :: f in fs ==> Reached(f) <= Highest(n, fs)
    ensures Highest(n, fs) == n || exists f :: f in fs && Reached(f) == Highest(n, fs)
  {
    if fs != [] {
      HighestIs(n, fs[..|fs| - 1]);
      assert fs == fs[..|fs| - 1] + [fs[|fs| - 1]] && fs[|fs| - 1] in fs;
    }
  }

  /** A relayed message the client can take. */
  predicate Sound(f: Frame) {
    f.MsgFrame? && f.id != "" && f.conv != "" && f.from != "" && |f.body| <= MAX_BODY_RUNES
  }

  lemma AppliedHolds(cl: Client, f: Frame, now: int)
    ensures var cl' := ApplyFrame(cl, f, now);
      && cl'.cursor == Max(cl.cursor, Reached(f)) && cl.store.table.Keys <= cl'.store.table.Keys
      && (Sound(f) ==> f.id in cl'.store.table)
  {
  }

  class Daemon {
    const store: ChatStores.ChatStore
    const self: PeerId
    var rooms: Rooms
    var cursor: nat
    var saved: nat
    var sent: seq<Frame>
    /** How many more frames the connection will take; 0 when there is none. */
    var room: nat

    ghost predicate Valid()
      reads this, store
    {
      store.Valid()
    }

    ghost function Abs(): Client
      reads this, store
    {
      Client(self, rooms, store.Abs(), cursor, saved)
    }

    constructor (store: ChatStores.ChatStore, self: PeerId, rooms: Rooms, saved: nat)
      requires store.Valid()
      ensures Valid() && this.store == store && Abs() == Client(self, rooms, store.Abs(), saved, saved) && sent == []
      ensures room == 0
    {
      this.store, this.self, this.rooms := store, self, rooms;
      cursor, this.saved, sent, room := saved, saved, [], 0;
    }

    method Write(f: Frame) returns (ok: bool)
      modifies `sent, `room
      ensures ok <==> old(room) > 0
      ensures sent == if ok then old(sent) + [f] else old(sent)
      ensures room == if ok then old(room) - 1 else old(room)
    {
      ok := room > 0;
      if ok {
        sent := sent + [f];
        room := room - 1;
      }
    }

    // ------------------------------------------------------------------- outbound

    method MarkSending(id: MessageId)
      requires Valid()
      modifies store
      ensures Valid() && store.Abs() == SetState(old(store.Abs()), id, Sending).0
    {
      var _ := store.SetState(id, Sending);
    }

    method SendMessage(m: Message) returns (ok: bool)
      requires Valid()
      modifies `sent, `room, store
      ensures Valid() && ok == (old(room) > 0)
      ensures sent == if ok then old(sent) + [FrameOf(m, m.conv)] else old(sent)
      ensures store.Abs() == if ok then SetState(old(store.Abs()), m.id, Sending).0 else old(store.Abs())
      ensures room == if ok then old(room) - 1 else old(room)
    {
      ok := Write(FrameOf(m, m.conv));
      if ok { MarkSending(m.id); }
    }

    /** Composes a message: it is filed before it is offered to the connection, and is waiting
        whether or not the connection took it. */
    method Send(conv: ConvId, text: string, id: MessageId, now: int) returns (m: Option<Message>)
      requires Valid() && id != "" && id !in store.table && now != 0
      modifies `sent, `room, store
      ensures Valid()
      ensures m.None? <==> (AllSpace(text) || conv == "")
      ensures m.None? ==> store.Abs() == old(store.Abs()) && sent == old(sent)
      ensures CutTail(text, TrimTail(text))
      ensures m.Some? ==>
        && m.value ==
          Message(id, conv, self, ClipRunes(TrimTail(text), MAX_BODY_RUNES), now, 0, true, Queued, true, None, false)
        && id in store.table && ChatStores.Waiting(store.table[id])
        && store.Abs() ==
          (var s := AppendMsg(old(store.Abs()), m.value, now).0;
           if old(room) > 0 then SetState(s, id, Sending).0 else s)
        && sent == if old(room) > 0 then old(sent) + [FrameOf(m.value, conv)] else old(sent)
    {
      TrimTailCuts(text);
      BlankExactlyWhen(text);
      var body := TrimTail(text);
      if Blank(body) || conv == "" { return None; }
      var msg := Message(id, conv, self, ClipRunes(body, MAX_BODY_RUNES), now, 0, true, Queued, true, None, false);
      var r := store.Append(msg, now);
      var _ := SendMessage(msg);
      m := Some(msg);
    }

    /** Everything waiting is offered in order, until the connection will not take one. */
    method FlushQueue() returns (ghost q: seq<Message>, ghost k: nat)
      requires Valid()
      modifies `sent, `room, store
      ensures Valid() && IsQueue(q, old(store.table)) && k <= |q|
      ensures k < |q| ==> room == 0
      ensures sent == old(sent) + Verbatim(q[..k])
      ensures store.Abs() == SendingAll(old(store.Abs()), q[..k])
    {
      var list := store.Queued("");
      q := list;
      var i := 0;
      assert Verbatim(list[..0]) == [];
      while i < |list|
        invariant 0 <= i <= |list| && Valid()
        invariant sent == old(sent) + Verbatim(list[..i])
        invariant store.Abs() == SendingAll(old(store.Abs()), list[..i])
      {
        var ok := SendMessage(list[i]);
        if !ok { return list, i; }
        OneMoreSent(old(store.Abs()), list, i);
        i := i + 1;
      }
      k := i;
    }

    /** A line the application writes itself, placed where the conversation has got to. */
    method SystemMessage(conv: ConvId, text: string, id: MessageId, now: int)
      requires Valid() && id != "" && id !in store.table
      modifies store
      ensures Valid() && store.Abs() ==
        if conv == "" then old(store.Abs())
        else AppendMsg(old(store.Abs()),
                       Message(id, conv, self, text, now, cursor, true, Delivered, true, None, true), now).0
    {
      if conv == "" { return; }
      var _ := store.Append(Message(id, conv, self, text, now, cursor, true, Delivered, true, None, true), now);
    }

    // -------------------------------------------------------------------- inbound

    method Advance(n: nat)
      modifies `cursor
      ensures cursor >= old(cursor) && cursor >= n && (cursor == old(cursor) || cursor == n)
    {
      if n == 0 { return; }
      if n > cursor { cursor := n; }
    }

    method OnMessage(f: Frame, now: int)
      requires Valid() && f.MsgFrame?
      modifies `cursor, store
      ensures Valid() && Abs() == ApplyMessage(old(Abs()), f, now)
    {
      if f.from == "" { return; }
      Advance(f.num);
      var parsed := MessageFromFrame(f, f.from, now);
      if parsed.None? { return; }
      var m := parsed.value;
      if m.from == self {
        var found := store.Confirm(m.id, m.num);
        if found.Some? { return; }
        m := m.(mine := true, read := true, state := Delivered);
      }
      var _ := store.Append(m, now);
    }

    /** One frame folded in. What follows synced is the flush: everything that was waiting goes
        out behind what had been missed. */
    method OnSynced(n: nat) returns (ghost q: seq<Message>, ghost k: nat)
      requires Valid()
      modifies `cursor, `saved, `sent, `room, store
      ensures Valid() && k <= |q|
      ensures var cl := ClientModel.Advance(old(Abs()), n);
        Abs() == cl.(saved := cl.cursor, store := SendingAll(cl.store, q[..k]))
      ensures IsQueue(q, old(store.table)) && (k < |q| ==> room == 0) && sent == old(sent) + Verbatim(q[..k])
    {
      Advance(n);
      saved := cursor;
      q, k := FlushQueue();
    }

    method Apply(f: Frame, now: int) returns (ghost q: seq<Message>, ghost k: nat)
      requires Valid()
      modifies `cursor, `saved, `sent, `room, store
      ensures Valid() && k <= |q|
      ensures var cl := ApplyFrame(old(Abs()), f, now); Abs() == cl.(store := SendingAll(cl.store, q[..k]))
      ensures f.SyncedFrame? ==> IsQueue(q, old(store.table)) && (k < |q| ==> room == 0)
      ensures !f.SyncedFrame? ==> q == []
      ensures sent == old(sent) + Verbatim(q[..k])
    {
      q, k := [], 0;
      match f
      case MsgFrame(_, _, _, _, _, _, _, _) => OnMessage(f, now);
      case SeqFrame(id, num) =>
        Advance(num);
        var _ := store.Confirm(id, num);
      case SyncedFrame(n, _) =>
        q, k := OnSynced(n);
      case ErrorFrame(_) =>
    }

    /** The start of a session: a cursor the server has no use for is given up. */
    method Begin(reset: bool, foreign: bool, frames: nat)
      modifies `cursor, `room
      ensures Abs() == Welcomed(old(Abs()), reset, foreign) && room == frames
    {
      if reset || foreign { cursor := 0; }
      room := frames;
    }

    /** The end of one: the cursor is saved. */
    method End()
      modifies `saved, `room
      ensures Abs() == old(Abs()).(saved := cursor) && room == 0
    {
      saved := cursor;
      room := 0;
    }

    method Read(f: Frame, now: int)
      requires Valid()
      modifies `cursor, `saved, `sent, `room, store
      ensures Valid() && cursor == Max(old(cursor), Reached(f))
      ensures old(store.table).Keys <= store.table.Keys && (Sound(f) ==> f.id in store.table)
    {
      AppliedHolds(Abs(), f, now);
      ghost var st := ApplyFrame(Abs(), f, now).store;
      var q, k := Apply(f, now);
      SendingAllKeeps(st, q[..k]);
      assert store.table == Abs().store.table;
    }

    /** A session: it begins, frames are folded in as they come until the link is gone, and the
        cursor is saved. What is saved is the highest number read, counted from 0 if the server had
        no use for the cursor, and every message read is in the cache. */
    method Session(reset: bool, foreign: bool, frames: nat, fs: seq<Frame>, now: int)
      requires Valid()
      modifies `cursor, `saved, `sent, `room, store
      ensures Valid() && room == 0
      ensures saved == cursor == Highest(if reset || foreign then 0 else old(cursor), fs)
      ensures old(store.table).Keys <= store.table.Keys
      ensures forall f :: f in fs && Sound(f) ==> f.id in store.table && f.num <= saved
    {
      Begin(reset, foreign, frames);
      ghost var start := cursor;
      var i := 0;
      while i < |fs|
        invariant 0 <= i <= |fs| && Valid() && cursor == Highest(start, fs[..i])
        invariant old(store.table).Keys <= store.table.Keys
        invariant forall f :: f in fs[..i] && Sound(f) ==> f.id in store.table && f.num <= cursor
      {
        Read(fs[i], now);
        assert fs[..i + 1] == fs[..i] + [fs[i]];
        i := i + 1;
      }
      assert fs[..i] == fs;
      End();
    }
  }
}
