/** The server as the program runs it (chatserver/server.go, chatserver/handle.go): the store,
    the connections of each person, and one queue per connection. Each handler is tied to the
    function of the same name on the abstract server. */
module ChatServers {
  import opened Names
  import opened Messages
  import opened StoreModel
  import opened ServerModel
  import opened Backlog
  import ChatStores

  // ------------------------------------------------------- connections, person by person

  ghost predicate NoRepeat(ks: seq<ConnId>) { forall i, j :: 0 <= i < j < |ks| ==> ks[i] != ks[j] }

  /** The lists of connections are the owners of the connections, turned round. */
  ghost predicate ListsOwners(conns: map<PeerId, seq<ConnId>>, owner: map<ConnId, PeerId>) {
    && (forall p :: p in conns ==> conns[p] != [] && NoRepeat(conns[p]))
    && (forall p, k :: p in conns && k in conns[p] ==> k in owner && owner[k] == p)
    && (forall k :: k in owner ==> owner[k] in conns && k in conns[owner[k]])
  }

  /** Queues after one frame has gone to the connections in ks. */
  function SentTo(out: map<ConnId, seq<Frame>>, ks: seq<ConnId>, f: Frame): map<ConnId, seq<Frame>> {
    map k | k in out :: out[k] + if k in ks then [f] else []
  }

  lemma SentToMore(out: map<ConnId, seq<Frame>>, ks: seq<ConnId>, i: nat, f: Frame)
    requires i < |ks| && NoRepeat(ks) && ks[i] in out
    ensures SentTo(out, ks[..i + 1], f) == SentTo(out, ks[..i], f)[ks[i] := SentTo(out, ks[..i], f)[ks[i]] + [f]]
  {
    var a, b := SentTo(out, ks[..i + 1], f), SentTo(out, ks[..i], f);
    assert ks[..i + 1] == ks[..i] + [ks[i]];
    assert ks[i] !in ks[..i];
    forall k | k in out ensures a[k] == b[ks[i] := b[ks[i]] + [f]][k] {
      assert k != ks[i] ==> (k in ks[..i + 1] <==> k in ks[..i]);
      assert out[k] + [] == out[k];
    }
  }

  lemma SentToNobody(out: map<ConnId, seq<Frame>>, f: Frame)
    ensures SentTo(out, [], f) == out
  {
    forall k | k in out ensures SentTo(out, [], f)[k] == out[k] { assert out[k] + [] == out[k]; }
  }

  lemma SendNothing(s: Server, k: ConnId)
    ensures s.Send(k, []) == s
  {
    if k in s.out { assert s.out[k] + [] == s.out[k]; }
  }

  lemma SendMore(s: Server, k: ConnId, a: seq<Frame>, b: seq<Frame>)
    ensures s.Send(k, a).Send(k, b) == s.Send(k, a + b)
  {
    if k in s.out { assert (s.out[k] + a) + b == s.out[k] + (a + b); }
  }

  lemma OwnersWith(conns: map<PeerId, seq<ConnId>>, owner: map<ConnId, PeerId>, k: ConnId, p: PeerId)
    requires ListsOwners(conns, owner) && k !in owner
    ensures ListsOwners(conns[p := (if p in conns then conns[p] else []) + [k]], owner[k := p])
  {
    var after, more := conns[p := (if p in conns then conns[p] else []) + [k]], owner[k := p];
    assert p in conns ==> k !in conns[p];
    forall x | x in more ensures more[x] in after && x in after[more[x]] {
      assert k in after[p];
      if x != k { assert x in conns[owner[x]]; }
    }
  }

  lemma OwnersWithout(conns: map<PeerId, seq<ConnId>>, owner: map<ConnId, PeerId>, k: ConnId, rest: seq<ConnId>)
    requires ListsOwners(conns, owner) && k in owner
    requires NoRepeat(rest) && forall x :: x in rest <==> x in conns[owner[k]] && x != k
    ensures ListsOwners(if rest == [] then conns - {owner[k]} else conns[owner[k] := rest], owner - {k})
  {
    var p := owner[k];
    var after, left := if rest == [] then conns - {p} else conns[p := rest], owner - {k};
    forall q, x | q in after && x in after[q] ensures x in left && left[x] == q {
      assert x in conns[q];
    }
    forall x | x in left ensures left[x] in after && x in after[left[x]] {
      assert x in conns[owner[x]];
      assert owner[x] == p ==> x in rest;
    }
  }

  lemma SentToIsSendTo(s: Server, conns: map<PeerId, seq<ConnId>>, p: PeerId, f: Frame)
    requires ListsOwners(conns, s.conns) && s.out.Keys == s.conns.Keys
    ensures SendTo(s, p, f).out == SentTo(s.out, if p in conns then conns[p] else [], f)
  {
  }

  /** Telling one more recipient is one more step of the fan-out. */
  lemma FanOutOne(s: Server, m: Message, done: set<PeerId>, p: PeerId)
    requires p !in done && s.out.Keys == s.conns.Keys
    ensures var name := ConvFor(m.conv, p, s.RoomsOf(p));
      FanOut(s, m, done + {p}) ==
        if name.Some? then SendTo(FanOut(s, m, done), p, FrameOf(m, name.value)) else FanOut(s, m, done)
  {
    var name := ConvFor(m.conv, p, s.RoomsOf(p));
    var a, b := FanOut(s, m, done + {p}), FanOut(s, m, done);
    var more := if name.Some? then SendTo(b, p, FrameOf(m, name.value)) else b;
    forall k | k in s.out ensures a.out[k] == more.out[k] {
      FanOutQueue(s, m, done, p, k);
      assert b.out[k] + [] == b.out[k];
    }
    assert a.out == more.out;
  }

  lemma FanOutQueue(s: Server, m: Message, done: set<PeerId>, p: PeerId, k: ConnId)
    requires p !in done && s.out.Keys == s.conns.Keys && k in s.out
    ensures var name := ConvFor(m.conv, p, s.RoomsOf(p));
      FanOut(s, m, done + {p}).out[k]
        == FanOut(s, m, done).out[k] + if name.Some? && s.conns[k] == p then [FrameOf(m, name.value)] else []
  {
    var name := ConvFor(m.conv, p, s.RoomsOf(p));
    var more := if name.Some? && s.conns[k] == p then [FrameOf(m, name.value)] else [];
    FanOutAt(s, m, done, p, k);
    assert s.out[k] + (LiveFor(s, m, done, k) + more) == (s.out[k] + LiveFor(s, m, done, k)) + more;
  }

  lemma FanOutAt(s: Server, m: Message, done: set<PeerId>, p: PeerId, k: ConnId)
    requires p !in done && k in s.conns
    ensures var name := ConvFor(m.conv, p, s.RoomsOf(p));
      LiveFor(s, m, done + {p}, k)
        == LiveFor(s, m, done, k) + if name.Some? && s.conns[k] == p then [FrameOf(m, name.value)] else []
  {
  }

  lemma FanOutNobody(s: Server, m: Message)
    ensures FanOut(s, m, {}) == s
  {
    forall k | k in s.out ensures FanOut(s, m, {}).out[k] == s.out[k] { assert s.out[k] + [] == s.out[k]; }
    assert FanOut(s, m, {}).out == s.out;
  }

  // ---------------------------------------------------------------------- sorting by number

  predicate ByNumberUpTo(ms: seq<Message>, n: nat)
    requires n <= |ms|
  {
    forall i, j :: 0 <= i < j < n ==> ms[i].num <= ms[j].num
  }

  /** The walk of one entry towards the front: everything but the entry at j is in order. */
  ghost predicate InOrderBut(ms: seq<Message>, n: nat, j: nat)
    requires j < n <= |ms|
  {
    && (forall a, b :: 0 <= a < b < n && a != j && b != j ==> ms[a].num <= ms[b].num)
    && (forall b :: j < b < n ==> ms[j].num <= ms[b].num)
  }

  function Swapped(ms: seq<Message>, j: nat): seq<Message>
    requires 0 < j < |ms|
  {
    ms[j := ms[j - 1]][j - 1 := ms[j]]
  }

  lemma SwapSinks(ms: seq<Message>, n: nat, j: nat)
    requires 0 < j < n <= |ms| && InOrderBut(ms, n, j) && ms[j].num < ms[j - 1].num
    ensures InOrderBut(Swapped(ms, j), n, j - 1)
    ensures multiset(Swapped(ms, j)) == multiset(ms)
  {
  }

  lemma InPlace(ms: seq<Message>, n: nat, j: nat)
    requires j < n <= |ms| && InOrderBut(ms, n, j) && (j > 0 ==> ms[j].num >= ms[j - 1].num)
    ensures ByNumberUpTo(ms, n)
  {
  }

  method SinkInto(list: array<Message>, i: nat)
    requires 0 < i < list.Length && ByNumberUpTo(list[..], i)
    modifies list
    ensures ByNumberUpTo(list[..], i + 1)
    ensures multiset(list[..]) == multiset(old(list[..]))
  {
    var j := i;
    while j > 0 && list[j].num < list[j - 1].num
      invariant 0 <= j <= i
      invariant InOrderBut(list[..], i + 1, j)
      invariant multiset(list[..]) == multiset(old(list[..]))
    {
      ghost var before := list[..];
      list[j], list[j - 1] := list[j - 1], list[j];
      assert list[..] == Swapped(before, j);
      SwapSinks(before, i + 1, j);
      j := j - 1;
    }
    InPlace(list[..], i + 1, j);
  }

  method SortBySeq(list: array<Message>)
    modifies list
    ensures ByNumber(list[..])
    ensures multiset(list[..]) == multiset(old(list[..]))
  {
    var i := 1;
    while i < list.Length
      invariant 1 <= i
      invariant ByNumberUpTo(list[..], if i <= list.Length then i else list.Length)
      invariant multiset(list[..]) == multiset(old(list[..]))
    {
      SinkInto(list, i);
      i := i + 1;
    }
  }

  lemma {:induction false} SameMultiset(a: seq<Message>, b: seq<Message>)
    requires multiset(a) == multiset(b) && DistinctIds(a)
    ensures DistinctIds(b) && forall x :: x in a <==> x in b
  {
    forall x ensures x in a <==> x in b {
      assert x in multiset(a) <==> x in a;
      assert x in multiset(b) <==> x in b;
    }
    forall i, j | 0 <= i < j < |b| ensures b[i].id != b[j].id {
      if b[i].id == b[j].id {
        OneEach(a, b[i]);
        assert b[i] in a && b[j] in a;
        assert b[i] == b[j];
        TwoCount(b, i, j);
      }
    }
  }

  lemma {:induction false} OneEach(a: seq<Message>, x: Message)
    requires DistinctIds(a)
    ensures multiset(a)[x] <= 1
  {
    if a != [] {
      assert a == a[..|a| - 1] + [a[|a| - 1]];
      OneEach(a[..|a| - 1], x);
      if a[|a| - 1] == x { assert x !in a[..|a| - 1]; }
    }
  }

  lemma TwoCount(b: seq<Message>, i: nat, j: nat)
    requires i < j < |b| && b[i] == b[j]
    ensures multiset(b)[b[i]] >= 2
  {
    assert b == b[..j] + b[j..];
    assert b[i] in b[..j];
    assert b[j..][0] == b[j];
    assert b[j] in b[j..];
  }

  // -------------------------------------------------------------------- what is kept

  /** The store holds only what the server has numbered. */
  ghost predicate NumbersOk(s: Store) { TableOk(s.table, s.nextSeq) && ServerNumbers(s.table) }

  lemma FilingKeepsNumbers(s: Store, m: Message, now: int)
    requires NumbersOk(s) && m.id !in s.table && m.num == s.nextSeq + 1 && m.id != "" && m.conv != ""
    ensures NumbersOk(AppendMsg(StoreModel.NextSeq(s).0, m, now).0)
    ensures AppendMsg(StoreModel.NextSeq(s).0, m, now).1 == Added
  {
    var f := Filed(m, now);
    var t := s.table[m.id := f];
    assert AppendMsg(StoreModel.NextSeq(s).0, m, now).0.table == t;
    forall i, j | i in t && j in t && t[i].num == t[j].num ensures i == j {
      assert i != m.id ==> s.table[i].num <= s.nextSeq;
      assert j != m.id ==> s.table[j].num <= s.nextSeq;
    }
  }

  lemma RoutedHasAName(s: Server, sender: PeerId, conv: ConvId)
    requires Route(s, sender, conv).To?
    ensures Route(s, sender, conv).conv != ""
  {
    if !IsRoom(conv) { assert '+' in DirectKey(sender, ConvPeer(conv)); }
  }

  lemma OneMoreFrame(p: PeerId, rooms: Rooms, ms: seq<Message>, i: nat)
    requires i < |ms|
    ensures var name := ConvFor(ms[i].conv, p, rooms);
      Renamed(ms[..i + 1], p, rooms)
        == if name.Some? then Renamed(ms[..i], p, rooms) + [FrameOf(ms[i], name.value)] else Renamed(ms[..i], p, rooms)
  {
    assert ms[..i + 1][..i] == ms[..i];
    assert Renamed(ms[..i], p, rooms) + [] == Renamed(ms[..i], p, rooms);
  }

  /** Every conversation visited contributes its tail, and no other does. */
  ghost predicate TailsOf(ms: seq<Message>, t: map<MessageId, Message>, p: PeerId, rooms: Rooms, todo: set<ConvId>) {
    && DistinctIds(ms)
    && (forall x :: x in ms ==>
          x.id in t && t[x.id] == x && x.conv !in todo && Sees(x.conv, p, rooms) && InTail(x, t, BACKLOG_WINDOW))
    && (forall id :: id in t && t[id].conv !in todo && Sees(t[id].conv, p, rooms) && InTail(t[id], t, BACKLOG_WINDOW)
          ==> t[id] in ms)
  }

  lemma TailListed(l: seq<Message>, t: map<MessageId, Message>, c: ConvId)
    requires Keyed(t) && IsListing(l, t, c)
    ensures var tail := Tail(l, BACKLOG_WINDOW);
      && DistinctIds(tail)
      && (forall x :: x in tail ==> x.id in t && t[x.id] == x && x.conv == c && InTail(x, t, BACKLOG_WINDOW))
      && (forall id :: id in t && t[id].conv == c && InTail(t[id], t, BACKLOG_WINDOW) ==> t[id] in tail)
  {
    var tail := Tail(l, BACKLOG_WINDOW);
    var d := |l| - |tail|;
    assert forall k :: 0 <= k < |tail| ==> tail[k] == l[d + k];
    SortedDistinct(l);
    forall i, j | 0 <= i < j < |tail| ensures tail[i].id != tail[j].id {
      assert l[d + i] != l[d + j] && t[l[d + i].id] == l[d + i] && t[l[d + j].id] == l[d + j];
    }
    forall id | id in t && t[id].conv == c && InTail(t[id], t, BACKLOG_WINDOW) ensures t[id] in tail {
      InTailIs(l, t, t[id]);
    }
  }

  lemma MoreTails(ms: seq<Message>, t: map<MessageId, Message>, p: PeerId, rooms: Rooms, todo: set<ConvId>, c: ConvId,
                  tail: seq<Message>)
    requires TailsOf(ms, t, p, rooms, todo) && c in todo && Sees(c, p, rooms) && DistinctIds(tail)
    requires forall x :: x in tail ==> x.id in t && t[x.id] == x && x.conv == c && InTail(x, t, BACKLOG_WINDOW)
    requires forall id :: id in t && t[id].conv == c && InTail(t[id], t, BACKLOG_WINDOW) ==> t[id] in tail
    ensures TailsOf(ms + tail, t, p, rooms, todo - {c})
  {
    forall i, j | 0 <= i < |ms| && 0 <= j < |tail| ensures ms[i].id != tail[j].id {
      assert ms[i] in ms && tail[j] in tail;
    }
  }

  ghost function NamesIn(cs: seq<ConvId>): set<ConvId> { set c | c in cs }

  lemma NextName(cs: seq<ConvId>, i: nat)
    requires i < |cs| && ChatStores.SortedNames(cs)
    ensures cs[i] in NamesIn(cs[i..]) && NamesIn(cs[i + 1..]) == NamesIn(cs[i..]) - {cs[i]}
  {
    assert cs[i..] == [cs[i]] + cs[i + 1..];
    StrLessTotal(cs[i], cs[i]);
    forall k | i < k < |cs| ensures cs[k] != cs[i] { assert StrLess(cs[i], cs[k]); }
  }

  lemma TailsAreWindow(ms: seq<Message>, sorted: seq<Message>, t: map<MessageId, Message>, p: PeerId, rooms: Rooms)
    requires ServerNumbers(t) && TailsOf(ms, t, p, rooms, {})
    requires ByNumber(sorted) && multiset(ms) == multiset(sorted)
    ensures IsWindow(sorted, t, p, rooms)
  {
    SameMultiset(ms, sorted);
    ByNumberIsSorted(sorted, t);
  }

  /** What is owed to a resume does not depend on the connections. */
  lemma SameBacklog(s: Server, s': Server, p: PeerId, cursor: nat, reset: bool, ms: seq<Message>)
    requires s'.store == s.store && s'.roster == s.roster
    requires IsBacklog(s', p, cursor, reset, ms)
    ensures IsBacklog(s, p, cursor, reset, ms)
  {
  }

  lemma EnrolledStep(s: Server, k: ConnId, p: PeerId, rooms: Rooms, ms: seq<Message>)
    ensures var s1 := Enlisted(s, p, rooms);
      s1.(conns := s1.conns[k := p], out := s1.out[k := []])
        .Send(k, Renamed(ms, p, s1.RoomsOf(p))).Send(k, [SyncedFrame(s.store.nextSeq, "")])
      == Enrolled(s, k, p, rooms, ms)
  {
    var s1 := Enlisted(s, p, rooms);
    var fs := Renamed(ms, p, s1.RoomsOf(p));
    SendMore(s1.(conns := s1.conns[k := p], out := s1.out[k := []]), k, fs, [SyncedFrame(s.store.nextSeq, "")]);
    assert [] + (fs + [SyncedFrame(s.store.nextSeq, "")]) == fs + [SyncedFrame(s.store.nextSeq, "")];
  }

  class ChatServer {
    const store: ChatStores.ChatStore
    var roster: map<PeerId, Rooms>
    var conns: map<PeerId, seq<ConnId>>
    var out: map<ConnId, seq<Frame>>
    ghost var owner: map<ConnId, PeerId>

    ghost predicate Valid()
      reads this, store
    {
      && store.Valid() && NumbersOk(store.Abs())
      && ListsOwners(conns, owner) && out.Keys == owner.Keys
    }

    ghost function Abs(): Server
      reads this, store
    {
      Server(store.Abs(), roster, owner, out)
    }

    constructor (s: ChatStores.ChatStore)
      requires s.Valid() && NumbersOk(s.Abs())
      ensures Valid() && store == s && Abs() == Server(s.Abs(), map[], map[], map[])
    {
      store := s;
      roster, conns, out, owner := map[], map[], map[], map[];
    }

    // ---------------------------------------------------------------- connections

    method RoomsOf(p: PeerId) returns (rooms: Rooms)
      ensures rooms == Abs().RoomsOf(p)
    {
      rooms := if p in roster then roster[p] else [];
    }

    method Send(k: ConnId, f: Frame)
      modifies `out
      ensures Abs() == old(Abs()).Send(k, [f]) && (old(Valid()) ==> Valid())
    {
      if k in out { out := out[k := out[k] + [f]]; }
    }

    method SendTo(p: PeerId, f: Frame)
      requires Valid()
      modifies `out
      ensures Valid() && Abs() == ServerModel.SendTo(old(Abs()), p, f)
    {
      var ks := if p in conns then conns[p] else [];
      SentToIsSendTo(Abs(), conns, p, f);
      SentToNobody(out, f);
      var i := 0;
      while i < |ks|
        invariant 0 <= i <= |ks|
        invariant out == SentTo(old(out), ks[..i], f)
      {
        SentToMore(old(out), ks, i, f);
        Send(ks[i], f);
        i := i + 1;
      }
      assert ks[..i] == ks;
    }

    method Register(k: ConnId, p: PeerId)
      requires Valid() && k !in owner
      modifies `conns, `out, `owner
      ensures Valid() && Abs() == old(Abs()).(conns := old(owner)[k := p], out := old(out)[k := []])
    {
      OwnersWith(conns, owner, k, p);
      conns := conns[p := (if p in conns then conns[p] else []) + [k]];
      out := out[k := []];
      owner := owner[k := p];
    }

    /** The list without one connection, kept in order. */
    static method Filtered(ks: seq<ConnId>, k: ConnId) returns (rest: seq<ConnId>)
      requires NoRepeat(ks)
      ensures NoRepeat(rest) && forall x :: x in rest <==> x in ks && x != k
    {
      rest := [];
      for i := 0 to |ks|
        invariant NoRepeat(rest)
        invariant forall x :: x in rest <==> x in ks[..i] && x != k
      {
        assert ks[..i + 1] == ks[..i] + [ks[i]];
        if ks[i] != k {
          assert ks[i] !in ks[..i];
          rest := rest + [ks[i]];
        }
      }
      assert ks[..|ks|] == ks;
    }

    method Unregister(k: ConnId, p: PeerId)
      requires Valid() && k in owner && owner[k] == p
      modifies `conns, `out, `owner
      ensures Valid() && Abs() == Gone(old(Abs()), k)
    {
      var rest := Filtered(conns[p], k);
      OwnersWithout(conns, owner, k, rest);
      conns := if rest == [] then conns - {p} else conns[p := rest];
      out := out - {k};
      owner := owner - {k};
    }

    // ------------------------------------------------------------------ messages

    /** To one recipient, under the name that recipient knows the conversation by. */
    method Tell(m: Message, p: PeerId)
      requires Valid()
      modifies `out
      ensures var name := ConvFor(m.conv, p, old(Abs()).RoomsOf(p));
        Abs() == if name.Some? then ServerModel.SendTo(old(Abs()), p, FrameOf(m, name.value)) else old(Abs())
      ensures Valid()
    {
      var rooms := RoomsOf(p);
      var name := ConvFor(m.conv, p, rooms);
      if name.Some? { SendTo(p, FrameOf(m, name.value)); }
    }

    method FanOut(m: Message, who: set<PeerId>)
      requires Valid()
      modifies `out
      ensures Valid() && Abs() == ServerModel.FanOut(old(Abs()), m, who)
    {
      var todo := who;
      FanOutNobody(Abs(), m);
      assert who - todo == {};
      while todo != {}
        invariant todo <= who && Valid()
        invariant Abs() == ServerModel.FanOut(old(Abs()), m, who - todo)
        decreases todo
      {
        var p :| p in todo;
        FanOutOne(old(Abs()), m, who - todo, p);
        assert who - (todo - {p}) == (who - todo) + {p};
        Tell(m, p);
        todo := todo - {p};
      }
      assert who - todo == who;
    }

    /** Whom a message is for, and under which name it is filed. */
    method Routing(sender: PeerId, conv: ConvId) returns (r: Routed)
      ensures r == Route(Abs(), sender, conv)
    {
      if IsRoom(conv) {
        var room := CanonRoom(Room(conv));
        var rooms := RoomsOf(sender);
        if room == "" || !HasRoom(rooms, room) { return Refuse(ERR_NOT_IN_ROOM); }
        var who := set p | p in roster && room in roster[p];
        return To(RoomConv(room), who);
      }
      var other := ConvPeer(conv);
      if other == "" || other == sender { return Refuse(ERR_BAD_FRAME); }
      if other !in roster { return Refuse(ERR_NO_SUCH_PEER); }
      r := To(DirectKey(sender, other), {sender, other});
    }

    /** Numbers a new message and files it. */
    method Sequence(m0: Message, conv: ConvId, now: int) returns (m: Message)
      requires Valid() && m0.id !in store.table && m0.id != "" && conv != ""
      modifies store
      ensures Valid() && m == Stamped(old(Abs()), m0, conv)
      ensures store.Abs() == AppendMsg(StoreModel.NextSeq(old(store.Abs())).0, m, now).0
    {
      var n := store.NextSeq();
      m := m0.(conv := conv, num := n);
      FilingKeepsNumbers(old(store.Abs()), m, now);
      var r := store.Append(m, now);
    }

    method OnMessage(k: ConnId, sender: PeerId, f: Frame, now: int)
      requires Valid() && f.MsgFrame?
      modifies `out, store
      ensures Valid() && Abs() == ServerModel.OnMessage(old(Abs()), k, sender, f, now)
    {
      var parsed := MessageFromFrame(f, sender, now);
      if parsed.None? {
        Send(k, ErrorFrame(ERR_BAD_FRAME));
        return;
      }
      var r := Routing(sender, f.conv);
      if r.Refuse? {
        Send(k, ErrorFrame(r.code));
        return;
      }
      var had := store.Have(parsed.value.id);
      if had {
        var m := store.Message(parsed.value.id);
        if m.Some? { Send(k, SeqFrame(m.value.id, m.value.num)); }
        return;
      }
      RoutedHasAName(Abs(), sender, f.conv);
      var m := Sequence(parsed.value, r.conv, now);
      FanOut(m, r.who);
      SendTo(sender, SeqFrame(m.id, m.num));
    }

    // ------------------------------------------------------------------ backlog

    static method Visible(all: seq<Message>, p: PeerId, rooms: Rooms) returns (ms: seq<Message>)
      requires Sorted(all)
      ensures Sorted(ms) && forall x :: x in ms <==> x in all && Sees(x.conv, p, rooms)
    {
      ms := [];
      for i := 0 to |all|
        invariant forall x :: x in ms <==> x in all[..i] && Sees(x.conv, p, rooms)
        invariant Sorted(ms)
      {
        assert all[..i + 1] == all[..i] + [all[i]];
        if ConvFor(all[i].conv, p, rooms).Some? {
          forall j | 0 <= j < |ms| ensures Less(ms[j], all[i]) {
            assert ms[j] in all[..i];
            var n :| 0 <= n < i && all[n] == ms[j];
          }
          ms := ms + [all[i]];
        }
      }
      assert all[..|all|] == all;
    }

    method VisibleSince(p: PeerId, cursor: nat) returns (ms: seq<Message>)
      requires Valid()
      ensures IsDelta(ms, store.table, p, Abs().RoomsOf(p), cursor)
    {
      var rooms := RoomsOf(p);
      var since, all := store.Since(cursor, 0);
      ms := Visible(since, p, rooms);
    }

    method RecentWindow(p: PeerId) returns (ms: seq<Message>)
      requires Valid()
      ensures IsWindow(ms, store.table, p, Abs().RoomsOf(p))
    {
      var rooms := RoomsOf(p);
      var cs := store.Convs();
      ms := [];
      var i := 0;
      while i < |cs|
        invariant 0 <= i <= |cs| && TailsOf(ms, store.table, p, rooms, NamesIn(cs[i..]))
      {
        NextName(cs, i);
        VisibleIsNamed(cs[i], p, rooms);
        if ConvVisible(cs[i], p, rooms) {
          var tail := store.Messages(cs[i], BACKLOG_WINDOW);
          TailListed(ChatStores.ListOf(store.msgs, cs[i]), store.table, cs[i]);
          MoreTails(ms, store.table, p, rooms, NamesIn(cs[i..]), cs[i], tail);
          ms := ms + tail;
        }
        i := i + 1;
      }
      ghost var tails := ms;
      var list := new Message[|ms|](k requires 0 <= k < |ms| => ms[k]);
      assert list[..] == ms;
      SortBySeq(list);
      ms := list[..];
      TailsAreWindow(tails, ms, store.table, p, rooms);
    }

    /** The messages a resume is answered with. */
    method Missed(p: PeerId, cursor: nat, reset: bool) returns (ms: seq<Message>)
      requires Valid()
      ensures IsBacklog(Abs(), p, cursor, reset, ms)
    {
      var late := reset;
      var delta := VisibleSince(p, cursor);
      ms := delta;
      if |delta| > MAX_BACKLOG { late := true; }
      if late { ms := RecentWindow(p); }
    }

    /** Queues messages under the names the recipient calls their conversations. */
    method SendRenamed(k: ConnId, p: PeerId, ms: seq<Message>)
      requires Valid() && k in out
      modifies `out
      ensures Valid() && Abs() == old(Abs()).Send(k, Renamed(ms, p, old(Abs()).RoomsOf(p)))
    {
      var rooms := RoomsOf(p);
      SendNothing(Abs(), k);
      for i := 0 to |ms|
        invariant Valid() && k in out && Abs() == old(Abs()).Send(k, Renamed(ms[..i], p, rooms))
      {
        OneMoreFrame(p, rooms, ms, i);
        var name := ConvFor(ms[i].conv, p, rooms);
        if name.Some? {
          SendMore(old(Abs()), k, Renamed(ms[..i], p, rooms), [FrameOf(ms[i], name.value)]);
          Send(k, FrameOf(ms[i], name.value));
        }
      }
      assert ms[..|ms|] == ms;
    }

    method SetRooms(p: PeerId, rooms: Rooms)
      requires Valid()
      modifies `roster
      ensures Valid() && Abs() == Enlisted(old(Abs()), p, rooms)
    {
      roster := roster[p := CanonRooms(rooms)];
    }

    /** A hello: the rooms are recorded, the cursor is read, the connection is registered, and
        only then is the history read. */
    method Enrol(k: ConnId, p: PeerId, rooms: Rooms, from: nat, foreign: bool) returns (ms: seq<Message>)
      requires Valid() && k !in owner
      modifies this
      ensures Valid() && Abs() == Enrolled(old(Abs()), k, p, rooms, ms)
      ensures IsBacklog(Enlisted(old(Abs()), p, rooms), p, from, Reset(old(Abs()), from, foreign), ms)
    {
      SetRooms(p, rooms);
      var cursor := store.nextSeq;
      var reset := from > cursor || foreign;
      ghost var listed := Abs();
      Register(k, p);
      ms := Missed(p, from, reset);
      SameBacklog(listed, Abs(), p, from, reset, ms);
      EnrolledStep(old(Abs()), k, p, rooms, ms);
      SendRenamed(k, p, ms);
      Send(k, SyncedFrame(cursor, ""));
    }

    // ------------------------------------------------------------------- rooms

    method SendVerbatim(k: ConnId, ms: seq<Message>)
      requires Valid()
      modifies `out
      ensures Valid() && Abs() == old(Abs()).Send(k, Verbatim(ms))
    {
      SendNothing(Abs(), k);
      for i := 0 to |ms|
        invariant Valid() && Abs() == old(Abs()).Send(k, Verbatim(ms[..i]))
      {
        assert Verbatim(ms[..i + 1]) == Verbatim(ms[..i]) + [FrameOf(ms[i], ms[i].conv)];
        SendMore(old(Abs()), k, Verbatim(ms[..i]), [FrameOf(ms[i], ms[i].conv)]);
        Send(k, FrameOf(ms[i], ms[i].conv));
      }
      assert ms[..|ms|] == ms;
    }

    method OnJoin(k: ConnId, p: PeerId, name: string) returns (ghost history: seq<Message>)
      requires Valid()
      modifies `roster, `out
      ensures Valid() && IsListing(history, store.table, RoomConv(name))
      ensures Abs() == ServerModel.OnJoin(old(Abs()), k, p, name, history)
    {
      history := ChatStores.ListOf(store.msgs, RoomConv(name));
      var room := CanonRoom(name);
      CanonRoomIdempotent(name);
      var tail := store.Messages(RoomConv(room), BACKLOG_WINDOW);
      if room == "" || |room| > MAX_ROOM {
        Send(k, ErrorFrame(ERR_BAD_FRAME));
        return;
      }
      var rooms := RoomsOf(p);
      if !HasRoom(rooms, room) { SetRooms(p, rooms + [room]); }
      SendMore(Abs(), k, Verbatim(tail), [SyncedFrame(store.nextSeq, room)]);
      SendVerbatim(k, tail);
      Send(k, SyncedFrame(store.nextSeq, room));
    }

    method OnLeave(p: PeerId, name: string)
      requires Valid()
      modifies `roster
      ensures Valid() && Abs() == ServerModel.OnLeave(old(Abs()), p, name)
    {
      var room := CanonRoom(name);
      var rooms := RoomsOf(p);
      var left: Rooms := [];
      for i := 0 to |rooms|
        invariant left == Without(rooms[..i], room)
      {
        assert rooms[..i + 1][..i] == rooms[..i];
        if rooms[i] != room { left := left + [rooms[i]]; }
      }
      assert rooms[..|rooms|] == rooms;
      SetRooms(p, left);
    }
  }
}
