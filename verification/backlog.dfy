/** What a resume is sent (chatserver/server.go): a delta, or a window when the delta is too
    long or the cursor is no use; and exactly when the window leaves something out. */
module Backlog {
  import opened Names
  import opened Messages
  import opened StoreModel
  import opened ServerModel

  /** Numbers as the server hands them out. */
  ghost predicate ServerNumbers(t: map<MessageId, Message>) {
    && Keyed(t)
    && (forall id :: id in t ==> t[id].num > 0)
    && (forall i, j :: i in t && j in t && t[i].num == t[j].num ==> i == j)
  }

  ghost predicate ByNumber(ms: seq<Message>) {
    forall i, j :: 0 <= i < j < |ms| ==> ms[i].num <= ms[j].num
  }

  /** On numbered messages the insertion sort by number gives the order of the lists. */
  lemma ByNumberIsSorted(ms: seq<Message>, t: map<MessageId, Message>)
    requires ServerNumbers(t) && ByNumber(ms) && DistinctIds(ms)
    requires forall x :: x in ms ==> x.id in t && t[x.id] == x
    ensures Sorted(ms)
  {
    forall i, j | 0 <= i < j < |ms| ensures Less(ms[i], ms[j]) {
      assert ms[i] in ms && ms[j] in ms && ms[i].id != ms[j].id;
    }
  }

  // ------------------------------------------------------- what a window leaves out

  /** The messages of one conversation numbered above a cursor. */
  ghost function Missed(t: map<MessageId, Message>, c: ConvId, cursor: nat): set<MessageId> {
    set id | id in t && t[id].conv == c && t[id].num > cursor
  }

  lemma {:induction false} DistinctCount(s: seq<Message>)
    requires DistinctIds(s)
    ensures |IdsOf(s)| == |s|
  {
    if s != [] {
      DistinctCount(s[..|s| - 1]);
      var last := s[|s| - 1];
      assert IdsOf(s) == IdsOf(s[..|s| - 1]) + {last.id};
      if last.id in IdsOf(s[..|s| - 1]) { IdIn(s[..|s| - 1], last.id); }
    }
  }

  ghost function IdsOf(s: seq<Message>): set<MessageId> {
    if s == [] then {} else IdsOf(s[..|s| - 1]) + {s[|s| - 1].id}
  }

  lemma {:induction false} IdIn(s: seq<Message>, id: MessageId)
    ensures id in IdsOf(s) <==> exists i :: 0 <= i < |s| && s[i].id == id
  {
    if s != [] {
      IdIn(s[..|s| - 1], id);
      assert forall i :: 0 <= i < |s| - 1 ==> s[..|s| - 1][i] == s[i];
    }
  }

  /** In a list of the server the messages above a cursor are a suffix. */
  lemma {:induction false} AboveIsSuffix(l: seq<Message>, t: map<MessageId, Message>, c: ConvId, cursor: nat)
    returns (k: nat)
    requires ServerNumbers(t) && IsListing(l, t, c)
    ensures k <= |l| && |Missed(t, c, cursor)| == |l| - k
    ensures forall i :: 0 <= i < |l| ==> (l[i].num > cursor <==> i >= k)
  {
    k := 0;
    while k < |l| && l[k].num <= cursor
      invariant k <= |l| && forall i :: 0 <= i < k ==> l[i].num <= cursor
    {
      k := k + 1;
    }
    forall i | k <= i < |l| ensures l[i].num > cursor {
      if i > k { assert Less(l[k], l[i]); }
      assert t[l[k].id] == l[k] && t[l[i].id] == l[i];
    }
    SuffixCount(l, t, c, cursor, k);
  }

  lemma SuffixCount(l: seq<Message>, t: map<MessageId, Message>, c: ConvId, cursor: nat, k: nat)
    requires Keyed(t) && IsListing(l, t, c) && k <= |l|
    requires forall i :: 0 <= i < |l| ==> (l[i].num > cursor <==> i >= k)
    ensures |Missed(t, c, cursor)| == |l| - k
  {
    var s := l[k..];
    SortedDistinct(l);
    forall i, j | 0 <= i < j < |s| ensures s[i].id != s[j].id {
      assert t[l[k + i].id] == l[k + i] && t[l[k + j].id] == l[k + j];
    }
    DistinctCount(s);
    forall id ensures id in IdsOf(s) <==> id in Missed(t, c, cursor) {
      IdIn(s, id);
      if id in IdsOf(s) {
        var i :| 0 <= i < |s| && s[i].id == id;
        assert s[i] == l[k + i] && t[l[k + i].id] == l[k + i];
      }
      if id in Missed(t, c, cursor) {
        assert t[id] in l;
        var i :| 0 <= i < |l| && l[i] == t[id];
        assert s[i - k] == l[i];
      }
    }
    assert IdsOf(s) == Missed(t, c, cursor);
  }

  /** The tail of a conversation holds everything above a cursor exactly when there is no more
      of it than the tail is long. */
  lemma TailCovers(l: seq<Message>, t: map<MessageId, Message>, c: ConvId, cursor: nat)
    requires ServerNumbers(t) && IsListing(l, t, c)
    ensures (forall x :: x in l && x.num > cursor ==> x in Tail(l, BACKLOG_WINDOW))
       <==> |Missed(t, c, cursor)| <= BACKLOG_WINDOW
  {
    var k := AboveIsSuffix(l, t, c, cursor);
    var tail := Tail(l, BACKLOG_WINDOW);
    SortedDistinct(l);
    if |l| - k <= BACKLOG_WINDOW {
      forall x | x in l && x.num > cursor ensures x in tail {
        var i :| 0 <= i < |l| && l[i] == x;
        assert |l| > BACKLOG_WINDOW ==> tail[i - (|l| - BACKLOG_WINDOW)] == x;
      }
    } else {
      assert l[k] in l && l[k].num > cursor;
      assert forall j :: 0 <= j < |tail| ==> tail[j] == l[|l| - BACKLOG_WINDOW + j];
      assert l[k] !in tail;
    }
  }

  lemma InTailIs(l: seq<Message>, t: map<MessageId, Message>, x: Message)
    requires IsListing(l, t, x.conv)
    ensures InTail(x, t, BACKLOG_WINDOW) <==> x in Tail(l, BACKLOG_WINDOW)
  {
    if InTail(x, t, BACKLOG_WINDOW) {
      var l' :| IsListing(l', t, x.conv) && x in Tail(l', BACKLOG_WINDOW);
      ListingUnique(l, l', t, x.conv);
    }
  }

  ghost predicate BringsMissed(ms: seq<Message>, t: map<MessageId, Message>, p: PeerId, rooms: Rooms, cursor: nat) {
    forall id :: id in t && Sees(t[id].conv, p, rooms) && t[id].num > cursor ==> t[id] in ms
  }

  /** Past MAX_BACKLOG a client that was not told to start again is sent the window. It then
      has everything it missed exactly when no conversation it sees has more than
      BACKLOG_WINDOW messages above its cursor; otherwise its cursor moves past messages it
      will never be sent. lists gives the list of each conversation. */
  lemma OverlongBacklogIsCompleteExactlyWhen(s: Server, p: PeerId, cursor: nat, ms: seq<Message>, delta: seq<Message>,
                                             lists: map<ConvId, seq<Message>>)
    requires ServerNumbers(s.store.table) && !Reset(s, cursor, false)
    requires IsDelta(delta, s.store.table, p, s.RoomsOf(p), cursor) && |delta| > MAX_BACKLOG
    requires IsBacklog(s, p, cursor, false, ms)
    requires forall id :: id in s.store.table ==> s.store.table[id].conv in lists
    requires forall c :: c in lists ==> IsListing(lists[c], s.store.table, c)
    ensures BringsMissed(ms, s.store.table, p, s.RoomsOf(p), cursor)
       <==> forall c :: c in lists && Sees(c, p, s.RoomsOf(p)) ==> |Missed(s.store.table, c, cursor)| <= BACKLOG_WINDOW
  {
    var t, rooms := s.store.table, s.RoomsOf(p);
    OneDelta(delta, t, p, rooms, cursor);
    WindowBringsExactlyWhen(t, p, rooms, cursor, ms, lists);
  }

  /** A window brings everything above a cursor exactly when no conversation has more than
      BACKLOG_WINDOW there. */
  lemma WindowBringsExactlyWhen(t: map<MessageId, Message>, p: PeerId, rooms: Rooms, cursor: nat, ms: seq<Message>,
                                lists: map<ConvId, seq<Message>>)
    requires ServerNumbers(t) && IsWindow(ms, t, p, rooms)
    requires forall id :: id in t ==> t[id].conv in lists
    requires forall c :: c in lists ==> IsListing(lists[c], t, c)
    ensures BringsMissed(ms, t, p, rooms, cursor)
       <==> forall c :: c in lists && Sees(c, p, rooms) ==> |Missed(t, c, cursor)| <= BACKLOG_WINDOW
  {
    if BringsMissed(ms, t, p, rooms, cursor) {
      forall c | c in lists && Sees(c, p, rooms) ensures |Missed(t, c, cursor)| <= BACKLOG_WINDOW {
        forall x | x in lists[c] && x.num > cursor ensures x in Tail(lists[c], BACKLOG_WINDOW) {
          assert x.id in t && t[x.id] == x && x.conv == c;
          assert x in ms;
          InTailIs(lists[c], t, x);
        }
        TailCovers(lists[c], t, c, cursor);
      }
    }
    if forall c :: c in lists && Sees(c, p, rooms) ==> |Missed(t, c, cursor)| <= BACKLOG_WINDOW {
      forall id | id in t && Sees(t[id].conv, p, rooms) && t[id].num > cursor ensures t[id] in ms {
        var c := t[id].conv;
        TailCovers(lists[c], t, c, cursor);
        assert t[id] in lists[c];
        InTailIs(lists[c], t, t[id]);
      }
    }
  }

  /** There is one delta. */
  lemma OneDelta(delta: seq<Message>, t: map<MessageId, Message>, p: PeerId, rooms: Rooms, cursor: nat)
    requires IsDelta(delta, t, p, rooms, cursor)
    ensures forall d :: IsDelta(d, t, p, rooms, cursor) ==> d == delta
  {
    forall d | IsDelta(d, t, p, rooms, cursor) ensures d == delta {
      forall x ensures x in d <==> x in delta {
        if x in d { assert t[x.id] in delta; }
        if x in delta { assert t[x.id] in d; }
      }
      SortedUnique(d, delta);
    }
  }

  // ------------------------------------------------------------- a cursor of no use

  /** A cursor ahead of the server's counter did not come from there: what follows it is nothing,
      and its client is sent the window instead. */
  lemma AheadIsSentTheWindow(s: Server, p: PeerId, cursor: nat, ms: seq<Message>)
    requires TableOk(s.store.table, s.store.nextSeq) && cursor > s.store.nextSeq
    requires IsBacklog(s, p, cursor, Reset(s, cursor, false), ms)
    ensures IsDelta([], s.store.table, p, s.RoomsOf(p), cursor) && IsWindow(ms, s.store.table, p, s.RoomsOf(p))
  {
  }

  lemma OneWindow(a: seq<Message>, b: seq<Message>, t: map<MessageId, Message>, p: PeerId, rooms: Rooms)
    requires IsWindow(a, t, p, rooms) && IsWindow(b, t, p, rooms)
    ensures a == b
  {
    forall x ensures x in a <==> x in b {
      if x in a { assert t[x.id] in b; }
      if x in b { assert t[x.id] in a; }
    }
    SortedUnique(a, b);
  }

  /** A client that is told to start again is sent what a new client would be exactly when that is
      more than MAX_BACKLOG, or no conversation it sees has more than BACKLOG_WINDOW; otherwise it
      is sent less. */
  lemma ResetIsFreshExactlyWhen(s: Server, p: PeerId, cursor: nat, ms: seq<Message>, first: seq<Message>,
                                all: seq<Message>, lists: map<ConvId, seq<Message>>)
    requires ServerNumbers(s.store.table) && IsBacklog(s, p, cursor, true, ms) && IsBacklog(s, p, 0, false, first)
    requires IsDelta(all, s.store.table, p, s.RoomsOf(p), 0)
    requires forall id :: id in s.store.table ==> s.store.table[id].conv in lists
    requires forall c :: c in lists ==> IsListing(lists[c], s.store.table, c)
    ensures (forall x :: x in ms ==> x in all)
    ensures ms == first <==>
      (|all| > MAX_BACKLOG
       || forall c :: c in lists && Sees(c, p, s.RoomsOf(p)) ==> |Missed(s.store.table, c, 0)| <= BACKLOG_WINDOW)
  {
    var t, rooms := s.store.table, s.RoomsOf(p);
    OneDelta(all, t, p, rooms, 0);
    WindowBringsExactlyWhen(t, p, rooms, 0, ms, lists);
    forall x | x in ms ensures x in all { assert t[x.id] == x; }
    if |all| > MAX_BACKLOG {
      OneWindow(ms, first, t, p, rooms);
    } else {
      WindowIsAllExactlyWhen(t, p, rooms, ms, all);
    }
  }

  lemma WindowIsAllExactlyWhen(t: map<MessageId, Message>, p: PeerId, rooms: Rooms, ms: seq<Message>, all: seq<Message>)
    requires ServerNumbers(t) && IsWindow(ms, t, p, rooms) && IsDelta(all, t, p, rooms, 0)
    ensures ms == all <==> BringsMissed(ms, t, p, rooms, 0)
  {
    if BringsMissed(ms, t, p, rooms, 0) {
      forall x ensures x in ms <==> x in all {
        if x in ms { assert t[x.id] in all; }
        if x in all { assert t[x.id] in ms; }
      }
      SortedUnique(ms, all);
    }
  }
}
