/** A process that dies in the middle of a line (chat/store.go, appendLog and loadLog). A server
    reads its counter back from the lines, so a number whose line cannot be read is given out again
    (chatserver/handle.go, onMessage); a client does not ask again for what its cursor has passed,
    whether or not it still has it (chatclientd/link.go, session). */
module Torn {
  import opened Names
  import opened Messages
  import opened StoreModel
  import opened Journal
  import NoLoss
  import Outlives
  import ServerModel

  // ------------------------------------------------------------- filing after filing

  /** The message as the server files it: under the next number. */
  function Numbered(s: Store, m: Message): Message { m.(num := NextSeq(s).1) }

  function FiledNext(s: Store, m: Message): Store { AppendMsg(NextSeq(s).0, Numbered(s, m), 0).0 }

  /** These messages filed one after another, and the store after each of them. */
  predicate Filing(ms: seq<Message>, ts: seq<Store>) {
    |ts| == |ms| + 1 && forall i :: 0 <= i < |ms| ==> ts[i + 1] == FiledNext(ts[i], ms[i])
  }

  predicate Good(m: Message) { m.id != "" && m.conv != "" && m.sent != 0 && |m.body| <= MAX_BODY_RUNES }

  /** No line of any file carries a number above n. */
  ghost predicate CountedUpTo(s: Store, n: nat) { forall c :: Top(s.File(c).Read()) <= n }

  /** Nothing has been heard of the message. */
  ghost predicate Unheard(s: Store, m: Message) {
    Good(m) && m.id !in s.table && forall c :: !HasMsg(s.File(c).Read(), m.id)
  }

  /** Messages that are new to the server, for a server that knows its files. */
  ghost predicate Files(s: Store, ms: seq<Message>) {
    && s.persist && DirLoadable(s) && CountedUpTo(s, s.nextSeq)
    && (forall i :: 0 <= i < |ms| ==> Unheard(s, ms[i]))
    && (forall i, j :: 0 <= i < j < |ms| ==> ms[i].id != ms[j].id)
  }

  /** When the k-th is filed its file ends in a newline: it did so from the first, or something has
      been filed in it since. */
  predicate Whole(s: Store, ms: seq<Message>, k: nat)
    requires k < |ms|
  {
    s.File(ms[k].conv).tail.Ended? || exists i :: 0 <= i < k && ms[i].conv == ms[k].conv
  }

  // ------------------------------------------------------------------------ one filing

  ghost predicate Ready(s: Store, m: Message) {
    && s.persist && Good(m) && m.id !in s.table
    && Loadable(s.File(m.conv).Read(), m.conv) && !HasMsg(s.File(m.conv).Read(), m.id)
  }

  lemma FiledFile(s: Store, m: Message)
    requires s.persist && Good(m) && m.id !in s.table
    ensures var s' := FiledNext(s, m);
      && s'.persist && s'.nextSeq == s.nextSeq + 1 && s'.table == s.table[m.id := Numbered(s, m)]
      && (forall c :: c != m.conv ==> s'.File(c) == s.File(c))
      && s'.File(m.conv) == AppendLog(s.File(m.conv), MsgLine(Numbered(s, m)))
  {
    assert Filed(Numbered(s, m), 0) == Numbered(s, m);
  }

  /** What a line adds to a file, and what an unfinished end takes from both. */
  lemma AppendedLines(f: LogFile, m: Message)
    requires Loadable(f.Read(), m.conv) && m.id != "" && m.conv != "" && !HasMsg(f.Read(), m.id)
    ensures var g := AppendLog(f, MsgLine(m));
      && g.tail.Ended? && Loadable(g.lines, m.conv)
      && Top(g.lines) == (if f.tail.Ended? then Max(Top(f.lines), m.num) else Top(f.lines))
      && Top(f.lines) <= Top(f.Read())
      && (forall id :: HasMsg(g.lines, id) <==> HasMsg(f.lines, id) || (f.tail.Ended? && id == m.id))
      && (forall id :: HasMsg(f.lines, id) ==> HasMsg(f.Read(), id))
  {
    NoLoss.FirmIsRead(f, m.conv);
    var l := if f.tail.Ended? then MsgLine(m) else Garbled;
    NoLoss.MsgTableMore(f.lines, l);
    NoLoss.LoadableMore(f.lines, l, m.conv);
    InitOfSnoc(f.lines, l);
    if !f.tail.Ended? { InitOfSnoc(f.lines, if f.tail.Half? then Garbled else f.tail.l); }
  }

  /** One filing, as the rest of this file needs it. */
  lemma OneFiled(s: Store, m: Message)
    requires Ready(s, m)
    ensures var s', f, g := FiledNext(s, m), s.File(m.conv), FiledNext(s, m).File(m.conv);
      && s'.persist && s'.nextSeq == s.nextSeq + 1 && s'.table == s.table[m.id := Numbered(s, m)]
      && (forall c :: c != m.conv ==> s'.File(c) == s.File(c))
      && g.tail.Ended? && g.Read() == g.lines && Loadable(g.lines, m.conv)
      && Top(g.lines) == (if f.tail.Ended? then Max(Top(f.lines), s.nextSeq + 1) else Top(f.lines))
      && Top(f.lines) <= Top(f.Read())
      && (forall id :: HasMsg(g.lines, id) <==> HasMsg(f.lines, id) || (f.tail.Ended? && id == m.id))
      && (forall id :: HasMsg(f.lines, id) ==> HasMsg(f.Read(), id))
  {
    FiledFile(s, m);
    AppendedLines(s.File(m.conv), Numbered(s, m));
  }

  // --------------------------------------------------------------- what any number leave

  ghost predicate Comes(s: Store, ms: seq<Message>, n: nat, c: ConvId, id: MessageId)
    requires n <= |ms|
  {
    exists i :: 0 <= i < n && ms[i].id == id && ms[i].conv == c && Whole(s, ms, i)
  }

  /** What is in the table and in the files was there, or has been filed; and in a file only if it
      was filed whole. */
  ghost predicate Sofar(s: Store, ms: seq<Message>, n: nat, t: Store)
    requires n <= |ms|
  {
    && t.persist && t.nextSeq == s.nextSeq + n
    && (forall id :: id in t.table ==> id in s.table || exists i :: 0 <= i < n && ms[i].id == id)
    && (forall i :: 0 <= i < n ==> ms[i].id in t.table && t.table[ms[i].id].num == s.nextSeq + i + 1)
    && (forall c :: Loadable(t.File(c).Read(), c))
    && (forall c, id :: HasMsg(t.File(c).Read(), id) ==> HasMsg(s.File(c).Read(), id) || Comes(s, ms, n, c, id))
    && (forall c :: t.File(c) == s.File(c) || t.File(c).tail.Ended?)
    && (forall c :: t.File(c).tail.Ended? <==> s.File(c).tail.Ended? || exists i :: 0 <= i < n && ms[i].conv == c)
  }

  lemma SofarReady(s: Store, ms: seq<Message>, n: nat, t: Store)
    requires Files(s, ms) && n < |ms| && Sofar(s, ms, n, t)
    ensures Ready(t, ms[n]) && (t.File(ms[n].conv).tail.Ended? <==> Whole(s, ms, n))
  {
    assert Unheard(s, ms[n]);
  }

  lemma SofarTable(s: Store, ms: seq<Message>, n: nat, t: Store)
    requires Files(s, ms) && n < |ms| && Sofar(s, ms, n, t)
    ensures var t' := FiledNext(t, ms[n]);
      && t'.persist && t'.nextSeq == s.nextSeq + n + 1
      && (forall id :: id in t'.table ==> id in s.table || exists i :: 0 <= i < n + 1 && ms[i].id == id)
      && (forall i :: 0 <= i < n + 1 ==> ms[i].id in t'.table && t'.table[ms[i].id].num == s.nextSeq + i + 1)
  {
    SofarReady(s, ms, n, t);
    FiledFile(t, ms[n]);
  }

  lemma SofarFiles(s: Store, ms: seq<Message>, n: nat, t: Store)
    requires Files(s, ms) && n < |ms| && Sofar(s, ms, n, t)
    ensures var t' := FiledNext(t, ms[n]);
      && (forall c :: Loadable(t'.File(c).Read(), c))
      && (forall c, id :: HasMsg(t'.File(c).Read(), id) ==> HasMsg(s.File(c).Read(), id) || Comes(s, ms, n + 1, c, id))
  {
    var m, t' := ms[n], FiledNext(t, ms[n]);
    SofarReady(s, ms, n, t);
    OneFiled(t, m);
    forall c, id | HasMsg(t'.File(c).Read(), id) ensures HasMsg(s.File(c).Read(), id) || Comes(s, ms, n + 1, c, id) {
      if HasMsg(t.File(c).Read(), id) {
        if Comes(s, ms, n, c, id) { var i :| 0 <= i < n && ms[i].id == id && ms[i].conv == c && Whole(s, ms, i); }
      } else {
        assert c == m.conv && id == m.id && Whole(s, ms, n);
      }
    }
  }

  lemma SofarEnds(s: Store, ms: seq<Message>, n: nat, t: Store)
    requires Files(s, ms) && n < |ms| && Sofar(s, ms, n, t)
    ensures var t' := FiledNext(t, ms[n]);
      && (forall c :: t'.File(c) == s.File(c) || t'.File(c).tail.Ended?)
      && (forall c :: t'.File(c).tail.Ended? <==>
            s.File(c).tail.Ended? || exists i :: 0 <= i < n + 1 && ms[i].conv == c)
  {
    SofarReady(s, ms, n, t);
    OneFiled(t, ms[n]);
  }

  lemma SofarMore(s: Store, ms: seq<Message>, n: nat, t: Store)
    requires Files(s, ms) && n < |ms| && Sofar(s, ms, n, t)
    ensures Sofar(s, ms, n + 1, FiledNext(t, ms[n]))
  {
    SofarTable(s, ms, n, t);
    SofarFiles(s, ms, n, t);
    SofarEnds(s, ms, n, t);
  }

  lemma {:induction false} FiledSofar(ms: seq<Message>, ts: seq<Store>, n: nat)
    requires Filing(ms, ts) && Files(ts[0], ms) && n <= |ms|
    ensures Sofar(ts[0], ms, n, ts[n])
  {
    if n == 0 {
      assert Sofar(ts[0], ms, 0, ts[0]);
    } else {
      FiledSofar(ms, ts, n - 1);
      SofarMore(ts[0], ms, n - 1, ts[n - 1]);
    }
  }

  lemma FiledReady(ms: seq<Message>, ts: seq<Store>, n: nat)
    requires Filing(ms, ts) && Files(ts[0], ms) && n < |ms|
    ensures Ready(ts[n], ms[n]) && (ts[n].File(ms[n].conv).tail.Ended? <==> Whole(ts[0], ms, n))
    ensures ts[n].nextSeq == ts[0].nextSeq + n
  {
    FiledSofar(ms, ts, n);
    SofarReady(ts[0], ms, n, ts[n]);
  }

  /** The file has this message for good, and a number that high. */
  predicate Kept(f: LogFile, id: MessageId, num: nat) { HasMsg(f.lines, id) && Top(f.lines) >= num }

  lemma KeptOn(t: Store, m: Message, c: ConvId, id: MessageId, num: nat)
    requires Ready(t, m) && Kept(t.File(c), id, num)
    ensures Kept(FiledNext(t, m).File(c), id, num)
  {
    OneFiled(t, m);
  }

  lemma KeptNow(t: Store, m: Message)
    requires Ready(t, m) && t.File(m.conv).tail.Ended?
    ensures Kept(FiledNext(t, m).File(m.conv), m.id, t.nextSeq + 1)
  {
    OneFiled(t, m);
  }

  lemma {:induction false} WholeStays(ms: seq<Message>, ts: seq<Store>, n: nat, k: nat)
    requires Filing(ms, ts) && Files(ts[0], ms) && k < n <= |ms| && Whole(ts[0], ms, k)
    ensures Kept(ts[n].File(ms[k].conv), ms[k].id, ts[0].nextSeq + k + 1)
  {
    FiledReady(ms, ts, n - 1);
    if k < n - 1 {
      WholeStays(ms, ts, n - 1, k);
      KeptOn(ts[n - 1], ms[n - 1], ms[k].conv, ms[k].id, ts[0].nextSeq + k + 1);
    } else {
      KeptNow(ts[k], ms[k]);
    }
  }

  lemma KeptIsRead(f: LogFile, c: ConvId, id: MessageId, num: nat)
    requires Loadable(f.Read(), c) && Kept(f, id, num)
    ensures HasMsg(f.Read(), id) && Top(f.Read()) >= num
  {
    NoLoss.FirmIsRead(f, c);
    if !f.tail.Ended? { InitOfSnoc(f.lines, if f.tail.Half? then Garbled else f.tail.l); }
  }

  lemma CountedOn(t: Store, m: Message, v: nat)
    requires Ready(t, m) && CountedUpTo(t, v) && (t.File(m.conv).tail.Ended? ==> t.nextSeq < v)
    ensures CountedUpTo(FiledNext(t, m), v)
  {
    OneFiled(t, m);
    forall c ensures Top(FiledNext(t, m).File(c).Read()) <= v { assert Top(t.File(c).Read()) <= v; }
  }

  lemma CountedMore(t: Store, v: nat, v': nat)
    requires CountedUpTo(t, v) && v <= v'
    ensures CountedUpTo(t, v')
  {
  }

  /** If from the k-th on none was filed whole, no line carries a number from there on. */
  lemma {:induction false} NoneWholeCounts(ms: seq<Message>, ts: seq<Store>, n: nat, k: nat)
    requires Filing(ms, ts) && Files(ts[0], ms) && k <= n <= |ms| && forall i :: k <= i < n ==> !Whole(ts[0], ms, i)
    ensures CountedUpTo(ts[n], ts[0].nextSeq + k)
  {
    if n > 0 {
      var v := if k < n then k else n - 1;
      FiledReady(ms, ts, n - 1);
      NoneWholeCounts(ms, ts, n - 1, v);
      CountedMore(ts[n - 1], ts[0].nextSeq + v, ts[0].nextSeq + k);
      CountedOn(ts[n - 1], ms[n - 1], ts[0].nextSeq + k);
    }
  }

  /** No message is in two files. */
  lemma SofarApart(s: Store, ms: seq<Message>, n: nat, t: Store, c: ConvId, d: ConvId, id: MessageId)
    requires Files(s, ms) && n <= |ms| && Sofar(s, ms, n, t)
    requires HasMsg(t.File(c).Read(), id) && HasMsg(t.File(d).Read(), id)
    ensures c == d
  {
    if Comes(s, ms, n, c, id) || Comes(s, ms, n, d, id) {
      var i :| 0 <= i < n && ms[i].id == id;
      assert Unheard(s, ms[i]);
      assert Comes(s, ms, n, c, id) && Comes(s, ms, n, d, id);
    }
  }

  lemma SofarLoadable(s: Store, ms: seq<Message>, n: nat, t: Store)
    requires Files(s, ms) && n <= |ms| && Sofar(s, ms, n, t)
    ensures DirLoadable(t)
  {
    forall c, d, id | HasMsg(t.File(c).Read(), id) && HasMsg(t.File(d).Read(), id) ensures c == d {
      SofarApart(s, ms, n, t, c, d, id);
    }
  }

  lemma {:induction false} CounterReadBack(b: Store, names: seq<ConvId>, n: nat)
    requires CountedUpTo(b, n) && b.nextSeq <= n
    ensures LoadDir(b, names).nextSeq <= n && LoadDir(b, names).files == b.files
  {
    if names != [] {
      CounterReadBack(b, Init(names), n);
      assert Top(b.File(Last(names)).Read()) <= n;
      assert LoadDir(b, Init(names)).File(Last(names)) == b.File(Last(names));
    }
  }

  /** What a restart reads back of a directory: the counter is the highest number in a line. */
  lemma RestartCounts(t: Store, names: seq<ConvId>, n: nat)
    requires DirLoadable(t) && Lists(names, t)
    ensures CountedUpTo(t, n) <==> Reload(t, names).nextSeq <= n
    ensures forall id :: id in Reload(t, names).table <==> exists c :: HasMsg(t.File(c).Read(), id)
  {
    var b := Store(t.persist, map[], map[], 0, t.files);
    NoLoss.DirDependsOnFiles(t, b, names);
    LoadDirReads(b, b, names);
    assert forall c :: b.File(c) == t.File(c);
    if CountedUpTo(t, n) { CounterReadBack(b, names, n); }
    forall c ensures Top(t.File(c).Read()) <= Reload(t, names).nextSeq { assert c in t.files ==> c in names; }
    forall id | id in Reload(t, names).table ensures exists c :: HasMsg(t.File(c).Read(), id) {
      assert HasMsg(b.File(Reload(t, names).table[id].conv).Read(), id);
    }
    forall c, id | HasMsg(t.File(c).Read(), id) ensures id in Reload(t, names).table {
      assert c in names && HasMsg(b.File(c).Read(), id);
    }
  }

  // ---------------------------------------------------------------- numbers given again

  /** Messages are filed and their numbers announced, one after another, and the server is started
      again. The number of the k-th is still to be given out exactly when neither it nor anything
      filed after it went into a file that ended in a newline; and the message is there exactly when
      it did so itself. */
  lemma NumberReusedExactlyWhen(ms: seq<Message>, ts: seq<Store>, k: nat, names: seq<ConvId>)
    requires Filing(ms, ts) && Files(ts[0], ms) && k < |ms| && Lists(names, ts[|ms|])
    ensures ms[k].id in ts[|ms|].table
    ensures var num, r := ts[|ms|].table[ms[k].id].num, Reload(ts[|ms|], names);
      && (NextSeq(r).1 <= num <==> forall i :: k <= i < |ms| ==> !Whole(ts[0], ms, i))
      && (ms[k].id in r.table <==> Whole(ts[0], ms, k))
  {
    var s, t := ts[0], ts[|ms|];
    FiledSofar(ms, ts, |ms|);
    SofarLoadable(s, ms, |ms|, t);
    RestartCounts(t, names, s.nextSeq + k);
    if forall i :: k <= i < |ms| ==> !Whole(s, ms, i) { NoneWholeCounts(ms, ts, |ms|, k); }
    forall i | k <= i < |ms| && Whole(s, ms, i) ensures !CountedUpTo(t, s.nextSeq + k) { WholeIsRead(ms, ts, i); }
    if Whole(s, ms, k) { WholeIsRead(ms, ts, k); } else { NotWholeIsGone(s, ms, k, t); }
  }

  lemma WholeIsRead(ms: seq<Message>, ts: seq<Store>, i: nat)
    requires Filing(ms, ts) && Files(ts[0], ms) && i < |ms| && Whole(ts[0], ms, i)
    ensures var f := ts[|ms|].File(ms[i].conv);
      HasMsg(f.Read(), ms[i].id) && Top(f.Read()) >= ts[0].nextSeq + i + 1
  {
    FiledSofar(ms, ts, |ms|);
    WholeStays(ms, ts, |ms|, i);
    KeptIsRead(ts[|ms|].File(ms[i].conv), ms[i].conv, ms[i].id, ts[0].nextSeq + i + 1);
  }

  lemma NotWholeIsGone(s: Store, ms: seq<Message>, k: nat, t: Store)
    requires Files(s, ms) && k < |ms| && Sofar(s, ms, |ms|, t) && !Whole(s, ms, k)
    ensures forall c :: !HasMsg(t.File(c).Read(), ms[k].id)
  {
    forall c ensures !HasMsg(t.File(c).Read(), ms[k].id) {
      assert Unheard(s, ms[k]) && !Comes(s, ms, |ms|, c, ms[k].id);
    }
  }

  /** And it comes about: the server dies in its first line, is started, files a message as number
      1, and is started again. The next message it files is number 1. */
  lemma SameNumberTwice(m: Message, x: Message)
    requires Good(m)
    ensures var s := Reload(NoLoss.Crashed(Empty(true), map[m.conv := Half]), [m.conv]);
      var again := Reload(FiledNext(s, m), [m.conv]);
      && m.id in FiledNext(s, m).table && FiledNext(s, m).table[m.id].num == 1
      && Lists([m.conv], FiledNext(s, m)) && Numbered(again, x).num == 1
  {
    Outlives.NothingLoaded(Empty(true), m.conv);
    var s := Reload(NoLoss.Crashed(Empty(true), map[m.conv := Half]), [m.conv]);
    HalfCountsNothing(s, m.conv);
    FiledFile(s, m);
    assert FiledNext(s, m).files.Keys == {m.conv};
    var ts := [s, FiledNext(s, m)];
    NumberReusedExactlyWhen([m], ts, 0, [m.conv]);
  }

  lemma HalfCountsNothing(s: Store, c: ConvId)
    requires s.files == map[c := LogFile([], Half)]
    ensures DirLoadable(s) && CountedUpTo(s, 0) && forall d, id :: !HasMsg(s.File(d).Read(), id)
  {
    GarbledSaysNothing();
    forall d ensures s.File(d).Read() == [] || s.File(d).Read() == [Garbled] {}
  }

  lemma GarbledSaysNothing()
    ensures MsgTable([Garbled]) == map[] && Top([Garbled]) == 0 && forall c :: Loadable([Garbled], c)
  {
    var ls: seq<LogLine> := [Garbled];
    assert Init(ls) == [] && Last(ls) == Garbled;
    assert MsgTable(Init(ls)) == map[] && Top(Init(ls)) == 0 && forall c :: Loadable(Init(ls), c);
  }

  // ------------------------------------------------------------------ never asked for again

  /** A message has been relayed to a client and filed there, the client dies, and comes back with
      a cursor it had saved. It has the message, or is sent it in what follows the cursor, exactly
      when the line of it was whole, or the cursor is below its number. */
  lemma RecoveredExactlyWhen(states: seq<NoLoss.Outbox>, labels: seq<NoLoss.Label>, i: nat, j: nat, m: Message,
                             t: map<MessageId, Message>, p: PeerId, rooms: ServerModel.Rooms, saved: nat,
                             delta: seq<Message>)
    requires NoLoss.Run(states, labels) && i <= j < |labels| && (m.conv, MsgLine(m)) in states[i].pending
    requires labels[j].Crash? && forall k :: i <= k < j ==> !labels[k].Crash?
    requires m.id in t && t[m.id].num == m.num && ServerModel.Sees(t[m.id].conv, p, rooms)
    requires ServerModel.IsDelta(delta, t, p, rooms, saved)
    ensures m.id in states[j + 1].store.table || t[m.id] in delta
       <==> Outlives.LineSurvives(states, labels, i, j, m.conv, m) || m.num > saved
  {
    Outlives.OutlivesACrashExactlyWhen(states, labels, i, j, m.conv, m);
  }

  /** And it comes about: a relayed message filed into half a line, its number saved as the cursor,
      is neither there after a crash nor in anything that follows the cursor. */
  lemma NeverAskedForAgain(x: Message, m: Message) returns (states: seq<NoLoss.Outbox>, labels: seq<NoLoss.Label>)
    requires Outlives.Sound(x) && Outlives.Sound(m) && m.conv == x.conv && x.num > 0 && m.num > 0
    ensures NoLoss.Run(states, labels) && |labels| == 5 && labels[2] == NoLoss.Label.Do(DoAppend(m, 0))
    ensures m.id in states[4].store.table && m.id !in states[5].store.table
    ensures forall t: map<MessageId, Message>, p, rooms, delta ::
      ServerModel.IsDelta(delta, t, p, rooms, m.num) && m.id in t && t[m.id].num == m.num ==> t[m.id] !in delta
  {
    states, labels := Outlives.SentAndLost(x, m);
  }
}
