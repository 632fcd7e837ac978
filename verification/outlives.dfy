/** What outlives a crash, and what does not (chat/store.go, appendLog and loadLog): exactly the
    lines that were whole, with runs in which a message that was filed is lost. */
module Outlives {
  import opened Names
  import opened Messages
  import opened StoreModel
  import opened Journal
  import opened NoLoss

  // ------------------------------------------------- what an unfinished end takes with it

  /** In memory only: no file has a line for it and none is on its way. */
  ghost predicate OnlyInMemory(s: Outbox, id: MessageId) {
    && id in s.store.table
    && (forall c :: !Holds(s.store.files, c, id))
    && (forall x :: x in s.pending && x.1.MsgLine? ==> x.1.m.id != id)
  }

  lemma StaysInMemoryOnly(s: Outbox, l: Label, s': Outbox, id: MessageId)
    requires Inv(s) && OnlyInMemory(s, id) && Next(s, l, s') && !l.Crash?
    ensures OnlyInMemory(s', id)
  {
    match l
    case Compose(m) => MemoryStepStays(s, DoAppend(m, 0), s', id);
    case Do(op) => MemoryStepStays(s, op, s', id);
    case Land(c, line) =>
      var k := if s.store.File(c).tail.Ended? then line else Garbled;
      LandWrites(s, c, line, s');
      LandGrows(s, c, k, s');
      forall d ensures !Holds(s'.store.files, d, id) { assert !Holds(s.store.files, d, id); }
  }

  lemma MemoryStepStays(s: Outbox, op: Op, s': Outbox, id: MessageId)
    requires OnlyInMemory(s, id) && Keyed(s.store.table) && s'.store == Owing(s, op).store
      && s'.pending == Owing(s, op).pending
    ensures OnlyInMemory(s', id)
  {
    assert s'.store.files == s.store.files;
    OwesNoOldMessage(s, op, id);
  }

  lemma OwesNoOldMessage(s: Outbox, op: Op, id: MessageId)
    requires id in s.store.table && (forall x :: x in s.pending && x.1.MsgLine? ==> x.1.m.id != id)
    ensures id in Owing(s, op).store.table
    ensures forall x :: x in Owing(s, op).pending && x.1.MsgLine? ==> x.1.m.id != id
  {
  }

  lemma GluedIsOnlyInMemory(s: Outbox, c: ConvId, m: Message, s': Outbox)
    requires Inv(s) && (c, MsgLine(m)) in s.pending && s' == Landed(s, c, MsgLine(m)) && !s.store.File(c).tail.Ended?
    ensures OnlyInMemory(s', m.id)
  {
    LandWrites(s, c, MsgLine(m), s');
    LandGrows(s, c, Garbled, s');
    forall d ensures !Holds(s'.store.files, d, m.id) {
      assert !Holds(s.store.files, c, m.id) && !Holds(s.store.files, d, m.id);
    }
    forall x | x in s'.pending && x.1.MsgLine? ensures x.1.m.id != m.id { assert x in s.pending; }
  }

  lemma {:induction false} StillOnlyInMemory(states: seq<Outbox>, labels: seq<Label>, i: nat, j: nat, id: MessageId)
    requires Run(states, labels) && i <= j < |states| && OnlyInMemory(states[i], id)
    requires forall k :: i <= k < j ==> !labels[k].Crash?
    ensures OnlyInMemory(states[j], id)
  {
    if i < j {
      StillOnlyInMemory(states, labels, i, j - 1, id);
      AlwaysInv(states, labels, j - 1);
      StaysInMemoryOnly(states[j - 1], labels[j - 1], states[j], id);
    }
  }

  lemma CrashForgets(s: Outbox, ends: map<ConvId, FileEnd>, names: seq<ConvId>, s': Outbox, id: MessageId)
    requires Inv(s) && OnlyInMemory(s, id) && Next(s, Label.Crash(ends, names), s')
    ensures id !in s'.store.table
  {
    CameBack(s, ends, names, s');
    CrashedDirLoadable(s, ends);
    ReadFromDisk(Crashed(s.store, ends), names, s'.store);
    forall c ensures !Holds(s'.store.files, c, id) { CrashAdds(s, ends, c, id); }
  }

  lemma CrashAdds(s: Outbox, ends: map<ConvId, FileEnd>, c: ConvId, id: MessageId)
    requires FilesRead(s) && OnlyInMemory(s, id) && forall d :: d in ends ==> CanEnd(s, d, ends[d])
    ensures !Holds(Crashed(s.store, ends).files, c, id)
  {
    assert !Holds(s.store.files, c, id);
    NotFirmEither(s, c, id);
    if c in ends {
      var x := if ends[c].Half? then Garbled else ends[c].l;
      assert ends[c].Loose? ==> (c, x) in s.pending;
      MsgTableMore(Firm(s.store.files, c), x);
      assert LinesIn(Crashed(s.store, ends).files, c) == Firm(s.store.files, c) + [x];
    } else {
      assert LinesIn(Crashed(s.store, ends).files, c) == LinesIn(s.store.files, c);
    }
  }

  lemma NotFirmEither(s: Outbox, c: ConvId, id: MessageId)
    requires FilesRead(s) && !Holds(s.store.files, c, id)
    ensures !HasMsg(Firm(s.store.files, c), id)
  {
    assert Loadable(LinesIn(s.store.files, c), c);
    if c in s.store.files { FirmIsRead(s.store.files[c], c); }
  }

  // --------------------------------------------------------- what outlives the next crash

  lemma FirmStays(s: Outbox, l: Label, s': Outbox, c: ConvId, id: MessageId)
    requires Inv(s) && Next(s, l, s') && HasMsg(Firm(s.store.files, c), id)
    ensures HasMsg(Firm(s'.store.files, c), id)
  {
    match l
    case Land(d, line) => LandKeepsFirm(s, d, line, s', c, id);
    case Crash(ends, names) => CrashKeepsFirm(s, ends, names, s', c);
    case _ => assert s'.store.files == s.store.files;
  }

  lemma LandKeepsFirm(s: Outbox, d: ConvId, line: LogLine, s': Outbox, c: ConvId, id: MessageId)
    requires s' == Landed(s, d, line) && HasMsg(Firm(s.store.files, c), id)
    ensures HasMsg(Firm(s'.store.files, c), id)
  {
    LandWrites(s, d, line, s');
    MsgTableMore(Firm(s.store.files, d), if s.store.File(d).tail.Ended? then line else Garbled);
  }

  lemma CrashKeepsFirm(s: Outbox, ends: map<ConvId, FileEnd>, names: seq<ConvId>, s': Outbox, c: ConvId)
    requires Inv(s) && Next(s, Label.Crash(ends, names), s')
    ensures Firm(s'.store.files, c) == Firm(s.store.files, c)
  {
    CameBack(s, ends, names, s');
  }

  lemma FirmComesBack(s: Outbox, ends: map<ConvId, FileEnd>, names: seq<ConvId>, s': Outbox, c: ConvId, id: MessageId)
    requires Inv(s) && Next(s, Label.Crash(ends, names), s') && HasMsg(Firm(s.store.files, c), id)
    ensures id in s'.store.table
  {
    CameBack(s, ends, names, s');
    assert LeftReadable(s, c, LinesIn(s'.store.files, c));
    assert Holds(s'.store.files, c, id);
  }

  /** A line that has not landed outlives the crash exactly when all of it but the newline did. */
  lemma PendingComesBackExactlyWhen(s: Outbox, ends: map<ConvId, FileEnd>, names: seq<ConvId>, s': Outbox,
                                    c: ConvId, m: Message)
    requires Inv(s) && Next(s, Label.Crash(ends, names), s') && (c, MsgLine(m)) in s.pending
    ensures m.id in s'.store.table <==> c in ends && ends[c] == Loose(MsgLine(m))
  {
    CameBack(s, ends, names, s');
    CrashedDirLoadable(s, ends);
    ReadFromDisk(Crashed(s.store, ends), names, s'.store);
    if c in ends && ends[c] == Loose(MsgLine(m)) {
      MsgTableMore(Firm(s.store.files, c), MsgLine(m));
      assert LinesIn(s'.store.files, c) == Firm(s.store.files, c) + [MsgLine(m)];
      assert Holds(s'.store.files, c, m.id);
    }
    if m.id in s'.store.table {
      var d :| Holds(s'.store.files, d, m.id);
      LooseOrNothing(s, ends, c, m, d);
    }
  }

  lemma LooseOrNothing(s: Outbox, ends: map<ConvId, FileEnd>, c: ConvId, m: Message, d: ConvId)
    requires FilesRead(s) && FilesHeld(s) && PendingOk(s) && (c, MsgLine(m)) in s.pending
    requires (forall x :: x in ends ==> CanEnd(s, x, ends[x])) && Holds(Crashed(s.store, ends).files, d, m.id)
    ensures c in ends && ends[c] == Loose(MsgLine(m))
  {
    assert !Holds(s.store.files, d, m.id);
    assert d !in ends ==> LinesIn(Crashed(s.store, ends).files, d) == LinesIn(s.store.files, d);
    NotFirmEither(s, d, m.id);
    if d in ends {
      var x := if ends[d].Half? then Garbled else ends[d].l;
      assert CanEnd(s, d, ends[d]);
      MsgTableMore(Firm(s.store.files, d), x);
      assert LinesIn(Crashed(s.store, ends).files, d) == Firm(s.store.files, d) + [x];
      assert (d, x) in s.pending && x.m.id == m.id;
    }
  }

  /** Between two states the line landed in a file that ended in a newline. */
  ghost predicate LandedWhole(states: seq<Outbox>, labels: seq<Label>, i: nat, j: nat, c: ConvId, m: Message)
    requires i <= j <= |labels| && |labels| < |states|
  {
    exists k :: i <= k < j && labels[k] == Land(c, MsgLine(m)) && states[k].store.File(c).tail.Ended?
  }

  ghost predicate Tracked(s: Outbox, whole: bool, c: ConvId, m: Message) {
    || ((c, MsgLine(m)) in s.pending && !whole)
    || (HasMsg(Firm(s.store.files, c), m.id) && whole)
    || (OnlyInMemory(s, m.id) && !whole)
  }

  lemma TrackOn(s: Outbox, l: Label, s': Outbox, whole: bool, c: ConvId, m: Message)
    requires Inv(s) && Next(s, l, s') && !l.Crash? && Tracked(s, whole, c, m)
    ensures Tracked(s', whole || (l == Land(c, MsgLine(m)) && s.store.File(c).tail.Ended?), c, m)
  {
    if whole {
      FirmStays(s, l, s', c, m.id);
    } else if OnlyInMemory(s, m.id) {
      StaysInMemoryOnly(s, l, s', m.id);
      assert l == Land(c, MsgLine(m)) ==> (c, MsgLine(m)) in s.pending;
    } else if l == Land(c, MsgLine(m)) {
      if s.store.File(c).tail.Ended? {
        LandWrites(s, c, MsgLine(m), s');
        MsgTableMore(Firm(s.store.files, c), MsgLine(m));
      } else {
        GluedIsOnlyInMemory(s, c, m, s');
      }
    } else {
      assert (c, MsgLine(m)) in s'.pending;
    }
  }

  lemma {:induction false} TrackedUntil(states: seq<Outbox>, labels: seq<Label>, i: nat, j: nat, c: ConvId, m: Message)
    requires Run(states, labels) && i <= j <= |labels| && (c, MsgLine(m)) in states[i].pending
    requires forall k :: i <= k < j ==> !labels[k].Crash?
    ensures Tracked(states[j], LandedWhole(states, labels, i, j, c, m), c, m)
  {
    if i < j {
      TrackedUntil(states, labels, i, j - 1, c, m);
      AlwaysInv(states, labels, j - 1);
      assert Next(states[j - 1], labels[j - 1], states[j]);
      TrackOn(states[j - 1], labels[j - 1], states[j], LandedWhole(states, labels, i, j - 1, c, m), c, m);
      LandedWholeMore(states, labels, i, j, c, m);
    }
  }

  lemma LandedWholeMore(states: seq<Outbox>, labels: seq<Label>, i: nat, j: nat, c: ConvId, m: Message)
    requires i < j <= |labels| && |labels| < |states|
    ensures LandedWhole(states, labels, i, j, c, m) <==>
      LandedWhole(states, labels, i, j - 1, c, m)
      || (labels[j - 1] == Land(c, MsgLine(m)) && states[j - 1].store.File(c).tail.Ended?)
  {
  }

  /** The line is one a reader finds after the crash at j. */
  ghost predicate LineSurvives(states: seq<Outbox>, labels: seq<Label>, i: nat, j: nat, c: ConvId, m: Message)
    requires i <= j < |labels| < |states| && labels[j].Crash?
  {
    LandedWhole(states, labels, i, j, c, m) || (c in labels[j].ends && labels[j].ends[c] == Loose(MsgLine(m)))
  }

  /** Any message that has been filed, composed here or relayed, outlives the next crash exactly
      when its line had landed in a file that ended in a newline, or was cut of its own newline
      and no more. */
  lemma OutlivesACrashExactlyWhen(states: seq<Outbox>, labels: seq<Label>, i: nat, j: nat, c: ConvId, m: Message)
    requires Run(states, labels) && i <= j < |labels| && (c, MsgLine(m)) in states[i].pending
    requires labels[j].Crash? && forall k :: i <= k < j ==> !labels[k].Crash?
    ensures m.id in states[j + 1].store.table <==> LineSurvives(states, labels, i, j, c, m)
  {
    var s, s' := states[j], states[j + 1];
    TrackedUntil(states, labels, i, j, c, m);
    AlwaysInv(states, labels, j);
    assert Next(s, labels[j], s');
    if LandedWhole(states, labels, i, j, c, m) {
      FirmComesBack(s, labels[j].ends, labels[j].names, s', c, m.id);
    } else if OnlyInMemory(s, m.id) {
      CrashForgets(s, labels[j].ends, labels[j].names, s', m.id);
      assert c in labels[j].ends ==> CanEnd(s, c, labels[j].ends[c]);
    } else {
      PendingComesBackExactlyWhen(s, labels[j].ends, labels[j].names, s', c, m);
    }
  }

  /** Send may also return with its line run into an unfinished end. Whatever happens in between,
      the message outlives the next crash exactly when its file ended in a newline. */
  lemma SentOutlivesACrashExactlyWhen(states: seq<Outbox>, labels: seq<Label>, i: nat, j: nat, c: ConvId, m: Message)
    requires Run(states, labels) && i < j < |labels| && Text(m) && labels[i] == Land(c, MsgLine(m))
    requires labels[j].Crash? && forall k :: i < k < j ==> !labels[k].Crash?
    ensures m.id in states[j + 1].store.table <==> states[i].store.File(c).tail.Ended?
  {
    AlwaysInv(states, labels, i);
    AlwaysInv(states, labels, j);
    assert Next(states[i], labels[i], states[i + 1]);
    assert Next(states[j], labels[j], states[j + 1]);
    if states[i].store.File(c).tail.Ended? {
      NothingSentIsLost(states, labels, i + 1, j + 1, m.id);
    } else {
      GluedIsOnlyInMemory(states[i], c, m, states[i + 1]);
      StillOnlyInMemory(states, labels, i + 1, j, m.id);
      CrashForgets(states[j], labels[j].ends, labels[j].names, states[j + 1], m.id);
    }
  }

  lemma RunMore(states: seq<Outbox>, labels: seq<Label>, l: Label, s': Outbox)
    requires Run(states, labels) && Next(states[|labels|], l, s')
    ensures Run(states + [s'], labels + [l])
  {
    var all, done := states + [s'], labels + [l];
    forall i | 0 <= i < |done| ensures Next(all[i], done[i], all[i + 1]) {
      if i < |labels| { assert Next(states[i], labels[i], states[i + 1]); }
    }
  }

  predicate Sound(m: Message) { m.id != "" && m.conv != "" && m.sent != 0 && |m.body| <= MAX_BODY_RUNES }

  /** A client whose one file is half a line. */
  ghost predicate Torn(s: Outbox, c: ConvId) {
    && s.store.persist && s.store.table == map[] && s.store.files == map[c := LogFile([], Half)]
    && s.pending == multiset{} && s.composed == {} && s.kept == map[]
  }

  /** A relayed message arrives, and the client dies in the middle of its line. */
  lemma HalfLeft(x: Message) returns (states: seq<Outbox>, labels: seq<Label>)
    requires Sound(x) && !Text(x)
    ensures Run(states, labels) && |labels| == 2 && Torn(states[2], x.conv)
  {
    var s0 := Outbox(Empty(true), multiset{}, {}, map[]);
    var s1 := Owing(s0, DoAppend(x, 0));
    assert s1.pending == multiset{(x.conv, MsgLine(Filed(x, 0)))} && s1.store.files == map[];
    var crash := Label.Crash(map[x.conv := Half], [x.conv]);
    var s2 := s1.(store := Reload(Crashed(s1.store, map[x.conv := Half]), [x.conv]), pending := multiset{});
    assert (x.conv, MsgLine(Filed(x, 0))) in s1.pending && CanEnd(s1, x.conv, Half);
    assert Crashed(s1.store, map[x.conv := Half]).files.Keys == {x.conv};
    NothingLoaded(s1.store, x.conv);
    RunMore([s0], [], Label.Do(DoAppend(x, 0)), s1);
    RunMore([s0] + [s1], [] + [Label.Do(DoAppend(x, 0))], crash, s2);
    states, labels := [s0] + [s1] + [s2], [] + [Label.Do(DoAppend(x, 0))] + [crash];
  }

  /** How the client comes by a message: it is typed here, or relayed. */
  function Comes(m: Message): Label { if Text(m) then Compose(m) else Label.Do(DoAppend(m, 0)) }

  lemma CameAfterwards(s: Outbox, m: Message, s': Outbox)
    requires Torn(s, m.conv) && Sound(m)
    requires s' == Owing(s, DoAppend(m, 0)).(composed := if Text(m) then {m.id} else {})
    ensures Next(s, Comes(m), s') && s'.store.files == s.store.files && m.id in s'.store.table
    ensures s'.pending == multiset{(m.conv, MsgLine(m))}
  {
    assert Filed(m, 0) == m;
    forall c, l | OnDisk(s.store.files, c, l) ensures !About(l, m.id) { assert l == Garbled; }
  }

  /** A message filed into half a line. */
  lemma IntoHalf(x: Message, m: Message) returns (states: seq<Outbox>, labels: seq<Label>)
    requires Sound(x) && !Text(x) && Sound(m) && m.conv == x.conv
    ensures Run(states, labels) && |labels| == 4 && labels[2] == Comes(m) && labels[3] == Land(m.conv, MsgLine(m))
    ensures (m.conv, MsgLine(m)) in states[3].pending && states[3].store.File(m.conv).tail.Half?
    ensures m.id in states[4].store.table && states[4].store.files.Keys == {m.conv}
  {
    var ss, ls := HalfLeft(x);
    var s2 := ss[2];
    var s3 := Owing(s2, DoAppend(m, 0)).(composed := if Text(m) then {m.id} else {});
    CameAfterwards(s2, m, s3);
    var s4 := Landed(s3, m.conv, MsgLine(m));
    RunMore(ss, ls, Comes(m), s3);
    RunMore(ss + [s3], ls + [Comes(m)], Land(m.conv, MsgLine(m)), s4);
    states, labels := ss + [s3] + [s4], ls + [Comes(m)] + [Land(m.conv, MsgLine(m))];
  }

  /** And it comes about: a relayed message is cut short, another is filed behind it, typed here or
      relayed, and after one more crash it is gone. */
  lemma SentAndLost(x: Message, m: Message) returns (states: seq<Outbox>, labels: seq<Label>)
    requires Sound(x) && !Text(x) && Sound(m) && m.conv == x.conv
    ensures Run(states, labels) && |labels| == 5 && labels[2] == Comes(m) && labels[3] == Land(m.conv, MsgLine(m))
    ensures m.id in states[4].store.table && m.id !in states[5].store.table
  {
    var before, steps := IntoHalf(x, m);
    var s4 := before[4];
    var crash := Label.Crash(map[], [m.conv]);
    assert Crashed(s4.store, map[]).files.Keys == {m.conv};
    var s5 := s4.(store := Reload(Crashed(s4.store, map[]), [m.conv]), pending := multiset{});
    RunMore(before, steps, crash, s5);
    states, labels := before + [s5], steps + [crash];
    OutlivesACrashExactlyWhen(states, labels, 3, 4, m.conv, m);
  }

  /** A file of half a line holds nothing. */
  lemma NothingLoaded(s: Store, c: ConvId)
    requires s.persist && s.files == map[]
    ensures var r := Reload(Crashed(s, map[c := Half]), [c]);
      r.table == map[] && r.persist && r.files == map[c := LogFile([], Half)] && r.nextSeq == 0
  {
    var t := Crashed(s, map[c := Half]);
    assert t.files == map[c := LogFile([], Half)];
    var b := Store(true, map[], map[], 0, t.files);
    assert Init([c]) == [] && Last([c]) == c;
    assert t.File(c).Read() == [Garbled];
    GarbledLoadsNothing(b, c);
    assert LoadDir(b, [c]) == LoadFile(LoadDir(b, []), c, b.File(c).Read());
  }

  lemma GarbledLoadsNothing(b: Store, c: ConvId)
    requires b.table == map[] && b.nextSeq == 0
    ensures var r := LoadFile(b, c, [Garbled]); r.table == map[] && r.nextSeq == 0
  {
    var ls: seq<LogLine> := [Garbled];
    assert Init(ls) == [];
    assert Top(Init(ls)) == 0 && Top(ls) == 0 && MsgTable(ls) == map[] && LoadedTable(ls) == map[];
  }
}
