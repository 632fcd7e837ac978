/** The resume cursor against a queue that may be cut anywhere (chatclientd/link.go, advance;
    chatserver/server.go, backfill). visible maps every message a client may see to its number;
    held is what the client has. */
module Cursors {
  import opened Names
  import opened StoreModel
  import opened ServerModel

  type Visible = map<MessageId, nat>

  /** Where reading a frame moves the cursor, at least. */
  function Num(f: Frame): nat {
    match f
    case MsgFrame(_, _, _, _, _, num, _, _) => num
    case SeqFrame(_, num) => num
    case SyncedFrame(cursor, _) => cursor
    case ErrorFrame(_) => 0
  }

  /** What reading a frame is sure to leave with the client. */
  function Brings(f: Frame): set<MessageId> { if f.MsgFrame? then {f.id} else {} }

  function BringsAll(q: seq<Frame>): set<MessageId> {
    if q == [] then {} else Brings(q[0]) + BringsAll(q[1..])
  }

  /** Everything visible and numbered up to n is held. */
  ghost predicate Covered(held: set<MessageId>, n: nat, v: Visible) {
    forall id :: id in v && v[id] <= n ==> id in held
  }

  /** However much of the queue is read before the link drops, the cursor then covers only
      what is held. */
  ghost predicate Complete(held: set<MessageId>, cursor: nat, q: seq<Frame>, v: Visible)
    decreases q
  {
    && Covered(held, cursor, v)
    && (q != [] ==> Complete(held + Brings(q[0]), Max(cursor, Num(q[0])), q[1..], v))
  }

  /** Everything visible is held or on its way. */
  ghost predicate Full(held: set<MessageId>, q: seq<Frame>, v: Visible) {
    forall id :: id in v ==> id in held + BringsAll(q)
  }

  lemma {:induction false} BringsAllConcat(a: seq<Frame>, b: seq<Frame>)
    ensures BringsAll(a + b) == BringsAll(a) + BringsAll(b)
  {
    if a == [] {
      assert a + b == b;
    } else {
      assert (a + b)[1..] == a[1..] + b;
      BringsAllConcat(a[1..], b);
    }
  }

  lemma {:induction false} CompleteMore(held: set<MessageId>, held': set<MessageId>, cursor: nat, q: seq<Frame>,
                                        v: Visible)
    requires Complete(held, cursor, q, v) && held <= held'
    ensures Complete(held', cursor, q, v)
    decreases q
  {
    if q != [] {
      CompleteMore(held + Brings(q[0]), held' + Brings(q[0]), Max(cursor, Num(q[0])), q[1..], v);
    }
  }

  lemma {:induction false} FullIsComplete(held: set<MessageId>, cursor: nat, q: seq<Frame>, v: Visible)
    requires forall id :: id in v ==> id in held
    ensures Complete(held, cursor, q, v)
    decreases q
  {
    if q != [] { FullIsComplete(held + Brings(q[0]), Max(cursor, Num(q[0])), q[1..], v); }
  }

  /** Behind a queue that already brings everything, any frames may follow. */
  lemma {:induction false} CompleteThen(held: set<MessageId>, cursor: nat, q: seq<Frame>, fs: seq<Frame>, v: Visible)
    requires Complete(held, cursor, q, v) && Full(held, q, v)
    ensures Complete(held, cursor, q + fs, v)
    decreases q
  {
    if q == [] {
      assert q + fs == fs;
      FullIsComplete(held, cursor, fs, v);
    } else {
      assert (q + fs)[1..] == q[1..] + fs;
      CompleteThen(held + Brings(q[0]), Max(cursor, Num(q[0])), q[1..], fs, v);
    }
  }

  /** A message numbered above everything queued disturbs nothing already queued. */
  lemma {:induction false} CompleteWithNewer(held: set<MessageId>, cursor: nat, q: seq<Frame>, v: Visible,
                                             id: MessageId, n: nat)
    requires Complete(held, cursor, q, v) && cursor < n && forall i :: 0 <= i < |q| ==> Num(q[i]) < n
    ensures Complete(held, cursor, q, v[id := n])
    decreases q
  {
    if q != [] {
      CompleteWithNewer(held + Brings(q[0]), Max(cursor, Num(q[0])), q[1..], v, id, n);
    }
  }

  /** A freshly numbered message, queued behind everything, keeps the queue complete and full. */
  lemma NewerQueued(held: set<MessageId>, cursor: nat, q: seq<Frame>, v: Visible, f: Frame, fs: seq<Frame>)
    requires f.MsgFrame? && Complete(held, cursor, q, v) && Full(held, q, v)
    requires cursor < f.num && forall i :: 0 <= i < |q| ==> Num(q[i]) < f.num
    ensures Complete(held, cursor, q + ([f] + fs), v[f.id := f.num])
    ensures Full(held, q + ([f] + fs), v[f.id := f.num])
  {
    CompleteWithNewer(held, cursor, q, v, f.id, f.num);
    FullUpTo(held, cursor, q, f, fs, v[f.id := f.num]);
    BringsAllConcat(q, [f] + fs);
    assert ([f] + fs)[0] == f;
  }

  lemma {:induction false} FullUpTo(held: set<MessageId>, cursor: nat, q: seq<Frame>, f: Frame, fs: seq<Frame>,
                                    v: Visible)
    requires Complete(held, cursor, q, v)
    requires forall id :: id in v ==> id in held + BringsAll(q) + Brings(f)
    ensures Complete(held, cursor, q + ([f] + fs), v)
    decreases q
  {
    var r := [f] + fs;
    if q == [] {
      assert q + r == r && r[1..] == fs;
      FullIsComplete(held + Brings(f), Max(cursor, Num(f)), fs, v);
    } else {
      assert (q + r)[1..] == q[1..] + r;
      FullUpTo(held + Brings(q[0]), Max(cursor, Num(q[0])), q[1..], f, fs, v);
    }
  }

  /** An ascending run of everything missed, then synced: what backfill queues on the delta
      path. */
  lemma {:induction false} AscendingBacklog(held: set<MessageId>, cursor: nat, q: seq<Frame>, last: Frame, v: Visible)
    requires Covered(held, cursor, v) && !last.MsgFrame?
    requires forall i :: 0 <= i < |q| ==> q[i].MsgFrame?
    requires forall i, j :: 0 <= i < j < |q| ==> q[i].num < q[j].num
    requires forall i :: 0 <= i < |q| ==> q[i].id in v ==> v[q[i].id] == q[i].num
    requires forall id :: id in v ==> id in held + BringsAll(q)
    ensures Complete(held, cursor, q + [last], v) && Full(held, q + [last], v)
    decreases q
  {
    BringsAllConcat(q, [last]);
    if q == [] {
      assert q + [last] == [last];
      FullIsComplete(held, cursor, [last], v);
    } else {
      assert (q + [last])[1..] == q[1..] + [last];
      var held', cursor' := held + Brings(q[0]), Max(cursor, q[0].num);
      assert forall i :: 0 <= i < |q[1..]| ==> q[1..][i] == q[i + 1] && q[0].num < q[1..][i].num;
      forall id | id in v && v[id] <= cursor' ensures id in held' {
        if id !in held && id in BringsAll(q[1..]) {
          var i := BroughtBy(q[1..], id);
        }
      }
      AscendingBacklog(held', cursor', q[1..], last, v);
    }
  }

  lemma {:induction false} BroughtBy(q: seq<Frame>, id: MessageId) returns (i: nat)
    requires id in BringsAll(q)
    ensures i < |q| && q[i].MsgFrame? && q[i].id == id
  {
    if id in Brings(q[0]) { return 0; }
    i := BroughtBy(q[1..], id);
    i := i + 1;
  }

  lemma {:induction false} Brought(q: seq<Frame>, i: nat)
    requires i < |q|
    ensures Brings(q[i]) <= BringsAll(q)
  {
    if i > 0 { Brought(q[1..], i - 1); }
  }
}
