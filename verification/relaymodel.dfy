/** File transfers passing through the server (chatserver/relay.go), as functions on the table of
    open transfers. Everything the server says about transfers is kept in order in posts, to the
    connection that spoke or to a person, who hears it on every connection they have. */
module RelayModel {
  import opened Wrappers
  import opened Names

  type ConnId = nat

  const MAX_TRANSFER_BYTES: nat := 0x8000_0000
  const MAX_OPEN_TRANSFERS: nat := 8
  const OFFER_TIMEOUT: nat := 120_000_000_000
  const MAX_REASON: nat := 120

  datatype Transport =
    | Offer(id: TransferId, from: PeerId, to: PeerId, conv: ConvId, name: string, size: int)
    | Accept(id: TransferId, from: PeerId)
    | Decline(id: TransferId, from: PeerId, reason: string)
    | Chunk(id: TransferId, from: PeerId, offset: int, data: seq<Byte>)
    | Done(id: TransferId, from: PeerId, digest: string)

  datatype Post = ToConn(k: ConnId, f: Transport) | ToPeer(p: PeerId, f: Transport)

  datatype Record = Record(from: PeerId, to: PeerId, size: nat, sent: nat, running: bool, at: int)
  {
    predicate Has(p: PeerId) { from == p || to == p }

    function Other(p: PeerId): PeerId { if from == p then to else from }
  }

  datatype Relay = Relay(xfers: map<TransferId, Record>, conns: map<ConnId, PeerId>, known: set<PeerId>,
                         posts: seq<Post>)
  {
    predicate Online(p: PeerId) { p in conns.Values }

    function Say(ps: seq<Post>): Relay { this.(posts := posts + ps) }

    function Close(id: TransferId): Relay { this.(xfers := xfers - {id}) }

    function Put(id: TransferId, r: Record): Relay { this.(xfers := xfers[id := r]) }

    ghost function Of(p: PeerId): set<TransferId> { set t | t in xfers && xfers[t].Has(p) }

    ghost function By(p: PeerId): set<TransferId> { set t | t in xfers && xfers[t].from == p }
  }

  // ------------------------------------------------------------------------- handlers

  function Addressee(f: Transport): PeerId
    requires f.Offer?
  {
    if f.to == "" then ConvPeer(f.conv) else f.to
  }

  /** Why the server will not carry an offer at all. */
  function Refusal(s: Relay, p: PeerId, f: Transport): Option<string>
    requires f.Offer?
  {
    var to := Addressee(f);
    if f.id == "" || f.size < 0 || f.size > MAX_TRANSFER_BYTES then Some("that offer is not one the server will carry")
    else if to == "" || to == p then Some("a file goes to one person, not to a room")
    else if to !in s.known then Some("nobody with that id has ever enrolled here")
    else if !s.Online(to) then Some("they are not connected, so a file cannot be sent right now")
    else None
  }

  ghost function OnOffer(s: Relay, k: ConnId, p: PeerId, f: Transport, now: int): Relay
    requires f.Offer?
  {
    var to := Addressee(f);
    match Refusal(s, p, f)
    case Some(why) => s.Say([ToConn(k, Decline(f.id, to, why))])
    case None =>
      if f.id in s.xfers then s
      else if |s.Of(p)| >= MAX_OPEN_TRANSFERS then
        s.Say([ToConn(k, Decline(f.id, to, "too many transfers are already open"))])
      else
        s.Put(f.id, Record(p, to, f.size, 0, false, now))
         .Say([ToPeer(to, f.(from := p, to := to, conv := DirectConv(p)))])
  }

  function OnAccept(s: Relay, p: PeerId, id: TransferId): Relay {
    if id !in s.xfers || s.xfers[id].to != p || s.xfers[id].running then s
    else
      var r := s.xfers[id];
      s.Put(id, r.(running := true)).Say([ToPeer(r.from, Accept(id, p))])
  }

  function Clip(s: string, n: nat): (r: string)
    ensures r <= s && |r| == if |s| <= n then |s| else n
  {
    if |s| <= n then s else s[..n]
  }

  function OnDecline(s: Relay, p: PeerId, id: TransferId, reason: string): Relay {
    if id !in s.xfers || !s.xfers[id].Has(p) then s
    else s.Close(id).Say([ToPeer(s.xfers[id].Other(p), Decline(id, p, Clip(reason, MAX_REASON)))])
  }

  /** What a slice does to the record of a running transfer, if it follows the protocol. */
  function Pass(r: Record, offset: int, n: nat): Option<Record> {
    if offset != r.sent || r.sent + n > r.size then None else Some(r.(sent := r.sent + n))
  }

  const OUT_OF_STEP: string := "the sender did not follow the transfer protocol"

  function OnChunk(s: Relay, k: ConnId, p: PeerId, id: TransferId, offset: int, data: seq<Byte>): Relay {
    if id !in s.xfers || s.xfers[id].from != p || !s.xfers[id].running then s
    else
      var r := s.xfers[id];
      match Pass(r, offset, |data|)
      case None =>
        s.Close(id).Say([ToConn(k, Decline(id, "", OUT_OF_STEP)), ToPeer(r.to, Decline(id, p, OUT_OF_STEP))])
      case Some(r') => s.Put(id, r').Say([ToPeer(r.to, Chunk(id, p, offset, data))])
  }

  function OnDone(s: Relay, p: PeerId, id: TransferId, digest: string): Relay {
    if id !in s.xfers || s.xfers[id].from != p then s
    else s.Close(id).Say([ToPeer(s.xfers[id].to, Done(id, p, digest))])
  }

  // ------------------------------------------------------- ending many transfers at once

  const UNANSWERED: string := "the offer was not answered"
  const DISCONNECTED: string := "the other end disconnected"

  predicate Stale(r: Record, now: int) { !r.running && r.at < now - OFFER_TIMEOUT }

  /** A list of the ids in a set, each once, in whatever order a walk of the map met them. */
  ghost predicate Enumerates(gone: seq<TransferId>, ids: set<TransferId>) {
    && (forall t :: t in gone <==> t in ids)
    && (forall i, j :: 0 <= i < j < |gone| ==> gone[i] != gone[j])
  }

  function ExpiryPosts(xfers: map<TransferId, Record>, gone: seq<TransferId>): seq<Post>
    requires forall t :: t in gone ==> t in xfers
  {
    if gone == [] then []
    else
      var t := gone[|gone| - 1];
      ExpiryPosts(xfers, gone[..|gone| - 1])
        + [ToPeer(xfers[t].from, Decline(t, xfers[t].to, UNANSWERED)),
           ToPeer(xfers[t].to, Decline(t, xfers[t].from, UNANSWERED))]
  }

  function FailurePosts(xfers: map<TransferId, Record>, gone: seq<TransferId>, p: PeerId): seq<Post>
    requires forall t :: t in gone ==> t in xfers
  {
    if gone == [] then []
    else
      var t := gone[|gone| - 1];
      FailurePosts(xfers, gone[..|gone| - 1], p) + [ToPeer(xfers[t].Other(p), Decline(t, p, DISCONNECTED))]
  }

  ghost function StaleIds(s: Relay, now: int): set<TransferId> { set t | t in s.xfers && Stale(s.xfers[t], now) }

  function Expired(s: Relay, gone: seq<TransferId>): Relay
    requires forall t :: t in gone ==> t in s.xfers
  {
    s.(xfers := map t | t in s.xfers && t !in gone :: s.xfers[t]).Say(ExpiryPosts(s.xfers, gone))
  }

  function Failed(s: Relay, p: PeerId, gone: seq<TransferId>): Relay
    requires forall t :: t in gone ==> t in s.xfers
  {
    s.(xfers := map t | t in s.xfers && t !in gone :: s.xfers[t]).Say(FailurePosts(s.xfers, gone, p))
  }

  // ------------------------------------------------------------------------------ runs

  datatype Label =
    | Connect(k: ConnId, p: PeerId)
    | Disconnect(k: ConnId, gone: seq<TransferId>)
    | Hear(k: ConnId, f: Transport, now: int)
    | Tick(now: int, gone: seq<TransferId>)

  ghost function Heard(s: Relay, k: ConnId, f: Transport, now: int): Relay
    requires k in s.conns
  {
    var p := s.conns[k];
    match f
    case Offer(_, _, _, _, _, _) => OnOffer(s, k, p, f, now)
    case Accept(id, _) => OnAccept(s, p, id)
    case Decline(id, _, reason) => OnDecline(s, p, id, reason)
    case Chunk(id, _, offset, data) => OnChunk(s, k, p, id, offset, data)
    case Done(id, _, digest) => OnDone(s, p, id, digest)
  }

  ghost predicate Next(s: Relay, l: Label, s': Relay) {
    match l
    case Connect(k, p) => k !in s.conns && p != "" && s' == s.(conns := s.conns[k := p], known := s.known + {p})
    case Disconnect(k, gone) =>
      && k in s.conns && Enumerates(gone, s.Of(s.conns[k]))
      && s' == Failed(s.(conns := s.conns - {k}), s.conns[k], gone)
    case Hear(k, f, now) => k in s.conns && s' == Heard(s, k, f, now)
    case Tick(now, gone) => Enumerates(gone, StaleIds(s, now)) && s' == Expired(s, gone)
  }

  ghost predicate Run(states: seq<Relay>, labels: seq<Label>) {
    && |states| == |labels| + 1 && states[0] == Relay(map[], map[], {}, [])
    && forall i :: 0 <= i < |labels| ==> Next(states[i], labels[i], states[i + 1])
  }

  // -------------------------------------------------------------------- what always holds

  predicate RecordOk(s: Relay, t: TransferId)
    requires t in s.xfers
  {
    var r := s.xfers[t];
    && t != "" && 0 <= r.sent <= r.size <= MAX_TRANSFER_BYTES && (!r.running ==> r.sent == 0)
    && r.from != r.to && r.from != "" && r.to != "" && s.Online(r.from) && s.Online(r.to)
  }

  ghost predicate RelayOk(s: Relay) {
    && (forall k :: k in s.conns ==> s.conns[k] != "")
    && (forall t :: t in s.xfers ==> RecordOk(s, t))
    && (forall p :: |s.By(p)| <= MAX_OPEN_TRANSFERS)
  }

  lemma Subset<T>(a: set<T>, b: set<T>)
    requires a <= b
    ensures |a| <= |b|
  {
    if a != b { assert b == a + (b - a) && a !! (b - a); assert |b| == |a| + |b - a|; }
  }

  lemma FewerIsOk(s: Relay, s': Relay)
    requires RelayOk(s) && s'.conns == s.conns
    requires forall t :: t in s'.xfers ==> t in s.xfers && s'.xfers[t] == s.xfers[t]
    ensures RelayOk(s')
  {
    forall p ensures |s'.By(p)| <= MAX_OPEN_TRANSFERS { Subset(s'.By(p), s.By(p)); }
  }

  /** A record that changes hands with nobody and stays in bounds. */
  lemma SameEndsIsOk(s: Relay, s': Relay, t: TransferId, r: Record)
    requires RelayOk(s) && t in s.xfers && s'.conns == s.conns && s'.xfers == s.xfers[t := r]
    requires r.from == s.xfers[t].from && r.to == s.xfers[t].to && r.size == s.xfers[t].size
    requires r.sent <= r.size && (!r.running ==> r.sent == 0)
    ensures RelayOk(s')
  {
    forall p ensures |s'.By(p)| <= MAX_OPEN_TRANSFERS { assert s'.By(p) == s.By(p); }
  }

  /** An offer that is recorded is recorded as it was made, by somebody with room for one more. */
  lemma RecordedOffer(s: Relay, k: ConnId, p: PeerId, f: Transport, now: int)
    requires f.Offer? && OnOffer(s, k, p, f, now).xfers != s.xfers
    ensures var s', to := OnOffer(s, k, p, f, now), Addressee(f);
      && f.id !in s.xfers && f.id != "" && 0 <= f.size <= MAX_TRANSFER_BYTES
      && to != "" && to != p && s.Online(to) && |s.Of(p)| < MAX_OPEN_TRANSFERS
      && s'.xfers == s.xfers[f.id := Record(p, to, f.size, 0, false, now)] && s'.conns == s.conns
  {
  }

  lemma NewRecordIsOk(s: Relay, s': Relay, t: TransferId, r: Record)
    requires RelayOk(s) && t !in s.xfers && t != "" && s'.conns == s.conns && s'.xfers == s.xfers[t := r]
    requires r.size <= MAX_TRANSFER_BYTES && r.sent == 0 && !r.running
    requires r.from != r.to && r.from != "" && r.to != "" && s.Online(r.from) && s.Online(r.to)
    requires |s.Of(r.from)| < MAX_OPEN_TRANSFERS
    ensures RelayOk(s')
  {
    forall x | x in s'.xfers ensures RecordOk(s', x) { assert x != t ==> RecordOk(s, x); }
    forall q ensures |s'.By(q)| <= MAX_OPEN_TRANSFERS {
      OneMoreBy(s, s', t, r, q);
      Subset(s.By(q), s.Of(q));
    }
  }

  lemma OfferKeeps(s: Relay, k: ConnId, f: Transport, now: int)
    requires RelayOk(s) && k in s.conns && f.Offer?
    ensures RelayOk(OnOffer(s, k, s.conns[k], f, now))
  {
    var p, s' := s.conns[k], OnOffer(s, k, s.conns[k], f, now);
    if s'.xfers == s.xfers { FewerIsOk(s, s'); }
    else {
      RecordedOffer(s, k, p, f, now);
      assert p in s.conns.Values;
      NewRecordIsOk(s, s', f.id, s'.xfers[f.id]);
    }
  }

  lemma DisconnectKeeps(s: Relay, k: ConnId, gone: seq<TransferId>)
    requires RelayOk(s) && k in s.conns && Enumerates(gone, s.Of(s.conns[k]))
    ensures RelayOk(Failed(s.(conns := s.conns - {k}), s.conns[k], gone))
  {
    var s1 := s.(conns := s.conns - {k});
    var s' := Failed(s1, s.conns[k], gone);
    forall t | t in s'.xfers ensures RecordOk(s', t) {
      var r := s.xfers[t];
      assert RecordOk(s, t) && !r.Has(s.conns[k]);
      StillOnline(s, k, r.from);
      StillOnline(s, k, r.to);
    }
    forall p ensures |s'.By(p)| <= MAX_OPEN_TRANSFERS { Subset(s'.By(p), s.By(p)); }
  }

  lemma StillOnline(s: Relay, k: ConnId, p: PeerId)
    requires k in s.conns && s.Online(p) && p != s.conns[k]
    ensures s.(conns := s.conns - {k}).Online(p)
  {
    var j :| j in s.conns && s.conns[j] == p;
    assert j in s.conns - {k} && (s.conns - {k})[j] == p;
  }

  lemma ConnectKeeps(s: Relay, k: ConnId, p: PeerId)
    requires RelayOk(s) && k !in s.conns && p != ""
    ensures RelayOk(s.(conns := s.conns[k := p], known := s.known + {p}))
  {
    var s' := s.(conns := s.conns[k := p], known := s.known + {p});
    forall t | t in s'.xfers ensures RecordOk(s', t) {
      var r := s.xfers[t];
      assert RecordOk(s, t);
      var i :| i in s.conns && s.conns[i] == r.from;
      var j :| j in s.conns && s.conns[j] == r.to;
      assert s'.conns[i] == r.from && s'.conns[j] == r.to;
    }
    forall q ensures |s'.By(q)| <= MAX_OPEN_TRANSFERS { assert s'.By(q) == s.By(q); }
  }

  lemma HeardKeeps(s: Relay, k: ConnId, f: Transport, now: int)
    requires RelayOk(s) && k in s.conns
    ensures RelayOk(Heard(s, k, f, now))
  {
    var s' := Heard(s, k, f, now);
    if f.Offer? {
      OfferKeeps(s, k, f, now);
    } else if s'.xfers.Keys == s.xfers.Keys && s'.xfers != s.xfers {
      SameEndsIsOk(s, s', f.id, s'.xfers[f.id]);
    } else {
      FewerIsOk(s, s');
    }
  }

  /** Over every run: what passes is within what was offered, nothing passes before it was
      accepted, both ends are different people and connected, and nobody is the offerer of more
      than MAX_OPEN_TRANSFERS. */
  lemma {:induction false} AlwaysRelayOk(states: seq<Relay>, labels: seq<Label>, i: nat)
    requires Run(states, labels) && i < |states|
    ensures RelayOk(states[i])
  {
    if i == 0 {
      assert forall p :: states[0].By(p) == {};
    } else {
      AlwaysRelayOk(states, labels, i - 1);
      var s, s' := states[i - 1], states[i];
      assert Next(s, labels[i - 1], s');
      match labels[i - 1]
      case Connect(k, p) => ConnectKeeps(s, k, p);
      case Disconnect(k, gone) => DisconnectKeeps(s, k, gone);
      case Hear(k, f, now) => HeardKeeps(s, k, f, now);
      case Tick(now, gone) => FewerIsOk(s, s');
    }
  }

  // ----------------------------------------------------------- whom the cap protects

  /** If nobody takes part in more than MAX_OPEN_TRANSFERS, the next offer that is recorded
      keeps it so exactly when the person it is for takes part in fewer. */
  lemma CapHoldsExactlyWhen(s: Relay, k: ConnId, p: PeerId, f: Transport, now: int)
    requires f.Offer? && OnOffer(s, k, p, f, now).xfers != s.xfers
    requires forall q :: |s.Of(q)| <= MAX_OPEN_TRANSFERS
    ensures (forall q :: |OnOffer(s, k, p, f, now).Of(q)| <= MAX_OPEN_TRANSFERS)
       <==> |s.Of(Addressee(f))| < MAX_OPEN_TRANSFERS
  {
    RecordedOffer(s, k, p, f, now);
    OneMoreOpen(s, OnOffer(s, k, p, f, now), f.id, Record(p, Addressee(f), f.size, 0, false, now));
  }

  lemma OneMoreOpen(s: Relay, s': Relay, t: TransferId, r: Record)
    requires t !in s.xfers && s'.xfers == s.xfers[t := r]
    ensures forall q :: |s'.Of(q)| == |s.Of(q)| + if r.Has(q) then 1 else 0
  {
    forall q ensures |s'.Of(q)| == |s.Of(q)| + if r.Has(q) then 1 else 0 { OneMoreOf(s, s', t, r, q); }
  }

  lemma OneMoreOf(s: Relay, s': Relay, t: TransferId, r: Record, q: PeerId)
    requires t !in s.xfers && s'.xfers == s.xfers[t := r]
    ensures s'.Of(q) == s.Of(q) + if r.Has(q) then {t} else {}
  {
    forall x ensures x in s'.Of(q) <==> x in s.Of(q) + if r.Has(q) then {t} else {} {}
  }

  lemma OneMoreBy(s: Relay, s': Relay, t: TransferId, r: Record, q: PeerId)
    requires t !in s.xfers && s'.xfers == s.xfers[t := r]
    ensures s'.By(q) == s.By(q) + if q == r.from then {t} else {}
    ensures s.By(q) <= s.Of(q)
  {
    forall x ensures x in s'.By(q) <==> x in s.By(q) + if q == r.from then {t} else {} {}
  }

  function Many(n: nat): string { if n == 0 then "r" else Many(n - 1) + "r" }

  lemma {:induction false} ManyLength(n: nat)
    ensures |Many(n)| == n + 1
  {
    if n > 0 { ManyLength(n - 1); }
  }

  /** n people each with one offer open to one person, who is connected. */
  ghost predicate Crowd(s: Relay, n: nat) {
    && (forall k: ConnId :: k in s.conns <==> k <= n) && s.conns[0] == Many(0)
    && Many(0) in s.known
    && (forall t :: t in s.xfers ==> |t| <= n + 1 && s.xfers[t].from == t && s.xfers[t].to == Many(0))
    && |s.Of(Many(0))| == n
  }

  lemma RunMore(states: seq<Relay>, labels: seq<Label>, l: Label, s': Relay)
    requires Run(states, labels) && Next(states[|labels|], l, s')
    ensures Run(states + [s'], labels + [l])
  {
    var all, done := states + [s'], labels + [l];
    forall i | 0 <= i < |done| ensures Next(all[i], done[i], all[i + 1]) {
      if i < |labels| { assert Next(states[i], labels[i], states[i + 1]); }
    }
  }

  /** An offer of nothing by somebody with nothing open is recorded. */
  lemma FirstOfferIsRecorded(s: Relay, k: ConnId, p: PeerId, to: PeerId)
    requires p != "" && p !in s.xfers && s.Of(p) == {} && to != "" && to != p && to in s.known && s.Online(to)
    ensures OnOffer(s, k, p, Offer(p, "", to, "", "", 0), 0).xfers == s.xfers[p := Record(p, to, 0, 0, false, 0)]
  {
  }

  lemma CrowdGrows(s: Relay, s': Relay, n: nat)
    requires Crowd(s, n) && Many(n + 1) !in s.xfers && Many(n + 1) != Many(0)
    requires s'.conns == s.conns[n + 1 := Many(n + 1)] && s.known <= s'.known
    requires s'.xfers == s.xfers[Many(n + 1) := Record(Many(n + 1), Many(0), 0, 0, false, 0)]
    ensures Crowd(s', n + 1)
  {
    ManyLength(n + 1);
    OneMoreOpen(s, s', Many(n + 1), Record(Many(n + 1), Many(0), 0, 0, false, 0));
  }

  lemma JoinsCrowd(s: Relay, n: nat) returns (s1: Relay, f: Transport, s2: Relay)
    requires Crowd(s, n)
    ensures Next(s, Connect(n + 1, Many(n + 1)), s1) && Next(s1, Hear(n + 1, f, 0), s2) && Crowd(s2, n + 1)
  {
    ManyLength(0); ManyLength(n + 1);
    var p := Many(n + 1);
    s1 := s.(conns := s.conns[n + 1 := p], known := s.known + {p});
    assert s1.conns[0] == Many(0);
    f := Offer(p, "", Many(0), "", "", 0);
    s2 := OnOffer(s1, n + 1, p, f, 0);
    assert s1.Of(p) == {};
    FirstOfferIsRecorded(s1, n + 1, p, Many(0));
    assert s2.conns == s1.conns && s2.known == s1.known;
    CrowdGrows(s, s2, n);
  }

  lemma EmptyCrowd() returns (states: seq<Relay>, labels: seq<Label>)
    ensures Run(states, labels) && Crowd(states[|labels|], 0)
  {
    var s0 := Relay(map[], map[], {}, []);
    var s1 := s0.(conns := map[0 := Many(0)], known := {Many(0)});
    assert s1.Of(Many(0)) == {};
    states, labels := [s0, s1], [Connect(0, Many(0))];
  }

  /** The cap does not bound what is open towards one person: any number of people may have an
      offer waiting for the same one. */
  lemma {:induction false} AnyNumberOpenToOne(n: nat) returns (states: seq<Relay>, labels: seq<Label>)
    ensures Run(states, labels) && Crowd(states[|labels|], n)
  {
    if n == 0 {
      states, labels := EmptyCrowd();
    } else {
      states, labels := AnyNumberOpenToOne(n - 1);
      var s1, f, s2 := JoinsCrowd(states[|labels|], n - 1);
      states, labels := TwoMore(states, labels, Connect(n, Many(n)), s1, Hear(n, f, 0), s2);
    }
  }

  lemma TwoMore(states: seq<Relay>, labels: seq<Label>, l1: Label, s1: Relay, l2: Label, s2: Relay)
    returns (states': seq<Relay>, labels': seq<Label>)
    requires Run(states, labels) && Next(states[|labels|], l1, s1) && Next(s1, l2, s2)
    ensures Run(states', labels') && states'[|labels'|] == s2
  {
    RunMore(states, labels, l1, s1);
    RunMore(states + [s1], labels + [l1], l2, s2);
    states', labels' := states + [s1] + [s2], labels + [l1] + [l2];
  }
}
