/** The relay of the server (relaymodel.dfy) is, for each transfer, the relay in the middle of the
    three parties (transfermodel.dfy): what it makes of a frame, and what it tells either end
    (chatserver/relay.go). */
module RelaySteps {
  import opened Wrappers
  import opened Names
  import opened RelayModel
  import RelayTrace
  import T = TransferModel

  /** The table has the transfer as the three parties see it; when it was offered is nobody's
      business but the server's. */
  predicate Tracks(w: T.Errand, g: Relay, rel: T.Relayed) {
    match rel
    case Open(r) =>
      w.id in g.xfers && r == g.xfers[w.id].(at := r.at) && g.xfers[w.id].from == w.a && g.xfers[w.id].to == w.b
    case _ => w.id !in g.xfers
  }

  predicate Reaches(g: Relay, post: Post, p: PeerId) {
    match post case ToPeer(q, _) => q == p case ToConn(k, _) => k in g.conns && g.conns[k] == p
  }

  /** What one person is told about one transfer. */
  function Told(g: Relay, ps: seq<Post>, p: PeerId, id: TransferId): seq<Transport> {
    if ps == [] then []
    else
      var last := ps[|ps| - 1];
      Told(g, ps[..|ps| - 1], p, id) + if last.f.id == id && Reaches(g, last, p) then [last.f] else []
  }

  lemma ToldOne(g: Relay, post: Post, p: PeerId, id: TransferId)
    ensures Told(g, [post], p, id) == if post.f.id == id && Reaches(g, post, p) then [post.f] else []
  {
    assert [post][..0] == [];
  }

  lemma ToldTwo(g: Relay, x: Post, y: Post, p: PeerId, id: TransferId)
    ensures Told(g, [x, y], p, id) ==
      (if x.f.id == id && Reaches(g, x, p) then [x.f] else []) + if y.f.id == id && Reaches(g, y, p) then [y.f] else []
  {
    assert [x, y][..1] == [x];
    ToldOne(g, x, p, id);
  }

  /** The same frame, but for the wording of a decline. */
  predicate Alike(f: Transport, h: Transport) {
    f == h || (f.Decline? && h.Decline? && f.id == h.id && f.from == h.from)
  }

  predicate AllAlike(fs: seq<Transport>, hs: seq<Transport>) {
    |fs| == |hs| && forall i :: 0 <= i < |fs| ==> Alike(fs[i], hs[i])
  }

  /** The relay has gone from g to g' by saying ps, as the middle of the three has gone from s to s'. */
  ghost predicate Answers(w: T.Errand, g: Relay, ps: seq<Post>, g': Relay, s: T.State, s': T.State) {
    && g'.posts == g.posts + ps && g'.conns == g.conns && Tracks(w, g', s'.rel)
    && AllAlike(s.toSender + Told(g, ps, w.a, w.id), s'.toSender)
    && AllAlike(s.down + Told(g, ps, w.b, w.id), s'.down)
  }

  lemma SilentAnswer(w: T.Errand, g: Relay, s: T.State, s': T.State)
    requires Tracks(w, g, s'.rel) && s'.toSender == s.toSender && s'.down == s.down
    ensures Answers(w, g, [], g, s, s')
  {
    assert g.posts + [] == g.posts && s.toSender + [] == s.toSender && s.down + [] == s.down;
  }

  // ------------------------------------------------------------------ the receiver speaks

  /** An accept by the person it was offered to starts a waiting transfer, and the offerer is told;
      any other accept is passed over. */
  lemma AcceptIsStep(w: T.Errand, g: Relay, s: T.State) returns (ps: seq<Post>)
    requires w.a != w.b && Tracks(w, g, s.rel) && s.fromReceiver != []
    requires s.fromReceiver[0].Accept? && s.fromReceiver[0].id == w.id
    ensures Answers(w, g, ps, OnAccept(g, w.b, w.id), s, T.RelayHeardReceiver(w, s))
    ensures s.rel.Before() && s.rel.Open? ==> ps == [ToPeer(w.a, Accept(w.id, w.b))]
  {
    if s.rel.Open? && !s.rel.r.running {
      ps := [ToPeer(w.a, Accept(w.id, w.b))];
      ToldOne(g, ps[0], w.a, w.id);
      ToldOne(g, ps[0], w.b, w.id);
      assert s.down + [] == s.down;
    } else {
      ps := [];
      SilentAnswer(w, g, s, T.RelayHeardReceiver(w, s));
    }
  }

  lemma ReceiverDeclineIsStep(w: T.Errand, g: Relay, s: T.State) returns (ps: seq<Post>)
    requires w.a != w.b && Tracks(w, g, s.rel) && s.fromReceiver != []
    requires s.fromReceiver[0].Decline? && s.fromReceiver[0].id == w.id
    ensures Answers(w, g, ps, OnDecline(g, w.b, w.id, s.fromReceiver[0].reason), s, T.RelayHeardReceiver(w, s))
  {
    if s.rel.Open? {
      ps := [ToPeer(w.a, Decline(w.id, w.b, Clip(s.fromReceiver[0].reason, MAX_REASON)))];
      ToldOne(g, ps[0], w.a, w.id);
      ToldOne(g, ps[0], w.b, w.id);
      assert s.down + [] == s.down;
    } else {
      ps := [];
      SilentAnswer(w, g, s, T.RelayHeardReceiver(w, s));
    }
  }

  // -------------------------------------------------------------------- the sender speaks

  lemma SenderDeclineIsStep(w: T.Errand, g: Relay, s: T.State) returns (ps: seq<Post>)
    requires w.a != w.b && Tracks(w, g, s.rel) && s.up != [] && s.up[0].Decline? && s.up[0].id == w.id
    ensures Answers(w, g, ps, OnDecline(g, w.a, w.id, s.up[0].reason), s, T.RelayHeardSender(w, s, false))
  {
    if s.rel.Open? {
      ps := [ToPeer(w.b, Decline(w.id, w.a, Clip(s.up[0].reason, MAX_REASON)))];
      ToldOne(g, ps[0], w.a, w.id);
      ToldOne(g, ps[0], w.b, w.id);
      assert s.toSender + [] == s.toSender;
    } else {
      ps := [];
      SilentAnswer(w, g, s, T.RelayHeardSender(w, s, false));
    }
  }

  lemma DoneIsStep(w: T.Errand, g: Relay, s: T.State) returns (ps: seq<Post>)
    requires w.a != w.b && Tracks(w, g, s.rel) && s.up != [] && s.up[0].Done? && s.up[0].id == w.id
    ensures Answers(w, g, ps, OnDone(g, w.a, w.id, s.up[0].digest), s, T.RelayHeardSender(w, s, false))
  {
    if s.rel.Open? {
      ps := [ToPeer(w.b, Done(w.id, w.a, s.up[0].digest))];
      ToldOne(g, ps[0], w.a, w.id);
      ToldOne(g, ps[0], w.b, w.id);
      assert s.toSender + [] == s.toSender;
    } else {
      ps := [];
      SilentAnswer(w, g, s, T.RelayHeardSender(w, s, false));
    }
  }

  lemma ChunkIsStep(w: T.Errand, g: Relay, k: ConnId, s: T.State) returns (ps: seq<Post>)
    requires w.a != w.b && Tracks(w, g, s.rel) && k in g.conns && g.conns[k] == w.a
    requires s.up != [] && s.up[0].Chunk? && s.up[0].id == w.id
    ensures Answers(w, g, ps, OnChunk(g, k, w.a, w.id, s.up[0].offset, s.up[0].data), s,
                    T.RelayHeardSender(w, s, false))
  {
    var offset, data := s.up[0].offset, s.up[0].data;
    if !s.rel.Carrying() {
      ps := [];
      SilentAnswer(w, g, s, T.RelayHeardSender(w, s, false));
    } else if Pass(s.rel.r, offset, |data|).Some? {
      ps := [ToPeer(w.b, Chunk(w.id, w.a, offset, data))];
      ToldOne(g, ps[0], w.a, w.id);
      ToldOne(g, ps[0], w.b, w.id);
      assert s.toSender + [] == s.toSender;
    } else {
      var x, y := ToConn(k, Decline(w.id, "", OUT_OF_STEP)), ToPeer(w.b, Decline(w.id, w.a, OUT_OF_STEP));
      ps := [x, y];
      ToldTwo(g, x, y, w.a, w.id);
      ToldTwo(g, x, y, w.b, w.id);
    }
  }

  /** Why the server refuses an offer of something it does not have open. */
  ghost function WhyNot(g: Relay, p: PeerId, f: Transport): Option<string>
    requires f.Offer?
  {
    if Refusal(g, p, f).Some? then Refusal(g, p, f)
    else if |g.Of(p)| >= MAX_OPEN_TRANSFERS then Some("too many transfers are already open")
    else None
  }

  lemma OfferRefused(w: T.Errand, g: Relay, k: ConnId, s: T.State, now: int) returns (ps: seq<Post>)
    requires w.a != w.b && w.b != "" && s.rel.Waiting? && Tracks(w, g, s.rel) && k in g.conns && g.conns[k] == w.a
    requires s.up != [] && s.up[0] == Offer(w.id, "", w.b, "", "", w.size) && WhyNot(g, w.a, s.up[0]).Some?
    ensures Answers(w, g, ps, OnOffer(g, k, w.a, s.up[0], now), s, T.RelayHeardSender(w, s, true))
  {
    ps := [ToConn(k, Decline(w.id, w.b, WhyNot(g, w.a, s.up[0]).value))];
    ToldOne(g, ps[0], w.a, w.id);
    ToldOne(g, ps[0], w.b, w.id);
    assert s.down + [] == s.down;
  }

  lemma OfferTaken(w: T.Errand, g: Relay, k: ConnId, s: T.State, now: int) returns (ps: seq<Post>)
    requires w.a != w.b && w.b != "" && s.rel.Waiting? && Tracks(w, g, s.rel) && k in g.conns && g.conns[k] == w.a
    requires s.up != [] && s.up[0] == Offer(w.id, "", w.b, "", "", w.size) && WhyNot(g, w.a, s.up[0]).None?
    ensures Answers(w, g, ps, OnOffer(g, k, w.a, s.up[0], now), s, T.RelayHeardSender(w, s, false))
  {
    ps := [ToPeer(w.b, Offer(w.id, w.a, w.b, DirectConv(w.a), "", w.size))];
    ToldOne(g, ps[0], w.a, w.id);
    ToldOne(g, ps[0], w.b, w.id);
    assert s.toSender + [] == s.toSender;
  }

  /** An offer that has not been made before is taken or refused. */
  lemma OfferIsStep(w: T.Errand, g: Relay, k: ConnId, s: T.State, now: int) returns (ps: seq<Post>)
    requires w.a != w.b && w.b != "" && s.rel.Waiting? && Tracks(w, g, s.rel) && k in g.conns && g.conns[k] == w.a
    requires s.up != [] && s.up[0] == Offer(w.id, "", w.b, "", "", w.size)
    ensures Answers(w, g, ps, OnOffer(g, k, w.a, s.up[0], now), s,
                    T.RelayHeardSender(w, s, WhyNot(g, w.a, s.up[0]).Some?))
  {
    if WhyNot(g, w.a, s.up[0]).Some? {
      ps := OfferRefused(w, g, k, s, now);
    } else {
      ps := OfferTaken(w, g, k, s, now);
    }
  }

  /** An offer is taken exactly when it is well formed and new, goes to somebody else who is known
      and connected, and comes from somebody with room for one more; if it is new and not taken, the
      connection it came on alone is told, and one that is not new goes unanswered. */
  lemma TakenExactlyWhen(g: Relay, k: ConnId, p: PeerId, f: Transport, now: int)
    requires f.Offer?
    ensures var g', to := OnOffer(g, k, p, f, now), Addressee(f);
      && (f.id !in g.xfers ==>
            (f.id in g'.xfers <==>
               && f.id != "" && 0 <= f.size <= MAX_TRANSFER_BYTES && to != "" && to != p
               && to in g.known && g.Online(to) && |g.Of(p)| < MAX_OPEN_TRANSFERS))
      && (f.id !in g.xfers && f.id !in g'.xfers ==>
            exists why :: g' == g.(posts := g.posts + [ToConn(k, Decline(f.id, to, why))]))
      && (f.id in g.xfers && Refusal(g, p, f).None? ==> g' == g)
  {
    if f.id !in g.xfers && WhyNot(g, p, f).Some? {
      assert OnOffer(g, k, p, f, now) ==
        g.(posts := g.posts + [ToConn(k, Decline(f.id, Addressee(f), WhyNot(g, p, f).value))]);
    }
  }

  /** Whom an offer is for: the person it names, or the one its conversation is with. */
  lemma AddresseeIs(f: Transport, p: PeerId)
    requires f.Offer? && p != ""
    ensures Addressee(f) == p <==> f.to == p || (f.to == "" && f.conv == DirectConv(p))
  {
    NamesAreDisjoint("", "", p, "");
    if f.to == "" && ConvPeer(f.conv) == p { assert f.conv == "peer:" + f.conv[5..]; }
  }

  // ------------------------------------------------------------------ time and connections

  /** An offer that is taken stands for OFFER_TIMEOUT and no longer, and once accepted for good. */
  lemma ExpiresExactlyWhen(g: Relay, k: ConnId, f: Transport, at: int, now: int)
    requires k in g.conns && f.Offer? && f.id !in g.xfers && f.id in Heard(g, k, f, at).xfers
    ensures var g' := Heard(g, k, f, at);
      && (f.id in StaleIds(g', now) <==> now - at > OFFER_TIMEOUT)
      && f.id !in StaleIds(OnAccept(g', Addressee(f), f.id), now)
  {
  }

  lemma ExpiryOfThree(w: T.Errand, s: T.State, s': T.State)
    requires T.Next(w, s, T.RelayExpires, s')
    ensures s.rel.Open? && !s.rel.r.running && s'.rel.Closed?
    ensures s'.toSender == s.toSender + [Decline(w.id, w.b, UNANSWERED)]
    ensures s'.down == s.down + [Decline(w.id, w.a, UNANSWERED)]
  {
  }

  /** An offer left too long is what the three parties call expired. */
  lemma ExpiryIsStep(w: T.Errand, g: Relay, now: int, gone: seq<TransferId>, g': Relay, s: T.State, s': T.State)
    requires RelayOk(g) && Next(g, Tick(now, gone), g') && Tracks(w, g, s.rel) && w.id in gone
    requires T.Next(w, s, T.RelayExpires, s')
    ensures Tracks(w, g', s'.rel) && g.posts <= g'.posts
    ensures RelayTrace.News(g'.posts[|g.posts|..], w.id) ==
      [ToPeer(w.a, Decline(w.id, w.b, UNANSWERED)), ToPeer(w.b, Decline(w.id, w.a, UNANSWERED))]
    ensures s'.toSender == s.toSender + [Decline(w.id, w.b, UNANSWERED)]
    ensures s'.down == s.down + [Decline(w.id, w.a, UNANSWERED)]
  {
    ExpiryOfThree(w, s, s');
    RelayTrace.ExpiryEndsStaleOffers(g, now, gone, g');
    assert w.id in StaleIds(g, now);
  }

  /** And only a transfer still waiting is. */
  lemma ExpiryFinds(w: T.Errand, g: Relay, now: int, gone: seq<TransferId>, g': Relay, s: T.State)
    requires RelayOk(g) && Next(g, Tick(now, gone), g') && Tracks(w, g, s.rel)
    ensures w.id in gone ==> s.rel.Open? && !s.rel.r.running
    ensures w.id !in gone ==> Tracks(w, g', s.rel)
  {
    RelayTrace.ExpiryEndsStaleOffers(g, now, gone, g');
    assert w.id in gone <==> w.id in StaleIds(g, now);
  }

  lemma SenderCutOfThree(w: T.Errand, s: T.State, s': T.State)
    requires T.Next(w, s, T.SenderCut, s')
    ensures s'.rel.Closed?
    ensures s'.down == s.down + if s.rel.Open? then [Decline(w.id, w.a, DISCONNECTED)] else []
  {
  }

  lemma ReceiverCutOfThree(w: T.Errand, s: T.State, s': T.State)
    requires T.Next(w, s, T.ReceiverCut, s')
    ensures s'.rel == if s.rel.Open? then T.Closed else s.rel
    ensures s'.toSender == s.toSender + if s.rel.Open? then [Decline(w.id, w.b, DISCONNECTED)] else []
  {
  }

  /** What a connection that goes makes of one transfer of its person. */
  lemma EndGoes(w: T.Errand, g: Relay, k: ConnId, gone: seq<TransferId>, g': Relay, rel: T.Relayed, p: PeerId,
                q: PeerId)
    requires RelayOk(g) && Next(g, Disconnect(k, gone), g') && g.conns[k] == p && Tracks(w, g, rel)
    requires (p == w.a && q == w.b) || (p == w.b && q == w.a)
    requires p != q
    ensures w.id !in g'.xfers && g.posts <= g'.posts
    ensures RelayTrace.News(g'.posts[|g.posts|..], w.id) ==
      if rel.Open? then [ToPeer(q, Decline(w.id, p, DISCONNECTED))] else []
  {
    RelayTrace.DisconnectEndsItsTransfers(g, k, gone, g');
  }

  /** The offerer's connection goes, and the receiver is told. */
  lemma SenderCutIsStep(w: T.Errand, g: Relay, k: ConnId, gone: seq<TransferId>, g': Relay, s: T.State, s': T.State)
    requires RelayOk(g) && Next(g, Disconnect(k, gone), g') && g.conns[k] == w.a != w.b && Tracks(w, g, s.rel)
    requires T.Next(w, s, T.SenderCut, s')
    ensures Tracks(w, g', s'.rel) && g.posts <= g'.posts
    ensures var fs := if s.rel.Open? then [Decline(w.id, w.a, DISCONNECTED)] else [];
      && s'.down == s.down + fs
      && RelayTrace.News(g'.posts[|g.posts|..], w.id) == if s.rel.Open? then [ToPeer(w.b, fs[0])] else []
  {
    EndGoes(w, g, k, gone, g', s.rel, w.a, w.b);
    SenderCutOfThree(w, s, s');
  }

  /** The receiver's goes, and the offerer is told. */
  lemma ReceiverCutIsStep(w: T.Errand, g: Relay, k: ConnId, gone: seq<TransferId>, g': Relay, s: T.State, s': T.State)
    requires RelayOk(g) && Next(g, Disconnect(k, gone), g') && g.conns[k] == w.b != w.a && Tracks(w, g, s.rel)
    requires T.Next(w, s, T.ReceiverCut, s')
    ensures Tracks(w, g', s'.rel) && g.posts <= g'.posts
    ensures var fs := if s.rel.Open? then [Decline(w.id, w.b, DISCONNECTED)] else [];
      && s'.toSender == s.toSender + fs
      && RelayTrace.News(g'.posts[|g.posts|..], w.id) == if s.rel.Open? then [ToPeer(w.a, fs[0])] else []
  {
    EndGoes(w, g, k, gone, g', s.rel, w.b, w.a);
    ReceiverCutOfThree(w, s, s');
  }

  // ------------------------------------------------------------------- everybody else

  /** Nobody but the two ends can do anything to a transfer, and each only its own part. */
  lemma OnlyTheEnds(g: Relay, k: ConnId, f: Transport, now: int)
    requires k in g.conns && f.id in g.xfers && !f.Offer?
    requires match f
      case Accept(_, _) => g.conns[k] != g.xfers[f.id].to
      case Decline(_, _, _) => !g.xfers[f.id].Has(g.conns[k])
      case _ => g.conns[k] != g.xfers[f.id].from
    ensures Heard(g, k, f, now) == g
  {
  }

  /** A frame about one transfer leaves every other as it is, and says nothing of it. */
  lemma OthersUntouched(g: Relay, k: ConnId, f: Transport, now: int, id: TransferId, p: PeerId)
    requires k in g.conns && f.id != id
    ensures var g' := Heard(g, k, f, now);
      && (id in g'.xfers <==> id in g.xfers) && (id in g.xfers ==> g'.xfers[id] == g.xfers[id])
      && g.posts <= g'.posts && Told(g, g'.posts[|g.posts|..], p, id) == []
  {
    var g' := Heard(g, k, f, now);
    var ps := g'.posts[|g.posts|..];
    if |ps| == 1 { assert ps == [ps[0]]; ToldOne(g, ps[0], p, id); }
    if |ps| == 2 { assert ps == [ps[0], ps[1]]; ToldTwo(g, ps[0], ps[1], p, id); }
  }
}
