/** What a receiver makes of any slices at all, whoever cut them (chatclientd/files.go, onChunk). */
module Slices {
  import opened Wrappers
  import opened TransferModel

  datatype Slice = Slice(offset: int, data: seq<Byte>)

  /** A landing after it has been sent these, one after the other. */
  function Fed(l: Landing, slices: seq<Slice>): Landing {
    if slices == [] then l
    else
      var last := slices[|slices| - 1];
      Chunked(Fed(l, slices[..|slices| - 1]), last.offset, last.data)
  }

  function Joined(slices: seq<Slice>): seq<Byte> {
    if slices == [] then [] else Joined(slices[..|slices| - 1]) + slices[|slices| - 1].data
  }

  /** Each begins where those before it end, and all of them fit. */
  predicate InOrder(slices: seq<Slice>, size: nat) {
    && |Joined(slices)| <= size
    && forall i :: 0 <= i < |slices| ==> slices[i].offset == |Joined(slices[..i])|
  }

  lemma {:induction false} JoinedGrows(slices: seq<Slice>, i: nat)
    requires i <= |slices|
    ensures |Joined(slices[..i])| <= |Joined(slices)|
  {
    if i == |slices| {
      assert slices[..i] == slices;
    } else {
      var init := slices[..|slices| - 1];
      JoinedGrows(init, i);
      assert init[..i] == slices[..i];
    }
  }

  lemma InOrderMore(init: seq<Slice>, last: Slice, size: nat)
    ensures InOrder(init + [last], size) <==>
      InOrder(init, size) && last.offset == |Joined(init)| && |Joined(init)| + |last.data| <= size
  {
    var slices := init + [last];
    assert slices[..|init|] == init;
    assert forall i :: 0 <= i < |init| ==> slices[..i] == init[..i] && slices[i] == init[i];
    assert slices[|init|] == last;
    JoinedGrows(slices, |init|);
  }

  /** How many of them land: all up to the first that does not begin where the last one ended, or
      does not fit. */
  function Good(slices: seq<Slice>, size: nat): (n: nat)
    ensures n <= |slices|
  {
    if InOrder(slices, size) then |slices| else if slices == [] then 0 else Good(slices[..|slices| - 1], size)
  }

  lemma {:induction false} GoodIs(slices: seq<Slice>, size: nat)
    ensures InOrder(slices[..Good(slices, size)], size)
    ensures forall n :: Good(slices, size) < n <= |slices| ==> !InOrder(slices[..n], size)
  {
    assert slices[..|slices|] == slices;
    if !InOrder(slices, size) {
      var init := slices[..|slices| - 1];
      GoodIs(init, size);
      assert forall n :: 0 <= n < |slices| ==> init[..n] == slices[..n];
    }
  }

  /** Whatever slices come, the file is made of the longest run of them from the first on that
      follow on from one another within the size; it is still being written if that is all of them,
      and the transfer has failed otherwise. */
  lemma {:induction false} LandsExactly(l: Landing, path: string, slices: seq<Slice>)
    requires l.tr.incoming && l.tr.state.Incoming?
    ensures var l', n := Fed(Accepted(l, path), slices), Good(slices, l.tr.size);
      && l'.disk == Some(Joined(slices[..n])) && l'.tr.done == |Joined(slices[..n])|
      && l'.tr.incoming && l'.tr.size == l.tr.size
      && (if n == |slices| then l'.tr.state.Running? && l'.open else l'.tr.state.Failed?)
  {
    if slices != [] {
      var init, last := slices[..|slices| - 1], slices[|slices| - 1];
      LandsExactly(l, path, init);
      InOrderMore(init, last, l.tr.size);
      assert slices == init + [last];
      GoodBefore(slices, l.tr.size);
    }
  }

  lemma GoodBefore(slices: seq<Slice>, size: nat)
    requires slices != []
    ensures var init, n := slices[..|slices| - 1], Good(slices, size);
      && (n == |slices| <==> InOrder(slices, size))
      && (n == |slices| ==> Good(init, size) == |init|)
      && (n < |slices| ==> n == Good(init, size) && slices[..n] == init[..n])
      && slices[..|slices|] == slices && init[..|init|] == init
  {
    var init := slices[..|slices| - 1];
    InOrderMore(init, slices[|slices| - 1], size);
    assert slices == init + [slices[|slices| - 1]];
  }
}
