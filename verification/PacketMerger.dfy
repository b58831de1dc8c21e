/** The packet merger (scrcpy/app/src/packet_merger.c): a config packet goes out alone, and once more
    in front of the next media packet. */
module PacketMerger {
  import opened Wrappers
  import opened Recorder

  /** sc_packet_merger_merge: the pending config, and the packet as it goes on. */
  function Merge(config: Option<seq<bv8>>, p: Packet): (Option<seq<bv8>>, Packet) {
    if IsConfig(p) then (Some(p.data), p)
    else if config.Some? then (None, p.(data := config.value + p.data))
    else (None, p)
  }

  class Merger {
    var config: Option<seq<bv8>>

    constructor ()
      ensures config == None
    {
      config := None;
    }

    method MergePacket(p: Packet) returns (out: Packet)
      modifies this
      ensures (config, out) == Merge(old(config), p)
    {
      out := p;
      if IsConfig(p) {
        config := Some(p.data);
      } else if config.Some? {
        out := p.(data := config.value + p.data);
        config := None;
      }
    }
  }

  function MergeAll(ps: seq<Packet>, config: Option<seq<bv8>>): seq<Packet>
    decreases |ps|
  {
    if ps == [] then []
    else
      var (c, p) := Merge(config, ps[0]);
      [p] + MergeAll(ps[1..], c)
  }

  /** A packet with the data of a config packet right before it in front. */
  function Headed(ps: seq<Packet>, i: nat): Packet
    requires i < |ps|
  {
    if !IsConfig(ps[i]) && i > 0 && IsConfig(ps[i - 1]) then ps[i].(data := ps[i - 1].data + ps[i].data) else ps[i]
  }

  lemma {:induction false} MergesEach(ps: seq<Packet>, config: Option<seq<bv8>>)
    ensures |MergeAll(ps, config)| == |ps|
    ensures forall i :: 0 < i < |ps| ==> MergeAll(ps, config)[i] == Headed(ps, i)
    ensures ps != [] ==> MergeAll(ps, config)[0] == Merge(config, ps[0]).1
    decreases |ps|
  {
    if ps != [] {
      var (c, p) := Merge(config, ps[0]);
      MergesEach(ps[1..], c);
      forall i | 0 < i < |ps|
        ensures MergeAll(ps, config)[i] == Headed(ps, i)
      {
        assert MergeAll(ps, config)[i] == MergeAll(ps[1..], c)[i - 1];
        if i > 1 { assert Headed(ps, i) == Headed(ps[1..], i - 1); }
      }
    }
  }

  /** The merger's output is the input with each media packet headed by the config before it, if
      there is one; a config replaced by a newer one heads nothing. */
  lemma MergeHeadsMedia(ps: seq<Packet>)
    ensures |MergeAll(ps, None)| == |ps|
    ensures forall i :: 0 <= i < |ps| ==> MergeAll(ps, None)[i] == Headed(ps, i)
  {
    MergesEach(ps, None);
  }
}
