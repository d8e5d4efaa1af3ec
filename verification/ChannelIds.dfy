/** Thread ids: the `channel#peer` string of a (channel, peer) pair. */
module ChannelIds {
  function ForPeer(channel: string, peer: string): string {
    channel + "#" + peer
  }

  /** Neither channel id, followed by `#`, starts the other one. */
  predicate Separated(c1: string, c2: string) {
    c1 == c2 || (!(c1 + "#" <= c2) && !(c2 + "#" <= c1))
  }

  predicate AllSeparated(channels: set<string>) {
    forall c1, c2 :: c1 in channels && c2 in channels ==> Separated(c1, c2)
  }

  lemma ShorterChannelIsPrefix(c1: string, p1: string, c2: string, p2: string)
    requires ForPeer(c1, p1) == ForPeer(c2, p2)
    ensures |c1| < |c2| ==> c1 + "#" <= c2
  {
    if |c1| < |c2| {
      assert forall k :: 0 <= k < |c1| + 1 ==> (c1 + "#")[k] == ForPeer(c1, p1)[k] == c2[k];
    }
  }

  /** Over separated channels a thread id determines its channel and its peer. */
  lemma ForPeerInjective(c1: string, p1: string, c2: string, p2: string)
    requires Separated(c1, c2)
    requires ForPeer(c1, p1) == ForPeer(c2, p2)
    ensures c1 == c2 && p1 == p2
  {
    ShorterChannelIsPrefix(c1, p1, c2, p2);
    ShorterChannelIsPrefix(c2, p2, c1, p1);
    var t := ForPeer(c1, p1);
    assert c1 == t[..|c1|] && c2 == t[..|c2|];
    assert p1 == t[|c1| + 1..] && p2 == t[|c2| + 1..];
  }

  /** The peers with which two channels collide. */
  function CollidingPeers(c1: string, c2: string): (string, string)
    requires c1 + "#" <= c2
  {
    (c2[|c1| + 1..] + "#", "")
  }

  /** Two distinct channel ids share a thread id for some pair of peers exactly when they are
      not separated. */
  lemma CollisionIffNotSeparated(c1: string, c2: string)
    requires c1 != c2
    ensures (exists p1, p2 :: ForPeer(c1, p1) == ForPeer(c2, p2)) <==> !Separated(c1, c2)
  {
    if exists p1, p2 :: ForPeer(c1, p1) == ForPeer(c2, p2) {
      var p1, p2 :| ForPeer(c1, p1) == ForPeer(c2, p2);
      if Separated(c1, c2) {
        ForPeerInjective(c1, p1, c2, p2);
      }
    }
    if c1 + "#" <= c2 {
      var (p1, p2) := CollidingPeers(c1, c2);
      assert ForPeer(c1, p1) == ForPeer(c2, p2);
    } else if c2 + "#" <= c1 {
      var (p2, p1) := CollidingPeers(c2, c1);
      assert ForPeer(c1, p1) == ForPeer(c2, p2);
    }
  }

  lemma PrefixShowsHash(c1: string, c2: string)
    ensures c1 + "#" <= c2 ==> '#' in c2
  {
    assert (c1 + "#")[|c1|] == '#';
  }

  /** Channel ids free of `#` are separated. */
  lemma HashFreeSeparated(channels: set<string>)
    requires forall c :: c in channels ==> '#' !in c
    ensures AllSeparated(channels)
  {
    forall c1, c2 | c1 in channels && c2 in channels
      ensures Separated(c1, c2)
    {
      PrefixShowsHash(c1, c2);
      PrefixShowsHash(c2, c1);
    }
  }
}
