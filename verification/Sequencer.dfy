/** One global numbering of the items that several clients contribute. */
module Sequencer {
  type ConnectionId = nat

  datatype Sequenced<R> = Sequenced(sequence: nat, client: ConnectionId, request: R)

  /** What each visited client contributes, in visiting order. */
  type Walk<R> = seq<(ConnectionId, seq<R>)>

  function Tag<R>(first: nat, c: ConnectionId, rs: seq<R>): (out: seq<Sequenced<R>>)
    ensures |out| == |rs|
  {
    seq(|rs|, i requires 0 <= i < |rs| => Sequenced(first + i, c, rs[i]))
  }

  function Number<R>(walk: Walk<R>, next: nat): seq<Sequenced<R>>
    decreases |walk|
  {
    if walk == [] then [] else Tag(next, walk[0].0, walk[0].1) + Number(walk[1..], next + |walk[0].1|)
  }

  /** The sequence numbers count up from next without a gap. */
  predicate Consecutive<R>(out: seq<Sequenced<R>>, next: nat) {
    forall i | 0 <= i < |out| :: out[i].sequence == next + i
  }

  lemma {:induction false} NumbersAreConsecutive<R>(walk: Walk<R>, next: nat)
    ensures Consecutive(Number(walk, next), next)
    decreases |walk|
  {
    if walk == [] {
    } else {
      var k := |walk[0].1|;
      NumbersAreConsecutive(walk[1..], next + k);
      var out, tail := Number(walk, next), Number(walk[1..], next + k);
      forall i | 0 <= i < |out| ensures out[i].sequence == next + i {
        if i < k {
          assert out[i] == Tag(next, walk[0].0, walk[0].1)[i];
        } else {
          assert out[i] == tail[i - k];
        }
      }
    }
  }

  lemma {:induction false} NumberAppend<R>(a: Walk<R>, b: Walk<R>, next: nat)
    ensures Number(a + b, next) == Number(a, next) + Number(b, next + |Number(a, next)|)
    decreases |a|
  {
    if a == [] {
      assert a + b == b;
    } else {
      NumberAppend(a[1..], b, next + |a[0].1|);
      assert (a + b)[1..] == a[1..] + b;
    }
  }

  lemma NumberOne<R>(c: ConnectionId, rs: seq<R>, next: nat)
    ensures Number([(c, rs)], next) == Tag(next, c, rs)
  {
    var walk := [(c, rs)];
    assert walk[1..] == [];
  }

  // ---------------------------------------------------------------- one client's share

  function ByClient<R>(out: seq<Sequenced<R>>, c: ConnectionId): seq<R> {
    if out == [] then [] else Own(out[0], c) + ByClient(out[1..], c)
  }

  function Own<R>(item: Sequenced<R>, c: ConnectionId): seq<R> {
    if item.client == c then [item.request] else []
  }

  lemma ByClientOfNone<R>(c: ConnectionId)
    ensures ByClient<R>([], c) == []
  {
  }

  lemma ByClientFirst<R>(item: Sequenced<R>, rest: seq<Sequenced<R>>, c: ConnectionId)
    ensures ByClient([item] + rest, c) == Own(item, c) + ByClient(rest, c)
  {
    assert ([item] + rest)[1..] == rest;
  }

  lemma {:induction false} ByClientAppend<R>(a: seq<Sequenced<R>>, b: seq<Sequenced<R>>, c: ConnectionId)
    ensures ByClient(a + b, c) == ByClient(a, c) + ByClient(b, c)
  {
    hide *;
    if a == [] {
      assert a + b == b;
      ByClientOfNone<R>(c);
    } else {
      var first, rest := a[0], a[1..];
      ByClientAppend(rest, b, c);
      assert a == [first] + rest && a + b == [first] + (rest + b);
      ByClientFirst(first, rest, c);
      ByClientFirst(first, rest + b, c);
    }
  }

  lemma {:induction false} ByClientTag<R>(first: nat, d: ConnectionId, rs: seq<R>, c: ConnectionId)
    ensures ByClient(Tag(first, d, rs), c) == if c == d then rs else []
    decreases |rs|
  {
    if rs == [] {
    } else {
      ByClientTag(first + 1, d, rs[1..], c);
      assert Tag(first, d, rs)[1..] == Tag(first + 1, d, rs[1..]);
    }
  }

  predicate VisitsOnce<R>(walk: Walk<R>) {
    forall i, j | 0 <= i < j < |walk| :: walk[i].0 != walk[j].0
  }

  /** A client not visited has no share. */
  lemma {:induction false} NoShare<R>(walk: Walk<R>, next: nat, c: ConnectionId)
    requires forall i | 0 <= i < |walk| :: walk[i].0 != c
    ensures ByClient(Number(walk, next), c) == []
    decreases |walk|
  {
    if walk == [] {
    } else {
      ByClientAppend(Tag(next, walk[0].0, walk[0].1), Number(walk[1..], next + |walk[0].1|), c);
      ByClientTag(next, walk[0].0, walk[0].1, c);
      NoShare(walk[1..], next + |walk[0].1|, c);
    }
  }

  /** A client visited once has as its share what it contributed, in order. */
  lemma {:induction false} ShareIsContribution<R>(walk: Walk<R>, next: nat, i: nat)
    requires VisitsOnce(walk) && i < |walk|
    ensures ByClient(Number(walk, next), walk[i].0) == walk[i].1
    decreases |walk|
  {
    hide ByClient, Tag;
    var c := walk[i].0;
    ByClientAppend(Tag(next, walk[0].0, walk[0].1), Number(walk[1..], next + |walk[0].1|), c);
    ByClientTag(next, walk[0].0, walk[0].1, c);
    if i == 0 {
      NoShare(walk[1..], next + |walk[0].1|, c);
    } else {
      ShareIsContribution(walk[1..], next + |walk[0].1|, i - 1);
    }
  }

  // ---------------------------------------------------------------- sorting

  predicate Ascending<R>(s: seq<Sequenced<R>>) {
    forall i, j | 0 <= i < j < |s| :: s[i].sequence <= s[j].sequence
  }

  predicate StrictlyAscending<R>(s: seq<Sequenced<R>>) {
    forall i, j | 0 <= i < j < |s| :: s[i].sequence < s[j].sequence
  }

  /** Whatever the algorithm, a sort leaves a strictly ascending sequence as it is. */
  lemma {:induction false} SortChangesNothing<R>(s: seq<Sequenced<R>>, t: seq<Sequenced<R>>)
    requires StrictlyAscending(s) && Ascending(t) && multiset(s) == multiset(t)
    ensures s == t
  {
    assert |multiset(s)| == |s| && |multiset(t)| == |t|;
    if s == [] {
    } else {
      SameHead(s, t);
      assert s == [s[0]] + s[1..] && t == [t[0]] + t[1..];
      SameTail(s[0], s[1..], t[1..]);
      SortChangesNothing(s[1..], t[1..]);
    }
  }

  lemma SameHead<R>(s: seq<Sequenced<R>>, t: seq<Sequenced<R>>)
    requires StrictlyAscending(s) && Ascending(t) && multiset(s) == multiset(t)
    requires s != [] && t != []
    ensures s[0] == t[0]
  {
    assert s[0] in multiset(t) && t[0] in multiset(s);
    var i :| 0 <= i < |t| && t[i] == s[0];
    var j :| 0 <= j < |s| && s[j] == t[0];
  }

  lemma SameTail<X>(x: X, s: seq<X>, t: seq<X>)
    requires multiset([x] + s) == multiset([x] + t)
    ensures multiset(s) == multiset(t)
  {
    assert multiset(s) == multiset([x] + s) - multiset{x};
    assert multiset(t) == multiset([x] + t) - multiset{x};
  }
}
