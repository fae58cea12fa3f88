/** Lists that are cut after their best entries.

Two parts of the system keep such a list:

- the ranking of the candidates of a worker cycle (backend/app/discovery/ranking.py);
- the queue of a monitoring cycle (backend/app/discovery/monitoring.py).

The order is by descending score and then by ascending number, which stands for the order of the addresses. */
module BestFirst {
  /** Lower-case addresses or token keys, numbered in their order. */
  type Address = int

  datatype Scored = Scored(score: real, addr: Address)

  predicate Before(a: Scored, b: Scored) { a.score > b.score || (a.score == b.score && a.addr <= b.addr) }

  function Insert(c: Scored, sorted: seq<Scored>): seq<Scored> {
    if sorted == [] || Before(c, sorted[0]) then [c] + sorted else [sorted[0]] + Insert(c, sorted[1..])
  }

  function Best(cs: seq<Scored>): seq<Scored> {
    if cs == [] then [] else Insert(cs[0], Best(cs[1..]))
  }

  function Take(cs: seq<Scored>, n: nat): seq<Scored> { if |cs| <= n then cs else cs[..n] }

  function Addresses(cs: seq<Scored>): seq<Address> {
    if cs == [] then [] else [cs[0].addr] + Addresses(cs[1..])
  }

  ghost predicate InOrder(cs: seq<Scored>) {
    forall i, j :: 0 <= i < j < |cs| ==> Before(cs[i], cs[j])
  }

  lemma {:induction false} InsertAdds(c: Scored, sorted: seq<Scored>)
    ensures multiset(Insert(c, sorted)) == multiset(sorted) + multiset{c}
  {
    if sorted != [] && !Before(c, sorted[0]) {
      InsertAdds(c, sorted[1..]);
      assert sorted == [sorted[0]] + sorted[1..];
    }
  }

  lemma {:induction false} InsertKeepsOrder(c: Scored, sorted: seq<Scored>)
    requires InOrder(sorted)
    ensures InOrder(Insert(c, sorted))
  {
    if sorted != [] && !Before(c, sorted[0]) {
      InsertKeepsOrder(c, sorted[1..]);
      InsertAdds(c, sorted[1..]);
      var r := Insert(c, sorted[1..]);
      forall i | 0 <= i < |r| ensures Before(sorted[0], r[i]) {
        assert r[i] in multiset(r);
        assert r[i] == c || r[i] in sorted[1..];
      }
    }
  }

  lemma {:induction false} BestIsOrdered(cs: seq<Scored>)
    ensures InOrder(Best(cs)) && multiset(Best(cs)) == multiset(cs)
  {
    if cs != [] {
      BestIsOrdered(cs[1..]);
      InsertKeepsOrder(cs[0], Best(cs[1..]));
      InsertAdds(cs[0], Best(cs[1..]));
      assert cs == [cs[0]] + cs[1..];
    }
  }

  /** Whatever is cut off ranks behind everything that is kept. */
  lemma CutOffRanksBehind(cs: seq<Scored>, n: nat, c: Scored, d: Scored)
    requires c in Take(Best(cs), n) && d in cs && d !in Take(Best(cs), n)
    ensures Before(c, d)
  {
    BestIsOrdered(cs);
    assert d in multiset(Best(cs));
    var taken := Take(Best(cs), n);
    assert forall k :: 0 <= k < |taken| ==> taken[k] in taken && taken[k] == Best(cs)[k];
    var i :| 0 <= i < |taken| && taken[i] == c;
    var j :| 0 <= j < |Best(cs)| && Best(cs)[j] == d;
  }

  // ---------------------------------------------------------------- the addresses of a list

  function AddrSet(cs: seq<Scored>): set<Address> {
    if cs == [] then {} else {cs[0].addr} + AddrSet(cs[1..])
  }

  lemma {:induction false} AddressesAsSet(cs: seq<Scored>)
    ensures forall a :: a in Addresses(cs) <==> a in AddrSet(cs)
  {
    if cs != [] { AddressesAsSet(cs[1..]); }
  }

  lemma {:induction false} AddressesLength(cs: seq<Scored>)
    ensures |Addresses(cs)| == |cs|
  {
    if cs != [] { AddressesLength(cs[1..]); }
  }

  lemma {:induction false} AddrSetMembers(cs: seq<Scored>, a: Address)
    ensures a in AddrSet(cs) <==> exists c :: c in cs && c.addr == a
  {
    if cs != [] {
      AddrSetMembers(cs[1..], a);
      assert cs == [cs[0]] + cs[1..];
      if c :| c in cs && c.addr == a { assert c == cs[0] || c in cs[1..]; }
    }
  }

  lemma {:induction false} AddrSetJoin(a: seq<Scored>, b: seq<Scored>)
    ensures AddrSet(a + b) == AddrSet(a) + AddrSet(b)
  {
    if a == [] {
      assert a + b == b;
    } else {
      assert (a + b)[1..] == a[1..] + b;
      AddrSetJoin(a[1..], b);
    }
  }

  lemma {:induction false} AddrSetSmall(cs: seq<Scored>)
    ensures |AddrSet(cs)| <= |cs|
  {
    if cs != [] {
      AddrSetSmall(cs[1..]);
      UnionSmall({cs[0].addr}, AddrSet(cs[1..]));
    }
  }

  lemma UnionSmall(a: set<Address>, b: set<Address>)
    ensures |a + b| <= |a| + |b|
  {
    assert a + b == a + (b - a);
    assert |b - a| <= |b| by { assert b == (b - a) + (b * a); }
  }

  lemma SameAddrSet(a: seq<Scored>, b: seq<Scored>)
    requires multiset(a) == multiset(b)
    ensures AddrSet(a) == AddrSet(b) && |a| == |b|
  {
    assert |multiset(a)| == |a| && |multiset(b)| == |b|;
    forall x ensures x in AddrSet(a) <==> x in AddrSet(b) {
      AddrSetMembers(a, x);
      AddrSetMembers(b, x);
      assert forall c :: c in a <==> c in multiset(a);
      assert forall c :: c in b <==> c in multiset(b);
    }
  }

  /** No address occurs twice. */
  predicate AllDifferent(cs: seq<Scored>) { |AddrSet(cs)| == |cs| }

  lemma PartsDiffer(a: seq<Scored>, b: seq<Scored>)
    requires AllDifferent(a + b)
    ensures AllDifferent(a) && AllDifferent(b) && AddrSet(a) * AddrSet(b) == {}
  {
    AddrSetJoin(a, b);
    AddrSetSmall(a);
    AddrSetSmall(b);
    assert AddrSet(a) + AddrSet(b) == AddrSet(a) + (AddrSet(b) - AddrSet(a) * AddrSet(b));
    UnionSmall(AddrSet(a), AddrSet(b) - AddrSet(a) * AddrSet(b));
    assert AddrSet(b) == (AddrSet(b) - AddrSet(a) * AddrSet(b)) + AddrSet(a) * AddrSet(b);
  }

  lemma TakeDiffers(cs: seq<Scored>, n: nat)
    requires AllDifferent(cs)
    ensures AllDifferent(Take(cs, n))
  {
    if |cs| > n {
      assert cs == cs[..n] + cs[n..];
      PartsDiffer(cs[..n], cs[n..]);
    }
  }

  /** Each entry of such a list is new. */
  lemma NextIsNew(cs: seq<Scored>, k: nat)
    requires AllDifferent(cs) && k < |cs|
    ensures cs[k].addr !in AddrSet(cs[..k]) && AddrSet(cs[..k + 1]) == AddrSet(cs[..k]) + {cs[k].addr}
  {
    assert cs == cs[..k] + cs[k..] && cs[k..][0] == cs[k];
    PartsDiffer(cs[..k], cs[k..]);
    assert cs[..k + 1] == cs[..k] + [cs[k]];
    AddrSetJoin(cs[..k], [cs[k]]);
    assert [cs[k]][1..] == [];
  }
}
