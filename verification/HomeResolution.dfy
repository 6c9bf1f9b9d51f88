// Which of the directory entries that peers served and that verified an agent is
// resolved by (internal/aghub/fed_home.go).
module HomeResolution {
  import opened Basics

  // One event of a key history, by its digest.
  type Event = nat
  type Kel = seq<Event>

  // A directory entry that verified: the peer it was found at, its key history and the
  // seq of its key set.
  datatype Resolved = Resolved(home: nat, kel: Kel, keysSeq: nat)

  // ExtendsKEL: whether new extends old.
  predicate Extends(old_: Kel, new_: Kel) {
    old_ <= new_
  }

  predicate Fork(a: Resolved, b: Resolved) {
    !Extends(a.kel, b.kel) && !Extends(b.kel, a.kel)
  }

  ghost predicate AnyFork(s: seq<Resolved>) {
    exists i, j :: 0 <= i < j < |s| && Fork(s[i], s[j])
  }

  // a is to be preferred to b, or is as good: a longer history, or the same with a
  // newer or equal key set.
  predicate AtLeastAsGood(a: Resolved, b: Resolved) {
    Extends(b.kel, a.kel) && (a.kel == b.kel ==> a.keysSeq >= b.keysSeq)
  }

  // The first of the best.
  ghost predicate FirstBest(s: seq<Resolved>, k: nat)
    requires k < |s|
  {
    && (forall i :: 0 <= i < |s| ==> AtLeastAsGood(s[k], s[i]))
    && (forall i :: 0 <= i < k ==> !AtLeastAsGood(s[i], s[k]))
  }

  // The entries that verified, in the order of the peer table: an entry of another
  // agent in the bucket, or one that does not verify, is None.
  function Verified(served: seq<Option<Resolved>>): seq<Resolved> {
    if served == [] then []
    else
      var rest, x := Verified(served[..|served| - 1]), served[|served| - 1];
      if x.Some? then rest + [x.value] else rest
  }

  function Concat(results: seq<seq<Option<Resolved>>>): seq<Option<Resolved>> {
    if results == [] then [] else Concat(results[..|results| - 1]) + results[|results| - 1]
  }

  // What is known after some entries: the best so far, which is the first best.
  ghost predicate Best(s: seq<Resolved>, best: Option<Resolved>) {
    && !AnyFork(s)
    && (best.None? <==> s == [])
    && (best.Some? ==> exists k :: 0 <= k < |s| && s[k] == best.value && FirstBest(s, k))
  }

  lemma ForksStay(s: seq<Resolved>, e: Resolved)
    requires AnyFork(s)
    ensures AnyFork(s + [e])
  {
    var i, j :| 0 <= i < j < |s| && Fork(s[i], s[j]);
    assert Fork((s + [e])[i], (s + [e])[j]);
  }

  lemma ForkFound(s: seq<Resolved>, best: Resolved, e: Resolved)
    requires Best(s, Some(best)) && Fork(best, e)
    ensures AnyFork(s + [e])
  {
    var k :| 0 <= k < |s| && s[k] == best && FirstBest(s, k);
    assert Fork((s + [e])[k], (s + [e])[|s|]);
  }

  lemma NoForkWith(s: seq<Resolved>, best: Resolved, e: Resolved)
    requires Best(s, Some(best)) && !Fork(best, e)
    ensures !AnyFork(s + [e])
  {
  }

  lemma StaysBest(s: seq<Resolved>, best: Resolved, e: Resolved)
    requires Best(s, Some(best)) && AtLeastAsGood(best, e)
    ensures Best(s + [e], Some(best))
  {
    NoForkWith(s, best, e);
    var k :| 0 <= k < |s| && s[k] == best && FirstBest(s, k);
    assert (s + [e])[k] == best && FirstBest(s + [e], k);
  }

  lemma BecomesBest(s: seq<Resolved>, best: Resolved, e: Resolved)
    requires Best(s, Some(best)) && AtLeastAsGood(e, best) && !AtLeastAsGood(best, e)
    ensures Best(s + [e], Some(e))
  {
    NoForkWith(s, best, e);
    var k :| 0 <= k < |s| && s[k] == best && FirstBest(s, k);
    forall i | 0 <= i < |s| ensures AtLeastAsGood(e, s[i]) && !AtLeastAsGood(s[i], e) {
      assert AtLeastAsGood(s[k], s[i]);
    }
    assert (s + [e])[|s|] == e && FirstBest(s + [e], |s|);
  }

  // The two ways an entry replaces the best: a longer history, or the same with a
  // newer key set.
  lemma ReplacesIsBetter(best: Resolved, e: Resolved)
    ensures Extends(best.kel, e.kel) && |e.kel| > |best.kel| ==> AtLeastAsGood(e, best) && !AtLeastAsGood(best, e)
    ensures Extends(e.kel, best.kel) && |e.kel| == |best.kel| ==> e.kel == best.kel
    ensures Extends(e.kel, best.kel) && !(|e.kel| == |best.kel| && e.keysSeq > best.keysSeq) ==> AtLeastAsGood(best, e)
  {
  }

  // lookupEntryOnce, once the peers have answered: nothing exactly when nothing
  // verified or two histories fork, and otherwise the longest history with the newest
  // key set, the first of equals in the peer table's order.
  method LookupEntryOnce(results: seq<seq<Option<Resolved>>>) returns (best: Option<Resolved>)
    ensures var s := Verified(Concat(results));
            && (best.None? <==> s == [] || AnyFork(s))
            && (best.Some? ==> exists k :: 0 <= k < |s| && s[k] == best.value && FirstBest(s, k))
  {
    best := None;
    ghost var seen: seq<Option<Resolved>> := [];
    for i := 0 to |results|
      invariant seen == Concat(results[..i]) && Best(Verified(seen), best)
    {
      var r := results[i];
      assert results[..i + 1][..i] == results[..i];
      ghost var before := seen;
      for j := 0 to |r|
        invariant seen == before + r[..j] && Best(Verified(seen), best)
      {
        assert before + r[..j + 1] == seen + [r[j]];
        assert (seen + [r[j]])[..|seen|] == seen;
        ghost var s := Verified(seen);
        seen := seen + [r[j]];
        if r[j].None? {
          continue;
        }
        var e := r[j].value;
        assert Verified(seen) == s + [e];
        if best.None? {
          best := Some(e);
          assert FirstBest(s + [e], 0);
        } else if Extends(best.value.kel, e.kel) && |e.kel| > |best.value.kel| {
          ReplacesIsBetter(best.value, e);
          BecomesBest(s, best.value, e);
          best := Some(e);
        } else if Extends(e.kel, best.value.kel) {
          ReplacesIsBetter(best.value, e);
          if |e.kel| == |best.value.kel| && e.keysSeq > best.value.keysSeq {
            BecomesBest(s, best.value, e);
            best := Some(e);
          } else {
            StaysBest(s, best.value, e);
          }
        } else {
          ForkFound(s, best.value, e);
          RestKeepsForks(seen, results, i, j);
          return None;
        }
      }
      assert r[..|r|] == r;
    }
    assert results[..|results|] == results;
  }

  lemma {:induction false} MoreKeepsForks(a: seq<Option<Resolved>>, b: seq<Option<Resolved>>)
    requires AnyFork(Verified(a))
    ensures AnyFork(Verified(a + b))
    decreases |b|
  {
    if b == [] {
      assert a + b == a;
    } else {
      var b', x := b[..|b| - 1], b[|b| - 1];
      MoreKeepsForks(a, b');
      assert (a + b)[..|a + b| - 1] == a + b';
      if x.Some? {
        ForksStay(Verified(a + b'), x.value);
      }
    }
  }

  // What was seen when a fork was found begins what every peer answered.
  lemma {:induction false} RestKeepsForks(seen: seq<Option<Resolved>>, results: seq<seq<Option<Resolved>>>,
                                          i: nat, j: nat)
    requires i < |results| && j < |results[i]|
    requires seen == Concat(results[..i]) + results[i][..j + 1] && AnyFork(Verified(seen))
    ensures AnyFork(Verified(Concat(results)))
    decreases |results|
  {
    if i == |results| - 1 {
      assert Concat(results) == seen + results[i][j + 1..];
      MoreKeepsForks(seen, results[i][j + 1..]);
    } else {
      var rest := results[..|results| - 1];
      assert rest[..i] == results[..i];
      RestKeepsForks(seen, rest, i, j);
      MoreKeepsForks(Concat(rest), results[|results| - 1]);
    }
  }

  // ---- whatever order the peers answer in ----

  ghost predicate SameEntries(s: seq<Resolved>, t: seq<Resolved>) {
    multiset(s) == multiset(t)
  }

  lemma ForkMoves(s: seq<Resolved>, t: seq<Resolved>)
    requires SameEntries(s, t) && AnyFork(s)
    ensures AnyFork(t)
  {
    var i, j :| 0 <= i < j < |s| && Fork(s[i], s[j]);
    assert s[i] in multiset(s) && s[j] in multiset(s);
    assert s[i] in t && s[j] in t;
    var k :| 0 <= k < |t| && t[k] == s[i];
    var l :| 0 <= l < |t| && t[l] == s[j];
    assert Fork(t[k], t[l]) && Fork(t[l], t[k]);
  }

  // In any other order of the same entries, the outcome is a fork, or nothing, for
  // both, and otherwise the same history and the same key set.
  lemma OrderDoesNotMatter(s: seq<Resolved>, t: seq<Resolved>, k: nat, l: nat)
    requires SameEntries(s, t)
    requires k < |s| && l < |t| && FirstBest(s, k) && FirstBest(t, l)
    ensures s[k].kel == t[l].kel && s[k].keysSeq == t[l].keysSeq
  {
    assert s[k] in multiset(s) && t[l] in multiset(t);
    assert s[k] in t && t[l] in s;
    assert AtLeastAsGood(s[k], t[l]) && AtLeastAsGood(t[l], s[k]);
  }

  lemma ForkWhateverTheOrder(s: seq<Resolved>, t: seq<Resolved>)
    requires SameEntries(s, t)
    ensures AnyFork(s) <==> AnyFork(t)
    ensures s == [] <==> t == []
  {
    if AnyFork(s) {
      ForkMoves(s, t);
    }
    if AnyFork(t) {
      ForkMoves(t, s);
    }
    assert |multiset(s)| == |s| && |multiset(t)| == |t|;
  }
}
