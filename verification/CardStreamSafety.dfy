// Convergence of the card stream: while a hub's agents publish, change, delist,
// withdraw and leave, in any order, and a reader pages through the stream at any
// times, whatever the reader has wrong is still ahead of its cursor.
module CardStreamSafety {
  import opened Basics
  import opened CardStream

  // ---- what every operation keeps ----

  // Positions in rows were given out, each to one row; nothing is both published
  // and withdrawn.
  ghost predicate Placed(s: Rows) {
    && (forall a :: a in s.cards ==> s.cards[a].pos <= s.last)
    && (forall a :: a in s.withdrawals ==> s.withdrawals[a] <= s.last)
    && (forall a, b :: a in s.cards && b in s.cards && a != b ==> s.cards[a].pos != s.cards[b].pos)
    && (forall a, b :: a in s.withdrawals && b in s.withdrawals && a != b ==> s.withdrawals[a] != s.withdrawals[b])
    && (forall a, b :: a in s.cards && b in s.withdrawals ==> s.cards[a].pos != s.withdrawals[b])
    && (forall a :: Published(s, a) ==> a !in s.withdrawals)
  }

  // What the reader has of aid is what is published, or aid has an entry ahead.
  predicate Right(s: Rows, r: Reader, aid: Aid) {
    || Lookup(r.copies, aid) == Shown(s, aid)
    || (PosOf(s, aid).Some? && PosOf(s, aid).value > r.cursor)
  }

  ghost predicate Covered(s: Rows, r: Reader) {
    r.cursor <= s.last && forall aid :: Right(s, r, aid)
  }

  // Rows of everyone but aid are the same.
  predicate SameBut(s: Rows, t: Rows, aid: Aid) {
    && t.agents - {aid} == s.agents - {aid} && t.keys - {aid} == s.keys - {aid}
    && t.cards - {aid} == s.cards - {aid} && t.withdrawals - {aid} == s.withdrawals - {aid}
    && s.last <= t.last
  }

  // A position is the one the row had, or one given out since.
  predicate Fresh(was: Option<nat>, now: Option<nat>, s: Rows, t: Rows) {
    now.Some? ==> now == was || s.last < now.value <= t.last
  }

  function CardPos(s: Rows, aid: Aid): Option<nat> {
    if aid in s.cards then Some(s.cards[aid].pos) else None
  }

  // What one operation may do about one agent: what it changes about what is
  // published, it announces at a new position.
  predicate Moves(s: Rows, t: Rows, aid: Aid) {
    && SameBut(s, t, aid)
    && Fresh(CardPos(s, aid), CardPos(t, aid), s, t)
    && Fresh(Lookup(s.withdrawals, aid), Lookup(t.withdrawals, aid), s, t)
    && (CardPos(t, aid).Some? ==> CardPos(t, aid) != Lookup(t.withdrawals, aid))
    && (Published(t, aid) ==> aid !in t.withdrawals)
    && (|| (Shown(t, aid) == Shown(s, aid) && PosOf(t, aid) == PosOf(s, aid))
        || (PosOf(t, aid).Some? && s.last < PosOf(t, aid).value))
  }

  predicate Apart(s: Rows, a: Aid, b: Aid) {
    && (a in s.cards && b in s.cards && a != b ==> s.cards[a].pos != s.cards[b].pos)
    && (a in s.withdrawals && b in s.withdrawals && a != b ==> s.withdrawals[a] != s.withdrawals[b])
    && (a in s.cards && b in s.withdrawals ==> s.cards[a].pos != s.withdrawals[b])
  }

  predicate InStream(s: Rows, a: Aid) {
    && (a in s.cards ==> s.cards[a].pos <= s.last)
    && (a in s.withdrawals ==> s.withdrawals[a] <= s.last)
    && (Published(s, a) ==> a !in s.withdrawals)
  }

  lemma AlsoApart(s: Rows, t: Rows, aid: Aid, a: Aid, b: Aid)
    requires Moves(s, t, aid) && InStream(s, a) && InStream(s, b) && Apart(s, a, b)
    ensures InStream(t, a) && Apart(t, a, b)
  {
    hide SameBut, Published, Shown, PosOf;
    LastGrows(s, t, aid);
    if a != aid {
      OthersSame(s, t, aid, a);
    }
    if b != aid {
      OthersSame(s, t, aid, b);
    }
    assert aid in t.cards ==> Fresh(CardPos(s, aid), Some(t.cards[aid].pos), s, t);
    assert aid in t.withdrawals ==> Fresh(Lookup(s.withdrawals, aid), Some(t.withdrawals[aid]), s, t);
  }

  lemma OneInStream(s: Rows, a: Aid)
    requires Placed(s)
    ensures InStream(s, a) && Apart(s, a, a) && Head(s) == s.last
  {
  }

  lemma AlsoPlaced(s: Rows, t: Rows, aid: Aid)
    requires Placed(s) && Moves(s, t, aid)
    ensures Placed(t)
  {
    hide Moves, Published;
    forall a ensures InStream(t, a) {
      OneInStream(s, a);
      AlsoApart(s, t, aid, a, a);
    }
    forall a, b ensures Apart(t, a, b) {
      OneInStream(s, a);
      OneInStream(s, b);
      assert Apart(s, a, b);
      AlsoApart(s, t, aid, a, b);
    }
    AllApart(t);
  }

  lemma AllApart(t: Rows)
    requires (forall a :: InStream(t, a)) && forall a, b :: Apart(t, a, b)
    ensures Placed(t)
  {
    assert forall a :: a in t.cards || a in t.withdrawals || Published(t, a) ==> InStream(t, a);
    assert forall a, b :: a in t.cards && b in t.cards ==> Apart(t, a, b);
    assert forall a, b :: a in t.withdrawals && b in t.withdrawals ==> Apart(t, a, b);
    assert forall a, b :: a in t.cards && b in t.withdrawals ==> Apart(t, a, b);
  }

  lemma LastGrows(s: Rows, t: Rows, aid: Aid)
    requires SameBut(s, t, aid)
    ensures s.last <= t.last
  {
  }

  lemma OthersSame(s: Rows, t: Rows, aid: Aid, a: Aid)
    requires SameBut(s, t, aid) && a != aid
    ensures a in t.cards <==> a in s.cards
    ensures a in t.cards ==> t.cards[a] == s.cards[a]
    ensures a in t.withdrawals <==> a in s.withdrawals
    ensures a in t.withdrawals ==> t.withdrawals[a] == s.withdrawals[a]
    ensures Published(t, a) == Published(s, a) && Shown(t, a) == Shown(s, a) && PosOf(t, a) == PosOf(s, a)
  {
    assert a in t.cards <==> a in t.cards - {aid};
    assert a in s.cards <==> a in s.cards - {aid};
    assert a in t.withdrawals <==> a in t.withdrawals - {aid};
    assert a in s.withdrawals <==> a in s.withdrawals - {aid};
    assert a in t.agents <==> a in t.agents - {aid};
    assert a in s.agents <==> a in s.agents - {aid};
    assert a in t.keys <==> a in t.keys - {aid};
    assert a in s.keys <==> a in s.keys - {aid};
    assert a in t.cards ==> t.cards[a] == (t.cards - {aid})[a];
    assert a in t.withdrawals ==> t.withdrawals[a] == (t.withdrawals - {aid})[a];
    assert a in t.agents ==> t.agents[a] == (t.agents - {aid})[a];
    assert a in t.keys ==> t.keys[a] == (t.keys - {aid})[a];
  }

  // Whatever moves one agent leaves a reader covered.
  lemma MovesKeepsCovered(s: Rows, t: Rows, aid: Aid, r: Reader)
    requires Moves(s, t, aid) && Covered(s, r)
    ensures Covered(t, r)
  {
    forall a ensures Right(t, r, a) {
      assert Right(s, r, a);
      if a != aid {
        OthersSame(s, t, aid, a);
      }
    }
  }

  // ---- each operation moves one agent ----

  // An agent that is not published after: it was not before, or its withdrawal is new.
  lemma HiddenMoves(s: Rows, t: Rows, aid: Aid)
    requires SameBut(s, t, aid) && !Published(t, aid)
    requires Fresh(CardPos(s, aid), CardPos(t, aid), s, t)
    requires CardPos(t, aid).Some? ==> CardPos(t, aid) != Lookup(t.withdrawals, aid)
    requires || (Lookup(t.withdrawals, aid) == Lookup(s.withdrawals, aid) && !Published(s, aid))
             || (Lookup(t.withdrawals, aid) == Some(t.last) && s.last < t.last)
    ensures Moves(s, t, aid)
  {
    hide SameBut;
  }

  lemma WithdrawnMoves(s: Rows, aid: Aid, t: Rows)
    requires Placed(s) && SameBut(s, t, aid) && t.last == s.last
    requires aid in s.cards && aid in t.cards && CardPos(t, aid) == CardPos(s, aid)
    requires t.withdrawals == s.withdrawals && !Published(t, aid) && Head(t) == s.last
    ensures Moves(s, Withdrawn(t, aid), aid)
  {
  }

  lemma BumpedMoves(s: Rows, aid: Aid, t: Rows)
    requires Placed(s) && SameBut(s, t, aid) && t.last == s.last && t.cards == s.cards
    requires t.withdrawals == s.withdrawals && Listed(t, aid) && AgentFederates(t, aid) && Head(t) == s.last
    ensures Moves(s, Bumped(t, aid), aid)
  {
    OneInStream(s, aid);
    hide Placed, Head, Positions;
    var n := Head(t) + 1;
    var u := t.(cards := t.cards[aid := t.cards[aid].(pos := n)], last := n);
    assert t.cards[aid := t.cards[aid].(pos := n)] - {aid} == t.cards - {aid};
    assert u.withdrawals - {aid} - {aid} == u.withdrawals - {aid};
  }

  lemma SameHead(s: Rows, t: Rows)
    requires Placed(s) && t.cards == s.cards && t.withdrawals == s.withdrawals && t.last == s.last
    ensures Head(t) == s.last
  {
  }

  lemma AdmittedMoves(s: Rows, aid: Aid, bytes: Bytes, same: bool)
    requires Placed(s)
    ensures Moves(s, Admitted(s, aid, bytes, same), aid)
  {
    OneInStream(s, aid);
    hide Placed, Head, Positions;
    var t := Admitted(s, aid, bytes, same);
    assert t.cards - {aid} == s.cards - {aid};
    assert t.withdrawals - {aid} == s.withdrawals - {aid};
  }

  lemma KeysGoMoves(s: Rows, k: Rows, aid: Aid)
    requires Placed(s) && k == s.(keys := s.keys - {aid}) && !(Published(s, aid) && aid in s.keys)
    ensures Moves(s, k, aid)
  {
  }

  // The check of a card that leaves it published and takes its key set.
  predicate Unannounced(s: Rows, aid: Aid, keysGo: bool, verifies: bool) {
    keysGo && verifies && Published(s, aid) && aid in s.keys
  }

  lemma RecheckedMoves(s: Rows, aid: Aid, keysGo: bool, verifies: bool)
    requires Placed(s) && !Unannounced(s, aid, keysGo, verifies)
    ensures Moves(s, Rechecked(s, aid, keysGo, verifies), aid)
  {
    hide Moves, Placed;
    var k := if keysGo then s.(keys := s.keys - {aid}) else s;
    if Listed(s, aid) && !verifies {
      SameHead(s, k);
      assert s.keys - {aid} - {aid} == s.keys - {aid};
      DelistedMoves(s, k, aid);
    } else if keysGo {
      KeysGoMoves(s, k, aid);
    } else {
      StaysMoves(s, aid);
    }
  }

  lemma DelistedMoves(s: Rows, k: Rows, aid: Aid)
    requires Placed(s) && Listed(s, aid) && Head(k) == s.last && SameBut(s, k, aid)
    requires k == s.(keys := k.keys)
    ensures var n := Head(k) + 1;
            var d := k.(cards := k.cards[aid := k.cards[aid].(listed := false, pos := n)], last := n);
            Moves(s, if AgentFederates(s, aid) then Withdrawn(d, aid) else d, aid)
  {
    var n := Head(k) + 1;
    var d := k.(cards := k.cards[aid := k.cards[aid].(listed := false, pos := n)], last := n);
    assert d.cards - {aid} == s.cards - {aid};
    DelistedHead(s, d, aid, n);
    OneInStream(s, aid);
    hide Head, Positions, Placed, Moves;
    assert d.withdrawals[aid := n + 1] - {aid} == s.withdrawals - {aid};
    HiddenMoves(s, if AgentFederates(s, aid) then Withdrawn(d, aid) else d, aid);
  }

  lemma DelistedHead(s: Rows, d: Rows, aid: Aid, n: nat)
    requires Placed(s) && n == s.last + 1 && d.last == n && d.withdrawals == s.withdrawals && aid in s.cards
    requires d.cards == s.cards[aid := s.cards[aid].(listed := false, pos := n)]
    ensures Head(d) == n
  {
  }

  lemma StaysMoves(s: Rows, aid: Aid)
    requires Placed(s)
    ensures Moves(s, s, aid)
  {
  }

  // A card taken away, after its withdrawal where the agent federates.
  lemma CardGoneMoves(s: Rows, t: Rows, aid: Aid)
    requires Placed(s) && aid !in t.cards && t.cards == s.cards - {aid}
    requires t.agents - {aid} == s.agents - {aid} && t.keys - {aid} == s.keys - {aid}
    requires var w := if AgentFederates(s, aid) then Withdrawn(s, aid) else s;
             t.withdrawals == w.withdrawals && t.last == w.last
    ensures Moves(s, t, aid)
  {
    OneInStream(s, aid);
    hide Placed, Head, Positions, Moves;
    assert t.withdrawals - {aid} == s.withdrawals - {aid};
    assert t.cards - {aid} == s.cards - {aid};
    HiddenMoves(s, t, aid);
  }

  lemma TakenBackMoves(s: Rows, aid: Aid)
    requires Placed(s)
    ensures Moves(s, TakenBack(s, aid), aid)
  {
    hide Placed, Head, Moves;
    CardGoneMoves(s, TakenBack(s, aid), aid);
  }

  lemma DeregisteredMoves(s: Rows, aid: Aid)
    requires Placed(s)
    ensures Moves(s, Deregistered(s, aid), aid)
  {
    hide Placed, Head, Moves;
    var t := Deregistered(s, aid);
    if aid in s.agents {
      assert t.agents - {aid} == s.agents - {aid} && t.keys - {aid} == s.keys - {aid};
      CardGoneMoves(s, t, aid);
    } else {
      StaysMoves(s, aid);
    }
  }

  lemma RegisteredMoves(s: Rows, aid: Aid)
    requires Placed(s)
    ensures Moves(s, Registered(s, aid), aid)
  {
  }

  lemma AgentOnlyMoves(s: Rows, t: Rows, aid: Aid)
    requires Placed(s) && t == s.(agents := t.agents) && t.agents - {aid} == s.agents - {aid}
    requires Published(t, aid) == Published(s, aid)
    ensures Moves(s, t, aid)
  {
  }

  lemma VisibleMoves(s: Rows, aid: Aid, v: Visibility)
    requires Placed(s)
    ensures Moves(s, Visible(s, aid, v), aid)
  {
    hide Placed, Head, Moves, Withdrawn, Bumped;
    if aid in s.agents {
      var t := s.(agents := s.agents[aid := v]);
      assert t.agents - {aid} == s.agents - {aid};
      SameHead(s, t);
      if Federates(s.agents[aid]) && !Federates(v) {
        NarrowedMoves(s, t, aid);
      } else if !Federates(s.agents[aid]) && Federates(v) {
        WidenedMoves(s, t, aid);
      } else {
        AgentOnlyMoves(s, t, aid);
      }
    } else {
      StaysMoves(s, aid);
    }
  }

  lemma NarrowedMoves(s: Rows, t: Rows, aid: Aid)
    requires Placed(s) && t == s.(agents := t.agents) && t.agents - {aid} == s.agents - {aid}
    requires AgentFederates(s, aid) && !AgentFederates(t, aid) && Head(t) == s.last
    ensures Moves(s, Withdrawn(t, aid), aid)
  {
    hide Moves, Placed;
    if aid in s.cards {
      WithdrawnMoves(s, aid, t);
    } else {
      AgentOnlyMoves(s, t, aid);
    }
  }

  lemma WidenedMoves(s: Rows, t: Rows, aid: Aid)
    requires Placed(s) && t == s.(agents := t.agents) && t.agents - {aid} == s.agents - {aid}
    requires !AgentFederates(s, aid) && AgentFederates(t, aid) && Head(t) == s.last
    ensures Moves(s, Bumped(t, aid), aid)
  {
    hide Moves, Placed;
    if Listed(s, aid) {
      BumpedMoves(s, aid, t);
    } else {
      AgentOnlyMoves(s, t, aid);
    }
  }

  lemma KeyedMoves(s: Rows, aid: Aid, k: KeySet)
    requires Placed(s)
    ensures Moves(s, Keyed(s, aid, k), aid)
  {
    if Lookup(s.keys, aid) != Some(k) {
      var t := s.(keys := s.keys[aid := k]);
      assert t.keys - {aid} == s.keys - {aid};
      SameHead(s, t);
      if Published(s, aid) {
        BumpedMoves(s, aid, t);
      }
    }
  }
}
