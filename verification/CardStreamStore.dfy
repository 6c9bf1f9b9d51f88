// The card stream as the hub's statements change its tables, each operation proved
// to be that of CardStream, and the page the stream serves.
module CardStreamStore {
  import opened Basics
  import opened CardStream
  import opened CardStreamSafety
  import opened CardStreamPromises

  // What follows position c starts with the entry at the next one, if it has one.
  lemma AfterNext(s: Rows, c: nat, n: nat, row: Option<Entry>)
    requires Placed(s) && n > 0 && c < s.last
    requires row.Some? ==> IsEntry(s, row.value) && row.value.pos == c + 1
    requires row.None? ==> forall e: Entry :: e.pos == c + 1 ==> !IsEntry(s, e)
    ensures After(s, c, n) == if row.Some? then [row.value] + After(s, c + 1, n - 1) else After(s, c + 1, n)
  {
  }

  lemma HeadIsLargest(s: Rows)
    ensures Head(s) in {s.last} + Positions(s)
    ensures forall p :: p in {s.last} + Positions(s) ==> p <= Head(s)
  {
  }

  lemma RecheckedPlaced(s: Rows, aid: Aid, keysGo: bool, verifies: bool)
    requires Placed(s)
    ensures Placed(Rechecked(s, aid, keysGo, verifies))
    ensures !Unannounced(s, aid, keysGo, verifies) ==> Moves(s, Rechecked(s, aid, keysGo, verifies), aid)
  {
    if Unannounced(s, aid, keysGo, verifies) {
      assert Placed(s.(keys := s.keys - {aid}));
    } else {
      RecheckedMoves(s, aid, keysGo, verifies);
      hide Moves, Placed;
      AlsoPlaced(s, Rechecked(s, aid, keysGo, verifies), aid);
    }
  }

  class Tables {
    var agents: map<Aid, Visibility>
    var keys: map<Aid, KeySet>
    var cards: map<Aid, Card>
    var withdrawals: map<Aid, nat>
    var last: nat

    function View(): Rows
      reads this
    {
      Rows(agents, keys, cards, withdrawals, last)
    }

    constructor ()
      ensures View() == Start().rows && Placed(View())
    {
      agents, keys, cards, withdrawals, last := map[], map[], map[], map[], 0;
    }

    // The head moves past itself and every position in a row.
    method NextA2AFedSeq() returns (next: nat)
      modifies `last
      ensures next == Head(old(View())) + 1 && last == next
    {
      var taken := {last} + Positions(View());
      HeadIsLargest(View());
      hide Head, Positions;
      var head :| head in taken && forall p :: p in taken ==> p <= head;
      next := head + 1;
      last := next;
    }

    method WithdrawCard(aid: Aid)
      modifies `withdrawals, `last
      ensures View() == Withdrawn(old(View()), aid)
    {
      if aid !in cards {
        return;
      }
      var next := NextA2AFedSeq();
      withdrawals := withdrawals[aid := next];
    }

    method ClearWithdrawal(aid: Aid)
      modifies `withdrawals
      ensures View() == Cleared(old(View()), aid)
    {
      if aid in withdrawals && aid in cards && cards[aid].listed && aid in agents && Federates(agents[aid])
         && withdrawals[aid] < cards[aid].pos {
        withdrawals := withdrawals - {aid};
      }
    }

    method BumpCard(aid: Aid)
      modifies `cards, `withdrawals, `last
      ensures View() == Bumped(old(View()), aid)
    {
      if !(aid in cards && cards[aid].listed) {
        return;
      }
      var next := NextA2AFedSeq();
      cards := cards[aid := cards[aid].(pos := next)];
      ClearWithdrawal(aid);
    }

    // The two writes of AdmitA2ACard: the stored card again in the same bytes, and
    // storeAdmittedA2ACard.
    method AdmitCard(aid: Aid, bytes: Bytes, same: bool)
      requires Placed(View())
      modifies `cards, `withdrawals, `last
      ensures View() == Admitted(old(View()), aid, bytes, same)
      ensures Placed(View()) && Moves(old(View()), View(), aid)
    {
      hide Placed, Moves;
      AdmittedMoves(View(), aid, bytes, same);
      AlsoPlaced(View(), Admitted(View(), aid, bytes, same), aid);
      if same && aid in cards && cards[aid].bytes == bytes {
        var next := NextA2AFedSeq();
        var was := cards[aid];
        cards := cards[aid := was.(pos := if !was.listed then next else was.pos, listed := true)];
      } else {
        var next := NextA2AFedSeq();
        cards := cards[aid := Card(bytes, true, next)];
      }
      ClearWithdrawal(aid);
    }

    // A key set may not go and leave the published card it was announced with.
    method RecheckCard(aid: Aid, keysGo: bool, verifies: bool)
      requires Placed(View())
      modifies `keys, `cards, `withdrawals, `last
      ensures View() == Rechecked(old(View()), aid, keysGo, verifies)
      ensures Placed(View())
      ensures !Unannounced(old(View()), aid, keysGo, verifies) ==> Moves(old(View()), View(), aid)
    {
      hide Placed, Moves;
      RecheckedPlaced(View(), aid, keysGo, verifies);
      if keysGo {
        keys := keys - {aid};
      }
      if !(aid in cards && cards[aid].listed) || verifies {
        return;
      }
      var next := NextA2AFedSeq();
      cards := cards[aid := cards[aid].(listed := false, pos := next)];
      if aid in agents && Federates(agents[aid]) {
        WithdrawCard(aid);
      }
    }

    method WithdrawA2ACard(aid: Aid)
      requires Placed(View())
      modifies `cards, `withdrawals, `last
      ensures View() == TakenBack(old(View()), aid)
      ensures Placed(View()) && Moves(old(View()), View(), aid)
    {
      hide Placed, Moves;
      TakenBackMoves(View(), aid);
      AlsoPlaced(View(), TakenBack(View(), aid), aid);
      if aid in agents && Federates(agents[aid]) {
        WithdrawCard(aid);
      }
      cards := cards - {aid};
    }

    method SetVisibility(aid: Aid, v: Visibility) returns (ok: bool)
      requires Placed(View())
      modifies `agents, `cards, `withdrawals, `last
      ensures ok <==> aid in old(agents)
      ensures View() == Visible(old(View()), aid, v)
      ensures Placed(View()) && Moves(old(View()), View(), aid)
    {
      hide Placed, Moves;
      VisibleMoves(View(), aid, v);
      AlsoPlaced(View(), Visible(View(), aid, v), aid);
      if aid !in agents {
        return false;
      }
      var before := agents[aid];
      agents := agents[aid := v];
      if before == v {
        return true;
      }
      if Federates(before) && !Federates(v) {
        WithdrawCard(aid);
      } else if !Federates(before) && Federates(v) {
        BumpCard(aid);
      }
      return true;
    }

    method PublishKeys(aid: Aid, k: KeySet)
      requires Placed(View())
      modifies `keys, `cards, `withdrawals, `last
      ensures View() == Keyed(old(View()), aid, k)
      ensures Placed(View()) && Moves(old(View()), View(), aid)
    {
      hide Placed, Moves;
      KeyedMoves(View(), aid, k);
      AlsoPlaced(View(), Keyed(View(), aid, k), aid);
      if aid in keys && keys[aid] == k {
        return;
      }
      keys := keys[aid := k];
      if aid in agents && Federates(agents[aid]) {
        BumpCard(aid);
      }
    }

    method Deregister(aid: Aid) returns (ok: bool)
      requires Placed(View())
      modifies this
      ensures ok <==> aid in old(agents)
      ensures View() == Deregistered(old(View()), aid)
      ensures Placed(View()) && Moves(old(View()), View(), aid)
    {
      hide Placed, Moves;
      DeregisteredMoves(View(), aid);
      AlsoPlaced(View(), Deregistered(View(), aid), aid);
      if aid !in agents {
        return false;
      }
      if Federates(agents[aid]) {
        WithdrawCard(aid);
      }
      keys := keys - {aid};
      cards := cards - {aid};
      agents := agents - {aid};
      return true;
    }

    // The row at a position, when one is served there.
    method EntryAt(pos: nat) returns (row: Option<Entry>)
      ensures row.Some? ==> IsEntry(View(), row.value) && row.value.pos == pos
      ensures row.None? ==> forall e: Entry :: e.pos == pos ==> !IsEntry(View(), e)
    {
      if aid :| aid in cards && Published(View(), aid) && cards[aid].pos == pos {
        return Some(Entry(aid, pos, Shown(View(), aid)));
      }
      if aid :| aid in withdrawals && withdrawals[aid] == pos {
        return Some(Entry(aid, pos, None));
      }
      return None;
    }

    // A2ACardsSince: the entries after cursor in the order of their positions, and
    // the cursor to ask after next.
    method A2ACardsSince(cursor: nat, limit: int) returns (out: seq<Entry>, next: nat)
      requires Placed(View())
      ensures out == After(View(), cursor, PageSize(limit))
      ensures next == NextCursor(cursor, out)
    {
      hide Placed, IsEntry;
      var n := if limit <= 0 || limit > 500 then 100 else limit;
      out, next := [], cursor;
      var at := cursor;
      while at < last && |out| < n
        invariant |out| <= n && next == NextCursor(cursor, out)
        invariant After(View(), cursor, n) == out + After(View(), at, n - |out|)
      {
        var row := EntryAt(at + 1);
        AfterNext(View(), at, n - |out|, row);
        if row.Some? {
          out, next := out + [row.value], row.value.pos;
        }
        at := at + 1;
      }
    }
  }
}
