// What a reader of the card stream can count on, in every interleaving of what the
// publisher does and what the reader asks for.
module CardStreamPromises {
  import opened Basics
  import opened CardStream
  import opened CardStreamSafety

  // ---- runs ----

  datatype Op =
    | Admit(aid: Aid, bytes: Bytes, same: bool)
    | Recheck(aid: Aid, keysGo: bool, verifies: bool)
    | TakeBack(aid: Aid)
    | SetVisibility(aid: Aid, visibility: Visibility)
    | PublishKeys(aid: Aid, keySet: KeySet)
    | Register(aid: Aid)
    | Deregister(aid: Aid)
    | Ask(limit: int)

  // The key that signs the key set signs the card: a set that goes takes a published card
  // with it.
  predicate Enabled(s: Rows, op: Op) {
    op.Recheck? ==> !Unannounced(s, op.aid, op.keysGo, op.verifies)
  }

  ghost function Publish(s: Rows, op: Op): Rows {
    match op
    case Admit(aid, bytes, same) => Admitted(s, aid, bytes, same)
    case Recheck(aid, keysGo, verifies) => Rechecked(s, aid, keysGo, verifies)
    case TakeBack(aid) => TakenBack(s, aid)
    case SetVisibility(aid, v) => Visible(s, aid, v)
    case PublishKeys(aid, k) => Keyed(s, aid, k)
    case Register(aid) => Registered(s, aid)
    case Deregister(aid) => Deregistered(s, aid)
    case Ask(_) => s
  }

  datatype World = World(rows: Rows, reader: Reader)

  ghost function Step(w: World, op: Op): World {
    World(Publish(w.rows, op), if op.Ask? then Read(w.rows, w.reader, op.limit) else w.reader)
  }

  ghost function Run(w: World, ops: seq<Op>): World
    decreases |ops|
  {
    if ops == [] then w else Run(if Enabled(w.rows, ops[0]) then Step(w, ops[0]) else w, ops[1..])
  }

  function Start(): World {
    World(Rows(map[], map[], map[], map[], 0), Reader(map[], 0))
  }

  ghost predicate Reached(w: World) {
    exists ops :: w == Run(Start(), ops)
  }

  // ---- a page ----

  // An entry is its agent's only one.
  lemma EntryIs(s: Rows, e: Entry)
    requires Placed(s) && IsEntry(s, e)
    ensures PosOf(s, e.aid) == Some(e.pos) && e.content == Shown(s, e.aid) && 0 <= e.pos <= s.last
  {
  }

  lemma EntryOf(s: Rows, aid: Aid)
    requires Placed(s) && PosOf(s, aid).Some?
    ensures IsEntry(s, Entry(aid, PosOf(s, aid).value, Shown(s, aid)))
    ensures PosOf(s, aid).value <= s.last
  {
  }

  lemma OneAtAPosition(s: Rows, e: Entry, aid: Aid)
    requires Placed(s) && IsEntry(s, e) && PosOf(s, aid) == Some(e.pos)
    ensures e.aid == aid
  {
  }

  // Taking the entry at the next position, or finding none there, keeps the reader
  // covered one position further.
  lemma TakeKeepsCovered(s: Rows, copies: map<Aid, Content>, c: nat, e: Entry)
    requires Placed(s) && Covered(s, Reader(copies, c)) && IsEntry(s, e) && e.pos == c + 1
    ensures Covered(s, Reader(Take(copies, e), c + 1))
  {
    EntryIs(s, e);
    var r := Reader(Take(copies, e), c + 1);
    forall aid ensures Right(s, r, aid) {
      assert Right(s, Reader(copies, c), aid);
      if PosOf(s, aid) == Some(c + 1) {
        OneAtAPosition(s, e, aid);
      }
    }
  }

  lemma SkipKeepsCovered(s: Rows, copies: map<Aid, Content>, c: nat)
    requires Placed(s) && Covered(s, Reader(copies, c)) && c < s.last
    requires !exists e :: IsEntry(s, e) && e.pos == c + 1
    ensures Covered(s, Reader(copies, c + 1))
  {
    var r := Reader(copies, c + 1);
    forall aid ensures Right(s, r, aid) {
      assert Right(s, Reader(copies, c), aid);
      if PosOf(s, aid) == Some(c + 1) {
        EntryOf(s, aid);
      }
    }
  }

  lemma CoveredBack(s: Rows, r: Reader, c: nat)
    requires Covered(s, r) && c <= r.cursor
    ensures Covered(s, r.(cursor := c))
  {
    forall aid ensures Right(s, r.(cursor := c), aid) {
      assert Right(s, r, aid);
    }
  }

  // Entries come in order, all of them ahead of the cursor and in the stream.
  lemma {:induction false} PageIs(s: Rows, c: nat, n: nat)
    ensures var page := After(s, c, n);
            && |page| <= n && c <= NextCursor(c, page)
            && (forall i :: 0 <= i < |page| ==> IsEntry(s, page[i]) && c < page[i].pos <= s.last)
            && (forall i, j :: 0 <= i < j < |page| ==> page[i].pos < page[j].pos)
            && (page != [] ==> NextCursor(c, page) <= s.last)
    decreases s.last - c
  {
    if n > 0 && c < s.last {
      if exists e :: IsEntry(s, e) && e.pos == c + 1 {
        PageIs(s, c + 1, n - 1);
      } else {
        PageIs(s, c + 1, n);
      }
    }
  }

  lemma {:induction false} PageKeepsCovered(s: Rows, copies: map<Aid, Content>, c: nat, n: nat)
    requires Placed(s) && Covered(s, Reader(copies, c))
    ensures var page := After(s, c, n); Covered(s, Reader(TakeAll(copies, page), NextCursor(c, page)))
    decreases s.last - c
  {
    hide Covered, IsEntry, Placed;
    if n > 0 && c < s.last {
      if exists e :: IsEntry(s, e) && e.pos == c + 1 {
        var e :| IsEntry(s, e) && e.pos == c + 1 && After(s, c, n) == [e] + After(s, c + 1, n - 1);
        TakeKeepsCovered(s, copies, c, e);
        PageKeepsCovered(s, Take(copies, e), c + 1, n - 1);
        assert After(s, c, n)[1..] == After(s, c + 1, n - 1);
      } else {
        SkipKeepsCovered(s, copies, c);
        PageKeepsCovered(s, copies, c + 1, n);
        var page := After(s, c + 1, n);
        if page == [] {
          CoveredBack(s, Reader(copies, c + 1), c);
        }
      }
    }
  }

  // ---- every run ----

  lemma PublishMoves(s: Rows, op: Op)
    requires Placed(s) && Enabled(s, op) && !op.Ask?
    ensures Moves(s, Publish(s, op), op.aid)
  {
    hide Moves, Placed, Admitted, Rechecked, TakenBack, Visible, Keyed, Registered, Deregistered;
    match op
    case Admit(aid, bytes, same) => AdmittedMoves(s, aid, bytes, same);
    case Recheck(aid, keysGo, verifies) => RecheckedMoves(s, aid, keysGo, verifies);
    case TakeBack(aid) => TakenBackMoves(s, aid);
    case SetVisibility(aid, v) => VisibleMoves(s, aid, v);
    case PublishKeys(aid, k) => KeyedMoves(s, aid, k);
    case Register(aid) => RegisteredMoves(s, aid);
    case Deregister(aid) => DeregisteredMoves(s, aid);
  }

  lemma StepKeeps(w: World, op: Op)
    requires Placed(w.rows) && Covered(w.rows, w.reader) && Enabled(w.rows, op)
    ensures Placed(Step(w, op).rows) && Covered(Step(w, op).rows, Step(w, op).reader)
  {
    hide Moves, Placed, Covered, Publish;
    if op.Ask? {
      PageKeepsCovered(w.rows, w.reader.copies, w.reader.cursor, PageSize(op.limit));
      assert Publish(w.rows, op) == w.rows by {
        AskChangesNothing(w.rows, op);
      }
    } else {
      PublishMoves(w.rows, op);
      AlsoPlaced(w.rows, Publish(w.rows, op), op.aid);
      MovesKeepsCovered(w.rows, Publish(w.rows, op), op.aid, w.reader);
    }
  }

  lemma AskChangesNothing(s: Rows, op: Op)
    requires op.Ask?
    ensures Publish(s, op) == s
  {
  }

  lemma {:induction false} RunKeeps(w: World, ops: seq<Op>)
    requires Placed(w.rows) && Covered(w.rows, w.reader)
    ensures Placed(Run(w, ops).rows) && Covered(Run(w, ops).rows, Run(w, ops).reader)
    decreases |ops|
  {
    hide Placed, Covered, Step;
    if ops != [] {
      if Enabled(w.rows, ops[0]) {
        StepKeeps(w, ops[0]);
      }
      RunKeeps(if Enabled(w.rows, ops[0]) then Step(w, ops[0]) else w, ops[1..]);
    }
  }

  // Whatever a reader has wrong, or has and should not, or lacks, has an entry
  // ahead of its cursor that puts it right.
  lemma WrongIsAhead(w: World, aid: Aid)
    requires Reached(w) && Lookup(w.reader.copies, aid) != Shown(w.rows, aid)
    ensures exists e :: IsEntry(w.rows, e) && e.aid == aid && e.pos > w.reader.cursor && e.content == Shown(w.rows, aid)
  {
    ReachedKeeps(w);
    assert Right(w.rows, w.reader, aid);
    EntryOf(w.rows, aid);
  }

  lemma ReachedKeeps(w: World)
    requires Reached(w)
    ensures Placed(w.rows) && Covered(w.rows, w.reader)
  {
    var ops :| w == Run(Start(), ops);
    assert Covered(Start().rows, Start().reader);
    RunKeeps(Start(), ops);
  }

  // A position is given out once: an entry stays where it is, or moves to a position
  // that was never given out and that no reader has passed.
  lemma PositionsAreNew(w: World, op: Op, aid: Aid)
    requires Reached(w) && Enabled(w.rows, op) && !op.Ask?
    ensures w.rows.last <= Publish(w.rows, op).last
    ensures PosOf(Publish(w.rows, op), aid) == PosOf(w.rows, aid)
            || (PosOf(Publish(w.rows, op), aid).Some?
                && PosOf(Publish(w.rows, op), aid).value > w.rows.last >= w.reader.cursor)
  {
    ReachedKeeps(w);
    PublishMoves(w.rows, op);
    hide Publish;
    if aid != op.aid {
      OthersSame(w.rows, Publish(w.rows, op), op.aid, aid);
    }
  }

  // A key set that went while its agent's published card stayed would not be announced:
  // a reader with nothing ahead of it would keep the old set.
  lemma KeysGoUnannounced(s: Rows, aid: Aid, r: Reader)
    requires Placed(s) && Unannounced(s, aid, true, true)
    requires Lookup(r.copies, aid) == Shown(s, aid) && AtHead(s, r.cursor)
    ensures !Right(Rechecked(s, aid, true, true), r, aid)
    ensures !Moves(s, Rechecked(s, aid, true, true), aid)
  {
    assert PosOf(Rechecked(s, aid, true, true), aid) == PosOf(s, aid);
  }

  // What each operation makes the hub publish of its agent: an admitted card as soon as
  // the agent federates, nothing of one delisted, taken back, narrowed or gone.
  lemma PublishShows(s: Rows, op: Op)
    requires Placed(s) && Enabled(s, op) && !op.Ask?
    ensures var t := Publish(s, op); var aid := op.aid;
            Shown(t, aid) ==
              match op
              case Admit(_, bytes, _) =>
                if AgentFederates(s, aid) then Some(Content(bytes, Lookup(s.keys, aid))) else None
              case Recheck(_, _, verifies) => if verifies then Shown(s, aid) else None
              case TakeBack(_) => None
              case SetVisibility(_, v) =>
                if aid in s.agents && Federates(v) && Listed(s, aid)
                then Some(Content(s.cards[aid].bytes, Lookup(s.keys, aid))) else None
              case PublishKeys(_, k) =>
                if Published(s, aid) then Some(Content(s.cards[aid].bytes, Some(k))) else None
              case Register(_) => Shown(s, aid)
              case Deregister(_) => None
    ensures forall a :: a != op.aid ==> Shown(Publish(s, op), a) == Shown(s, a)
  {
    PublishMoves(s, op);
    forall a | a != op.aid ensures Shown(Publish(s, op), a) == Shown(s, a) {
      OthersSame(s, Publish(s, op), op.aid, a);
    }
  }

  // What the hub stores of an agent, published or not: its visibility, its card and whether
  // that is listed, and its key set.
  datatype Stored = Stored(visibility: Option<Visibility>, card: Option<Bytes>, listed: bool, keySet: Option<KeySet>)

  function StoredOf(s: Rows, aid: Aid): Stored {
    Stored(Lookup(s.agents, aid), if aid in s.cards then Some(s.cards[aid].bytes) else None, Listed(s, aid),
           Lookup(s.keys, aid))
  }

  // What each operation makes the hub store, whatever the agent's visibility: an admitted
  // card is stored and listed, one that no longer verifies is kept and not listed, one taken
  // back is gone; a visibility and a key set are what was set; and an agent that leaves
  // leaves nothing.
  lemma PublishStores(s: Rows, op: Op)
    requires !op.Ask?
    ensures var aid := op.aid; var was, now := StoredOf(s, aid), StoredOf(Publish(s, op), aid);
            now ==
              match op
              case Admit(_, bytes, _) => was.(card := Some(bytes), listed := true)
              case Recheck(_, keysGo, verifies) =>
                was.(listed := was.listed && verifies, keySet := if keysGo then None else was.keySet)
              case TakeBack(_) => was.(card := None, listed := false)
              case SetVisibility(_, v) => if was.visibility.Some? then was.(visibility := Some(v)) else was
              case PublishKeys(_, k) => was.(keySet := Some(k))
              case Register(_) => if was.visibility.Some? then was else was.(visibility := Some(HubLocal))
              case Deregister(_) => if was.visibility.Some? then Stored(None, None, false, None) else was
  {
    hide Head;
  }

  lemma OthersStored(s: Rows, op: Op, a: Aid)
    requires Placed(s) && Enabled(s, op) && !op.Ask? && a != op.aid
    ensures StoredOf(Publish(s, op), a) == StoredOf(s, a)
  {
    PublishMoves(s, op);
    hide Publish;
    var t := Publish(s, op);
    OthersSame(s, t, op.aid, a);
    assert a in t.agents <==> a in t.agents - {op.aid};
    assert a in s.agents <==> a in s.agents - {op.aid};
    assert a in t.keys <==> a in t.keys - {op.aid};
    assert a in s.keys <==> a in s.keys - {op.aid};
    assert a in t.agents ==> t.agents[a] == (t.agents - {op.aid})[a];
    assert a in t.keys ==> t.keys[a] == (t.keys - {op.aid})[a];
  }

  // No operation of the run is about aid.
  predicate NotAbout(ops: seq<Op>, aid: Aid) {
    forall i :: 0 <= i < |ops| ==> ops[i].Ask? || ops[i].aid != aid
  }

  lemma {:induction false} StaysStored(w: World, ops: seq<Op>, aid: Aid)
    requires Placed(w.rows) && Covered(w.rows, w.reader) && NotAbout(ops, aid)
    ensures StoredOf(Run(w, ops).rows, aid) == StoredOf(w.rows, aid)
    decreases |ops|
  {
    hide Placed, Covered, StoredOf, Publish, Enabled;
    if ops != [] {
      if Enabled(w.rows, ops[0]) {
        StepKeeps(w, ops[0]);
        if ops[0].Ask? {
          AskChangesNothing(w.rows, ops[0]);
        } else {
          OthersStored(w.rows, ops[0], aid);
        }
      }
      StaysStored(if Enabled(w.rows, ops[0]) then Step(w, ops[0]) else w, ops[1..], aid);
    }
  }

  // So a card admitted while its agent is known to this hub alone is published, in those
  // bytes, once the agent federates, whatever others did in between.
  lemma ShownOnceFederated(w: World, aid: Aid, bytes: Bytes, same: bool, between: seq<Op>, v: Visibility)
    requires Reached(w) && aid in w.rows.agents && NotAbout(between, aid) && v != HubLocal
    ensures var u := Run(Step(w, Admit(aid, bytes, same)), between);
            Shown(Publish(u.rows, SetVisibility(aid, v)), aid) == Some(Content(bytes, Lookup(w.rows.keys, aid)))
  {
    ReachedKeeps(w);
    var admit, set_ := Admit(aid, bytes, same), SetVisibility(aid, v);
    StepKeeps(w, admit);
    PublishStores(w.rows, admit);
    StaysStored(Step(w, admit), between, aid);
    RunKeeps(Step(w, admit), between);
    var u := Run(Step(w, admit), between);
    hide Publish, Placed, Covered, Run;
    assert Listed(u.rows, aid) == StoredOf(u.rows, aid).listed;
    PublishShows(u.rows, set_);
  }

  // An agent this hub alone knows, or one it does not know, has nothing published.
  lemma HubLocalShowsNothing(s: Rows, aid: Aid)
    requires aid !in s.agents || s.agents[aid] == HubLocal
    ensures Shown(s, aid).None?
  {
  }

  // Whether an operation sets what is set already: the listed card again in the same bytes,
  // the same key set, a visibility that federates as much, a check that passes.
  predicate SetsNothing(s: Rows, op: Op) {
    match op
    case Admit(aid, bytes, same) => same && Listed(s, aid) && s.cards[aid].bytes == bytes
    case Recheck(aid, keysGo, verifies) => verifies && !keysGo
    case SetVisibility(aid, v) => aid in s.agents && (v == HubLocal <==> s.agents[aid] == HubLocal)
    case PublishKeys(aid, k) => Lookup(s.keys, aid) == Some(k)
    case _ => false
  }

  // Such an operation moves nothing: no reader is sent anything again.
  lemma NothingSetNothingMoves(s: Rows, op: Op, aid: Aid)
    requires Placed(s) && SetsNothing(s, op)
    ensures PosOf(Publish(s, op), aid) == PosOf(s, aid) && Shown(Publish(s, op), aid) == Shown(s, aid)
  {
    hide Head, Positions;
    if op.aid != aid {
      PublishMoves(s, op);
      OthersSame(s, Publish(s, op), op.aid, aid);
    }
  }

  // A page asked for with a limit of 1 to 500 is of that many entries, any other of 100: so
  // that many fewer are ahead of the reader after it, or none.
  lemma ReadAdvances(s: Rows, r: Reader, limit: int)
    ensures var n: nat := if 1 <= limit <= 500 then limit else 100;
            && |After(s, r.cursor, PageSize(limit))| <= n
            && Ahead(s, Read(s, r, limit).cursor) == if Ahead(s, r.cursor) <= n then 0 else Ahead(s, r.cursor) - n
  {
    PageIs(s, r.cursor, PageSize(limit));
    PageAdvances(s, r.cursor, PageSize(limit));
  }

  // ---- convergence ----

  ghost predicate AtHead(s: Rows, c: nat) {
    forall aid :: PosOf(s, aid).Some? ==> PosOf(s, aid).value <= c
  }

  // A reader with nothing ahead of it holds exactly the listed cards of the agents
  // that federate, at their current bytes and with their current key sets.
  lemma AtHeadIsRight(w: World)
    requires Reached(w) && AtHead(w.rows, w.reader.cursor)
    ensures forall aid :: Lookup(w.reader.copies, aid) == Shown(w.rows, aid)
  {
    ReachedKeeps(w);
    forall aid ensures Lookup(w.reader.copies, aid) == Shown(w.rows, aid) {
      assert Right(w.rows, w.reader, aid);
    }
  }

  ghost function Ahead(s: Rows, c: nat): nat
    decreases s.last - c
  {
    if c >= s.last then 0
    else Ahead(s, c + 1) + if exists e :: IsEntry(s, e) && e.pos == c + 1 then 1 else 0
  }

  // A page of n leaves n fewer entries ahead, or none.
  lemma {:induction false} PageAdvances(s: Rows, c: nat, n: nat)
    requires n > 0
    ensures Ahead(s, NextCursor(c, After(s, c, n))) == (if Ahead(s, c) <= n then 0 else Ahead(s, c) - n)
    decreases s.last - c
  {
    hide IsEntry;
    if c < s.last {
      if exists e :: IsEntry(s, e) && e.pos == c + 1 {
        if n > 1 {
          PageAdvances(s, c + 1, n - 1);
        }
      } else {
        PageAdvances(s, c + 1, n);
      }
    }
  }

  lemma {:induction false} NoneAhead(s: Rows, c: nat, aid: Aid)
    requires Placed(s) && Ahead(s, c) == 0 && PosOf(s, aid).Some?
    ensures PosOf(s, aid).value <= c
    decreases s.last - c
  {
    EntryOf(s, aid);
    if c < s.last {
      NoneAhead(s, c + 1, aid);
    }
  }

  function Total(limits: seq<int>): nat {
    if limits == [] then 0 else PageSize(limits[0]) + Total(limits[1..])
  }

  ghost function ReadAll(s: Rows, r: Reader, limits: seq<int>): Reader
    decreases |limits|
  {
    if limits == [] then r else ReadAll(s, Read(s, r, limits[0]), limits[1..])
  }

  lemma {:induction false} ReadsReachHead(s: Rows, r: Reader, limits: seq<int>)
    requires Placed(s) && Covered(s, r) && Total(limits) >= Ahead(s, r.cursor)
    ensures Covered(s, ReadAll(s, r, limits)) && AtHead(s, ReadAll(s, r, limits).cursor)
    decreases |limits|
  {
    hide Covered, Placed;
    if limits == [] {
      forall aid | PosOf(s, aid).Some? ensures PosOf(s, aid).value <= r.cursor {
        NoneAhead(s, r.cursor, aid);
      }
    } else {
      PageKeepsCovered(s, r.copies, r.cursor, PageSize(limits[0]));
      PageAdvances(s, r.cursor, PageSize(limits[0]));
      ReadsReachHead(s, Read(s, r, limits[0]), limits[1..]);
    }
  }

  // Once the publisher is quiet, pages that add up to what is ahead make the reader
  // right about everybody, however they are cut.
  lemma QuietReaderConverges(w: World, limits: seq<int>)
    requires Reached(w) && Total(limits) >= Ahead(w.rows, w.reader.cursor)
    ensures forall aid :: Lookup(ReadAll(w.rows, w.reader, limits).copies, aid) == Shown(w.rows, aid)
  {
    ReachedKeeps(w);
    ReadsReachHead(w.rows, w.reader, limits);
    var r := ReadAll(w.rows, w.reader, limits);
    forall aid ensures Lookup(r.copies, aid) == Shown(w.rows, aid) {
      assert Right(w.rows, r, aid);
    }
  }
}
