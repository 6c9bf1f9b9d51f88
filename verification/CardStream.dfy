// The A2A card federation stream of one hub: the rows its cards, withdrawals and
// positions are kept in, and each operation as a function on them
// (internal/aghub/a2acard.go, a2acard_withdraw.go, fed_a2acard.go, fedstream.go).
module CardStream {
  import opened Basics

  type Aid = nat
  type Bytes = string
  type KeySet = string

  datatype Visibility = HubLocal | Federated | Public

  // pos is the card's place on the stream; a delisted card is not served.
  datatype Card = Card(bytes: Bytes, listed: bool, pos: nat)

  // last is the stored head of the stream.
  datatype Rows = Rows(
    agents: map<Aid, Visibility>,
    keys: map<Aid, KeySet>,
    cards: map<Aid, Card>,
    withdrawals: map<Aid, nat>,
    last: nat)

  // What a card entry carries of an agent that it or this hub can change.
  datatype Content = Content(bytes: Bytes, keySet: Option<KeySet>)

  function Lookup<K(==), V>(m: map<K, V>, k: K): Option<V> {
    if k in m then Some(m[k]) else None
  }

  predicate Federates(v: Visibility) {
    v.Federated? || v.Public?
  }

  predicate AgentFederates(s: Rows, aid: Aid) {
    aid in s.agents && Federates(s.agents[aid])
  }

  predicate Listed(s: Rows, aid: Aid) {
    aid in s.cards && s.cards[aid].listed
  }

  predicate Published(s: Rows, aid: Aid) {
    AgentFederates(s, aid) && Listed(s, aid)
  }

  // What the hub publishes of aid now.
  function Shown(s: Rows, aid: Aid): Option<Content> {
    if Published(s, aid) then Some(Content(s.cards[aid].bytes, Lookup(s.keys, aid))) else None
  }

  // ---- positions ----

  function Positions(s: Rows): set<nat> {
    (set aid | aid in s.cards :: s.cards[aid].pos) + (set aid | aid in s.withdrawals :: s.withdrawals[aid])
  }

  // The larger of the stored head and every position in a row.
  ghost function Head(s: Rows): (h: nat)
    ensures s.last <= h && forall p :: p in Positions(s) ==> p <= h
    ensures h == s.last || h in Positions(s)
  {
    Largest(s.last, Positions(s))
  }

  // ---- the operations ----

  // withdrawA2ACard.
  ghost function Withdrawn(s: Rows, aid: Aid): Rows {
    if aid !in s.cards then s
    else var n := Head(s) + 1; s.(withdrawals := s.withdrawals[aid := n], last := n)
  }

  // clearA2AWithdrawal.
  function Cleared(s: Rows, aid: Aid): Rows {
    if Published(s, aid) && aid in s.withdrawals && s.withdrawals[aid] < s.cards[aid].pos
    then s.(withdrawals := s.withdrawals - {aid})
    else s
  }

  // bumpA2ACard.
  ghost function Bumped(s: Rows, aid: Aid): Rows {
    if !Listed(s, aid) then s
    else
      var n := Head(s) + 1;
      Cleared(s.(cards := s.cards[aid := s.cards[aid].(pos := n)], last := n), aid)
  }

  // AdmitA2ACard, for a card that verified and passed the high-water rule; same is
  // whether it is the statement the stored card makes.
  ghost function Admitted(s: Rows, aid: Aid, bytes: Bytes, same: bool): Rows {
    var n := Head(s) + 1;
    var card := if same && aid in s.cards && s.cards[aid].bytes == bytes
                then Card(bytes, true, if s.cards[aid].listed then s.cards[aid].pos else n)
                else Card(bytes, true, n);
    Cleared(s.(cards := s.cards[aid := card], last := n), aid)
  }

  // A new key history of aid and recheckA2ACard after it, as one step: keysGo is
  // whether its key set is not signed under the new tip, verifies whether its card
  // is. A tip that moves retires both.
  ghost function Rechecked(s: Rows, aid: Aid, keysGo: bool, verifies: bool): Rows {
    var k := if keysGo then s.(keys := s.keys - {aid}) else s;
    if !Listed(s, aid) || verifies then k
    else
      var n := Head(k) + 1;
      var d := k.(cards := k.cards[aid := k.cards[aid].(listed := false, pos := n)], last := n);
      if AgentFederates(s, aid) then Withdrawn(d, aid) else d
  }

  // WithdrawA2ACard: the agent takes its card back.
  ghost function TakenBack(s: Rows, aid: Aid): Rows {
    var w := if AgentFederates(s, aid) then Withdrawn(s, aid) else s;
    w.(cards := w.cards - {aid})
  }

  // SetVisibility.
  ghost function Visible(s: Rows, aid: Aid, v: Visibility): Rows {
    if aid !in s.agents then s
    else
      var t := s.(agents := s.agents[aid := v]);
      if Federates(s.agents[aid]) && !Federates(v) then Withdrawn(t, aid)
      else if !Federates(s.agents[aid]) && Federates(v) then Bumped(t, aid)
      else t
  }

  // PublishKeys, for a set that verified.
  ghost function Keyed(s: Rows, aid: Aid, k: KeySet): Rows {
    if Lookup(s.keys, aid) == Some(k) then s
    else
      var t := s.(keys := s.keys[aid := k]);
      if AgentFederates(s, aid) then Bumped(t, aid) else t
  }

  // A first registration, and a deregistration.
  function Registered(s: Rows, aid: Aid): Rows {
    if aid in s.agents then s else s.(agents := s.agents[aid := HubLocal])
  }

  ghost function Deregistered(s: Rows, aid: Aid): Rows {
    if aid !in s.agents then s
    else
      var w := if AgentFederates(s, aid) then Withdrawn(s, aid) else s;
      w.(keys := w.keys - {aid}, cards := w.cards - {aid}, agents := w.agents - {aid})
  }

  // ---- serving ----

  // One entry of the stream: a card with its content, or a withdrawal.
  datatype Entry = Entry(aid: Aid, pos: nat, content: Option<Content>)

  // The rows the query selects.
  predicate IsEntry(s: Rows, e: Entry) {
    || (Published(s, e.aid) && e.pos == s.cards[e.aid].pos && e.content == Shown(s, e.aid))
    || (e.aid in s.withdrawals && e.pos == s.withdrawals[e.aid] && e.content.None?)
  }

  // The position of aid's entry, if it has one: its card's if that is published.
  function PosOf(s: Rows, aid: Aid): Option<nat> {
    if Published(s, aid) then Some(s.cards[aid].pos) else Lookup(s.withdrawals, aid)
  }

  // ---- a reader ----

  // A peer's copies of this hub's cards, and the cursor it asks after next.
  datatype Reader = Reader(copies: map<Aid, Content>, cursor: nat)

  function Take(copies: map<Aid, Content>, e: Entry): map<Aid, Content> {
    if e.content.Some? then copies[e.aid := e.content.value] else copies - {e.aid}
  }

  function TakeAll(copies: map<Aid, Content>, page: seq<Entry>): map<Aid, Content>
    decreases |page|
  {
    if page == [] then copies else TakeAll(Take(copies, page[0]), page[1..])
  }

  // How many entries a request for limit is served.
  function PageSize(limit: int): nat {
    if limit <= 0 || limit > 500 then 100 else limit
  }

  // The first n entries after position c, and where the last of them is.
  ghost function After(s: Rows, c: nat, n: nat): seq<Entry>
    decreases s.last - c
  {
    if n == 0 || c >= s.last then []
    else if exists e :: IsEntry(s, e) && e.pos == c + 1 then
      var e :| IsEntry(s, e) && e.pos == c + 1;
      [e] + After(s, c + 1, n - 1)
    else After(s, c + 1, n)
  }

  function NextCursor(c: nat, page: seq<Entry>): nat {
    if page == [] then c else page[|page| - 1].pos
  }

  // A2ACardsSince, and the reader taking what it serves.
  ghost function Read(s: Rows, r: Reader, limit: int): Reader {
    var page := After(s, r.cursor, PageSize(limit));
    Reader(TakeAll(r.copies, page), NextCursor(r.cursor, page))
  }
}
