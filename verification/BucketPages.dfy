// The merged directory bucket, page by page (internal/aghub/directory.go,
// internal/aghub/fed_home.go): following the pages yields exactly the sorted merge of
// this hub's entries and every peer's.
module BucketPages {
  import opened Basics

  const HASH_SPACE: nat := 0x1_0000_0000_0000_0000_0000_0000_0000_0000_0000_0000_0000_0000_0000_0000_0000_0000

  // An entry: its hash (32 bytes compare as the number they write), what it carries, and how many
  // bytes it adds to an answer.
  type Hash = x: nat | x < HASH_SPACE

  datatype Entry = Entry(h: Hash, box: nat, size: nat)

  // What an answer holds besides its entries, and at most in all.
  const OVERHEAD: nat := 1024
  const PAGE_BYTES: nat := 0x80_0000

  predicate Sorted(s: seq<Entry>) {
    forall i, j :: 0 <= i < j < |s| ==> s[i].h <= s[j].h
  }

  predicate StrictlySorted(s: seq<Entry>) {
    forall i, j :: 0 <= i < j < |s| ==> s[i].h < s[j].h
  }

  // The entries of one hash, in the order they have.
  function OfHash(s: seq<Entry>, h: nat): seq<Entry> {
    if s == [] then []
    else OfHash(s[..|s| - 1], h) + if s[|s| - 1].h == h then [s[|s| - 1]] else []
  }

  function One(e: Entry, h: nat): seq<Entry> {
    if e.h == h then [e] else []
  }

  lemma OfHashOneMore(s: seq<Entry>, e: Entry, h: nat)
    ensures OfHash(s + [e], h) == OfHash(s, h) + One(e, h)
  {
  }

  lemma {:induction false} OfHashAdd(a: seq<Entry>, b: seq<Entry>, h: nat)
    ensures OfHash(a + b, h) == OfHash(a, h) + OfHash(b, h)
    decreases |b|
  {
    if b == [] {
      assert a + b == a;
    } else {
      var b' := b[..|b| - 1];
      OfHashAdd(a, b', h);
      assert (a + b)[..|a + b| - 1] == a + b';
      assert (a + b)[|a + b| - 1] == b[|b| - 1];
    }
  }

  // r is s in hash order, entries of one hash in the order s has them: a stable sort,
  // and so the same entries.
  ghost predicate StableSortOf(s: seq<Entry>, r: seq<Entry>) {
    Sorted(r) && forall h :: OfHash(r, h) == OfHash(s, h)
  }

  function Concat(lists: seq<seq<Entry>>): seq<Entry> {
    if lists == [] then [] else Concat(lists[..|lists| - 1]) + lists[|lists| - 1]
  }

  // ---- a stable sort ----

  function Put(e: Entry, s: seq<Entry>): seq<Entry> {
    if s == [] || s[|s| - 1].h <= e.h then s + [e]
    else Put(e, s[..|s| - 1]) + [s[|s| - 1]]
  }

  function SortStable(s: seq<Entry>): seq<Entry> {
    if s == [] then [] else Put(s[|s| - 1], SortStable(s[..|s| - 1]))
  }

  lemma OneOfTwo(a: seq<Entry>, e: Entry, x: Entry, h: nat)
    requires e.h != x.h
    ensures a + One(e, h) + One(x, h) == a + One(x, h) + One(e, h)
  {
  }

  lemma {:induction false} PutOfHash(e: Entry, s: seq<Entry>, h: nat)
    ensures OfHash(Put(e, s), h) == OfHash(s, h) + One(e, h)
    decreases |s|
  {
    hide OfHash, One;
    if s == [] || s[|s| - 1].h <= e.h {
      OfHashOneMore(s, e, h);
    } else {
      var s', x := s[..|s| - 1], s[|s| - 1];
      PutOfHash(e, s', h);
      OfHashOneMore(Put(e, s'), x, h);
      OfHashOneMore(s', x, h);
      assert s == s' + [x];
      OneOfTwo(OfHash(s', h), e, x, h);
    }
  }

  lemma {:induction false} PutSorted(e: Entry, s: seq<Entry>)
    requires Sorted(s)
    ensures Sorted(Put(e, s)) && |Put(e, s)| == |s| + 1
    ensures Put(e, s)[|s|].h == if s == [] || s[|s| - 1].h <= e.h then e.h else s[|s| - 1].h
    decreases |s|
  {
    if s != [] && s[|s| - 1].h > e.h {
      PutSorted(e, s[..|s| - 1]);
    }
  }

  lemma {:induction false} SortStableIs(s: seq<Entry>)
    ensures StableSortOf(s, SortStable(s))
  {
    if s != [] {
      var s', x := s[..|s| - 1], s[|s| - 1];
      SortStableIs(s');
      PutSorted(x, SortStable(s'));
      assert s == s' + [x];
      forall h ensures OfHash(SortStable(s), h) == OfHash(s, h) {
        PutOfHash(x, SortStable(s'), h);
        OfHashOneMore(s', x, h);
      }
    }
  }

  // ---- ranges of hashes ----

  // Whether h is after one cursor and not after another; no cursor is no bound.
  predicate Within(after: Option<Hash>, until: Option<Hash>, h: nat) {
    (after.Some? ==> after.value < h) && (until.Some? ==> h <= until.value)
  }

  // The entries of s of one hash, if that is between two cursors.
  function Part(s: seq<Entry>, after: Option<Hash>, until: Option<Hash>, h: nat): seq<Entry> {
    if Within(after, until, h) then OfHash(s, h) else []
  }

  // page is the part of s between two cursors, in hash order.
  ghost predicate PageOf(s: seq<Entry>, after: Option<Hash>, until: Option<Hash>, page: seq<Entry>) {
    Sorted(page) && forall h: nat :: OfHash(page, h) == Part(s, after, until, h)
  }

  lemma {:induction false} InOfHash(s: seq<Entry>, i: nat)
    requires i < |s|
    ensures s[i] in OfHash(s, s[i].h) && OfHash(s, s[i].h) != []
  {
    if i < |s| - 1 {
      InOfHash(s[..|s| - 1], i);
    }
  }

  lemma {:induction false} OfHashIn(s: seq<Entry>, h: nat)
    ensures forall e :: e in OfHash(s, h) ==> e in s && e.h == h
  {
    if s != [] {
      OfHashIn(s[..|s| - 1], h);
      assert s == s[..|s| - 1] + [s[|s| - 1]];
    }
  }

  lemma PageWithin(s: seq<Entry>, after: Option<Hash>, until: Option<Hash>, page: seq<Entry>)
    requires PageOf(s, after, until, page)
    ensures forall e :: e in page ==> Within(after, until, e.h)
  {
    forall e | e in page ensures Within(after, until, e.h) {
      var i :| 0 <= i < |page| && page[i] == e;
      InOfHash(page, i);
    }
  }

  // Two pages that meet make one.
  lemma PagesMeet(s: seq<Entry>, a: Option<Hash>, m: Hash, b: Option<Hash>, p: seq<Entry>, q: seq<Entry>)
    requires PageOf(s, a, Some(m), p) && PageOf(s, Some(m), b, q)
    requires (a.Some? ==> a.value <= m) && (b.Some? ==> m <= b.value)
    ensures PageOf(s, a, b, p + q)
  {
    PageWithin(s, a, Some(m), p);
    PageWithin(s, Some(m), b, q);
    forall i, j | 0 <= i < j < |p + q| ensures (p + q)[i].h <= (p + q)[j].h {
      assert i < |p| ==> p[i] in p;
      assert j >= |p| ==> q[j - |p|] in q;
    }
    forall h ensures OfHash(p + q, h) == Part(s, a, b, h) {
      OfHashAdd(p, q, h);
    }
  }

  // The part of a sorted sequence before a change of hash, and after it.
  lemma CutOfHash(s: seq<Entry>, n: nat, h: nat)
    requires Sorted(s) && 0 < n <= |s| && (n < |s| ==> s[n - 1].h < s[n].h)
    ensures OfHash(s[..n], h) == if h <= s[n - 1].h then OfHash(s, h) else []
  {
    assert s == s[..n] + s[n..];
    OfHashAdd(s[..n], s[n..], h);
    OfHashIn(s[..n], h);
    OfHashIn(s[n..], h);
    if h <= s[n - 1].h {
      NoneOf(s[n..], h);
    } else {
      NoneOf(s[..n], h);
    }
  }

  lemma {:induction false} NoneOf(s: seq<Entry>, h: nat)
    requires forall i :: 0 <= i < |s| ==> s[i].h != h
    ensures OfHash(s, h) == []
  {
    if s != [] {
      NoneOf(s[..|s| - 1], h);
    }
  }

  // ---- one hub's own page ----

  // What a query for the hashes between two cursors selects.
  function Between(s: seq<Entry>, after: Option<Hash>, until: Option<Hash>): seq<Entry> {
    if s == [] then []
    else
      var rest, x := Between(s[..|s| - 1], after, until), s[|s| - 1];
      if Within(after, until, x.h) then rest + [x] else rest
  }

  lemma {:induction false} BetweenIs(s: seq<Entry>, after: Option<Hash>, until: Option<Hash>, h: nat)
    ensures OfHash(Between(s, after, until), h) == Part(s, after, until, h)
  {
    if s != [] {
      var s', x := s[..|s| - 1], s[|s| - 1];
      BetweenIs(s', after, until, h);
      assert s == s' + [x];
      OfHashOneMore(s', x, h);
      OfHashOneMore(Between(s', after, until), x, h);
    }
  }

  lemma {:induction false} BetweenSorted(s: seq<Entry>, after: Option<Hash>, until: Option<Hash>)
    requires StrictlySorted(s)
    ensures StrictlySorted(Between(s, after, until))
    ensures forall e :: e in Between(s, after, until) ==> e in s && Within(after, until, e.h)
  {
    if s != [] {
      BetweenSorted(s[..|s| - 1], after, until);
      assert s == s[..|s| - 1] + [s[|s| - 1]];
    }
  }

  function Sizes(s: seq<Entry>): nat {
    if s == [] then 0 else Sizes(s[..|s| - 1]) + s[|s| - 1].size
  }

  // What one answer promises: the part of s from its cursor to the next, which is
  // further on, or to the end when there is no next.
  ghost predicate Answers(s: seq<Entry>, after: Option<Hash>, page: seq<Entry>, next: Option<Hash>) {
    PageOf(s, after, next, page) && (next.Some? ==> Within(after, None, next.value))
  }

  lemma CutIsPage(s: seq<Entry>, after: Option<Hash>, until: Option<Hash>, all: seq<Entry>, n: nat)
    requires PageOf(s, after, until, all) && 0 < n < |all| && all[n - 1].h < all[n].h
    ensures Answers(s, after, all[..n], Some(all[n - 1].h))
  {
    PageWithin(s, after, until, all);
    assert all[n - 1] in all;
    hide OfHash;
    forall h: nat ensures OfHash(all[..n], h) == Part(s, after, Some(all[n - 1].h), h) {
      CutOfHash(all, n, h);
    }
  }

  // The cursor just before a hash.
  function Before(lo: Hash): Option<Hash> {
    if lo == 0 then None else Some(lo - 1)
  }

  // This hub's entries in the bucket from lo to hi.
  function InBucket(agents: seq<Entry>, lo: Hash, hi: Hash): seq<Entry> {
    if agents == [] then []
    else
      var rest, x := InBucket(agents[..|agents| - 1], lo, hi), agents[|agents| - 1];
      if lo <= x.h <= hi then rest + [x] else rest
  }

  lemma {:induction false} InBucketIsBetween(agents: seq<Entry>, lo: Hash, hi: Hash)
    ensures InBucket(agents, lo, hi) == Between(agents, Before(lo), Some(hi))
  {
    if agents != [] {
      InBucketIsBetween(agents[..|agents| - 1], lo, hi);
    }
  }

  // Whether a cursor may be asked after: it is in the bucket, or there is none.
  predicate CursorOk(lo: Hash, hi: Hash, after: Option<Hash>) {
    after.Some? ==> lo <= after.value <= hi
  }

  lemma QueryIsPage(agents: seq<Entry>, lo: Hash, hi: Hash, after: Option<Hash>)
    requires StrictlySorted(agents) && CursorOk(lo, hi, after)
    ensures var rows := Between(agents, if after.Some? then after else Before(lo), Some(hi));
            && StrictlySorted(rows) && PageOf(InBucket(agents, lo, hi), after, None, rows)
            && forall e :: e in rows ==> lo <= e.h <= hi
  {
    InBucketIsBetween(agents, lo, hi);
    hide OfHash, Between, InBucket;
    var start := if after.Some? then after else Before(lo);
    BetweenSorted(agents, start, Some(hi));
    forall h: nat
      ensures OfHash(Between(agents, start, Some(hi)), h) == Part(InBucket(agents, lo, hi), after, None, h)
    {
      BetweenIs(agents, start, Some(hi), h);
      BetweenIs(agents, Before(lo), Some(hi), h);
    }
  }

  // DirBucket: a page of this hub's own entries in the bucket from lo to hi, agents
  // being its entries in hash order; a cursor outside the bucket is refused.
  method DirBucket(agents: seq<Entry>, lo: Hash, hi: Hash, after: Option<Hash>)
    returns (ok: bool, entries: seq<Entry>, next: Option<Hash>)
    requires StrictlySorted(agents)
    ensures ok <==> CursorOk(lo, hi, after)
    ensures ok ==> Answers(InBucket(agents, lo, hi), after, entries, next) && CursorOk(lo, hi, next)
    ensures |entries| > 1 ==> OVERHEAD + Sizes(entries) <= PAGE_BYTES
  {
    if after.Some? && (after.value < lo || after.value > hi) {
      return false, [], None;
    }
    hide OfHash, Between, PageOf, InBucket;
    QueryIsPage(agents, lo, hi, after);
    var rows := Between(agents, if after.Some? then after else Before(lo), Some(hi));
    entries := [];
    var size := OVERHEAD;
    for i := 0 to |rows|
      invariant entries == rows[..i] && size == OVERHEAD + Sizes(entries)
      invariant |entries| > 1 ==> size <= PAGE_BYTES
    {
      var n := rows[i].size;
      if size + n > PAGE_BYTES && |entries| > 0 {
        CutIsPage(InBucket(agents, lo, hi), after, None, rows, i);
        return true, entries, Some(entries[|entries| - 1].h);
      }
      size := size + n;
      assert rows[..i + 1][..i] == rows[..i];
      entries := rows[..i + 1];
    }
    assert rows[..|rows|] == rows;
    return true, entries, None;
  }

  // What a page is made of: this hub's page, and what the peers have up to its end.
  ghost predicate Gathered(all: seq<Entry>, local: seq<Entry>, peers: seq<Entry>,
                           after: Option<Hash>, until: Option<Hash>) {
    forall h: nat :: OfHash(all, h) == OfHash(local, h) + Part(peers, after, until, h)
  }

  lemma GatheredIs(table: seq<Entry>, peers: seq<Entry>, after: Option<Hash>, until: Option<Hash>,
                   local: seq<Entry>, all: seq<Entry>)
    requires PageOf(table, after, until, local) && Gathered(all, local, peers, after, until)
    ensures PageOf(table + peers, after, until, SortStable(all))
  {
    hide OfHash;
    SortStableIs(all);
    forall h: nat ensures OfHash(SortStable(all), h) == Part(table + peers, after, until, h) {
      OfHashAdd(table, peers, h);
    }
  }

  lemma GatheredNone(local: seq<Entry>, after: Option<Hash>, until: Option<Hash>)
    ensures Gathered(local, local, [], after, until)
  {
  }

  lemma PartAdd(a: seq<Entry>, b: seq<Entry>, after: Option<Hash>, until: Option<Hash>, h: nat)
    ensures Part(a + b, after, until, h) == Part(a, after, until, h) + Part(b, after, until, h)
  {
    OfHashAdd(a, b, h);
  }

  lemma GatherMore(all: seq<Entry>, local: seq<Entry>, peers: seq<Entry>, peer: seq<Entry>,
                   after: Option<Hash>, until: Option<Hash>)
    requires Gathered(all, local, peers, after, until)
    ensures Gathered(all + Between(peer, after, until), local, peers + peer, after, until)
  {
    hide OfHash, Between, Part;
    forall h: nat
      ensures OfHash(all + Between(peer, after, until), h) == OfHash(local, h) + Part(peers + peer, after, until, h)
    {
      OfHashAdd(all, Between(peer, after, until), h);
      BetweenIs(peer, after, until, h);
      PartAdd(peers, peer, after, until, h);
    }
  }

  method Gather(peers: seq<seq<Entry>>, after: Option<Hash>, until: Option<Hash>, local: seq<Entry>)
    returns (all: seq<Entry>)
    ensures Gathered(all, local, Concat(peers), after, until)
  {
    hide OfHash, Between;
    all := local;
    GatheredNone(local, after, until);
    for i := 0 to |peers|
      invariant Gathered(all, local, Concat(peers[..i]), after, until)
    {
      assert peers[..i + 1][..i] == peers[..i];
      GatherMore(all, local, Concat(peers[..i]), peers[i], after, until);
      all := all + Between(peers[i], after, until);
    }
    assert peers[..|peers|] == peers;
  }

  lemma SizesNext(all: seq<Entry>, i: nat, j: nat)
    requires i <= j < |all|
    ensures Sizes(all[i..j + 1]) == Sizes(all[i..j]) + all[j].size
  {
    assert all[i..j + 1][..j - i] == all[i..j];
    assert all[i..j + 1][j - i] == all[j];
  }

  // The end of the group of entries that starts at i, and what it takes.
  method GroupEnd(all: seq<Entry>, i: nat) returns (j: nat, group: nat)
    requires i < |all| && Sorted(all)
    ensures i < j <= |all| && group == Sizes(all[i..j])
    ensures forall k :: i <= k < j ==> all[k].h == all[i].h
    ensures j < |all| ==> all[j - 1].h < all[j].h
  {
    j, group := i, 0;
    while j < |all| && all[j].h == all[i].h
      invariant i <= j <= |all| && group == Sizes(all[i..j])
      invariant forall k :: i <= k < j ==> all[k].h == all[i].h
    {
      SizesNext(all, i, j);
      group := group + all[j].size;
      j := j + 1;
    }
  }

  lemma {:induction false} SizesAdd(a: seq<Entry>, b: seq<Entry>)
    ensures Sizes(a + b) == Sizes(a) + Sizes(b)
    decreases |b|
  {
    if b == [] {
      assert a + b == a;
    } else {
      SizesAdd(a, b[..|b| - 1]);
      assert (a + b)[..|a + b| - 1] == a + b[..|b| - 1];
    }
  }

  predicate OneHash(s: seq<Entry>) {
    forall i :: 0 <= i < |s| ==> s[i].h == s[0].h
  }

  lemma AddGroup(all: seq<Entry>, i: nat, j: nat)
    requires i <= j <= |all|
    ensures Sizes(all[..j]) == Sizes(all[..i]) + Sizes(all[i..j])
  {
    SizesAdd(all[..i], all[i..j]);
    assert all[..j] == all[..i] + all[i..j];
  }

  // Everybody's entries in the bucket from lo to hi, the peers' as they were taken: an
  // entry outside the bucket is dropped where a peer's answer is read.
  function Bucket(agents: seq<Entry>, peers: seq<seq<Entry>>, lo: Hash, hi: Hash): seq<Entry> {
    InBucket(agents, lo, hi) + Concat(peers)
  }

  predicate AllWithin(s: seq<Entry>, lo: Hash, hi: Hash) {
    forall i :: 0 <= i < |s| ==> lo <= s[i].h <= hi
  }

  lemma PageInBucket(agents: seq<Entry>, peers: seq<seq<Entry>>, lo: Hash, hi: Hash,
                     after: Option<Hash>, until: Option<Hash>, page: seq<Entry>)
    requires StrictlySorted(agents) && AllWithin(Concat(peers), lo, hi)
    requires PageOf(Bucket(agents, peers, lo, hi), after, until, page)
    ensures AllWithin(page, lo, hi)
  {
    InBucketIsBetween(agents, lo, hi);
    hide OfHash, Between, InBucket;
    BetweenSorted(agents, Before(lo), Some(hi));
    forall i | 0 <= i < |page| ensures lo <= page[i].h <= hi {
      InOfHash(page, i);
      OfHashIn(Bucket(agents, peers, lo, hi), page[i].h);
      assert page[i] in Bucket(agents, peers, lo, hi);
    }
  }

  // mergedBucket: the page after a cursor of this hub's entries and its peers'. The
  // entries of one hash come on one page, and a page of more than one hash fits an
  // answer.
  method MergedBucket(agents: seq<Entry>, peers: seq<seq<Entry>>, lo: Hash, hi: Hash, after: Option<Hash>)
    returns (ok: bool, entries: seq<Entry>, next: Option<Hash>)
    requires StrictlySorted(agents) && AllWithin(Concat(peers), lo, hi)
    ensures ok <==> CursorOk(lo, hi, after)
    ensures ok ==> Answers(Bucket(agents, peers, lo, hi), after, entries, next) && CursorOk(lo, hi, next)
    ensures OneHash(entries) || OVERHEAD + Sizes(entries) <= PAGE_BYTES
  {
    hide OfHash, Part, Concat, Sizes, InBucket;
    var local, localNext;
    ok, local, localNext := DirBucket(agents, lo, hi, after);
    if !ok {
      return false, [], None;
    }
    var all := Gather(peers, after, localNext, local);
    GatheredIs(InBucket(agents, lo, hi), Concat(peers), after, localNext, local, all);
    all := SortStable(all);
    PageInBucket(agents, peers, lo, hi, after, localNext, all);
    entries := [];
    var size := OVERHEAD;
    var i := 0;
    NothingSized();
    while i < |all|
      invariant i <= |all| && entries == all[..i] && size == OVERHEAD + Sizes(entries)
      invariant 0 < i < |all| ==> all[i - 1].h < all[i].h
      invariant OneHash(entries) || size <= PAGE_BYTES
      decreases |all| - i
    {
      var j, group := GroupEnd(all, i);
      if size + group > PAGE_BYTES && |entries| > 0 {
        CutIsPage(Bucket(agents, peers, lo, hi), after, localNext, all, i);
        return true, entries, Some(all[i - 1].h);
      }
      AddGroup(all, i, j);
      entries := all[..j];
      size := size + group;
      i := j;
    }
    assert all[..|all|] == all;
    return true, entries, localNext;
  }

  lemma NothingSized()
    ensures Sizes([]) == 0
  {
  }

  lemma WholePage(s: seq<Entry>, page: seq<Entry>)
    requires PageOf(s, None, None, page)
    ensures StableSortOf(s, page)
  {
  }

  // Following next from the first page on, as a reader does: everything in the bucket
  // of this hub and its peers, sorted by hash, each entry once; no page is refused, and
  // it ends.
  method FollowPages(agents: seq<Entry>, peers: seq<seq<Entry>>, lo: Hash, hi: Hash) returns (ok: bool, all: seq<Entry>)
    requires StrictlySorted(agents) && AllWithin(Concat(peers), lo, hi)
    ensures ok && StableSortOf(Bucket(agents, peers, lo, hi), all)
  {
    hide OfHash, Part, Concat, Bucket, AllWithin;
    var next: Option<Hash>;
    ok, all, next := MergedBucket(agents, peers, lo, hi, None);
    while ok && next.Some?
      invariant ok && Answers(Bucket(agents, peers, lo, hi), None, all, next) && CursorOk(lo, hi, next)
      decreases if next.Some? then HASH_SPACE - next.value else 0
    {
      var page, then_;
      ok, page, then_ := MergedBucket(agents, peers, lo, hi, next);
      PagesMeet(Bucket(agents, peers, lo, hi), None, next.value, then_, all, page);
      all, next := all + page, then_;
    }
    WholePage(Bucket(agents, peers, lo, hi), all);
  }
}
