// What a restart of the hub forgets: the state is only in memory, and a new one knows
// nothing but when it was made.
module ReplayRestart {
  import opened Replay
  import opened ReplayRuns

  // One process of the hub: when its state was made, in how many parts, how it hashes the
  // names of signers, and what it did.
  datatype Life = Life(start: int, parts: nat, hashOf: string -> nat, ops: seq<Op>)

  ghost function AcceptedBy(skew: nat, life: Life): seq<(Aid, nat)>
    requires life.parts > 0
  {
    AcceptedIn(Start(skew, life.parts, life.start), life.ops)
  }

  // What a process calls a signer's time.
  function Named(life: Life, name: string, t: nat): (Aid, nat) {
    (Aid(name, life.hashOf(name)), t)
  }

  lemma {:induction false} FloorNeverBelowStart(skew: nat, parts: nat, start: int, ops: seq<Op>, aid: Aid)
    requires parts > 0
    ensures FloorOf(Run(Start(skew, parts, start), ops), aid) >= StartFloor(start)
    decreases |ops|
  {
    var from := Start(skew, parts, start);
    if ops != [] {
      var before := ops[..|ops| - 1];
      FloorNeverBelowStart(skew, parts, start, before, aid);
      StartRemembers(skew, parts, start);
      RunRemembers(from, before);
      FloorsRise(Run(from, before), ops[|ops| - 1], aid);
    }
  }

  // A new state never accepts a time signed before it was made, whatever happens to it.
  lemma {:induction false} NothingEarlier(skew: nat, parts: nat, start: int, ops: seq<Op>)
    requires parts > 0
    ensures forall p :: p in AcceptedIn(Start(skew, parts, start), ops) ==> p.1 >= start && p.1 > 0
    decreases |ops|
  {
    if ops != [] {
      var before, op := ops[..|ops| - 1], ops[|ops| - 1];
      NothingEarlier(skew, parts, start, before);
      FloorNeverBelowStart(skew, parts, start, before, if op.Request? then op.aid else Aid("", 0));
    }
  }

  // So a signed time that two processes of a hub both accept was signed at the start of the
  // later one or after: while clocks do not step back, ahead of the clock it was first
  // accepted by.
  lemma AcceptedTwiceWasAhead(skew: nat, first: Life, second: Life, name: string, t: nat)
    requires first.parts > 0 && second.parts > 0
    requires Named(first, name, t) in AcceptedBy(skew, first) && Named(second, name, t) in AcceptedBy(skew, second)
    ensures t >= second.start
  {
    NothingEarlier(skew, second.parts, second.start, second.ops);
  }

  // And any such time is accepted once more, exactly while it is in the window: what the
  // process before accepted does not matter.
  lemma ForgottenByARestart(skew: nat, first: Life, second: Life, name: string, t: nat, k: int, now: int)
    requires first.parts > 0 && second.parts > 0 && Named(first, name, t) in AcceptedBy(skew, first)
    ensures AnswerTo(Start(skew, second.parts, second.start), Request(Named(second, name, t).0, t, k, now)).Accepted?
            <==> t >= second.start && InWindow(skew, t, now)
  {
    NothingEarlier(skew, first.parts, first.start, first.ops);
  }

  // How often a signer's time was accepted, by any of the processes.
  ghost function TimesAccepted(skew: nat, lives: seq<Life>, name: string, t: nat): nat
    requires forall i :: 0 <= i < |lives| ==> lives[i].parts > 0
  {
    if |lives| == 0 then 0
    else
      var last := lives[|lives| - 1];
      TimesAccepted(skew, lives[..|lives| - 1], name, t) + CountOf(AcceptedBy(skew, last), Named(last, name, t))
  }

  function CountOf<T(==)>(s: seq<T>, x: T): nat {
    if s == [] then 0 else CountOf(s[..|s| - 1], x) + if s[|s| - 1] == x then 1 else 0
  }

  function StartedBy(lives: seq<Life>, t: nat): nat {
    if |lives| == 0 then 0
    else StartedBy(lives[..|lives| - 1], t) + if lives[|lives| - 1].start <= t then 1 else 0
  }

  lemma {:induction false} CountDistinct<T>(s: seq<T>, x: T)
    requires Distinct(s)
    ensures CountOf(s, x) == if x in s then 1 else 0
  {
    if s != [] {
      var rest := s[..|s| - 1];
      CountDistinct(rest, x);
      assert s == rest + [s[|s| - 1]];
      if x in rest {
        var i :| 0 <= i < |rest| && rest[i] == x;
        assert s[i] == x;
      }
    }
  }

  // Over any number of restarts, under any clocks: a signer's time is accepted at most once
  // for each process that was started by then.
  lemma {:induction false} OncePerStart(skew: nat, lives: seq<Life>, name: string, t: nat)
    requires forall i :: 0 <= i < |lives| ==> lives[i].parts > 0
    ensures TimesAccepted(skew, lives, name, t) <= StartedBy(lives, t)
    decreases |lives|
  {
    if |lives| > 0 {
      var last := lives[|lives| - 1];
      OncePerStart(skew, lives[..|lives| - 1], name, t);
      NeverTwice(skew, last.parts, last.start, last.ops);
      CountDistinct(AcceptedBy(skew, last), Named(last, name, t));
      NothingEarlier(skew, last.parts, last.start, last.ops);
    }
  }
}
