/**
 The storage routine run by one thread at a time: claiming packets, the pass that
 posts what is READY, and the back-off after failures.  The list is a sequence of
 slots from the head on; its interleavings are the subject of the pool modules.
 */
module Storage {
  import opened PacketTypes

  const STORAGE_TICK := 21

  datatype Slot = Slot(kind: PacketType, state: PacketState, attempt: nat, response: int, payload: string)

  // What came of posting: whether it was accepted, and the code the callback stored.
  datatype Answer = Answer(ok: bool, response: int)

  // ---------------------------------------------------------- the pass

  function Tried(s: Slot, a: Answer): Slot { s.(attempt := s.attempt + 1, response := a.response) }

  predicate Fails(list: seq<Slot>, answers: seq<Answer>, i: nat)
    requires i < |list| == |answers|
  {
    list[i].state.Ready? && !answers[i].ok
  }

  /** Where a pass over the list stops: at the first READY packet whose post fails. */
  ghost predicate StopsAt(list: seq<Slot>, answers: seq<Answer>, f: nat)
    requires |answers| == |list|
  {
    && f <= |list| && (forall i :: 0 <= i < f ==> !Fails(list, answers, i))
    && (f < |list| ==> Fails(list, answers, f))
  }

  // The payloads a pass delivers from the first f slots, in list order.
  function Delivered(list: seq<Slot>, f: nat): seq<string>
    requires f <= |list|
  {
    if f == 0 then [] else Delivered(list, f - 1) + (if list[f - 1].state.Ready? then [list[f - 1].payload] else [])
  }

  /** A pass delivers every READY packet before the first failure, marks that packet's attempt, and leaves
      all later ones alone. */
  ghost predicate PassResult(list: seq<Slot>, answers: seq<Answer>, f: nat, after: seq<Slot>)
    requires |answers| == |list|
  {
    && |after| == |list| && StopsAt(list, answers, f)
    && (forall i :: 0 <= i < f ==>
          after[i] == if list[i].state.Ready? then Tried(list[i], answers[i]).(state := Done) else list[i])
    && (f < |list| ==> after[f] == Tried(list[f], answers[f]))
    && (forall i :: f < i < |list| ==> after[i] == list[i])
  }

  // The first i slots have been dealt with and nothing failed.
  ghost predicate PassedSoFar(list: seq<Slot>, answers: seq<Answer>, i: nat, now: seq<Slot>)
    requires i <= |list| == |answers| == |now|
  {
    && (forall j :: 0 <= j < i ==> !Fails(list, answers, j))
    && (forall j :: 0 <= j < i ==>
          now[j] == if list[j].state.Ready? then Tried(list[j], answers[j]).(state := Done) else list[j])
    && (forall j :: i <= j < |list| ==> now[j] == list[j])
  }

  lemma PassGoesOn(list: seq<Slot>, answers: seq<Answer>, i: nat, now: seq<Slot>)
    requires i < |list| == |answers| == |now| && PassedSoFar(list, answers, i, now)
    ensures now[i] == list[i]
    ensures !list[i].state.Ready? ==> PassedSoFar(list, answers, i + 1, now)
    ensures var tried := now[i := Tried(now[i], answers[i])];
            Fails(list, answers, i) ==> PassResult(list, answers, i, tried)
    ensures var done := now[i := Tried(now[i], answers[i]).(state := Done)];
            list[i].state.Ready? && answers[i].ok ==> PassedSoFar(list, answers, i + 1, done)
  {
  }

  // ------------------------------------------------------- the back-off

  // st->delay = (st->delay << 1) | !(st->delay << 1), kept in three bits
  function Backoff(delay: nat): nat {
    var twice := 2 * delay;
    (if twice == 0 then 1 else twice) % 8
  }

  // The delay after the outcomes of all posts so far.
  function DelayAfter(outcomes: seq<bool>): nat {
    if outcomes == [] || outcomes[|outcomes| - 1] then 1
    else Backoff(DelayAfter(outcomes[..|outcomes| - 1]))
  }

  // The outcomes of the posts a pass makes from the first m slots, in list order.
  function Outcomes(list: seq<Slot>, answers: seq<Answer>, m: nat): seq<bool>
    requires m <= |list| == |answers|
  {
    if m == 0 then []
    else Outcomes(list, answers, m - 1) + (if list[m - 1].state.Ready? then [answers[m - 1].ok] else [])
  }

  // Until it stops, a pass makes one successful post for each payload it delivers.
  lemma {:induction false} SuccessesDeliver(list: seq<Slot>, answers: seq<Answer>, m: nat)
    requires m <= |list| == |answers| && forall i :: 0 <= i < m ==> !Fails(list, answers, i)
    ensures var posts := Outcomes(list, answers, m);
            |posts| == |Delivered(list, m)| && forall i :: 0 <= i < |posts| ==> posts[i]
  {
    if m > 0 {
      SuccessesDeliver(list, answers, m - 1);
      if list[m - 1].state.Ready? { assert !Fails(list, answers, m - 1); }
    }
  }

  /** What a pass that stops at slot f makes of the delay: 1 if it delivered something and nothing failed; after a
      failure 2 if it had delivered something before, else the double, where 4 wraps to 0 and 0 counts as a half. */
  function NextDelay(delay: nat, delivered: bool, failed: bool): nat {
    if !failed then if delivered then 1 else delay
    else if delivered then 2
    else if delay == 0 then 1
    else if delay == 4 then 0
    else 2 * delay
  }

  lemma {:induction false} DelayIsOctal(outcomes: seq<bool>)
    ensures DelayAfter(outcomes) in {0, 1, 2, 4}
  {
    if outcomes != [] { DelayIsOctal(outcomes[..|outcomes| - 1]); }
  }

  // The delay after a pass, from the outcomes of its posts.
  lemma {:induction false} PassDelay(history: seq<bool>, list: seq<Slot>, answers: seq<Answer>, f: nat)
    requires |answers| == |list| && StopsAt(list, answers, f)
    ensures DelayAfter(history + Outcomes(list, answers, if f < |list| then f + 1 else f)) ==
            NextDelay(DelayAfter(history), Delivered(list, f) != [], f < |list|)
  {
    var posts := Outcomes(list, answers, f);
    SuccessesDeliver(list, answers, f);
    DelayIsOctal(history);
    assert posts == [] ==> history + posts == history;
    if f < |list| {
      assert (history + (posts + [false]))[..|history + posts|] == history + posts;
    }
  }

  function Power2(n: nat): nat { if n == 0 then 1 else 2 * Power2(n - 1) }

  // The last n posts failed, and not the one before them.
  ghost predicate FailedInARow(outcomes: seq<bool>, n: nat) {
    && n <= |outcomes| && (forall i :: |outcomes| - n <= i < |outcomes| ==> !outcomes[i])
    && (n < |outcomes| ==> outcomes[|outcomes| - n - 1])
  }

  /** After n posts failed in a row the delay is 2^(n mod 4) mod 8. */
  lemma {:induction false} BackoffCycle(outcomes: seq<bool>, n: nat)
    requires FailedInARow(outcomes, n)
    ensures DelayAfter(outcomes) == Power2(n % 4) % 8
  {
    assert Power2(1) == 2 && Power2(2) == 4 && Power2(3) == 8;
    if n > 0 {
      var before := outcomes[..|outcomes| - 1];
      assert FailedInARow(before, n - 1);
      BackoffCycle(before, n - 1);
      assert n % 4 == ((n - 1) % 4 + 1) % 4;
    }
  }

  // ------------------------------------------------------------ claiming

  // The first DONE slot, or the length of the list.
  ghost predicate FirstDone(list: seq<Slot>, k: nat) {
    && k <= |list| && (forall i :: 0 <= i < k ==> !list[i].state.Done?) && (k < |list| ==> list[k].state.Done?)
  }

  class StorageRoutine {
    var list: seq<Slot>
    var delay: nat
    var tick: nat
    ghost var outcomes: seq<bool>    // of every post so far
    ghost var accepted: seq<string>  // payloads whose post returned 0

    /** The delay is what the failures so far make it, and the tick never moves. */
    ghost predicate Valid()
      reads this
    {
      delay == DelayAfter(outcomes) && tick == STORAGE_TICK
    }

    // storage_init
    constructor ()
      ensures Valid() && list == [] && outcomes == [] && accepted == []
    {
      list, delay, tick := [], 1, STORAGE_TICK;
      outcomes, accepted := [], [];
    }

    /** get_packet: recycles the first DONE packet; only if there is none does the pool grow. */
    method GetPacket(kind: PacketType) returns (k: nat)
      requires Valid()
      modifies this`list
      ensures Valid() && k < |list| && list[k] == Slot(kind, Empty, 0, 0, "")
      ensures if FirstDone(old(list), k) && k < |old(list)| then list == old(list)[k := list[k]]
              else FirstDone(old(list), |old(list)|) && k == 0 && list == [list[0]] + old(list)
    {
      k := 0;
      while k < |list|
        invariant k <= |list| && forall i :: 0 <= i < k ==> !list[i].state.Done?
      {
        if list[k].state == Done {
          list := list[k := Slot(kind, Empty, 0, 0, "")];
          return;
        }
        k := k + 1;
      }
      k := 0;
      list := [Slot(kind, Empty, 0, 0, "")] + list;
    }

    // plugin_gather closes or fills the packet it holds.
    method Write(k: nat, state: PacketState, payload: string)
      requires Valid() && k < |list| && !list[k].state.Ready? && !list[k].state.Done?
      modifies this`list
      ensures Valid() && list == old(list)[k := old(list[k]).(state := state, payload := payload)]
    {
      list := list[k := list[k].(state := state, payload := payload)];
    }

    // storage.c:88-101
    method PostSlot(i: nat, a: Answer) returns (ok: bool)
      requires Valid() && i < |list|
      modifies this`list, this`delay, this`tick, this`outcomes, this`accepted
      ensures Valid() && ok == a.ok && outcomes == old(outcomes) + [ok]
      ensures var s := Tried(old(list[i]), a); list == old(list)[i := if ok then s.(state := Done) else s]
      ensures accepted == old(accepted) + (if ok then [old(list[i].payload)] else [])
    {
      ok := a.ok;
      list := list[i := Tried(list[i], a)];
      assert (outcomes + [ok])[..|outcomes|] == outcomes;
      outcomes := outcomes + [ok];
      if !ok {
        delay := (if 2 * delay == 0 then 1 else 2 * delay) % 8;
      } else {
        delay := 1;
        accepted := accepted + [list[i].payload];
        list := list[i := list[i].(state := Done)];
        tick := STORAGE_TICK * delay;
      }
    }

    /** storage_main: delivers a prefix of the READY packets in list order; the delay follows from what was
        delivered and whether a post failed. */
    method StorageMain(answers: seq<Answer>) returns (r: int, ghost f: nat)
      requires Valid() && |answers| == |list|
      modifies this`list, this`delay, this`tick, this`outcomes, this`accepted
      ensures Valid()
      ensures PassResult(old(list), answers, f, list) && r == (if f == |old(list)| then 0 else -1)
      ensures accepted == old(accepted) + Delivered(old(list), f)
      ensures outcomes == old(outcomes) + Outcomes(old(list), answers, if f < |old(list)| then f + 1 else f)
      ensures delay == NextDelay(old(delay), Delivered(old(list), f) != [], f < |old(list)|)
    {
      ghost var before, history := list, outcomes;
      var i := 0;
      while i < |list|
        invariant i <= |before| == |list| && PassedSoFar(before, answers, i, list)
        invariant delay == DelayAfter(outcomes) && tick == STORAGE_TICK
        invariant accepted == old(accepted) + Delivered(before, i)
        invariant outcomes == history + Outcomes(before, answers, i)
      {
        PassGoesOn(before, answers, i, list);
        if list[i].state == Ready {
          var ok := PostSlot(i, answers[i]);
          if !ok {
            PassDelay(history, before, answers, i);
            return -1, i;
          }
        }
        i := i + 1;
      }
      PassDelay(history, before, answers, i);
      r, f := 0, i;
    }
  }
}
