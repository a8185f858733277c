/** A model of the Redis-backed job queue of Sharpbench.Core.

    The Redis list named by the queue key is modelled as a sequence of
    entry keys, index 0 being the LEFT end (where ListLeftPushAsync puts
    entries) and the last index the RIGHT end (where ListRightPopAsync takes
    them). The AutoResetEvent that wakes the consumer is a boolean field.
    The mapping between job ids and entry keys (RedisHelpers.GetJobKey and
    RedisHelpers.JobKeyToId) is not modelled: the queue carries it as two
    arbitrary functions, and nothing here assumes that one undoes the other. */
module SharpbenchCore {

  datatype Option<T> = None | Some(value: T)

  /** The key of a job's entry in the Redis list. */
  datatype Key = Key(name: string)

  /** The sequence obtained by applying `f` to every element of `s`. */
  function Apply<A, B>(f: A -> B, s: seq<A>): (r: seq<B>)
    ensures |r| == |s|
  {
    if s == [] then [] else [f(s[0])] + Apply(f, s[1..])
  }

  lemma {:induction false} ApplyAppend<A, B>(f: A -> B, a: seq<A>, b: seq<A>)
    ensures Apply(f, a + b) == Apply(f, a) + Apply(f, b)
    decreases |a|
  {
    if a == [] {
      assert a + b == b;
    } else {
      assert (a + b)[0] == a[0];
      assert (a + b)[1..] == a[1..] + b;
      ApplyAppend(f, a[1..], b);
      assert Apply(f, a + b) == [f(a[0])] + Apply(f, a[1..] + b);
    }
  }

  /** `s` back to front. */
  function Reversed(s: seq<Key>): (r: seq<Key>)
    ensures |r| == |s|
    decreases |s|
  {
    if s == [] then [] else Reversed(s[1..]) + [s[0]]
  }

  lemma {:induction false} ReversedAppend(a: seq<Key>, b: seq<Key>)
    ensures Reversed(a + b) == Reversed(b) + Reversed(a)
    decreases |a|
  {
    if a == [] {
      assert a + b == b;
    } else {
      assert (a + b)[1..] == a[1..] + b;
      ReversedAppend(a[1..], b);
    }
  }

  lemma {:induction false} ReversedTwice(s: seq<Key>)
    ensures Reversed(Reversed(s)) == s
    decreases |s|
  {
    if s != [] {
      ReversedAppend(Reversed(s[1..]), [s[0]]);
      ReversedTwice(s[1..]);
    }
  }

  /** The list after pushing `keys` one after the other on its left end: the
      last key pushed is leftmost. */
  function Pushed(list: seq<Key>, keys: seq<Key>): (r: seq<Key>)
    ensures |r| == |list| + |keys|
  {
    Reversed(keys) + list
  }

  /** Pushing one more key on the left. */
  lemma PushedOneMore(list: seq<Key>, keys: seq<Key>, k: Key)
    ensures Pushed(list, keys + [k]) == [k] + Pushed(list, keys)
  {
    ReversedAppend(keys, [k]);
    assert Reversed([k]) == [k];
  }

  /** The order in which successive right pops hand out the entries of `list`:
      the rightmost entry first. */
  function PopOrder(list: seq<Key>): (r: seq<Key>)
    ensures |r| == |list|
  {
    Reversed(list)
  }

  /** A right pop takes the entry that comes first in pop order. */
  lemma PopOrderOfRightPop(list: seq<Key>)
    requires list != []
    ensures PopOrder(list) == [list[|list| - 1]] + PopOrder(list[..|list| - 1])
  {
    var init, last := list[..|list| - 1], list[|list| - 1];
    assert list == init + [last];
    ReversedAppend(init, [last]);
    assert Reversed([last]) == [last];
  }

  /** FIFO: entries pushed on the left come out of right pops after everything
      already in the list, in the order they were pushed. */
  lemma PushedThenPoppedInOrder(list: seq<Key>, keys: seq<Key>)
    ensures PopOrder(Pushed(list, keys)) == PopOrder(list) + keys
  {
    ReversedAppend(Reversed(keys), list);
    ReversedTwice(keys);
  }

  /** Submitting three jobs to an empty queue makes successive pops return
      their keys in submission order. */
  lemma SubmittedThreeComeOutInOrder(ka: Key, kb: Key, kc: Key)
    ensures PopOrder(Pushed([], [ka, kb, kc])) == [ka, kb, kc]
  {
    PushedThenPoppedInOrder([], [ka, kb, kc]);
  }

  /** What the consumer's surroundings do during one pass of the loop of
      ListenForJobs: the state of the cancellation token seen at the head of
      the pass, the entry keys that producers (SubmitJob, in this process or
      another one sharing the Redis list) push while the pass is suspended
      after its pop, how many publications on the jobs channel reach this
      consumer's handler then, and whether one reaches it while the pass waits
      on the signal. */
  datatype Tick = Tick(
    cancelRequested: bool,
    submitted: seq<Key>,
    deliveries: nat,
    deliveredWhileWaiting: bool)

  /** The script runs up to a pass at whose head cancellation is seen. */
  predicate Cancels(env: seq<Tick>)
  {
    |env| > 0 && env[|env| - 1].cancelRequested
  }

  /** The outcome of one pass of the loop that does not stop it: the entry
      key it popped, if any, the list and the signal after it, and, when it
      waited, whether the signal rather than the timeout ended the wait. */
  datatype Passed = Passed(popped: Option<Key>, list: seq<Key>, signal: bool, woken: Option<bool>)

  /** One pass of the loop (core/JobQueue.cs:47-67): pop from the right;
      producers submit `t.submitted` while the pass is suspended; on a null
      pop go straight back to the head of the loop, otherwise hand the job
      out and wait, which leaves the signal unset. */
  function Pass(list: seq<Key>, signal: bool, t: Tick): (p: Passed)
    ensures p.popped.None? <==> list == []
    ensures p.woken.Some? <==> p.popped.Some?
    ensures p.popped.Some? ==> !p.signal
    ensures p.popped.None? ==> p.signal == (signal || t.deliveries > 0)
  {
    var keys := t.submitted;
    if list == [] then Passed(None, Pushed(list, keys), signal || t.deliveries > 0, None)
    else
      var woken := signal || t.deliveries > 0 || t.deliveredWhileWaiting;
      Passed(Some(list[|list| - 1]), Pushed(list[..|list| - 1], keys), false, Some(woken))
  }

  function AsSeq<T>(o: Option<T>): (s: seq<T>)
    ensures |s| <= 1
  {
    if o.None? then [] else [o.value]
  }

  /** A pass loses and duplicates nothing: what it pops, followed by the new
      list in pop order, is the old list in pop order followed by the keys
      submitted during the pass. */
  lemma PassLosesNothing(list: seq<Key>, signal: bool, t: Tick)
    ensures var p := Pass(list, signal, t);
      PopOrder(list) + t.submitted == AsSeq(p.popped) + PopOrder(p.list)
  {
    if list == [] {
      PassOnEmptyLosesNothing(signal, t);
    } else {
      PassOnNonEmptyLosesNothing(list, signal, t);
    }
  }

  lemma PassOnEmptyLosesNothing(signal: bool, t: Tick)
    ensures var p := Pass([], signal, t);
      PopOrder([]) + t.submitted == AsSeq(p.popped) + PopOrder(p.list)
  {
    PushedThenPoppedInOrder([], t.submitted);
  }

  lemma PassOnNonEmptyLosesNothing(list: seq<Key>, signal: bool, t: Tick)
    requires list != []
    ensures var p := Pass(list, signal, t);
      PopOrder(list) + t.submitted == AsSeq(p.popped) + PopOrder(p.list)
  {
    var keys := t.submitted;
    var rest := list[..|list| - 1];
    var last := list[|list| - 1];
    PushedThenPoppedInOrder(rest, keys);
    PopOrderOfRightPop(list);
    calc {
      PopOrder(list) + keys;
      ([last] + PopOrder(rest)) + keys;
      [last] + (PopOrder(rest) + keys);
      [last] + PopOrder(Pushed(rest, keys));
    }
  }

  /** The outcome of a run of the consumer loop: the entry keys it popped, in
      order, what is left in the list, the final signal, the index of the
      pass at which it stopped, and for each wait whether the signal (rather
      than the timeout) ended it. */
  datatype Listened = Listened(
    popped: seq<Key>,
    remaining: seq<Key>,
    signal: bool,
    passes: nat,
    wakes: seq<bool>)

  /** The loop of ListenForJobs (core/JobQueue.cs:45-68) run against the
      script `env` from its pass `i` on, `popped` and `wakes` being what the
      earlier passes popped and how their waits ended: the token is looked at
      once, at the head of each pass, and the loop stops at the first pass
      that finds cancellation requested. */
  function ListenFrom(list: seq<Key>, signal: bool, env: seq<Tick>, i: nat, popped: seq<Key>,
                      wakes: seq<bool>): (r: Listened)
    requires Cancels(env) && i < |env|
    ensures i <= r.passes < |env| && env[r.passes].cancelRequested
    decreases |env| - i
  {
    if env[i].cancelRequested then Listened(popped, list, signal, i, wakes)
    else
      var p := Pass(list, signal, env[i]);
      ListenFrom(p.list, p.signal, env, i + 1, popped + AsSeq(p.popped), wakes + AsSeq(p.woken))
  }

  /** ListenFrom at the pass that stops the loop. */
  lemma ListenFromStopped(list: seq<Key>, signal: bool, env: seq<Tick>, i: nat,
                          popped: seq<Key>, wakes: seq<bool>)
    requires Cancels(env) && i < |env| && env[i].cancelRequested
    ensures ListenFrom(list, signal, env, i, popped, wakes) == Listened(popped, list, signal, i, wakes)
  {
  }

  /** The whole run of the loop, from the first pass on. */
  function Listen(list: seq<Key>, signal: bool, env: seq<Tick>): (r: Listened)
    requires Cancels(env)
    ensures r.passes < |env| && env[r.passes].cancelRequested
  {
    ListenFrom(list, signal, env, 0, [], [])
  }

  /** Cancellation is looked at only at the head of a pass, and the loop
      leaves at the first pass that finds it requested, never before. */
  lemma {:induction false} ListenStopsAtFirstCancel(list: seq<Key>, signal: bool, env: seq<Tick>, i: nat,
                                                    popped: seq<Key>, wakes: seq<bool>)
    requires Cancels(env) && i < |env|
    ensures var r := ListenFrom(list, signal, env, i, popped, wakes);
      env[r.passes].cancelRequested && forall j :: i <= j < r.passes ==> !env[j].cancelRequested
    decreases |env| - i
  {
    if !env[i].cancelRequested {
      var p := Pass(list, signal, env[i]);
      ListenStopsAtFirstCancel(p.list, p.signal, env, i + 1, popped + AsSeq(p.popped), wakes + AsSeq(p.woken));
    }
  }

  /** The entry keys of the jobs submitted during passes `i` to `n - 1`, in
      submission order. */
  function Submitted(env: seq<Tick>, i: nat, n: nat): (keys: seq<Key>)
    requires i <= n <= |env|
    decreases n - i
  {
    if i == n then [] else env[i].submitted + Submitted(env, i + 1, n)
  }

  /** The ids the loop yields are the decoded keys it pops: yielding the
      decoded key of a pass's pop, if it popped one, keeps them in step. */
  lemma YieldedInOrder(idOf: Key -> string, popped: seq<Key>, key: Option<Key>, jobs: seq<string>, jobId: Option<string>)
    requires jobs == Apply(idOf, popped)
    requires key.None? ==> jobId == None
    requires key.Some? ==> jobId == Some(idOf(key.value))
    ensures jobId == None ==> jobs == Apply(idOf, popped + AsSeq(key))
    ensures jobId != None ==> jobs + [jobId.value] == Apply(idOf, popped + AsSeq(key))
  {
    if key.None? {
      assert popped + AsSeq(key) == popped;
    } else {
      ApplyAppend(idOf, popped, [key.value]);
      assert Apply(idOf, [key.value]) == [idOf(key.value)];
    }
  }

  /** ListenFrom at a pass that does not stop the loop, one pass unrolled. */
  lemma ListenFromStep(list: seq<Key>, signal: bool, env: seq<Tick>, i: nat,
                       popped: seq<Key>, wakes: seq<bool>)
    requires Cancels(env) && i < |env| && !env[i].cancelRequested
    ensures i + 1 < |env|
    ensures var p := Pass(list, signal, env[i]);
      ListenFrom(list, signal, env, i, popped, wakes)
        == ListenFrom(p.list, p.signal, env, i + 1, popped + AsSeq(p.popped), wakes + AsSeq(p.woken))
  {
  }

  lemma Regroup(popped: seq<Key>, old_: seq<Key>, now: seq<Key>, later: seq<Key>,
                taken: seq<Key>, left: seq<Key>, out: seq<Key>)
    requires old_ + now == taken + left
    requires (popped + taken) + left + later == out
    ensures popped + old_ + (now + later) == out
  {
    calc {
      popped + old_ + (now + later);
      popped + (old_ + now) + later;
      popped + (taken + left) + later;
      (popped + taken) + left + later;
    }
  }

  /** No job is lost or handed out twice: the entries the loop pops, followed
      by what is left in the list in pop order, are exactly what was popped
      before, what was in the list in pop order, and everything submitted
      during the passes the loop made. */
  lemma {:induction false} ListenFromLosesNothing(list: seq<Key>, signal: bool, env: seq<Tick>, i: nat,
                                                  popped: seq<Key>, wakes: seq<bool>)
    requires Cancels(env) && i < |env|
    ensures var r := ListenFrom(list, signal, env, i, popped, wakes);
      popped + PopOrder(list) + Submitted(env, i, r.passes) == r.popped + PopOrder(r.remaining)
    decreases |env| - i
  {
    if !env[i].cancelRequested {
      var p := Pass(list, signal, env[i]);
      var popped' := popped + AsSeq(p.popped);
      ListenFromStep(list, signal, env, i, popped, wakes);
      var r := ListenFrom(p.list, p.signal, env, i + 1, popped', wakes + AsSeq(p.woken));
      ListenFromLosesNothing(p.list, p.signal, env, i + 1, popped', wakes + AsSeq(p.woken));
      PassLosesNothing(list, signal, env[i]);
      Regroup(popped, PopOrder(list), env[i].submitted, Submitted(env, i + 1, r.passes),
        AsSeq(p.popped), PopOrder(p.list), r.popped + PopOrder(r.remaining));
    }
  }

  lemma ListenLosesNothing(list: seq<Key>, signal: bool, env: seq<Tick>)
    requires Cancels(env)
    ensures var r := Listen(list, signal, env);
      PopOrder(list) + Submitted(env, 0, r.passes) == r.popped + PopOrder(r.remaining)
  {
    ListenFromLosesNothing(list, signal, env, 0, [], []);
    assert [] + PopOrder(list) == PopOrder(list);
  }

  function Min(a: nat, b: nat): (m: nat) { if a <= b then a else b }

  /** No job is submitted during the pass. */
  predicate Unsubmitted(t: Tick)
  {
    t.submitted == []
  }

  /** The keys submitted during passes in which nobody submits anything. */
  lemma {:induction false} SubmittedWithoutProducers(env: seq<Tick>, i: nat, n: nat)
    requires i <= n <= |env|
    requires forall k {:trigger Unsubmitted(env[k])} :: 0 <= k < |env| ==> Unsubmitted(env[k])
    ensures Submitted(env, i, n) == []
    decreases n - i
  {
    if i < n {
      SubmittedWithoutProducers(env, i + 1, n);
      assert Unsubmitted(env[i]);
      assert env[i].submitted == [];
    }
  }

  /** With no producer at work, every pass pops one entry until the list is
      empty, and every later pass pops nothing. */
  lemma {:induction false} ListenFromCountWithoutProducers(list: seq<Key>, signal: bool, env: seq<Tick>, i: nat,
                                                           popped: seq<Key>, wakes: seq<bool>)
    requires Cancels(env) && i < |env|
    requires forall k {:trigger Unsubmitted(env[k])} :: 0 <= k < |env| ==> Unsubmitted(env[k])
    ensures var r := ListenFrom(list, signal, env, i, popped, wakes);
      |r.popped| == |popped| + Min(r.passes - i, |list|)
    decreases |env| - i
  {
    if !env[i].cancelRequested {
      var p := Pass(list, signal, env[i]);
      ListenFromStep(list, signal, env, i, popped, wakes);
      assert Unsubmitted(env[i]);
      assert |env[i].submitted| == 0;
      ListenFromCountWithoutProducers(p.list, p.signal, env, i + 1, popped + AsSeq(p.popped), wakes + AsSeq(p.woken));
    }
  }

  /** With no producer at work, the loop hands out what was in the list, in
      FIFO order, one entry per pass until the list is empty; every later
      pass pops nothing. */
  lemma ListenWithoutProducers(list: seq<Key>, signal: bool, env: seq<Tick>)
    requires Cancels(env)
    requires forall k {:trigger Unsubmitted(env[k])} :: 0 <= k < |env| ==> Unsubmitted(env[k])
    ensures var r := Listen(list, signal, env);
      |r.popped| == Min(r.passes, |list|) && r.popped + PopOrder(r.remaining) == PopOrder(list)
  {
    var r := Listen(list, signal, env);
    ListenFromCountWithoutProducers(list, signal, env, 0, [], []);
    ListenFromLosesNothing(list, signal, env, 0, [], []);
    SubmittedWithoutProducers(env, 0, r.passes);
    assert [] + PopOrder(list) + [] == PopOrder(list);
  }

  lemma ReversedThree(x: Key, y: Key, z: Key)
    ensures Reversed([x, y, z]) == [z, y, x]
  {
    assert [x, y, z][1..] == [y, z] && [y, z][1..] == [z] && [z][1..] == [];
    assert Reversed([z]) == [z];
    assert Reversed([y, z]) == [z, y];
  }

  /** A pass that pops `kj` while producers push `ka`, `kb` and `kc` and a
      three publications reach the handler. */
  lemma BusyPass(ka: Key, kb: Key, kc: Key, kj: Key)
    ensures Pass([kj], false, Tick(false, [ka, kb, kc], 3, false))
         == Passed(Some(kj), [kc, kb, ka], false, Some(true))
  {
    ReversedThree(ka, kb, kc);
    assert [kj][..0] == [];
  }

  /** A pass of an idle consumer: nothing is submitted, no publication
      arrives and the signal is unset, so a pop from a non-empty list is
      followed by a wait that times out. */
  predicate Idle(t: Tick)
  {
    !t.cancelRequested && |t.submitted| == 0 && t.deliveries == 0 && !t.deliveredWhileWaiting
  }

  lemma IdlePass(list: seq<Key>, t: Tick)
    requires list != [] && Idle(t)
    ensures Pass(list, false, t) == Passed(Some(list[|list| - 1]), list[..|list| - 1], false, Some(false))
  {
    assert t.submitted == [] && Reversed([]) == [];
  }

  lemma IdleStep(list: seq<Key>, env: seq<Tick>, i: nat, popped: seq<Key>, wakes: seq<bool>)
    requires Cancels(env) && i < |env| && Idle(env[i]) && list != []
    ensures i + 1 < |env|
    ensures ListenFrom(list, false, env, i, popped, wakes)
         == ListenFrom(list[..|list| - 1], false, env, i + 1, popped + [list[|list| - 1]], wakes + [false])
  {
    IdlePass(list, env[i]);
    ListenFromStep(list, false, env, i, popped, wakes);
  }

  /** `n` waits, each ended by the timeout. */
  function TimedOut(n: nat): (r: seq<bool>)
    ensures |r| == n
  {
    if n == 0 then [] else [false] + TimedOut(n - 1)
  }

  lemma PoppedInOrder(popped: seq<Key>, list: seq<Key>)
    requires list != []
    ensures popped + [list[|list| - 1]] + PopOrder(list[..|list| - 1]) == popped + PopOrder(list)
  {
    PopOrderOfRightPop(list);
  }

  lemma OneMoreTimedOut(wakes: seq<bool>, n: nat)
    requires n > 0
    ensures wakes + [false] + TimedOut(n - 1) == wakes + TimedOut(n)
  {
  }

  /** A pass of an idle consumer that finds the list empty pops nothing,
      does not wait and leaves the signal unset. */
  lemma IdleEmptyStep(env: seq<Tick>, i: nat, popped: seq<Key>, wakes: seq<bool>)
    requires Cancels(env) && i < |env| && Idle(env[i])
    ensures i + 1 < |env|
    ensures ListenFrom([], false, env, i, popped, wakes) == ListenFrom([], false, env, i + 1, popped, wakes)
  {
    assert env[i].submitted == [] && Reversed([]) == [];
    assert Pass([], false, env[i]) == Passed(None, [], false, None);
    assert popped + [] == popped && wakes + [] == wakes;
    ListenFromStep([], false, env, i, popped, wakes);
  }

  /** Idle passes on the empty list, up to the pass `c` that finds
      cancellation requested, change nothing. */
  lemma {:induction false} IdleOnEmpty(env: seq<Tick>, i: nat, c: nat, popped: seq<Key>, wakes: seq<bool>)
    requires Cancels(env) && i <= c < |env| && env[c].cancelRequested
    requires forall k {:trigger Idle(env[k])} :: i <= k < c ==> Idle(env[k])
    ensures ListenFrom([], false, env, i, popped, wakes) == Listened(popped, [], false, c, wakes)
    decreases c - i
  {
    if i == c {
      ListenFromStopped([], false, env, i, popped, wakes);
    } else {
      IdleEmptyStep(env, i, popped, wakes);
      IdleOnEmpty(env, i + 1, c, popped, wakes);
    }
  }

  /** A consumer left alone, with its signal unset, drains the list: one
      entry per pass in FIFO order, every wait ending by the timeout; once
      the list is empty the further idle passes pop nothing and do not wait,
      and the loop stops with the list empty at the pass `c` that finds
      cancellation requested. */
  lemma {:induction false} IdleConsumerDrains(list: seq<Key>, env: seq<Tick>, i: nat, c: nat,
                                              popped: seq<Key>, wakes: seq<bool>)
    requires Cancels(env) && i + |list| <= c < |env| && env[c].cancelRequested
    requires forall k {:trigger Idle(env[k])} :: i <= k < c ==> Idle(env[k])
    ensures ListenFrom(list, false, env, i, popped, wakes)
         == Listened(popped + PopOrder(list), [], false, c, wakes + TimedOut(|list|))
    decreases c - i
  {
    if list == [] {
      IdleOnEmpty(env, i, c, popped, wakes);
      assert popped + PopOrder(list) == popped && wakes + TimedOut(0) == wakes;
    } else {
      assert Idle(env[i]);
      IdleConsumerDrains(list[..|list| - 1], env, i + 1, c, popped + [list[|list| - 1]], wakes + [false]);
      IdleDrainStep(list, env, i, c, popped, wakes);
    }
  }

  /** One pass of IdleConsumerDrains: popping the last entry of a non-empty
      list and then draining the rest drains the whole list. */
  lemma IdleDrainStep(list: seq<Key>, env: seq<Tick>, i: nat, c: nat, popped: seq<Key>, wakes: seq<bool>)
    requires Cancels(env) && i < |env| && Idle(env[i]) && list != []
    requires ListenFrom(list[..|list| - 1], false, env, i + 1, popped + [list[|list| - 1]], wakes + [false])
          == Listened(popped + [list[|list| - 1]] + PopOrder(list[..|list| - 1]), [], false, c,
                      wakes + [false] + TimedOut(|list| - 1))
    ensures ListenFrom(list, false, env, i, popped, wakes)
         == Listened(popped + PopOrder(list), [], false, c, wakes + TimedOut(|list|))
  {
    IdleStep(list, env, i, popped, wakes);
    PoppedInOrder(popped, list);
    OneMoreTimedOut(wakes, |list|);
  }

  /** Three publications while the consumer processes a job collapse into one
      pending wake: the first wait after the job returns at once, and each of
      the three new jobs is still popped, in order, every one of their waits
      ending by the timeout. */
  lemma CoalescedWakeLosesNoJob(ka: Key, kb: Key, kc: Key, kj: Key)
    ensures var busy := Tick(false, [ka, kb, kc], 3, false);
      var idle := Tick(false, [], 0, false);
      var stop := Tick(true, [], 0, false);
      var r := Listen([kj], false, [busy, idle, idle, idle, stop]);
      r.popped == [kj, ka, kb, kc] && r.wakes == [true, false, false, false]
        && r.remaining == [] && !r.signal
  {
    var idle := Tick(false, [], 0, false);
    var env := [Tick(false, [ka, kb, kc], 3, false), idle, idle, idle, Tick(true, [], 0, false)];
    BusyPass(ka, kb, kc, kj);
    ListenFromStep([kj], false, env, 0, [], []);
    IdleConsumerDrains([kc, kb, ka], env, 1, 4, [] + [kj], [] + [true]);
    ReversedThree(kc, kb, ka);
    assert [] + [kj] + [ka, kb, kc] == [kj, ka, kb, kc];
    assert [] + [true] + TimedOut(3) == [true, false, false, false];
  }

  /** The queue: the Redis list it pushes to and pops from, and the
      jobs-available signal its consumer loop waits on. */
  class JobQueue {
    const queueKey: string
    const jobsChannel: string
    /** RedisHelpers.GetJobKey and RedisHelpers.JobKeyToId. */
    const keyOf: string -> Key
    const idOf: Key -> string

    /** The Redis list stored under queueKey; index 0 is its left end. */
    var list: seq<Key>
    /** Whether the AutoResetEvent jobsAvailableSignal is set. */
    var signal: bool

    /** A queue over a Redis list that already holds `stored`; the signal
        starts unset. */
    constructor (queueKey: string, jobsChannel: string, keyOf: string -> Key, idOf: Key -> string, stored: seq<Key>)
      ensures this.queueKey == queueKey && this.jobsChannel == jobsChannel
      ensures this.keyOf == keyOf && this.idOf == idOf
      ensures list == stored && !signal
    {
      this.queueKey := queueKey;
      this.jobsChannel := jobsChannel;
      this.keyOf := keyOf;
      this.idOf := idOf;
      list := stored;
      signal := false;
    }

    /** Pushes the job's entry key on the left of the list. The publication
        that follows is best effort; its delivery is OnJobsMessage. */
    method SubmitJob(jobId: string)
      modifies this`list
      ensures list == [keyOf(jobId)] + old(list)
      ensures |list| == |old(list)| + 1 && list[1..] == old(list)
    {
      var jobKey := keyOf(jobId);
      list := [jobKey] + list;
    }

    /** The handler subscribed to the jobs channel: every delivery sets the
        signal, and setting a set signal leaves it set. */
    method OnJobsMessage()
      modifies this`signal
      ensures signal
    {
      signal := true;
    }

    /** WaitOne with a timeout: it returns true when the signal is (or, while
        waiting, becomes) set and false when the timeout elapses; either way
        the signal is unset afterwards. */
    method WaitOne(deliveredWhileWaiting: bool) returns (signalled: bool)
      modifies this`signal
      ensures signalled == (old(signal) || deliveredWhileWaiting)
      ensures !signal
    {
      signalled := signal || deliveredWhileWaiting;
      signal := false;
    }

    /** Pops the rightmost entry and decodes it; None stands for the null
        that an empty list gives. */
    method GetNextJob() returns (jobId: Option<string>)
      modifies this`list
      ensures old(list) == [] ==> jobId == None && list == old(list)
      ensures old(list) != [] ==>
        jobId == Some(idOf(old(list)[|old(list)| - 1])) && list == old(list)[..|old(list)| - 1]
    {
      if list == [] {
        jobId := None;
      } else {
        var result := list[|list| - 1];
        list := list[..|list| - 1];
        jobId := Some(idOf(result));
      }
    }

    /** What producers and the channel do while a pass of the loop is
        suspended after its pop: each producer's SubmitJob pushes its entry
        key on the left of the shared list, and each publication that reaches
        the handler sets the signal. */
    method Surroundings(t: Tick)
      modifies this`list, this`signal
      ensures list == Pushed(old(list), t.submitted)
      ensures signal == (old(signal) || t.deliveries > 0)
    {
      var j := 0;
      while j < |t.submitted|
        invariant 0 <= j <= |t.submitted|
        invariant list == Pushed(old(list), t.submitted[..j])
        invariant signal == old(signal)
      {
        PushedOneMore(old(list), t.submitted[..j], t.submitted[j]);
        assert t.submitted[..j + 1] == t.submitted[..j] + [t.submitted[j]];
        list := [t.submitted[j]] + list;
        j := j + 1;
      }
      assert t.submitted[..j] == t.submitted;
      var d := 0;
      while d < t.deliveries
        invariant 0 <= d <= t.deliveries
        invariant list == Pushed(old(list), t.submitted)
        invariant signal == (old(signal) || d > 0)
      {
        OnJobsMessage();
        d := d + 1;
      }
    }

    /** One pass of the loop of ListenForJobs, after the head of the loop
        found no cancellation: pop, let the surroundings act, and on a
        non-null pop hand the job out and wait. */
    method RunPass(t: Tick) returns (jobId: Option<string>, woken: Option<bool>)
      modifies this`list, this`signal
      ensures var p := Pass(old(list), old(signal), t);
        list == p.list && signal == p.signal && woken == p.woken
        && (p.popped.None? ==> jobId == None)
        && (p.popped.Some? ==> jobId == Some(idOf(p.popped.value)))
    {
      jobId := GetNextJob();
      Surroundings(t);
      if jobId == None {
        woken := None;
        return;
      }
      var signalled := WaitOne(t.deliveredWhileWaiting);
      woken := Some(signalled);
    }

    /** One pass of the loop of ListenForJobs with its bookkeeping: the
        pass moves the loop from index `i` to `i + 1` without changing the
        outcome, and `jobs` keeps decoding what was popped so far. */
    method Advance(env: seq<Tick>, i: nat, ghost popped: seq<Key>, ghost wakes: seq<bool>, jobs: seq<string>)
      returns (jobs': seq<string>, ghost popped': seq<Key>, ghost wakes': seq<bool>)
      requires Cancels(env) && i < |env| && !env[i].cancelRequested
      requires jobs == Apply(idOf, popped)
      modifies this`list, this`signal
      ensures i + 1 < |env|
      ensures ListenFrom(list, signal, env, i + 1, popped', wakes')
           == ListenFrom(old(list), old(signal), env, i, popped, wakes)
      ensures jobs' == Apply(idOf, popped')
    {
      ghost var p := Pass(list, signal, env[i]);
      ListenFromStep(list, signal, env, i, popped, wakes);
      var jobId, woken := RunPass(env[i]);
      YieldedInOrder(idOf, popped, p.popped, jobs, jobId);
      jobs' := jobs;
      if jobId != None {
        jobs' := jobs + [jobId.value];
      }
      popped' := popped + AsSeq(p.popped);
      wakes' := wakes + AsSeq(woken);
    }

    /** The loop of ListenForJobs, run against the script `env`; `jobs` is
        what it yields, in order. */
    method ListenForJobs(env: seq<Tick>) returns (jobs: seq<string>)
      requires Cancels(env)
      modifies this`list, this`signal
      ensures var r := Listen(old(list), old(signal), env);
        list == r.remaining && signal == r.signal && jobs == Apply(idOf, r.popped)
    {
      ghost var goal := Listen(list, signal, env);
      ghost var popped: seq<Key> := [];
      ghost var wakes: seq<bool> := [];
      jobs := [];
      var i := 0;
      while !env[i].cancelRequested
        invariant 0 <= i < |env|
        invariant ListenFrom(list, signal, env, i, popped, wakes) == goal
        invariant jobs == Apply(idOf, popped)
        decreases |env| - i
      {
        jobs, popped, wakes := Advance(env, i, popped, wakes, jobs);
        i := i + 1;
      }
      ListenFromStopped(list, signal, env, i, popped, wakes);
    }
  }
}
