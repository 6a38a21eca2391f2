/**
 The internal source as an object: each handler of lib/afinter.c is a run of the
 state machine of the source with nobody in between.
 */
module AfInter {
  import opened InternalSource

  // ---------------------------------------------------------------------
  // Handlers as runs
  // ---------------------------------------------------------------------

  function Proceeds(n: nat): seq<Step> { if n == 0 then [] else Proceeds(n - 1) + [Proceed] }

  lemma {:induction false} RunThenStep(s: Source, steps: seq<Step>, last: Step)
    ensures var t := Run(s, steps);
            Run(s, steps + [last]) == if Enabled(t, last) then Next(t, last) else t
    decreases |steps|
  {
    if steps == [] {
      assert steps + [last] == [last] && [last][1..] == [];
    } else {
      assert (steps + [last])[1..] == steps[1..] + [last];
      RunThenStep(if Enabled(s, steps[0]) then Next(s, steps[0]) else s, steps[1..], last);
    }
  }

  /** The handler has gone from `s` to `t` in `n` steps. */
  ghost predicate Reached(s: Source, n: nat, t: Source) {
    Inv(s) && Inv(t) && t == Run(s, Proceeds(n))
  }

  lemma ReachedNext(s: Source, n: nat, t: Source)
    requires Reached(s, n, t) && Enabled(t, Proceed)
    ensures Reached(s, n + 1, Proceeded(t))
  {
    RunThenStep(s, Proceeds(n), Proceed);
    StepKeeps(t, Proceed);
  }

  lemma ReachedThree(s: Source, n: nat, t: Source)
    requires Reached(s, n, t) && Enabled(t, Proceed)
    requires Enabled(Proceeded(t), Proceed) && Enabled(Proceeded(Proceeded(t)), Proceed)
    ensures Reached(s, n + 3, Proceeded(Proceeded(Proceeded(t))))
  {
    ReachedNext(s, n, t);
    ReachedNext(s, n + 1, Proceeded(t));
    ReachedNext(s, n + 2, Proceeded(Proceeded(t)));
  }

  /** afinter_source_update_watches: posts are announced exactly while the window is
      free, and waiting messages then have the restart task registered. */
  function Updated(s: Source): Source {
    if Free(s) then s.(phase := Between, freeToSend := true, watchesRunning := true, restart := s.queue != [])
    else s.(phase := Between, freeToSend := false, watchesRunning := false, restart := false)
  }

  lemma UpdateSteps(s: Source)
    requires Inv(s) && s.phase.UpdateCheck?
    ensures Enabled(Proceeded(s), Proceed) && Enabled(Proceeded(Proceeded(s)), Proceed)
    ensures Proceeded(Proceeded(Proceeded(s))) == Updated(s)
  {
    if Free(s) {
      var u := Stopped(s).(phase := WakeUp, watchesRunning := true);
      assert Proceeded(Proceeded(s)) == u && !u.restart;
    } else {
      assert Proceeded(Proceeded(s)) == s.(phase := StopWatches, freeToSend := false);
    }
  }

  lemma UpdateRuns(s: Source, n: nat, t: Source)
    requires Reached(s, n, t) && t.phase.UpdateCheck?
    ensures Reached(s, n + 3, Updated(t))
  {
    UpdateSteps(t);
    ReachedThree(s, n, t);
  }

  /** One turn of the loop of afinter_source_post. */
  function Sent(s: Source): Source
    requires s.queue != []
  {
    s.(queue := s.queue[1..], window := s.window - 1, sent := s.sent + [s.queue[0]])
  }

  lemma SendRuns(s: Source, n: nat, t: Source)
    requires Reached(s, n, t) && t.phase.PostCheck? && Free(t) && t.queue != []
    ensures Reached(s, n + 3, Sent(t))
  {
    assert Proceeded(Proceeded(Proceeded(t))) == Sent(t);
    ReachedThree(s, n, t);
  }

  /** After `k` turns. */
  function SentMany(s: Source, k: nat): Source
    requires k <= |s.queue|
  {
    s.(queue := s.queue[k..], window := s.window - k, sent := s.sent + s.queue[..k])
  }

  lemma SentNone(s: Source)
    requires Inv(s)
    ensures SentMany(s, 0) == s && Reached(s, 0, s)
  {
    assert s.sent + [] == s.sent;
  }

  lemma SentOneMore(s: Source, k: nat)
    requires s.phase.PostCheck? && k < |s.queue| && Reached(s, 3 * k, SentMany(s, k)) && Free(SentMany(s, k))
    ensures SentMany(s, k + 1) == Sent(SentMany(s, k)) && Reached(s, 3 * (k + 1), SentMany(s, k + 1))
  {
    SendRuns(s, 3 * k, SentMany(s, k));
    assert s.queue[..k + 1] == s.queue[..k] + [s.queue[k]];
    assert s.sent + s.queue[..k] + [s.queue[k]] == s.sent + s.queue[..k + 1];
  }

  /** How many messages the window lets through. */
  function Room(s: Source): nat
    requires s.window >= 0
  {
    if s.suspended then 0 else if s.window < |s.queue| then s.window else |s.queue|
  }

  /** How many steps it takes to leave that loop. */
  function LeaveSteps(s: Source): nat { if Free(s) then 2 else 1 }

  lemma LeaveRuns(s: Source, n: nat, t: Source)
    requires Reached(s, n, t) && t.phase.PostCheck? && !(Free(t) && t.queue != [])
    ensures Reached(s, n + LeaveSteps(t), t.(phase := UpdateCheck))
  {
    ReachedNext(s, n, t);
    if Free(t) {
      ReachedNext(s, n + 1, Proceeded(t));
    }
  }

  lemma PostEnds(s: Source, n: nat, t: Source) returns (m: nat)
    requires Reached(s, n, t) && t.phase.PostCheck? && !(Free(t) && t.queue != [])
    ensures Reached(s, m, Updated(t)) && (t.restart ==> t.watchesRunning)
  {
    var u := t.(phase := UpdateCheck);
    m := n + LeaveSteps(t);
    LeaveRuns(s, n, t);
    UpdateRuns(s, m, u);
    assert Updated(u) == Updated(t);
    m := m + 3;
  }

  // ---------------------------------------------------------------------
  // The object
  // ---------------------------------------------------------------------

  class AFInterSource {
    const queueCapacity: nat
    var queue: seq<nat>
    var freeToSend: bool
    var watchesRunning: bool
    var post: bool
    var restart: bool
    var wakeup: bool
    var window: int
    var suspended: bool
    var dropped: nat
    ghost var phase: Phase
    ghost var committed: nat
    ghost var accepted: seq<nat>
    ghost var sent: seq<nat>

    constructor (capacity: nat, window: nat)
      ensures State() == NewSource(capacity, window) && Inv(State())
    {
      queueCapacity, queue, freeToSend, watchesRunning := capacity, [], false, false;
      post, restart, wakeup := false, false, false;
      this.window, suspended, dropped := window, false, 0;
      phase, committed, accepted, sent := Starting, 0, [], [];
    }

    ghost function State(): Source
      reads this
    {
      Source(phase, queue, queueCapacity, freeToSend, watchesRunning, post, restart, wakeup, window, suspended,
             committed, accepted, dropped, sent)
    }

    /** log_source_free_to_send */
    predicate FreeToSend()
      reads this
      ensures FreeToSend() == Free(State())
    {
      window != 0 && !suspended
    }

    /** afinter_message_posted */
    method MessagePosted(msg: nat)
      modifies this`queue, this`post, this`dropped, this`accepted
      ensures State() == Posted(old(State()), msg)
    {
      if |queue| >= queueCapacity {
        dropped := dropped + 1;
        return;
      }
      queue, accepted := queue + [msg], accepted + [msg];
      if freeToSend {
        post := true;
      }
    }

    /** afinter_source_stop_watches */
    method StopWatches()
      modifies this`restart, this`watchesRunning
      ensures restart == (old(restart) && !old(watchesRunning)) && !watchesRunning
    {
      if watchesRunning {
        restart, watchesRunning := false, false;
      }
    }

    /** afinter_source_update_watches */
    method UpdateWatches()
      requires phase.UpdateCheck? && (restart ==> watchesRunning)
      modifies this`freeToSend, this`watchesRunning, this`restart, this`phase
      ensures State() == Updated(old(State()))
    {
      if !FreeToSend() {
        freeToSend := false;
        StopWatches();
      } else {
        StopWatches();
        watchesRunning := true;
        if |queue| > 0 {
          restart := true;
        }
        freeToSend := true;
      }
      phase := Between;
    }

    /** One turn of the loop of afinter_source_post. */
    method SendNext()
      requires queue != []
      modifies this`queue, this`window, this`sent
      ensures State() == Sent(old(State()))
    {
      var msg := queue[0];
      queue := queue[1..];
      window := window - 1;
      sent := sent + [msg];
    }

    /** The loop of afinter_source_post. */
    method SendAll()
      requires Inv(State()) && phase.PostCheck?
      modifies this`queue, this`window, this`sent
      ensures var k := Room(old(State()));
              State() == SentMany(old(State()), k) && Reached(old(State()), 3 * k, State())
      ensures !(FreeToSend() && queue != [])
    {
      ghost var s, k := State(), 0;
      SentNone(s);
      while FreeToSend() && queue != []
        invariant k <= |s.queue| && State() == SentMany(s, k) && Reached(s, 3 * k, State()) && k <= Room(s)
        decreases |queue|
      {
        SentOneMore(s, k);
        SendNext();
        k := k + 1;
      }
    }

    /** afinter_source_post: sends as many messages as the window allows, oldest first.
        Afterwards either nothing waits or the source sleeps. */
    method SourcePost() returns (ghost n: nat)
      requires Inv(State()) && phase.PostCheck?
      modifies this
      ensures Reached(old(State()), n, State()) && phase.Between?
      ensures State() == Updated(SentMany(old(State()), Room(old(State()))))
      ensures queue != [] ==> !FreeToSend() && !freeToSend
    {
      ghost var s := State();
      SendAll();
      n := PostEnds(s, 3 * Room(s), State());
      phase := UpdateCheck;
      UpdateWatches();
    }
  }
}
