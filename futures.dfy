/**
 * The futures fixture: a non-blocking timer future whose completion is signalled by a
 * second thread, and the small exported functions built on it.
 *
 * The mutex around the timer's shared state makes each locked region atomic, so `poll`
 * and the timer thread's firing step are modelled as single methods on the shared state.
 * A task waker is represented by its identity; waking it is reported as the fire step's
 * result. The sleep before the timer fires is not modelled: firing is one step that the
 * timer thread takes exactly once, at some point between polls.
 */
module Futures {
  import opened Wrappers

  /** The waker of the task that polled the future, identified by an opaque number. */
  datatype Waker = Waker(id: nat)

  /** `Poll<()>`: the timer's output is the unit value. */
  datatype Poll = Ready | Pending

  /** A snapshot of the two fields the mutex guards. */
  datatype TimerState = TimerState(completed: bool, waker: Option<Waker>)

  const Initial := TimerState(false, None)

  /** In every state the timer can reach, a completed timer holds no waker: firing takes it. */
  predicate Reachable(t: TimerState) {
    t.completed ==> t.waker == None
  }

  /** The locked region of `TimerFuture::poll`, on values. */
  function PollStep(t: TimerState, cx: Waker): (r: (TimerState, Poll))
    ensures r.1 == Ready <==> t.completed
    ensures t.completed ==> r.0 == t
    ensures !t.completed ==> r.0 == TimerState(false, Some(cx))
  {
    if t.completed then (t, Ready) else (TimerState(false, Some(cx)), Pending)
  }

  /** The locked region of the timer thread, on values: the new state and the waker it woke. */
  function FireStep(t: TimerState): (r: (TimerState, Option<Waker>))
    ensures r.0.completed && r.0.waker == None
    ensures r.1 == t.waker
  {
    (TimerState(true, None), t.waker)
  }

  /** Folds PollStep over a sequence of polls, one waker per poll; gives the last state and the poll results. */
  function PollAll(t: TimerState, wakers: seq<Waker>): (r: (TimerState, seq<Poll>))
    ensures |r.1| == |wakers|
    decreases |wakers|
  {
    if wakers == [] then (t, [])
    else
      var (t1, p) := PollStep(t, wakers[0]);
      var (t2, ps) := PollAll(t1, wakers[1..]);
      (t2, [p] + ps)
  }

  /** Both steps keep a reachable state reachable. */
  lemma StepsKeepReachable(t: TimerState, cx: Waker)
    requires Reachable(t)
    ensures Reachable(PollStep(t, cx).0) && Reachable(FireStep(t).0)
  {
  }

  /** Once completed, every later poll is Ready and changes nothing (idempotent completion). */
  lemma {:induction false} CompletedStaysReady(t: TimerState, wakers: seq<Waker>)
    requires t.completed
    ensures PollAll(t, wakers).0 == t
    ensures forall k :: 0 <= k < |wakers| ==> PollAll(t, wakers).1[k] == Ready
    decreases |wakers|
  {
    if wakers != [] {
      CompletedStaysReady(t, wakers[1..]);
    }
  }

  /** Before completion every poll is Pending, and the last poll's waker supersedes all earlier ones. */
  lemma {:induction false} PendingSupersedes(t: TimerState, wakers: seq<Waker>)
    requires !t.completed
    ensures !PollAll(t, wakers).0.completed
    ensures PollAll(t, wakers).0.waker == if wakers == [] then t.waker else Some(wakers[|wakers| - 1])
    ensures forall k :: 0 <= k < |wakers| ==> PollAll(t, wakers).1[k] == Pending
    decreases |wakers|
  {
    if wakers != [] {
      PendingSupersedes(TimerState(false, Some(wakers[0])), wakers[1..]);
      if |wakers| > 1 {
        assert wakers[1..][|wakers[1..]| - 1] == wakers[|wakers| - 1];
      }
    }
  }

  /**
   * The whole life of one timer: polls, the timer fires once, more polls. Every poll before
   * the fire is Pending and every poll after it Ready; the fire wakes exactly the waker of
   * the last poll before it, and nothing when there was no such poll.
   */
  lemma TimerLifecycle(before: seq<Waker>, after: seq<Waker>)
    ensures forall k :: 0 <= k < |before| ==> PollAll(Initial, before).1[k] == Pending
    ensures FireStep(PollAll(Initial, before).0).1 == if before == [] then None else Some(before[|before| - 1])
    ensures forall k :: 0 <= k < |after| ==> PollAll(FireStep(PollAll(Initial, before).0).0, after).1[k] == Ready
    ensures PollAll(FireStep(PollAll(Initial, before).0).0, after).0 == TimerState(true, None)
  {
    PendingSupersedes(Initial, before);
    CompletedStaysReady(TimerState(true, None), after);
  }

  /** Supersession: a waker replaced by a later, different one before the fire is never woken. */
  lemma SupersededNeverWoken(before: seq<Waker>, k: nat)
    requires k < |before| - 1 && before[k] != before[|before| - 1]
    ensures FireStep(PollAll(Initial, before).0).1 != Some(before[k])
  {
    PendingSupersedes(Initial, before);
  }

  /** The `Mutex<SharedState>` of one timer. */
  class SharedState {
    var completed: bool
    var waker: Option<Waker>

    function View(): TimerState
      reads this
    {
      TimerState(completed, waker)
    }

    constructor ()
      ensures View() == Initial
    {
      completed := false;
      waker := None;
    }
  }

  /** The non-blocking timer future. */
  class TimerFuture {
    const sharedState: SharedState
    /** Seconds the timer thread sleeps before firing; the model does not keep time. */
    const duration: nat

    /** `TimerFuture::new`: a fresh, uncompleted shared state with no waker; the timer thread is started. */
    constructor (duration: nat)
      ensures fresh(sharedState)
      ensures sharedState.completed == false && sharedState.waker == None
      ensures this.duration == duration
    {
      this.duration := duration;
      sharedState := new SharedState();
    }

    /** `Future::poll`: Ready when completed (waker kept); otherwise stores `cx`, replacing any earlier waker. */
    method Poll(cx: Waker) returns (p: Poll)
      modifies sharedState
      ensures old(sharedState.completed) ==> p == Ready && sharedState.waker == old(sharedState.waker)
      ensures !old(sharedState.completed) ==> p == Pending && sharedState.waker == Some(cx)
      ensures sharedState.completed == old(sharedState.completed)
      ensures (sharedState.View(), p) == PollStep(old(sharedState.View()), cx)
    {
      if sharedState.completed {
        p := Ready;
      } else {
        sharedState.waker := Some(cx);
        p := Pending;
      }
    }

    /** The timer thread after its sleep: marks completion, takes the waker and wakes it. */
    method Fire() returns (woken: Option<Waker>)
      modifies sharedState
      ensures sharedState.completed && sharedState.waker == None
      ensures woken == old(sharedState.waker)
      ensures (sharedState.View(), woken) == FireStep(old(sharedState.View()))
    {
      sharedState.completed := true;
      woken := sharedState.waker;
      sharedState.waker := None;
    }
  }

  /** A task polls a new timer twice, the timer fires, and the task polls again. */
  method PollTimerAcrossFire(w1: Waker, w2: Waker, w3: Waker) returns (first: Poll, second: Poll, woken: Option<Waker>, third: Poll)
    ensures first == Pending && second == Pending
    ensures woken == Some(w2)
    ensures third == Ready
  {
    var timer := new TimerFuture(2);
    first := timer.Poll(w1);
    second := timer.Poll(w2);
    woken := timer.Fire();
    third := timer.Poll(w3);
  }

  // ---------------------------------------------------------------------------------
  // The exported fixture functions

  newtype u8 = x: int | 0 <= x < 0x100

  const HelloPrefix := "Hello, "

  /** `greet(who)`: "Hello, " followed by `who`. */
  function Greet(who: string): (r: string)
    ensures |r| == |HelloPrefix| + |who|
    ensures r[..|HelloPrefix|] == HelloPrefix && r[|HelloPrefix|..] == who
  {
    HelloPrefix + who
  }

  /** The result of `say_after(secs, who)` once its timer has fired: the greeting with an exclamation mark. */
  function SayAfter(secs: u8, who: string): (r: string)
    ensures r == Greet(who) + "!"
  {
    HelloPrefix + who + "!"
  }

  /**
   * The result of `say_after_with_tokio(secs, who)` once its Tokio sleep has elapsed: the
   * greeting followed by ` (with Tokio)!`, so it differs from the plain `say_after` result.
   */
  function SayAfterWithTokio(secs: u8, who: string): (r: string)
    ensures r == Greet(who) + " (with Tokio)!"
    ensures r != SayAfter(secs, who)
  {
    var r := HelloPrefix + who + " (with Tokio)!";
    assert r[|HelloPrefix| + |who|] == ' ' != SayAfter(secs, who)[|HelloPrefix| + |who|];
    r
  }

  /** `char::to_uppercase` on ASCII letters; every other character is kept. */
  function UpperChar(c: char): (u: char)
    ensures 'a' <= c <= 'z' ==> u as int == c as int - 32
    ensures !('a' <= c <= 'z') ==> u == c
  {
    if 'a' <= c <= 'z' then (c as int - 32) as char else c
  }

  /** `str::to_uppercase`, character by character. */
  function ToUppercase(s: string): (r: string)
    ensures |r| == |s| && forall k :: 0 <= k < |s| ==> r[k] == UpperChar(s[k])
  {
    seq(|s|, k requires 0 <= k < |s| => UpperChar(s[k]))
  }

  lemma UppercaseAppend(a: string, b: string)
    ensures ToUppercase(a + b) == ToUppercase(a) + ToUppercase(b)
  {
  }

  /** A megaphone; it has no state. */
  datatype Megaphone = Megaphone

  /** `Megaphone::say_after(self: Arc<Self>, secs, who)`: the free `say_after` result, upper-cased. */
  function MegaphoneSayAfter(self: Megaphone, secs: u8, who: string): (r: string)
    ensures r == ToUppercase(SayAfter(secs, who))
    ensures r == "HELLO, " + ToUppercase(who) + "!"
  {
    UppercaseAppend(HelloPrefix, who);
    UppercaseAppend(HelloPrefix + who, "!");
    ToUppercase(SayAfter(secs, who))
  }

  datatype MyError = Foo

  /** `fallible_me(do_fail)`: an error exactly when asked to fail, and 42 otherwise. */
  function FallibleMe(doFail: bool): (r: Result<u8, MyError>)
    ensures r.Err? <==> doFail
    ensures r.Err? ==> r.error == Foo
    ensures r.Ok? ==> r.value == 42
  {
    if doFail then Err(Foo) else Ok(42)
  }
}
