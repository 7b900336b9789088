/**
 Forwarding daemon notifications: a frame whose permit check answers at once is sent at once, any other joins a
 chain of promises. Frames are numbered by arrival.
 */
module ChannelForward {

  /** What a permit check comes to; a check may also throw before it answers. */
  datatype Verdict = Permit | Refuse | Reject

  /** The check answered `true` at once, threw at once, or handed over something to be awaited. */
  datatype Check = Immediate | Threw | Awaited

  /**
   `queue` is what hangs on the `forwarding` promise, `broken` that this promise is rejected, `sent` the frames
   sent. The rest is history: how each arrival was checked, the verdicts that came, how far the chain has run,
   and which frames were waiting in it when a later one was sent at once.
   */
  datatype State = State(
    queue: seq<nat>,
    broken: bool,
    sent: seq<nat>,
    checks: seq<Check>,
    verdicts: map<nat, Verdict>,
    done: nat,
    overtaken: set<nat>)

  const INIT := State([], false, [], [], map[], 0, {})

  datatype Event = Arrives(check: Check) | Settles(frame: nat, verdict: Verdict) | ChainRuns

  predicate Enabled(s: State, e: Event) {
    match e
    case Arrives(_) => true
    case Settles(frame, _) => frame < |s.checks| && s.checks[frame].Awaited? && frame !in s.verdicts
    case ChainRuns => s.queue != [] && s.queue[0] in s.verdicts
  }

  function DoArrives(s: State, check: Check): State {
    var n, t := |s.checks|, s.(checks := s.checks + [check]);
    match check
    case Threw => t
    case Immediate => t.(sent := s.sent + [n], overtaken := s.overtaken + (set i | i in s.queue))
    case Awaited => if s.broken then t else t.(queue := s.queue + [n])
  }

  /** The head of the chain has its verdict; a rejection rejects the chain, and nothing hung on it ever runs. */
  function DoChainRuns(s: State): State
    requires s.queue != [] && s.queue[0] in s.verdicts
  {
    var n := s.queue[0];
    match s.verdicts[n]
    case Permit => s.(queue := s.queue[1..], sent := s.sent + [n], done := n + 1)
    case Refuse => s.(queue := s.queue[1..], done := n + 1)
    case Reject => s.(queue := [], broken := true, done := n)
  }

  function Step(s: State, e: Event): State
    requires Enabled(s, e)
  {
    match e
    case Arrives(check) => DoArrives(s, check)
    case Settles(frame, verdict) => s.(verdicts := s.verdicts[frame := verdict])
    case ChainRuns => DoChainRuns(s)
  }

  ghost predicate IsRun(run: seq<State>, events: seq<Event>) {
    && |run| == |events| + 1 && run[0] == INIT
    && forall i :: 0 <= i < |events| ==> Enabled(run[i], events[i]) && run[i + 1] == Step(run[i], events[i])
  }

  // ----- what is sent

  /** The awaited frames from `lo` up to `hi`, in arrival order. */
  ghost function AwaitedIn(checks: seq<Check>, lo: nat, hi: nat): seq<nat>
    requires hi <= |checks|
    decreases hi
  {
    if hi <= lo then [] else AwaitedIn(checks, lo, hi - 1) + if checks[hi - 1].Awaited? then [hi - 1] else []
  }

  /** The awaited frames below `n` that were permitted, in arrival order. */
  ghost function Permitted(checks: seq<Check>, verdicts: map<nat, Verdict>, n: nat): seq<nat>
    requires n <= |checks|
  {
    if n == 0 then []
    else Permitted(checks, verdicts, n - 1) +
         if checks[n - 1].Awaited? && n - 1 in verdicts && verdicts[n - 1].Permit? then [n - 1] else []
  }

  /** The frames below `n` sent at once, in arrival order. */
  ghost function AtOnce(checks: seq<Check>, n: nat): seq<nat>
    requires n <= |checks|
  {
    if n == 0 then [] else AtOnce(checks, n - 1) + if checks[n - 1].Immediate? then [n - 1] else []
  }

  /** The frames of `sent` that were checked in the given way. */
  ghost function Part(sent: seq<nat>, checks: seq<Check>, check: Check): seq<nat> {
    if sent == [] then []
    else
      var n := sent[|sent| - 1];
      Part(sent[..|sent| - 1], checks, check) + if n < |checks| && checks[n] == check then [n] else []
  }

  /** The queue holds the awaited frames from `done` on, unless the chain broke at `done`. */
  ghost predicate Queued(s: State) {
    && s.done <= |s.checks|
    && (if s.broken then s.queue == [] && s.done in s.verdicts && s.verdicts[s.done].Reject?
        else s.queue == AwaitedIn(s.checks, s.done, |s.checks|))
    && (forall i :: i in s.verdicts ==> i < |s.checks|)
    && (forall i :: 0 <= i < s.done && s.checks[i].Awaited? ==> i in s.verdicts)
  }

  ghost predicate SentAre(s: State) {
    && s.done <= |s.checks|
    && (forall k :: 0 <= k < |s.sent| ==>
        s.sent[k] < |s.checks| && (s.sent[k] < s.done || s.checks[s.sent[k]].Immediate?))
    && Part(s.sent, s.checks, Awaited) == Permitted(s.checks, s.verdicts, s.done)
    && Part(s.sent, s.checks, Immediate) == AtOnce(s.checks, |s.checks|)
  }

  lemma {:induction false} AwaitedInSame(checks: seq<Check>, more: seq<Check>, lo: nat, hi: nat)
    requires hi <= |checks| && checks <= more
    ensures AwaitedIn(checks, lo, hi) == AwaitedIn(more, lo, hi)
    decreases hi
  {
    if lo < hi {
      AwaitedInSame(checks, more, lo, hi - 1);
    }
  }

  /** The head of the awaited frames is the first of them, and the tail those after it. */
  lemma {:induction false} AwaitedHead(checks: seq<Check>, lo: nat, hi: nat)
    requires hi <= |checks| && AwaitedIn(checks, lo, hi) != []
    ensures var n := AwaitedIn(checks, lo, hi)[0];
            lo <= n < hi && checks[n].Awaited? && (forall i :: lo <= i < n ==> !checks[i].Awaited?) &&
            AwaitedIn(checks, lo, hi)[1..] == AwaitedIn(checks, n + 1, hi)
    decreases hi
  {
    if AwaitedIn(checks, lo, hi - 1) != [] {
      AwaitedHead(checks, lo, hi - 1);
    } else {
      NoneAwaited(checks, lo, hi - 1);
    }
  }

  lemma {:induction false} NoneAwaited(checks: seq<Check>, lo: nat, hi: nat)
    requires hi <= |checks| && AwaitedIn(checks, lo, hi) == []
    ensures forall i :: lo <= i < hi ==> !checks[i].Awaited?
    decreases hi
  {
    if lo < hi {
      NoneAwaited(checks, lo, hi - 1);
    }
  }

  lemma {:induction false} AwaitedElements(checks: seq<Check>, lo: nat, hi: nat, k: nat)
    requires hi <= |checks| && k < |AwaitedIn(checks, lo, hi)|
    ensures var q := AwaitedIn(checks, lo, hi); lo <= q[k] < hi && checks[q[k]].Awaited? && (k > 0 ==> q[0] < q[k])
    decreases hi
  {
    if k < |AwaitedIn(checks, lo, hi - 1)| {
      AwaitedElements(checks, lo, hi - 1, k);
    } else if k > 0 {
      AwaitedElements(checks, lo, hi - 1, 0);
    }
  }

  lemma {:induction false} PermittedSame(checks: seq<Check>, more: seq<Check>, v: map<nat, Verdict>,
      w: map<nat, Verdict>, n: nat)
    requires n <= |checks| && checks <= more
    requires forall i :: 0 <= i < n && checks[i].Awaited? ==> (i in v <==> i in w) && (i in v ==> v[i] == w[i])
    ensures Permitted(checks, v, n) == Permitted(more, w, n)
  {
    if n > 0 {
      PermittedSame(checks, more, v, w, n - 1);
    }
  }

  lemma {:induction false} PermittedSkips(checks: seq<Check>, v: map<nat, Verdict>, m: nat, n: nat)
    requires m <= n <= |checks| && forall i :: m <= i < n ==> !checks[i].Awaited?
    ensures Permitted(checks, v, n) == Permitted(checks, v, m)
    decreases n
  {
    if m < n {
      PermittedSkips(checks, v, m, n - 1);
    }
  }

  lemma {:induction false} AtOnceSame(checks: seq<Check>, more: seq<Check>, n: nat)
    requires n <= |checks| && checks <= more
    ensures AtOnce(checks, n) == AtOnce(more, n)
  {
    if n > 0 {
      AtOnceSame(checks, more, n - 1);
    }
  }

  lemma {:induction false} PartSame(sent: seq<nat>, checks: seq<Check>, more: seq<Check>, check: Check)
    requires checks <= more && forall k :: 0 <= k < |sent| ==> sent[k] < |checks|
    ensures Part(sent, checks, check) == Part(sent, more, check)
  {
    if sent != [] {
      PartSame(sent[..|sent| - 1], checks, more, check);
    }
  }

  lemma PartAppend(sent: seq<nat>, n: nat, checks: seq<Check>, check: Check)
    requires n < |checks|
    ensures Part(sent + [n], checks, check) == Part(sent, checks, check) + if checks[n] == check then [n] else []
  {
    assert (sent + [n])[..|sent|] == sent;
  }

  lemma ArrivesQueued(s: State, check: Check)
    requires Queued(s)
    ensures Queued(DoArrives(s, check))
  {
    AwaitedInSame(s.checks, s.checks + [check], s.done, |s.checks|);
  }

  lemma ArrivesSent(s: State, check: Check)
    requires SentAre(s)
    ensures SentAre(DoArrives(s, check))
  {
    var checks, n := s.checks + [check], |s.checks|;
    PermittedSame(s.checks, checks, s.verdicts, s.verdicts, s.done);
    AtOnceSame(s.checks, checks, n);
    assert AtOnce(checks, n + 1) == AtOnce(checks, n) + if check.Immediate? then [n] else [];
    PartSame(s.sent, s.checks, checks, Awaited);
    PartSame(s.sent, s.checks, checks, Immediate);
    if check.Immediate? {
      PartAppend(s.sent, n, checks, Awaited);
      PartAppend(s.sent, n, checks, Immediate);
    }
    hide Permitted, Part, AtOnce;
  }

  lemma SettlesKeeps(s: State, frame: nat, verdict: Verdict)
    requires Queued(s) && SentAre(s) && Enabled(s, Settles(frame, verdict))
    ensures Queued(Step(s, Settles(frame, verdict))) && SentAre(Step(s, Settles(frame, verdict)))
  {
    PermittedSame(s.checks, s.checks, s.verdicts, s.verdicts[frame := verdict], s.done);
    hide Permitted, Part, AwaitedIn, AtOnce;
  }

  lemma ChainRunsQueued(s: State)
    requires Queued(s) && Enabled(s, ChainRuns)
    ensures Queued(DoChainRuns(s))
  {
    AwaitedHead(s.checks, s.done, |s.checks|);
    hide AwaitedIn;
  }

  lemma ChainRunsSent(s: State)
    requires Queued(s) && SentAre(s) && Enabled(s, ChainRuns)
    ensures SentAre(DoChainRuns(s))
  {
    var n := s.queue[0];
    AwaitedHead(s.checks, s.done, |s.checks|);
    PermittedSkips(s.checks, s.verdicts, s.done, n);
    PartAppend(s.sent, n, s.checks, Awaited);
    PartAppend(s.sent, n, s.checks, Immediate);
    assert Permitted(s.checks, s.verdicts, n + 1) == Permitted(s.checks, s.verdicts, n) + if s.verdicts[n].Permit? then
        [n] else [];
    hide AwaitedIn, Permitted, Part, AtOnce, Queued;
  }

  lemma {:induction false} RunKeeps(run: seq<State>, events: seq<Event>, n: nat)
    requires IsRun(run, events) && n < |run|
    ensures Queued(run[n]) && SentAre(run[n])
  {
    if n > 0 {
      RunKeeps(run, events, n - 1);
      hide Queued, SentAre;
      match events[n - 1]
      case Arrives(check) =>
        ArrivesQueued(run[n - 1], check);
        ArrivesSent(run[n - 1], check);
      case Settles(frame, verdict) => SettlesKeeps(run[n - 1], frame, verdict);
      case ChainRuns =>
        ChainRunsQueued(run[n - 1]);
        ChainRunsSent(run[n - 1]);
    }
  }

  /**
   At every moment of every run, whatever the order in which the checks settle: the awaited frames sent are the
   permitted ones of a prefix of the arrivals, in arrival order, each once; the frames sent at once are all that
   were so checked, in arrival order; and unless a check was rejected, every awaited frame after that prefix is
   in the queue.
   */
  lemma AwaitedFramesInOrder(run: seq<State>, events: seq<Event>, n: nat)
    requires IsRun(run, events) && n < |run|
    ensures var s := run[n];
            s.done <= |s.checks| && Part(s.sent, s.checks, Awaited) == Permitted(s.checks, s.verdicts, s.done) &&
            Part(s.sent, s.checks, Immediate) == AtOnce(s.checks, |s.checks|) &&
            (!s.broken ==> s.queue == AwaitedIn(s.checks, s.done, |s.checks|))
  {
    RunKeeps(run, events, n);
  }

  lemma {:induction false} PartIsAll(sent: seq<nat>, checks: seq<Check>, check: Check)
    requires forall k :: 0 <= k < |sent| ==> sent[k] < |checks| && checks[sent[k]] == check
    ensures Part(sent, checks, check) == sent
  {
    if sent != [] {
      PartIsAll(sent[..|sent| - 1], checks, check);
      assert sent == sent[..|sent| - 1] + [sent[|sent| - 1]];
    }
  }

  lemma {:induction false} NothingAtOnce(run: seq<State>, events: seq<Event>, n: nat)
    requires IsRun(run, events) && n < |run|
    requires forall i :: 0 <= i < |events| ==> events[i] != Arrives(Immediate)
    ensures forall k :: 0 <= k < |run[n].sent| ==>
            run[n].sent[k] < |run[n].checks| && run[n].checks[run[n].sent[k]].Awaited?
  {
    if n > 0 {
      NothingAtOnce(run, events, n - 1);
      RunKeeps(run, events, n - 1);
      assert events[n - 1] != Arrives(Immediate);
      hide Queued, SentAre;
      if events[n - 1].ChainRuns? {
        HeadIsAwaited(run[n - 1]);
      }
    }
  }

  lemma HeadIsAwaited(s: State)
    requires Queued(s) && s.queue != []
    ensures s.queue[0] < |s.checks| && s.checks[s.queue[0]].Awaited?
  {
    AwaitedElements(s.checks, s.done, |s.checks|, 0);
  }

  /** When no check answers `true` at once, everything sent is the permitted frames of a prefix, in arrival order. */
  lemma SentIsPermittedPrefix(run: seq<State>, events: seq<Event>, n: nat)
    requires IsRun(run, events) && n < |run|
    requires forall i :: 0 <= i < |events| ==> events[i] != Arrives(Immediate)
    ensures run[n].done <= |run[n].checks| && run[n].sent == Permitted(run[n].checks, run[n].verdicts, run[n].done)
  {
    RunKeeps(run, events, n);
    NothingAtOnce(run, events, n);
    PartIsAll(run[n].sent, run[n].checks, Awaited);
  }

  // ----- the chain after a rejection

  lemma BrokenStep(s: State, e: Event)
    requires Queued(s) && SentAre(s) && s.broken && Enabled(s, e)
    ensures var t := Step(s, e); t.broken && Part(t.sent, t.checks, Awaited) == Part(s.sent, s.checks, Awaited)
  {
    if e.Arrives? {
      var checks := s.checks + [e.check];
      PartSame(s.sent, s.checks, checks, Awaited);
      PartAppend(s.sent, |s.checks|, checks, Awaited);
    }
    hide Part, Permitted, AtOnce, AwaitedIn;
  }

  /** A rejected check stops the chain for good: no awaited frame is sent from then on. */
  lemma {:induction false} RejectionStopsTheChain(run: seq<State>, events: seq<Event>, m: nat, n: nat)
    requires IsRun(run, events) && m <= n < |run| && run[m].broken
    ensures run[n].broken && Part(run[n].sent, run[n].checks, Awaited) == Part(run[m].sent, run[m].checks, Awaited)
    decreases n
  {
    if m < n {
      RejectionStopsTheChain(run, events, m, n - 1);
      RunKeeps(run, events, n - 1);
      hide Step, Enabled, Queued, SentAre, Part;
      BrokenStep(run[n - 1], events[n - 1]);
    }
  }

  /** The chain breaks exactly when a rejected check comes to its head. */
  lemma {:induction false} BreaksOnlyOnRejection(run: seq<State>, events: seq<Event>, n: nat)
    requires IsRun(run, events) && n < |run|
    ensures run[n].broken <==>
            exists m :: 0 <= m < n && events[m].ChainRuns? && run[m].verdicts[run[m].queue[0]].Reject?
  {
    if n > 0 {
      BreaksOnlyOnRejection(run, events, n - 1);
      RunKeeps(run, events, n - 1);
    }
  }

  // ----- when the whole is in arrival order

  ghost predicate Increasing(s: seq<nat>) {
    forall i, j :: 0 <= i < j < |s| ==> s[i] < s[j]
  }

  /** The latest arrival among frames sent, or -1. */
  ghost function Latest(sent: seq<nat>): int {
    if sent == [] then -1
    else
      var top, last := Latest(sent[..|sent| - 1]), sent[|sent| - 1];
      if top > last then top else last
  }

  lemma {:induction false} LatestIs(sent: seq<nat>)
    ensures forall k :: 0 <= k < |sent| ==> sent[k] <= Latest(sent)
    ensures if sent == [] then Latest(sent) == -1 else Latest(sent) in sent
  {
    if sent != [] {
      LatestIs(sent[..|sent| - 1]);
    }
  }

  /** A waiting frame was overtaken exactly if a later one has been sent. */
  ghost predicate Overtaken(queue: seq<nat>, sent: seq<nat>, overtaken: set<nat>) {
    forall k :: 0 <= k < |queue| ==> (queue[k] in overtaken <==> Latest(sent) > queue[k])
  }

  ghost predicate NoneOf(sent: seq<nat>, overtaken: set<nat>) {
    forall k :: 0 <= k < |sent| ==> sent[k] !in overtaken
  }

  /** Order is lost exactly when an overtaken frame is sent. */
  ghost predicate OrderKnown(s: State) {
    && Overtaken(s.queue, s.sent, s.overtaken)
    && (forall i :: i in s.overtaken ==> i < |s.checks|)
    && (Increasing(s.sent) <==> NoneOf(s.sent, s.overtaken))
  }

  lemma LatestAppend(sent: seq<nat>, n: nat)
    ensures Latest(sent + [n]) == if Latest(sent) > n then Latest(sent) else n
    ensures n !in sent ==> (Increasing(sent + [n]) <==> Increasing(sent) && Latest(sent) <= n) && Latest(sent) != n
  {
    var all := sent + [n];
    assert all[..|sent|] == sent;
    LatestIs(sent);
    if Increasing(all) {
      assert forall k :: 0 <= k < |sent| ==> all[k] == sent[k] && all[k] < all[|sent|];
    }
  }

  lemma NoneOfAppend(sent: seq<nat>, n: nat, overtaken: set<nat>)
    ensures NoneOf(sent + [n], overtaken) <==> NoneOf(sent, overtaken) && n !in overtaken
  {
    var all := sent + [n];
    assert all[|sent|] == n && forall k :: 0 <= k < |sent| ==> all[k] == sent[k];
  }

  /** No frame is both waiting and sent, nor in the queue twice. */
  lemma WaitingIsUnsent(s: State, k: nat)
    requires Queued(s) && SentAre(s) && k < |s.queue|
    ensures s.queue[k] !in s.sent && s.queue[k] < |s.checks| && (k > 0 ==> s.queue[0] < s.queue[k])
  {
    AwaitedElements(s.checks, s.done, |s.checks|, k);
    hide AwaitedIn, Permitted, Part, AtOnce;
  }

  /** Sending frame `n` at once overtakes all that wait, and none that was sent. */
  lemma SendingOvertakes(queue: seq<nat>, sent: seq<nat>, overtaken: set<nat>, n: nat)
    requires forall k :: 0 <= k < |queue| ==> queue[k] < n
    requires forall k :: 0 <= k < |sent| ==> sent[k] < n && sent[k] !in queue
    requires n !in overtaken
    ensures var more := overtaken + set i | i in queue;
            Overtaken(queue, sent + [n], more) && (NoneOf(sent + [n], more) <==> NoneOf(sent, overtaken)) &&
            (Increasing(sent + [n]) <==> Increasing(sent))
  {
    var more := overtaken + set i | i in queue;
    LatestAppend(sent, n);
    LatestIs(sent);
    hide Increasing, Latest;
    NoneOfAppend(sent, n, more);
    assert forall k :: 0 <= k < |sent| ==> (sent[k] in more <==> sent[k] in overtaken);
  }

  lemma ImmediateOrder(s: State)
    requires Queued(s) && SentAre(s) && OrderKnown(s)
    ensures OrderKnown(DoArrives(s, Immediate))
  {
    var n := |s.checks|;
    forall k | 0 <= k < |s.queue|
      ensures s.queue[k] !in s.sent && s.queue[k] < n
    {
      WaitingIsUnsent(s, k);
    }
    assert forall k :: 0 <= k < |s.sent| ==> s.sent[k] < n && s.sent[k] !in s.queue;
    hide Queued, SentAre, Increasing, Latest, Overtaken, NoneOf;
    SendingOvertakes(s.queue, s.sent, s.overtaken, n);
  }

  lemma AwaitedOrder(s: State)
    requires SentAre(s) && OrderKnown(s)
    ensures OrderKnown(DoArrives(s, Awaited)) && OrderKnown(DoArrives(s, Threw))
  {
    LatestIs(s.sent);
    assert Latest(s.sent) < |s.checks|;
    hide SentAre, Increasing, Latest, NoneOf;
  }

  lemma ChainRunsOrder(s: State)
    requires Queued(s) && SentAre(s) && OrderKnown(s) && Enabled(s, ChainRuns)
    ensures OrderKnown(DoChainRuns(s))
  {
    var n := s.queue[0];
    WaitingIsUnsent(s, 0);
    forall k | 0 < k < |s.queue|
      ensures s.queue[k] > n
    {
      WaitingIsUnsent(s, k);
    }
    hide Queued, SentAre, Increasing, Latest;
    LatestAppend(s.sent, n);
    NoneOfAppend(s.sent, n, s.overtaken);
    hide NoneOf;
  }

  lemma {:induction false} RunOrder(run: seq<State>, events: seq<Event>, n: nat)
    requires IsRun(run, events) && n < |run|
    ensures OrderKnown(run[n])
  {
    if n > 0 {
      RunOrder(run, events, n - 1);
      RunKeeps(run, events, n - 1);
      hide OrderKnown, Queued, SentAre, DoArrives;
      match events[n - 1]
      case Arrives(Immediate) => ImmediateOrder(run[n - 1]);
      case Arrives(_) => AwaitedOrder(run[n - 1]);
      case Settles(frame, verdict) => SettlesOrder(run[n - 1], frame, verdict);
      case ChainRuns => ChainRunsOrder(run[n - 1]);
    }
  }

  lemma SettlesOrder(s: State, frame: nat, verdict: Verdict)
    requires OrderKnown(s) && Enabled(s, Settles(frame, verdict))
    ensures OrderKnown(Step(s, Settles(frame, verdict)))
  {
  }

  /**
   Frames go out in arrival order if and only if no frame that was still waiting when a later one was sent at
   once is itself ever sent. So order holds in every run in which all checks are awaited, or none.
   */
  lemma InOrderUnlessOvertaken(run: seq<State>, events: seq<Event>, n: nat)
    requires IsRun(run, events) && n < |run|
    ensures Increasing(run[n].sent) <==> forall k :: 0 <= k < |run[n].sent| ==> run[n].sent[k] !in run[n].overtaken
  {
    RunOrder(run, events, n);
  }

  /** It can happen: frame 1 is sent before frame 0. */
  lemma OvertakingHappens()
    ensures exists run: seq<State>, events: seq<Event> :: IsRun(run, events) && run[|events|].sent == [1, 0]
  {
    var s1 := INIT.(checks := [Awaited], queue := [0]);
    var s2 := s1.(checks := [Awaited, Immediate], sent := [1], overtaken := {0});
    var s3 := s2.(verdicts := map[0 := Permit]);
    var s4 := s3.(queue := [], sent := [1, 0], done := 1);
    assert Step(INIT, Arrives(Awaited)) == s1;
    assert Step(s1, Arrives(Immediate)) == s2;
    assert Step(s2, Settles(0, Permit)) == s3;
    assert Step(s3, ChainRuns) == s4;
    hide Step, Enabled;
    assert IsRun([INIT, s1, s2, s3, s4], [Arrives(Awaited), Arrives(Immediate), Settles(0, Permit), ChainRuns]);
  }

  // ----- the forwarder, with the promise chain it reassigns

  class Forwarder {
    var forwarding: seq<nat>
    var broken: bool
    var sent: seq<nat>
    ghost var checks: seq<Check>
    ghost var verdicts: map<nat, Verdict>
    ghost var done: nat
    ghost var overtaken: set<nat>

    ghost function View(): State
      reads this
    {
      State(forwarding, broken, sent, checks, verdicts, done, overtaken)
    }

    constructor ()
      ensures View() == INIT
    {
      forwarding, broken, sent := [], false, [];
      checks, verdicts, done, overtaken := [], map[], 0, {};
    }

    method OnNotification(frame: nat, check: Check)
      requires frame == |checks|
      modifies this
      ensures View() == DoArrives(old(View()), check)
    {
      checks := checks + [check];
      match check
      case Threw =>
      case Immediate =>
        Forward(frame);
        overtaken := overtaken + set i | i in forwarding;
      case Awaited =>
        if !broken {
          forwarding := forwarding + [frame];
        }
    }

    method Forward(frame: nat)
      modifies `sent
      ensures sent == old(sent) + [frame]
    {
      sent := sent + [frame];
    }

    /** The verdict of the frame at the head of the chain is there. */
    method RunHead(verdict: Verdict)
      requires forwarding != [] && forwarding[0] in verdicts && verdict == verdicts[forwarding[0]]
      modifies this
      ensures View() == DoChainRuns(old(View()))
    {
      var frame := forwarding[0];
      match verdict
      case Permit =>
        Forward(frame);
        forwarding, done := forwarding[1..], frame + 1;
      case Refuse =>
        forwarding, done := forwarding[1..], frame + 1;
      case Reject =>
        forwarding, broken, done := [], true, frame;
    }
  }
}
