/** The cross-thread wake-up protocol of the event loop: any number of senders running
    `ev_async_send` / `ev_feed_signal` (and, inside them, `evpipe_write`) against the loop
    thread running `ev_run` and `pipecb`. Every shared access is one atomic step; the
    fences of the source make the accesses sequentially consistent. */
module Wakeup {

  /** The two flags `evpipe_write` is called with: `sig_pending` and `async_pending`. */
  datatype Kind = Signal | Async

  /** A watcher that can be sent to: `signals[index]` or `asyncs[index]`. */
  datatype Source = Source(kind: Kind, index: nat)

  /** History of a run: the write of `sent`/`pending` by a sender, and the feeding of the watcher. */
  datatype Event = Sent(src: Source) | Fed(src: Source)

  /** Where a sender is: each constructor names the shared access it performs next. */
  datatype SenderPc =
    | Outside
    | TestFlag(kind: Kind)
    | SetFlag(kind: Kind)
    | SetSkipped
    | TestWanted
    | ClearSkipped
    | WritePipe

  /** Where the loop is: each constructor names the shared access it performs next.
      `ArmWanted` also stands for the loop being outside `ev_run`. */
  datatype LoopPc =
    | ArmWanted
    | TestSkipped
    | Poll(blocking: bool)
    | DisarmWanted
    | RecheckSkipped
    | InvokePending
    | ReadPipe
    | ResetSkipped
    | TestKind(kind: Kind)
    | ClearKind(kind: Kind)
    | Scan(kind: Kind, left: nat)
    | Take(kind: Kind, index: nat)
    | Feed(kind: Kind, index: nat)

  datatype State = State(
    eventfd: bool,          // evpipe is an eventfd rather than a pipe
    capacity: nat,          // writes beyond it fail and change nothing
    signals: nat,           // EV_NSIG - 1
    asyncs: nat,            // asynccnt
    wanted: bool,           // pipe_write_wanted
    skipped: bool,          // pipe_write_skipped
    pipe: nat,              // bytes in the pipe, or the eventfd counter
    flags: set<Kind>,       // which of sig_pending, async_pending are 1
    sent: set<Source>,      // which signals[i].pending, asyncs[i]->sent are 1
    pending: bool,          // pipe_w is in the pending queue
    pendingRead: bool,      // ... and its revents contain EV_READ
    loop: LoopPc,
    senders: seq<SenderPc>,
    log: seq<Event>
  )

  function Count(s: State, kind: Kind): nat {
    match kind
    case Signal => s.signals
    case Async => s.asyncs
  }

  datatype Action =
    | Send(thread: nat, src: Source)  // a sender outside evpipe_write marks a watcher
    | SenderStep(thread: nat)         // a sender inside evpipe_write takes one step
    | LoopStep                        // the loop takes its next step
    | LoopNoWait                      // EVRUN_NOWAIT, idle watchers or no active watcher: poll without waiting
    | PollOther                       // a waiting poll returns for a timer or another descriptor
    | PollInterrupted                 // the poll system call fails with EINTR

  predicate Enabled(s: State, a: Action) {
    match a
    case Send(t, src) => t < |s.senders| && s.senders[t] == Outside && src.index < Count(s, src.kind)
    case SenderStep(t) => t < |s.senders| && s.senders[t] != Outside
    case LoopStep => s.loop == Poll(true) ==> s.pipe > 0
    case LoopNoWait => s.loop == TestSkipped
    case PollOther => s.loop == Poll(true) && s.pipe == 0
    case PollInterrupted => s.loop.Poll?
  }

  function Apply(s: State, a: Action): State
    requires Enabled(s, a)
  {
    match a
    case Send(t, src) =>
      s.(sent := s.sent + {src}, senders := s.senders[t := TestFlag(src.kind)], log := s.log + [Sent(src)])
    case SenderStep(t) => StepSender(s, t)
    case LoopStep => StepLoop(s)
    case LoopNoWait => s.(loop := Poll(false))
    case PollOther => s.(loop := DisarmWanted)
    case PollInterrupted => s.(loop := DisarmWanted)
  }

  /** One step of `evpipe_write`. */
  function StepSender(s: State, t: nat): (s': State)
    requires t < |s.senders|
    ensures s' == s.(flags := s'.flags, skipped := s'.skipped, pipe := s'.pipe, senders := s'.senders)
    ensures s.flags <= s'.flags && s.pipe <= s'.pipe && |s'.senders| == |s.senders|
    ensures forall q :: 0 <= q < |s.senders| && q != t ==> s'.senders[q] == s.senders[q]
  {
    match s.senders[t]
    case Outside => s
    case TestFlag(k) => s.(senders := s.senders[t := if k in s.flags then Outside else SetFlag(k)])
    case SetFlag(k) => s.(flags := s.flags + {k}, senders := s.senders[t := SetSkipped])
    case SetSkipped => s.(skipped := true, senders := s.senders[t := TestWanted])
    case TestWanted => s.(senders := s.senders[t := if s.wanted then ClearSkipped else Outside])
    case ClearSkipped => s.(skipped := false, senders := s.senders[t := WritePipe])
    case WritePipe =>
      s.(pipe := if s.pipe < s.capacity then s.pipe + 1 else s.pipe, senders := s.senders[t := Outside])
  }

  /** One step of the loop iteration of `ev_run`, with `pipecb` inlined where pending events are invoked. */
  function StepLoop(s: State): (s': State)
    requires s.loop == Poll(true) ==> s.pipe > 0
    ensures s'.senders == s.senders && s'.signals == s.signals && s'.asyncs == s.asyncs && s'.capacity == s.capacity
    ensures s'.sent == if s.loop.Take? then s.sent - {Source(s.loop.kind, s.loop.index)} else s.sent
    ensures s'.log == if s.loop.Feed? then s.log + [Fed(Source(s.loop.kind, s.loop.index))] else s.log
  {
    match s.loop
    case ArmWanted => s.(wanted := true, loop := TestSkipped)
    case TestSkipped => s.(loop := Poll(!s.skipped))
    case Poll(_) =>
      s.(pending := s.pipe > 0, pendingRead := s.pipe > 0, loop := DisarmWanted)
    case DisarmWanted => s.(wanted := false, loop := RecheckSkipped)
    case RecheckSkipped => s.(pending := s.pending || s.skipped, loop := InvokePending)
    case InvokePending =>
      if s.pending
      then s.(pending := false, pendingRead := false, loop := if s.pendingRead then ReadPipe else ResetSkipped)
      else s.(loop := ArmWanted)
    case ReadPipe => s.(pipe := if s.eventfd || s.pipe <= 4 then 0 else s.pipe - 4, loop := ResetSkipped)
    case ResetSkipped => s.(skipped := false, loop := TestKind(Signal))
    case TestKind(k) => s.(loop := if k in s.flags then ClearKind(k) else AfterKind(k))
    case ClearKind(k) => s.(flags := s.flags - {k}, loop := Scan(k, Count(s, k)))
    case Scan(k, left) =>
      if left == 0 then s.(loop := AfterKind(k))
      else if Source(k, left - 1) in s.sent then s.(loop := Take(k, left - 1))
      else s.(loop := Scan(k, left - 1))
    case Take(k, i) => s.(sent := s.sent - {Source(k, i)}, loop := Feed(k, i))
    case Feed(k, i) => s.(log := s.log + [Fed(Source(k, i))], loop := Scan(k, i))
  }

  /** `pipecb` looks at the signals first, then at the asyncs, then returns to the pending queue. */
  function AfterKind(k: Kind): LoopPc {
    match k
    case Signal => TestKind(Async)
    case Async => InvokePending
  }

  /** A freshly initialised loop with any number of idle senders. */
  predicate Initial(s: State) {
    && s.capacity >= 1
    && !s.wanted && !s.skipped && s.pipe == 0 && s.flags == {} && s.sent == {}
    && !s.pending && !s.pendingRead && s.loop == ArmWanted && s.log == []
    && forall t :: 0 <= t < |s.senders| ==> s.senders[t] == Outside
  }

  /** `end` is reached from `start` by the interleaving `run`. */
  ghost predicate Reaches(start: State, run: seq<Action>, end: State)
    decreases run
  {
    if run == [] then start == end
    else Enabled(start, run[0]) && Reaches(Apply(start, run[0]), run[1..], end)
  }

  /** Some send to `src` was logged after which `src` was not fed. */
  predicate Owed(log: seq<Event>, src: Source) {
    exists i :: 0 <= i < |log| && log[i] == Sent(src) && Fed(src) !in log[i..]
  }

  // ---------- the invariant ----------

  predicate InRange(s: State) {
    && s.capacity >= 1
    && (forall src :: src in s.sent ==> src.index < Count(s, src.kind))
    && (s.loop.Scan? ==> s.loop.left <= Count(s, s.loop.kind))
    && (s.loop.Take? ==> s.loop.index < Count(s, s.loop.kind))
    && (s.loop.Feed? ==> s.loop.index < Count(s, s.loop.kind))
    && (s.wanted <==> s.loop.TestSkipped? || s.loop.Poll? || s.loop.DisarmWanted?)
    && (s.pending ==> s.loop.DisarmWanted? || s.loop.RecheckSkipped? || s.loop.InvokePending?)
    && (s.pendingRead ==> s.pending)
  }

  /** The running scan of `pipecb` still has to look at `src`. */
  predicate YetToScan(loop: LoopPc, src: Source) {
    match loop
    case Scan(k, left) => k == src.kind && src.index < left
    case Take(k, i) => k == src.kind && src.index <= i
    case Feed(k, i) => k == src.kind && src.index < i
    case _ => false
  }

  /** The running `pipecb` still has to read the flag `k`. */
  predicate BeforeFlag(loop: LoopPc, k: Kind) {
    match loop
    case ReadPipe => true
    case ResetSkipped => true
    case TestKind(j) => j == k || j == Signal
    case ClearKind(j) => j == k || j == Signal
    case Scan(j, _) => j == Signal && k == Async
    case Take(j, _) => j == Signal && k == Async
    case Feed(j, _) => j == Signal && k == Async
    case _ => false
  }

  /** A marked watcher is announced by its flag, or someone is about to see to that. */
  predicate MarkAnnounced(s: State, src: Source) {
    || src.kind in s.flags
    || TestFlag(src.kind) in s.senders
    || SetFlag(src.kind) in s.senders
    || YetToScan(s.loop, src)
  }

  /** A raised flag has a wake-up recorded or on its way. */
  predicate FlagAnnounced(s: State, k: Kind) {
    || s.skipped
    || s.pipe > 0
    || SetSkipped in s.senders
    || WritePipe in s.senders
    || s.pending
    || BeforeFlag(s.loop, k)
  }

  ghost predicate Inv(s: State) {
    && InRange(s)
    && (forall src :: src in s.sent ==> MarkAnnounced(s, src))
    && (forall k :: k in s.flags ==> FlagAnnounced(s, k))
    && (s.loop == Poll(true) && s.skipped ==> TestWanted in s.senders || ClearSkipped in s.senders)
    && (forall src :: Owed(s.log, src) ==> src in s.sent || s.loop == Feed(src.kind, src.index))
  }

  lemma OwedAfter(log: seq<Event>, e: Event, src: Source)
    ensures Owed(log + [e], src) <==> e == Sent(src) || (Owed(log, src) && e != Fed(src))
  {
    var log' := log + [e];
    if e == Sent(src) {
      assert log'[|log|] == Sent(src) && log'[|log|..] == [e];
    }
    if Owed(log, src) && e != Fed(src) {
      var i :| 0 <= i < |log| && log[i] == Sent(src) && Fed(src) !in log[i..];
      assert log'[i..] == log[i..] + [e];
    }
    if Owed(log', src) && e != Sent(src) {
      var i :| 0 <= i < |log'| && log'[i] == Sent(src) && Fed(src) !in log'[i..];
      assert log'[i..] == log[i..] + [e];
      assert e in log'[i..];
    }
  }

  lemma InitialInv(s: State)
    requires Initial(s)
    ensures Inv(s)
  {
  }

  /** Replacing thread `t`'s program counter keeps every other thread where it was. */
  lemma OthersStay(senders: seq<SenderPc>, t: nat, pc: SenderPc)
    requires t < |senders|
    ensures pc in senders[t := pc]
    ensures forall q :: q in senders && q != senders[t] ==> q in senders[t := pc]
  {
    var after := senders[t := pc];
    assert after[t] == pc;
    forall q | q in senders && q != senders[t] ensures q in after {
      var i :| 0 <= i < |senders| && senders[i] == q;
      assert after[i] == q;
    }
  }

  lemma SendKeepsInv(s: State, t: nat, src: Source)
    requires Inv(s) && Enabled(s, Send(t, src))
    ensures Inv(Apply(s, Send(t, src)))
  {
    var s' := Apply(s, Send(t, src));
    OthersStay(s.senders, t, TestFlag(src.kind));
    forall q | Owed(s'.log, q) ensures q in s'.sent || s'.loop == Feed(q.kind, q.index) {
      OwedAfter(s.log, Sent(src), q);
    }
  }

  lemma SenderStepKeepsInv(s: State, t: nat)
    requires Inv(s) && Enabled(s, SenderStep(t))
    ensures Inv(Apply(s, SenderStep(t)))
  {
    var s' := StepSender(s, t);
    forall src | src in s'.sent ensures MarkAnnounced(s', src) {
      SenderStepKeepsMark(s, t, src);
    }
    forall k | k in s'.flags ensures FlagAnnounced(s', k) {
      SenderStepKeepsFlag(s, t, k);
    }
    SenderStepKeepsWatch(s, t);
  }

  lemma SenderStepKeepsWatch(s: State, t: nat)
    requires InRange(s) && t < |s.senders|
    requires s.loop == Poll(true) && s.skipped ==> TestWanted in s.senders || ClearSkipped in s.senders
    ensures var s' := StepSender(s, t);
            InRange(s') && s'.log == s.log && s'.sent == s.sent && s'.loop == s.loop &&
            (s'.loop == Poll(true) && s'.skipped ==> TestWanted in s'.senders || ClearSkipped in s'.senders)
  {
    OthersStay(s.senders, t, StepSender(s, t).senders[t]);
  }

  lemma SenderStepKeepsMark(s: State, t: nat, src: Source)
    requires t < |s.senders| && MarkAnnounced(s, src)
    ensures MarkAnnounced(StepSender(s, t), src)
  {
    OthersStay(s.senders, t, StepSender(s, t).senders[t]);
  }

  lemma SenderStepKeepsFlag(s: State, t: nat, k: Kind)
    requires t < |s.senders| && s.capacity >= 1
    requires k in s.flags ==> FlagAnnounced(s, k)
    requires k in StepSender(s, t).flags
    ensures FlagAnnounced(StepSender(s, t), k)
  {
    OthersStay(s.senders, t, StepSender(s, t).senders[t]);
  }

  lemma LoopStepKeepsInv(s: State)
    requires Inv(s) && Enabled(s, LoopStep)
    ensures Inv(StepLoop(s))
  {
    hide MarkAnnounced, FlagAnnounced, Owed;
    var s' := StepLoop(s);
    forall src | src in s'.sent ensures MarkAnnounced(s', src) {
      LoopStepKeepsMark(s, src);
    }
    forall k | k in s'.flags ensures FlagAnnounced(s', k) {
      LoopStepKeepsFlag(s, k);
    }
    forall src | Owed(s'.log, src) ensures src in s'.sent || s'.loop == Feed(src.kind, src.index) {
      if s.loop.Feed? {
        OwedAfter(s.log, Fed(Source(s.loop.kind, s.loop.index)), src);
      }
    }
  }

  lemma LoopStepKeepsMark(s: State, src: Source)
    requires Inv(s) && Enabled(s, LoopStep) && src in StepLoop(s).sent
    ensures MarkAnnounced(StepLoop(s), src)
  {
    hide FlagAnnounced, Owed;
    assert MarkAnnounced(s, src);
  }

  lemma LoopStepKeepsFlag(s: State, k: Kind)
    requires Inv(s) && Enabled(s, LoopStep) && k in StepLoop(s).flags
    ensures FlagAnnounced(StepLoop(s), k)
  {
    hide MarkAnnounced, Owed;
    assert FlagAnnounced(s, k);
  }

  lemma StepKeepsInv(s: State, a: Action)
    requires Inv(s) && Enabled(s, a)
    ensures Inv(Apply(s, a))
  {
    match a
    case Send(t, src) => SendKeepsInv(s, t, src);
    case SenderStep(t) => SenderStepKeepsInv(s, t);
    case LoopStep => LoopStepKeepsInv(s);
    case LoopNoWait => PollChoiceKeepsInv(s, a);
    case PollOther => PollChoiceKeepsInv(s, a);
    case PollInterrupted => PollChoiceKeepsInv(s, a);
  }

  lemma PollChoiceKeepsInv(s: State, a: Action)
    requires Inv(s) && Enabled(s, a) && (a.LoopNoWait? || a.PollOther? || a.PollInterrupted?)
    ensures Inv(Apply(s, a))
  {
    var s' := Apply(s, a);
    forall src | src in s'.sent ensures MarkAnnounced(s', src) {
      assert MarkAnnounced(s, src);
    }
    forall k | k in s'.flags ensures FlagAnnounced(s', k) {
      assert FlagAnnounced(s, k);
    }
  }

  lemma {:induction false} RunKeepsInv(start: State, run: seq<Action>, end: State)
    requires Inv(start) && Reaches(start, run, end)
    ensures Inv(end)
    decreases run
  {
    if run != [] {
      StepKeepsInv(start, run[0]);
      RunKeepsInv(Apply(start, run[0]), run[1..], end);
    }
  }

  // ---------- safety: no lost wake-up ----------

  /** Thread `t` is inside `evpipe_write` and, with the loop waiting, has not returned without writing. */
  predicate WillWrite(s: State, t: nat) {
    && t < |s.senders|
    && match s.senders[t]
       case Outside => false
       case TestFlag(k) => k !in s.flags
       case _ => true
  }

  /** Thread `t` running alone for `n` steps. */
  function RunAlone(s: State, t: nat, n: nat): State
    requires t < |s.senders|
    decreases n
  {
    if n == 0 || s.senders[t] == Outside then s else RunAlone(StepSender(s, t), t, n - 1)
  }

  /** In every interleaving, when the loop waits in the backend poll, a marked watcher has a
      readable pipe or a sender on its way to write it. */
  lemma NoLostWakeup(start: State, run: seq<Action>, s: State, src: Source)
    requires Initial(start) && Reaches(start, run, s)
    requires s.loop == Poll(true) && src in s.sent
    ensures s.pipe > 0 || exists t :: WillWrite(s, t)
  {
    InitialInv(start);
    RunKeepsInv(start, run, s);
    WaitingIsSafe(s, src);
  }

  lemma WaitingIsSafe(s: State, src: Source)
    requires Inv(s) && s.loop == Poll(true) && src in s.sent
    ensures s.pipe > 0 || exists t :: WillWrite(s, t)
  {
    assert MarkAnnounced(s, src);
    if src.kind in s.flags {
      assert FlagAnnounced(s, src.kind);
      if s.pipe == 0 {
        var pc :| pc in s.senders && pc in {SetSkipped, TestWanted, ClearSkipped, WritePipe};
        var t :| 0 <= t < |s.senders| && s.senders[t] == pc;
        assert WillWrite(s, t);
      }
    } else {
      var pc :| pc in s.senders && (pc == TestFlag(src.kind) || pc == SetFlag(src.kind));
      var t :| 0 <= t < |s.senders| && s.senders[t] == pc;
      assert WillWrite(s, t);
    }
  }

  function StepsToWrite(pc: SenderPc): nat {
    match pc
    case Outside => 7
    case TestFlag(_) => 6
    case SetFlag(_) => 5
    case SetSkipped => 4
    case TestWanted => 3
    case ClearSkipped => 2
    case WritePipe => 1
  }

  /** `WillWrite` means what it says: left to itself the sender makes the pipe readable
      within six steps. */
  lemma {:induction false} WillWriteWrites(s: State, t: nat, n: nat)
    requires Inv(s) && s.loop == Poll(true) && WillWrite(s, t)
    requires n >= StepsToWrite(s.senders[t])
    ensures RunAlone(s, t, n).pipe > 0
    ensures RunAlone(s, t, n).loop == Poll(true)
    decreases n
  {
    var s' := StepSender(s, t);
    SenderStepKeepsInv(s, t);
    if s.senders[t] == WritePipe {
      assert RunAlone(s', t, n - 1) == s';
    } else {
      WillWriteWrites(s', t, n - 1);
    }
  }

  /** Once every sender has returned, a waiting loop with a marked watcher has a readable pipe:
      it cannot sleep through a completed send. */
  lemma CompletedSendsWake(start: State, run: seq<Action>, s: State, src: Source)
    requires Initial(start) && Reaches(start, run, s)
    requires s.loop == Poll(true) && Owed(s.log, src)
    requires Quiet(s)
    ensures s.pipe > 0
  {
    InitialInv(start);
    RunKeepsInv(start, run, s);
    WaitingIsSafe(s, src);
  }

  // ---------- progress: every completed send is fed ----------

  predicate Quiet(s: State) {
    forall t :: 0 <= t < |s.senders| ==> s.senders[t] == Outside
  }

  /** The iteration the loop is in reaches the scan of `src`. */
  predicate FedThisRound(s: State, src: Source) {
    || YetToScan(s.loop, src)
    || s.loop == Feed(src.kind, src.index)
    || (src.kind in s.flags &&
        (|| BeforeFlag(s.loop, src.kind)
         || s.pending
         || ((s.loop.ArmWanted? || s.loop.TestSkipped? || s.loop.Poll?) && (s.skipped || s.pipe > 0))
         || ((s.loop.DisarmWanted? || s.loop.RecheckSkipped?) && s.skipped)))
  }

  /** An upper bound on the steps from `pc` to the end of the iteration. */
  function Distance(signals: nat, asyncs: nat, pending: bool, pc: LoopPc): nat {
    match pc
    case Scan(k, left) => 3 * left + 1 + AfterScan(asyncs, k)
    case Feed(k, i) => 3 * i + 2 + AfterScan(asyncs, k)
    case Take(k, i) => 3 * i + 3 + AfterScan(asyncs, k)
    case ClearKind(k) => 3 * (if k == Signal then signals else asyncs) + 2 + AfterScan(asyncs, k)
    case TestKind(k) => 3 * (if k == Signal then signals else asyncs) + 3 + AfterScan(asyncs, k)
    case ResetSkipped => 3 * signals + 4 + AfterScan(asyncs, Signal)
    case ReadPipe => 3 * signals + 5 + AfterScan(asyncs, Signal)
    case InvokePending => if pending then 3 * signals + 6 + AfterScan(asyncs, Signal) else 1
    case RecheckSkipped => 3 * signals + 7 + AfterScan(asyncs, Signal)
    case DisarmWanted => 3 * signals + 8 + AfterScan(asyncs, Signal)
    case Poll(_) => 3 * signals + 9 + AfterScan(asyncs, Signal)
    case TestSkipped => 3 * signals + 10 + AfterScan(asyncs, Signal)
    case ArmWanted => 3 * signals + 11 + AfterScan(asyncs, Signal)
  }

  function AfterScan(asyncs: nat, k: Kind): nat {
    match k
    case Signal => 3 * asyncs + 4
    case Async => 1
  }

  function Rank(s: State, src: Source): nat {
    Distance(s.signals, s.asyncs, s.pending, s.loop) +
    if FedThisRound(s, src) then 0 else Distance(s.signals, s.asyncs, s.pending, ArmWanted) + 1
  }

  /** With all senders returned, the loop is never stuck while a send is owed, and each step
      feeds it or comes closer to feeding it. */
  lemma LoopStepDelivers(s: State, src: Source)
    requires Inv(s) && Quiet(s) && Owed(s.log, src)
    ensures Enabled(s, LoopStep)
    ensures var s' := StepLoop(s);
            Inv(s') && Quiet(s') &&
            (s'.log == s.log + [Fed(src)] || (Owed(s'.log, src) && Rank(s', src) < Rank(s, src)))
  {
    if s.loop == Poll(true) {
      WaitingIsSafe(s, src);
    }
    LoopStepKeepsInv(s);
    var s' := StepLoop(s);
    if s.loop.Feed? {
      OwedAfter(s.log, Fed(Source(s.loop.kind, s.loop.index)), src);
    }
    assert src in s.sent ==> MarkAnnounced(s, src);
    assert src.kind in s.flags ==> FlagAnnounced(s, src.kind);
    if s'.log != s.log + [Fed(src)] {
      OwedProgress(s, src);
    }
  }

  lemma OwedProgress(s: State, src: Source)
    requires Inv(s) && Quiet(s) && Owed(s.log, src) && Enabled(s, LoopStep)
    requires s.loop != Feed(src.kind, src.index)
    ensures Rank(StepLoop(s), src) < Rank(s, src)
  {
    assert src in s.sent;
    assert MarkAnnounced(s, src);
    assert src.kind in s.flags ==> FlagAnnounced(s, src.kind);
    DistanceDrops(s);
    if FedThisRound(s, src) {
      RoundStays(s, src);
    } else {
      assert StepLoop(s).loop.ArmWanted? ==> FedThisRound(StepLoop(s), src);
    }
  }

  lemma RoundStays(s: State, src: Source)
    requires InRange(s) && Enabled(s, LoopStep) && src in s.sent && src.index < Count(s, src.kind)
    requires s.loop != Feed(src.kind, src.index)
    requires FedThisRound(s, src)
    ensures FedThisRound(StepLoop(s), src)
  {
  }

  lemma DistanceDrops(s: State)
    requires InRange(s) && Enabled(s, LoopStep)
    ensures var s' := StepLoop(s);
            s'.signals == s.signals && s'.asyncs == s.asyncs &&
            (s'.loop.ArmWanted? ||
             Distance(s.signals, s.asyncs, s'.pending, s'.loop) < Distance(s.signals, s.asyncs, s.pending, s.loop))
  {
    if s.loop.TestKind? || s.loop.ClearKind? || s.loop.Scan? || s.loop.Take? || s.loop.Feed? {
      ScanDistanceDrops(s);
    }
  }

  lemma ScanDistanceDrops(s: State)
    requires InRange(s)
    requires s.loop.TestKind? || s.loop.ClearKind? || s.loop.Scan? || s.loop.Take? || s.loop.Feed?
    ensures var s' := StepLoop(s);
            s'.signals == s.signals && s'.asyncs == s.asyncs && s'.pending == s.pending &&
            Distance(s.signals, s.asyncs, s.pending, s'.loop) < Distance(s.signals, s.asyncs, s.pending, s.loop)
  {
    if s.loop.Scan? && s.loop.left == 0 {
    } else if s.loop.Scan? {
    } else if s.loop.TestKind? {
    } else {
    }
  }

  /** From any state without a sender inside `evpipe_write`, the loop alone feeds each owed watcher
      within a bounded number of its steps. */
  lemma {:induction false} Deliver(s: State, src: Source) returns (rest: seq<Action>, end: State)
    requires Inv(s) && Quiet(s) && Owed(s.log, src)
    ensures |rest| <= Rank(s, src) + 1 && forall a :: a in rest ==> a == LoopStep
    ensures Reaches(s, rest, end)
    ensures s.log <= end.log && Fed(src) in end.log[|s.log|..] && !Owed(end.log, src)
    decreases Rank(s, src)
  {
    LoopStepDelivers(s, src);
    var s' := StepLoop(s);
    if s'.log == s.log + [Fed(src)] {
      rest, end := [LoopStep], s';
      assert rest[1..] == [];
      assert Reaches(s', [], end);
      OwedAfter(s.log, Fed(src), src);
    } else {
      LogGrows(s);
      var rest';
      rest', end := Deliver(s', src);
      rest := [LoopStep] + rest';
      assert rest[1..] == rest';
      SuffixOf(s.log, s'.log, end.log, Fed(src));
    }
  }

  lemma LogGrows(s: State)
    requires Enabled(s, LoopStep)
    ensures s.log <= StepLoop(s).log
  {
  }

  lemma SuffixOf(a: seq<Event>, b: seq<Event>, c: seq<Event>, e: Event)
    requires a <= b <= c && e in c[|b|..]
    ensures e in c[|a|..]
  {
    assert c[|b|..] == c[|a|..][|b| - |a|..];
  }

  // ---------- progress while senders run on: every send of every fair run is fed ----------

  /** The iteration the loop is in will feed `src`: a feed is decided on, or the mark will be seen. */
  predicate InHand(s: State, src: Source) {
    || s.loop == Feed(src.kind, src.index)
    || (src in s.sent &&
        (YetToScan(s.loop, src) || (src.kind in s.flags && (s.pending || BeforeFlag(s.loop, src.kind)))))
  }

  /** The loop will come to feed `src` whatever the senders do: it has it in hand, or the flag is up
      and the pipe is readable. */
  predicate Secured(s: State, src: Source) {
    InHand(s, src) || (src in s.sent && src.kind in s.flags && s.pipe > 0)
  }

  predicate Feeds(s: State, a: Action, src: Source) {
    a == LoopStep && s.loop == Feed(src.kind, src.index)
  }

  lemma InHandKept(s: State, a: Action, src: Source)
    requires Inv(s) && Enabled(s, a) && InHand(s, src) && !Feeds(s, a, src)
    ensures InHand(Apply(s, a), src)
  {
  }

  /** Every step of anyone keeps a secured watcher secured, up to the one that feeds it. */
  lemma SecuredKept(s: State, a: Action, src: Source)
    requires Inv(s) && Enabled(s, a) && Secured(s, src) && !Feeds(s, a, src)
    ensures Secured(Apply(s, a), src)
  {
    if InHand(s, src) {
      InHandKept(s, a, src);
    }
  }

  lemma OwedKept(s: State, a: Action, src: Source)
    requires Inv(s) && Enabled(s, a) && Owed(s.log, src) && !Feeds(s, a, src)
    ensures Owed(Apply(s, a).log, src)
  {
    match a
    case Send(_, q) => OwedAfter(s.log, Sent(q), src);
    case LoopStep =>
      if s.loop.Feed? {
        OwedAfter(s.log, Fed(Source(s.loop.kind, s.loop.index)), src);
      }
    case _ =>
  }

  /** With `src` secured: the iteration the loop is in still comes to feed it. */
  predicate ThisRound(s: State, src: Source) {
    InHand(s, src) || s.loop.ArmWanted? || s.loop.TestSkipped? || s.loop.Poll?
  }

  /** A bound on the loop steps that are left until `src` is fed. */
  function StepsAhead(s: State, src: Source): nat {
    Distance(s.signals, s.asyncs, s.pending, s.loop) +
    if ThisRound(s, src) then 0 else Distance(s.signals, s.asyncs, s.pending, ArmWanted) + 1
  }

  /** Unless a poll is interrupted, no step leads away from the feed, and each loop step leads closer. */
  lemma SecuredStepCloser(s: State, a: Action, src: Source)
    requires Inv(s) && Enabled(s, a) && Secured(s, src) && !Feeds(s, a, src) && !a.PollInterrupted?
    ensures StepsAhead(Apply(s, a), src) <= StepsAhead(s, src)
    ensures a == LoopStep ==> StepsAhead(Apply(s, a), src) < StepsAhead(s, src)
  {
    if InHand(s, src) {
      InHandKept(s, a, src);
    }
    if a == LoopStep {
      DistanceDrops(s);
      var s' := StepLoop(s);
      assert s'.loop.ArmWanted? ==> !InHand(s, src);
    }
  }

  function LoopSteps(run: seq<Action>): nat {
    if run == [] then 0 else (if run[0] == LoopStep then 1 else 0) + LoopSteps(run[1..])
  }

  /** A secured watcher is fed by every run with enough loop steps in which no poll is interrupted,
      wherever the senders are and whatever else they send. */
  lemma {:induction false} SecuredRunDelivers(s: State, run: seq<Action>, end: State, src: Source)
    requires Inv(s) && Secured(s, src) && Reaches(s, run, end)
    requires PollInterrupted !in run && LoopSteps(run) > StepsAhead(s, src)
    ensures s.log <= end.log && Fed(src) in end.log[|s.log|..]
    decreases run
  {
    hide Inv, Secured, StepsAhead;
    var a, s' := run[0], Apply(s, run[0]);
    StepKeepsInv(s, a);
    ApplyGrows(s, a);
    if Feeds(s, a, src) {
      RunGrows(s', run[1..], end);
      assert s'.log == s.log + [Fed(src)] && end.log[|s.log|] == Fed(src);
    } else {
      SecuredKept(s, a, src);
      SecuredStepCloser(s, a, src);
      SecuredRunDelivers(s', run[1..], end, src);
      SuffixOf(s.log, s'.log, end.log, Fed(src));
    }
  }

  lemma ApplyGrows(s: State, a: Action)
    requires Enabled(s, a)
    ensures s.log <= Apply(s, a).log
  {
  }

  lemma {:induction false} RunGrows(s: State, run: seq<Action>, end: State)
    requires Reaches(s, run, end)
    ensures s.log <= end.log
    decreases run
  {
    if run != [] {
      ApplyGrows(s, run[0]);
      RunGrows(Apply(s, run[0]), run[1..], end);
    }
  }

  /** An endless run: the states, and the action taken in each. */
  datatype Endless = Endless(at: nat -> State, act: nat -> Action)

  ghost predicate IsRun(r: Endless) {
    && Initial(r.at(0))
    && forall n: nat :: Enabled(r.at(n), r.act(n)) && r.at(n + 1) == Apply(r.at(n), r.act(n))
  }

  /** The loop waits with nothing to read, or a poll returns without being interrupted. */
  predicate PollTurn(s: State, a: Action) {
    !Enabled(s, LoopStep) || (s.loop.Poll? && a == LoopStep)
  }

  /** Who is inside `evpipe_write` goes on at some time, and the loop does so unless it waits; it is not
      interrupted in each of its polls for ever. */
  ghost predicate Fair(r: Endless) {
    && (forall n: nat, t: nat :: t < |r.at(n).senders| && r.at(n).senders[t] != Outside ==> SteppedLater(r, n, t))
    && (forall n: nat :: TurnLater(r, n))
  }

  ghost predicate SteppedLater(r: Endless, n: nat, t: nat) {
    exists m: nat :: n <= m && r.act(m) == SenderStep(t)
  }

  ghost predicate TurnLater(r: Endless, n: nat) {
    exists m: nat :: n <= m && PollTurn(r.at(m), r.act(m))
  }

  lemma {:induction false} RunInv(r: Endless, n: nat)
    requires IsRun(r)
    ensures Inv(r.at(n))
    decreases n
  {
    if n == 0 {
      InitialInv(r.at(0));
    } else {
      RunInv(r, n - 1);
      StepKeepsInv(r.at(n - 1), r.act(n - 1));
    }
  }

  lemma RunStep(r: Endless, n: nat)
    requires IsRun(r)
    ensures Inv(r.at(n)) && Enabled(r.at(n), r.act(n)) && r.at(n + 1) == Apply(r.at(n), r.act(n))
  {
    RunInv(r, n);
  }

  lemma Turn(r: Endless, n: nat) returns (m: nat)
    requires IsRun(r) && Fair(r)
    ensures n <= m && PollTurn(r.at(m), r.act(m))
  {
    assert TurnLater(r, n);
    m :| n <= m && PollTurn(r.at(m), r.act(m));
  }

  lemma Stepped(r: Endless, n: nat, t: nat, pc: SenderPc) returns (m: nat)
    requires IsRun(r) && Fair(r) && Next(r.at(n), t, pc) && pc != Outside
    ensures n <= m && r.act(m) == SenderStep(t)
  {
    assert SteppedLater(r, n, t);
    m :| n <= m && r.act(m) == SenderStep(t);
  }

  /** `p` holds from `n` up to `m` unless `q` holds in between or `src` is fed. */
  lemma {:induction false} Until(r: Endless, p: State -> bool, q: State -> bool, src: Source, n: nat, m: nat)
    returns (k: nat)
    requires IsRun(r) && n <= m && p(r.at(n))
    requires forall i: nat :: n <= i < m && p(r.at(i)) && !Feeds(r.at(i), r.act(i), src) ==>
               p(r.at(i + 1)) || q(r.at(i + 1))
    ensures n <= k <= m
    ensures (k == m && p(r.at(m))) || (n < k && q(r.at(k))) || (k < m && Feeds(r.at(k), r.act(k), src))
    decreases m - n
  {
    k := n;
    if n < m && !Feeds(r.at(n), r.act(n), src) {
      k := n + 1;
      if !q(r.at(n + 1)) {
        k := Until(r, p, q, src, n + 1, m);
      }
    }
  }

  /** In a fair run a watcher in hand is fed: the loop cannot come to its next poll before. */
  lemma InHandIsFed(r: Endless, n: nat, src: Source) returns (k: nat)
    requires IsRun(r) && Fair(r) && InHand(r.at(n), src)
    ensures n <= k && Feeds(r.at(k), r.act(k), src)
  {
    hide IsRun, Fair, Apply, Enabled, Feeds, Inv, InHand;
    var p := (s: State) => InHand(s, src);
    var never := (s: State) => false;
    var m := Turn(r, n);
    forall i: nat | n <= i < m && p(r.at(i)) && !Feeds(r.at(i), r.act(i), src) ensures p(r.at(i + 1)) {
      RunStep(r, i);
      InHandKept(r.at(i), r.act(i), src);
    }
    k := Until(r, p, never, src, n, m);
    if k == m && InHand(r.at(m), src) {
      RunStep(r, m);
      NoPollInHand(r.at(m), r.act(m), src);
    }
  }

  lemma NoPollInHand(s: State, a: Action, src: Source)
    requires Inv(s) && InHand(s, src)
    ensures !PollTurn(s, a)
  {
  }

  lemma SecuredIsFed(r: Endless, n: nat, src: Source) returns (k: nat)
    requires IsRun(r) && Fair(r) && Secured(r.at(n), src)
    ensures n <= k && Feeds(r.at(k), r.act(k), src)
  {
    hide IsRun, Fair, Apply, Enabled, Feeds, Inv, Secured, InHand;
    var p := (s: State) => Secured(s, src);
    var never := (s: State) => false;
    var m := Turn(r, n);
    forall i: nat | n <= i < m && p(r.at(i)) && !Feeds(r.at(i), r.act(i), src) ensures p(r.at(i + 1)) {
      RunStep(r, i);
      SecuredKept(r.at(i), r.act(i), src);
    }
    k := Until(r, p, never, src, n, m);
    if k == m && Secured(r.at(m), src) {
      RunStep(r, m);
      SecuredTurn(r.at(m), r.act(m), src);
      k := InHandIsFed(r, m + 1, src);
    }
  }

  lemma SecuredTurn(s: State, a: Action, src: Source)
    requires Inv(s) && Enabled(s, a) && Secured(s, src) && PollTurn(s, a)
    ensures InHand(Apply(s, a), src)
  {
  }

  // ---------- from the send to the readable pipe ----------

  /** The watcher is waited for and its flag is up. */
  predicate Raised(s: State, src: Source) {
    Owed(s.log, src) && src.kind in s.flags
  }

  /** Thread `t` is next to do `pc`. */
  predicate Next(s: State, t: nat, pc: SenderPc) {
    t < |s.senders| && s.senders[t] == pc
  }

  predicate WriterOrSecured(s: State, src: Source) {
    Secured(s, src) || (Raised(s, src) && WritePipe in s.senders)
  }

  /** A poll just returned while a wake-up is recorded as skipped. */
  predicate Rechecking(s: State, src: Source) {
    Raised(s, src) && s.skipped && (s.loop.DisarmWanted? || s.loop.RecheckSkipped?)
  }

  /** The loop waits while thread `t` is about to take back that the wake-up was skipped. */
  predicate Waking(s: State, t: nat, pc: SenderPc, src: Source) {
    Raised(s, src) && s.skipped && s.loop == Poll(true) && Next(s, t, pc)
  }

  lemma OwedIsMarked(s: State, src: Source)
    requires Inv(s) && Owed(s.log, src)
    ensures src in s.sent || s.loop == Feed(src.kind, src.index)
  {
  }

  /** A raised flag stays up until the watcher is secured. */
  lemma RaisedKept(s: State, a: Action, src: Source)
    requires Inv(s) && Enabled(s, a) && Raised(s, src) && !Feeds(s, a, src)
    ensures Raised(Apply(s, a), src) || Secured(Apply(s, a), src)
  {
    OwedIsMarked(s, src);
    if Secured(s, src) {
      SecuredKept(s, a, src);
    } else {
      OwedKept(s, a, src);
    }
  }

  lemma NextKept(s: State, a: Action, t: nat, pc: SenderPc)
    requires Enabled(s, a) && Next(s, t, pc) && pc != Outside && a != SenderStep(t)
    ensures Next(Apply(s, a), t, pc)
  {
  }

  lemma InSenders(s: State, t: nat, pc: SenderPc)
    requires Next(s, t, pc)
    ensures pc in s.senders
  {
  }

  lemma WriterStep(s: State, a: Action, t: nat, src: Source)
    requires Inv(s) && Enabled(s, a) && Raised(s, src) && Next(s, t, WritePipe) && !Feeds(s, a, src)
    ensures var s' := Apply(s, a);
            Secured(s', src) || (a != SenderStep(t) && Raised(s', src) && Next(s', t, WritePipe))
  {
    RaisedKept(s, a, src);
    OwedIsMarked(s, src);
    if a == SenderStep(t) {
      StepKeepsInv(s, a);
      OwedKept(s, a, src);
      OwedIsMarked(Apply(s, a), src);
    } else {
      NextKept(s, a, t, WritePipe);
    }
  }

  lemma SkipperStep(s: State, a: Action, t: nat, src: Source)
    requires Inv(s) && Enabled(s, a) && Raised(s, src) && Next(s, t, SetSkipped) && !Feeds(s, a, src)
    ensures var s' := Apply(s, a);
            Secured(s', src) || (Raised(s', src) && if a == SenderStep(t) then s'.skipped else Next(s', t, SetSkipped))
  {
    RaisedKept(s, a, src);
    if a != SenderStep(t) {
      NextKept(s, a, t, SetSkipped);
    }
  }

  /** A skipped wake-up is remembered until the loop looks, or a sender sets out to write instead. */
  lemma SkippedStep(s: State, a: Action, src: Source)
    requires Inv(s) && Enabled(s, a) && Raised(s, src) && s.skipped && !Feeds(s, a, src)
    ensures var s' := Apply(s, a); WriterOrSecured(s', src) || (Raised(s', src) && s'.skipped)
    ensures var s' := Apply(s, a); Rechecking(s, src) ==> WriterOrSecured(s', src) || Rechecking(s', src)
    ensures var s' := Apply(s, a); s.loop.Poll? && a == LoopStep ==> WriterOrSecured(s', src) || Rechecking(s', src)
  {
    RaisedKept(s, a, src);
    OwedIsMarked(s, src);
    if a.SenderStep? && s.senders[a.thread] == ClearSkipped {
      InSenders(Apply(s, a), a.thread, WritePipe);
    }
  }

  lemma WakingStep(s: State, a: Action, t: nat, pc: SenderPc, src: Source)
    requires Inv(s) && Enabled(s, a) && Waking(s, t, pc, src) && (pc == TestWanted || pc == ClearSkipped) &&
             !Feeds(s, a, src)
    ensures var s' := Apply(s, a);
            || WriterOrSecured(s', src) || Rechecking(s', src)
            || (a != SenderStep(t) && Waking(s', t, pc, src))
            || (pc == TestWanted && Waking(s', t, ClearSkipped, src))
  {
    hide Secured;
    SkippedStep(s, a, src);
    if a != SenderStep(t) {
      NextKept(s, a, t, pc);
    }
  }

  lemma WriterDelivers(r: Endless, n: nat, t: nat, src: Source) returns (k: nat)
    requires IsRun(r) && Fair(r) && Raised(r.at(n), src) && Next(r.at(n), t, WritePipe)
    ensures n <= k && Feeds(r.at(k), r.act(k), src)
  {
    hide IsRun, Fair, Apply, Enabled, Feeds, Inv, Secured, Raised, Next;
    var p := (s: State) => Raised(s, src) && Next(s, t, WritePipe);
    var q := (s: State) => Secured(s, src);
    var m := Stepped(r, n, t, WritePipe);
    forall i: nat | n <= i <= m && p(r.at(i)) && !Feeds(r.at(i), r.act(i), src)
      ensures q(r.at(i + 1)) || (i < m && p(r.at(i + 1)))
    {
      RunStep(r, i);
      WriterStep(r.at(i), r.act(i), t, src);
    }
    k := Until(r, p, q, src, n, m);
    if !Feeds(r.at(k), r.act(k), src) {
      k := SecuredIsFed(r, if q(r.at(k)) then k else m + 1, src);
    }
  }

  lemma WriterOrSecuredDelivers(r: Endless, n: nat, src: Source) returns (k: nat)
    requires IsRun(r) && Fair(r) && WriterOrSecured(r.at(n), src)
    ensures n <= k && Feeds(r.at(k), r.act(k), src)
  {
    if Secured(r.at(n), src) {
      k := SecuredIsFed(r, n, src);
    } else {
      var t :| 0 <= t < |r.at(n).senders| && r.at(n).senders[t] == WritePipe;
      k := WriterDelivers(r, n, t, src);
    }
  }

  lemma RecheckingNoTurn(s: State, a: Action, src: Source)
    ensures Rechecking(s, src) ==> !PollTurn(s, a)
  {
  }

  lemma RecheckingDelivers(r: Endless, n: nat, src: Source) returns (k: nat)
    requires IsRun(r) && Fair(r) && Rechecking(r.at(n), src)
    ensures n <= k && Feeds(r.at(k), r.act(k), src)
  {
    hide IsRun, Fair, Apply, Enabled, Feeds, Inv, Raised, WriterOrSecured;
    var p := (s: State) => Rechecking(s, src);
    var q := (s: State) => WriterOrSecured(s, src);
    var m := Turn(r, n);
    forall i: nat | n <= i < m && p(r.at(i)) && !Feeds(r.at(i), r.act(i), src)
      ensures p(r.at(i + 1)) || q(r.at(i + 1))
    {
      RunStep(r, i);
      SkippedStep(r.at(i), r.act(i), src);
    }
    k := Until(r, p, q, src, n, m);
    RecheckingNoTurn(r.at(m), r.act(m), src);
    if !Feeds(r.at(k), r.act(k), src) {
      k := WriterOrSecuredDelivers(r, k, src);
    }
  }

  lemma WakingDelivers(r: Endless, n: nat, t: nat, pc: SenderPc, src: Source) returns (k: nat)
    requires IsRun(r) && Fair(r) && Waking(r.at(n), t, pc, src) && (pc == TestWanted || pc == ClearSkipped)
    ensures n <= k && Feeds(r.at(k), r.act(k), src)
    decreases pc == TestWanted
  {
    hide IsRun, Fair, Apply, Enabled, Feeds, Inv, Raised, WriterOrSecured, Rechecking;
    var p := (s: State) => Waking(s, t, pc, src);
    var next := (s: State) => pc == TestWanted && Waking(s, t, ClearSkipped, src);
    var q := (s: State) => WriterOrSecured(s, src) || Rechecking(s, src) || next(s);
    var m := Stepped(r, n, t, pc);
    forall i: nat | n <= i <= m && p(r.at(i)) && !Feeds(r.at(i), r.act(i), src)
      ensures q(r.at(i + 1)) || (i < m && p(r.at(i + 1)))
    {
      RunStep(r, i);
      WakingStep(r.at(i), r.act(i), t, pc, src);
    }
    k := Until(r, p, q, src, n, m);
    if !Feeds(r.at(k), r.act(k), src) {
      var j := if q(r.at(k)) then k else m + 1;
      if WriterOrSecured(r.at(j), src) {
        k := WriterOrSecuredDelivers(r, j, src);
      } else if Rechecking(r.at(j), src) {
        k := RecheckingDelivers(r, j, src);
      } else {
        k := WakingDelivers(r, j, t, ClearSkipped, src);
      }
    }
  }

  lemma SkippedDelivers(r: Endless, n: nat, src: Source) returns (k: nat)
    requires IsRun(r) && Fair(r) && Raised(r.at(n), src) && r.at(n).skipped
    ensures n <= k && Feeds(r.at(k), r.act(k), src)
  {
    hide IsRun, Fair, Apply, Enabled, Feeds, Inv, Raised, WriterOrSecured, Rechecking;
    var p := (s: State) => Raised(s, src) && s.skipped;
    var q := (s: State) => WriterOrSecured(s, src);
    var m := Turn(r, n);
    forall i: nat | n <= i < m && p(r.at(i)) && !Feeds(r.at(i), r.act(i), src)
      ensures p(r.at(i + 1)) || q(r.at(i + 1))
    {
      RunStep(r, i);
      SkippedStep(r.at(i), r.act(i), src);
    }
    k := Until(r, p, q, src, n, m);
    if !Feeds(r.at(k), r.act(k), src) {
      if q(r.at(k)) {
        k := WriterOrSecuredDelivers(r, k, src);
      } else {
        k := SkippedTurn(r, m, src);
      }
    }
  }

  /** A loop that waits although something was skipped is about to be woken. */
  lemma WaitingIsWoken(s: State, src: Source) returns (t: nat, pc: SenderPc)
    requires Inv(s) && Raised(s, src) && s.skipped && !Enabled(s, LoopStep)
    ensures Waking(s, t, pc, src) && (pc == TestWanted || pc == ClearSkipped)
  {
    hide Raised, MarkAnnounced, FlagAnnounced, Owed;
    pc :| pc in s.senders && (pc == TestWanted || pc == ClearSkipped);
    t :| 0 <= t < |s.senders| && s.senders[t] == pc;
  }

  /** At the poll: it returns, or whoever set `skipped` while the loop waits is about to wake it. */
  lemma SkippedTurn(r: Endless, m: nat, src: Source) returns (k: nat)
    requires IsRun(r) && Fair(r) && Raised(r.at(m), src) && r.at(m).skipped && PollTurn(r.at(m), r.act(m))
    ensures m <= k && Feeds(r.at(k), r.act(k), src)
  {
    hide IsRun, Fair, Apply, Inv, Raised, Waking, WriterOrSecured, Rechecking;
    RunStep(r, m);
    if Enabled(r.at(m), LoopStep) {
      SkippedStep(r.at(m), LoopStep, src);
      if WriterOrSecured(r.at(m + 1), src) {
        k := WriterOrSecuredDelivers(r, m + 1, src);
      } else {
        k := RecheckingDelivers(r, m + 1, src);
      }
    } else {
      var t, pc := WaitingIsWoken(r.at(m), src);
      k := WakingDelivers(r, m, t, pc, src);
    }
  }

  lemma SkipperDelivers(r: Endless, n: nat, t: nat, src: Source) returns (k: nat)
    requires IsRun(r) && Fair(r) && Raised(r.at(n), src) && Next(r.at(n), t, SetSkipped)
    ensures n <= k && Feeds(r.at(k), r.act(k), src)
  {
    hide IsRun, Fair, Apply, Enabled, Feeds, Inv, Secured, Raised, Next;
    var p := (s: State) => Raised(s, src) && Next(s, t, SetSkipped);
    var q := (s: State) => Secured(s, src) || (Raised(s, src) && s.skipped);
    var m := Stepped(r, n, t, SetSkipped);
    forall i: nat | n <= i <= m && p(r.at(i)) && !Feeds(r.at(i), r.act(i), src)
      ensures q(r.at(i + 1)) || (i < m && p(r.at(i + 1)))
    {
      RunStep(r, i);
      SkipperStep(r.at(i), r.act(i), t, src);
    }
    k := Until(r, p, q, src, n, m);
    if !Feeds(r.at(k), r.act(k), src) {
      var j := if q(r.at(k)) then k else m + 1;
      if Secured(r.at(j), src) {
        k := SecuredIsFed(r, j, src);
      } else {
        k := SkippedDelivers(r, j, src);
      }
    }
  }

  /** Who is about to wake the loop when nothing is recorded yet. */
  lemma WhoSkips(s: State, src: Source) returns (t: nat)
    requires Inv(s) && Raised(s, src) && !Secured(s, src) && !s.skipped
    ensures Next(s, t, SetSkipped) || Next(s, t, WritePipe)
  {
    OwedIsMarked(s, src);
    assert FlagAnnounced(s, src.kind);
    t :| t < |s.senders| && (s.senders[t] == SetSkipped || s.senders[t] == WritePipe);
  }

  lemma RaisedDelivers(r: Endless, n: nat, src: Source) returns (k: nat)
    requires IsRun(r) && Fair(r) && Raised(r.at(n), src)
    ensures n <= k && Feeds(r.at(k), r.act(k), src)
  {
    hide IsRun, Fair, Apply, Enabled, Feeds, Inv, Raised, Secured, Next;
    var s := r.at(n);
    RunStep(r, n);
    if Secured(s, src) {
      k := SecuredIsFed(r, n, src);
    } else if s.skipped {
      k := SkippedDelivers(r, n, src);
    } else {
      var t := WhoSkips(s, src);
      if Next(s, t, SetSkipped) {
        k := SkipperDelivers(r, n, t, src);
      } else {
        k := WriterDelivers(r, n, t, src);
      }
    }
  }

  lemma RaiserStep(s: State, a: Action, t: nat, pc: SenderPc, src: Source)
    requires Inv(s) && Enabled(s, a) && Owed(s.log, src) && Next(s, t, pc) && !Feeds(s, a, src)
    requires pc == TestFlag(src.kind) || pc == SetFlag(src.kind)
    ensures var s' := Apply(s, a);
            && Owed(s'.log, src)
            && if a != SenderStep(t) then Next(s', t, pc)
               else src.kind in s'.flags || (pc.TestFlag? && Next(s', t, SetFlag(src.kind)))
  {
    OwedKept(s, a, src);
    if a != SenderStep(t) {
      NextKept(s, a, t, pc);
    }
  }

  /** A sender that is to raise the flag raises it, unless someone else did. */
  lemma RaiserDelivers(r: Endless, n: nat, t: nat, pc: SenderPc, src: Source) returns (k: nat)
    requires IsRun(r) && Fair(r) && Owed(r.at(n).log, src) && Next(r.at(n), t, pc)
    requires pc == TestFlag(src.kind) || pc == SetFlag(src.kind)
    ensures n <= k && Feeds(r.at(k), r.act(k), src)
    decreases pc.TestFlag?
  {
    hide IsRun, Fair, Apply, Enabled, Feeds, Inv, Owed, Next;
    var p := (s: State) => Owed(s.log, src) && Next(s, t, pc);
    var q := (s: State) => Raised(s, src) || (pc.TestFlag? && Owed(s.log, src) && Next(s, t, SetFlag(src.kind)));
    var m := Stepped(r, n, t, pc);
    forall i: nat | n <= i <= m && p(r.at(i)) && !Feeds(r.at(i), r.act(i), src)
      ensures q(r.at(i + 1)) || (i < m && p(r.at(i + 1)))
    {
      RunStep(r, i);
      RaiserStep(r.at(i), r.act(i), t, pc, src);
    }
    k := Until(r, p, q, src, n, m);
    if !Feeds(r.at(k), r.act(k), src) {
      var j := if q(r.at(k)) then k else m + 1;
      if Raised(r.at(j), src) {
        k := RaisedDelivers(r, j, src);
      } else {
        k := RaiserDelivers(r, j, t, SetFlag(src.kind), src);
      }
    }
  }

  lemma WhoRaises(s: State, src: Source) returns (t: nat)
    requires Inv(s) && Owed(s.log, src) && !Secured(s, src) && src.kind !in s.flags
    ensures Next(s, t, TestFlag(src.kind)) || Next(s, t, SetFlag(src.kind))
  {
    OwedIsMarked(s, src);
    assert MarkAnnounced(s, src);
    t :| t < |s.senders| && (s.senders[t] == TestFlag(src.kind) || s.senders[t] == SetFlag(src.kind));
  }

  lemma FeedsLogs(s: State, a: Action, src: Source)
    requires Feeds(s, a, src) && Enabled(s, a)
    ensures a == LoopStep && Apply(s, a).log == s.log + [Fed(src)]
  {
  }

  /** In every fair interleaving, with senders anywhere in `evpipe_write` and sending on, a watcher that
      was sent to is fed. */
  lemma EverySendIsFed(r: Endless, n: nat, src: Source) returns (k: nat)
    requires IsRun(r) && Fair(r) && Owed(r.at(n).log, src)
    ensures n <= k && r.act(k) == LoopStep && r.at(k + 1).log == r.at(k).log + [Fed(src)]
  {
    hide IsRun, Fair, Apply, Enabled, Feeds, Inv, Owed, Secured, Next;
    var s := r.at(n);
    RunStep(r, n);
    if Secured(s, src) {
      k := SecuredIsFed(r, n, src);
    } else if src.kind in s.flags {
      k := RaisedDelivers(r, n, src);
    } else {
      var t := WhoRaises(s, src);
      var pc := if Next(s, t, TestFlag(src.kind)) then TestFlag(src.kind) else SetFlag(src.kind);
      k := RaiserDelivers(r, n, t, pc, src);
    }
    RunStep(r, k);
    FeedsLogs(r.at(k), r.act(k), src);
  }

  // ---------- no spurious wake-up ----------

  /** How often `e` was logged. */
  function Times(log: seq<Event>, e: Event): nat {
    if log == [] then 0
    else Times(log[..|log| - 1], e) + if log[|log| - 1] == e then 1 else 0
  }

  /** The mark on `src` and a feed of `src` already decided on. */
  function Outstanding(s: State, src: Source): nat {
    (if src in s.sent then 1 else 0) + (if s.loop == Feed(src.kind, src.index) then 1 else 0)
  }

  predicate FeedsPaidFor(s: State, src: Source) {
    && (s.loop.Take? ==> Source(s.loop.kind, s.loop.index) in s.sent)
    && Times(s.log, Fed(src)) + Outstanding(s, src) <= Times(s.log, Sent(src))
  }

  lemma TimesAfter(log: seq<Event>, e: Event, x: Event)
    ensures Times(log + [e], x) == Times(log, x) + if x == e then 1 else 0
  {
    assert (log + [e])[..|log|] == log;
  }

  lemma LoopStepKeepsFeedsPaidFor(s: State, src: Source)
    requires Enabled(s, LoopStep) && FeedsPaidFor(s, src)
    ensures FeedsPaidFor(StepLoop(s), src)
  {
    if s.loop.Feed? {
      TimesAfter(s.log, Fed(Source(s.loop.kind, s.loop.index)), Fed(src));
      TimesAfter(s.log, Fed(Source(s.loop.kind, s.loop.index)), Sent(src));
    }
  }

  lemma StepKeepsFeedsPaidFor(s: State, a: Action, src: Source)
    requires Enabled(s, a) && FeedsPaidFor(s, src)
    ensures FeedsPaidFor(Apply(s, a), src)
  {
    match a
    case Send(_, q) =>
      TimesAfter(s.log, Sent(q), Fed(src));
      TimesAfter(s.log, Sent(q), Sent(src));
    case LoopStep => LoopStepKeepsFeedsPaidFor(s, src);
    case _ => assert Apply(s, a).log == s.log && Apply(s, a).sent == s.sent;
  }

  lemma {:induction false} RunKeepsFeedsPaidFor(start: State, run: seq<Action>, end: State, src: Source)
    requires Reaches(start, run, end) && FeedsPaidFor(start, src)
    ensures FeedsPaidFor(end, src)
    decreases run
  {
    if run != [] {
      StepKeepsFeedsPaidFor(start, run[0], src);
      RunKeepsFeedsPaidFor(Apply(start, run[0]), run[1..], end, src);
    }
  }

  /** In every interleaving a watcher is fed at most as often as it was sent to, so repeated
      sends may coalesce but none is invented. */
  lemma NoSpuriousFeed(start: State, run: seq<Action>, s: State, src: Source)
    requires Initial(start) && Reaches(start, run, s)
    ensures Times(s.log, Fed(src)) <= Times(s.log, Sent(src))
  {
    RunKeepsFeedsPaidFor(start, run, s, src);
  }
}
