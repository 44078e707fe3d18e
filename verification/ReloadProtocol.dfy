/** The reload worker's goroutine among any number of concurrent Enqueue, EnqueueApp and
    Forget calls: one step per critical section, channel operation or outside answer, in
    every interleaving. Outside answers (AppExists, ReloadCandidates, ReloadSharedVars, the
    context) are arbitrary. */
module ReloadProtocol {
  import opened Order
  import opened ReloadWorkers

  type Caller = nat

  datatype Result = Applied | NotRunning | Failed | Cancelled

  /** What a channel receives; started is when the reload took its waiters, just before
      ReloadSharedVars was called. */
  datatype Outcome =
    | Reloaded(app: App, started: nat, result: Result)
    | Skipped(app: App)
    | LookupFailed(app: App)
    | Deleted(app: App)
    | Stopped

  /** A call in progress, between two of its atomic parts. */
  datatype Call =
    | Registered(app: App, ch: Chan)              // EnqueueApp, before its Enqueue
    | Signalling                                  // Enqueue, merged, before the wake send
    | Forgetting(app: App)                        // Forget, before it takes the waiters
    | Answering(app: App, chans: seq<Chan>)       // Forget, delivering

  /** Where the worker goroutine is. */
  datatype Pc =
    | Select                                      // Run's select
    | Woken                                       // the wake token consumed, drain entered
    | Taking(first: bool)                         // before take; first: none yet in this drain
    | Resolving(left: seq<App>)                   // resolve's loop over waited apps
    | LookingUp                                   // candidates: the all/names request
    | LookingUpApps                               // candidates: the app ids request
    | Failing(left: seq<App>)                     // candidates: ids of a failed lookup
    | LeavingOut(rest: set<App>)                  // candidates: explicit apps left out
    | Deciding                                    // resolved ids merged into the queue
    | Checking(app: App)                          // popped, before isDropped
    | Claiming(app: App)                          // reloadOne, before takeWaiters
    | Reloading(app: App, waiting: seq<Chan>, started: nat)
    | Sweeping(all: map<App, seq<Chan>>, sweptAt: nat)
    | Halted(sweptAt: nat)

  /** The goroutine's place and the locals of drain, resolve and candidates. */
  datatype Worker = Worker(pc: Pc, queue: seq<App>, queued: set<App>, batch: Batch, out: seq<App>, seen: set<App>)

  datatype Registration = Registration(app: App, at: nat)

  /** Who is to answer a channel. */
  datatype Owner = Waiting(app: App) | Outbox | Reload | Sweep(app: App) | OfCall(caller: Caller) | Answered

  /** History: registrations, who owns each channel, everything sent. */
  datatype Ledger = Ledger(reg: map<Chan, Registration>, owner: map<Chan, Owner>, sent: map<Chan, Outcome>) {
    function Give(chans: seq<Chan>, o: Owner): Ledger {
      this.(owner := Given(owner, chans, o))
    }

    function Send(ch: Chan, r: Outcome): Ledger { Give([ch], Answered).(sent := sent[ch := r]) }

    function Issue(ch: Chan, app: App, at: nat): Ledger {
      this.(reg := reg[ch := Registration(app, at)], owner := owner[ch := Waiting(app)])
    }

    function SweepAll(): Ledger {
      this.(owner := GivenToSweep(owner))
    }
  }

  function Given(owner: map<Chan, Owner>, chans: seq<Chan>, o: Owner): map<Chan, Owner> {
    map ch | ch in owner :: if ch in chans then o else owner[ch]
  }

  function GivenToSweep(owner: map<Chan, Owner>): map<Chan, Owner> {
    map ch | ch in owner :: if owner[ch].Waiting? then Sweep(owner[ch].app) else owner[ch]
  }

  datatype State = State(
    f: Fields, done: bool,                                    // the shared fields; the context ended
    w: Worker, outbox: seq<Chan>, reply: Outcome,             // the worker, and its deliver loop
    calls: map<Caller, Call>,
    clock: nat, book: Ledger)                                 // steps so far; history

  const INIT :=
    State(START, false, Worker(Select, [], {}, NEW_BATCH, [], {}), [], Stopped, map[], 0, Ledger(map[], map[], map[]))

  datatype Step =
    | Cancel
    | CallStep(c: Caller, k: CallKind)
    | Quiet(q: QuietKind)                         // the worker, moving no channel
    | TakeFor(t: TakeKind)                        // the worker, taking an app's waiters to answer them
    | Claim
    | ReloadEnds(skipped: bool, failed: bool)
    | Deliver
    | SweepStart
    | SweepOne(app: App)

  datatype CallKind =
    | Enqueue(req: Request)
    | Signal
    | EnqueueApp(app: App, ch: Chan)
    | MergeApp
    | Forget(app: App)
    | TakeForgotten
    | Answer

  datatype QuietKind =
    | Wake | Begin | Take
    | Present                                     // AppExists answered yes
    | Resolved
    | LookedUp(ids: seq<App>) | LookupFails       // ReloadCandidates answered
    | FailedAll
    | AlreadySeen(app: App) | LeftOut
    | Decide | Check | Halt

  datatype TakeKind =
    | Gone                                        // AppExists answered no
    | FailOne
    | LeaveOut(app: App)

  // ---- Calls ----

  ghost predicate CallEnabled(s: State, c: Caller, k: CallKind) {
    match k
    case Enqueue(_) => c !in s.calls
    case EnqueueApp(_, ch) => c !in s.calls && ch !in s.book.reg
    case Forget(_) => c !in s.calls
    case Signal => c in s.calls && s.calls[c].Signalling?
    case MergeApp => c in s.calls && s.calls[c].Registered?
    case TakeForgotten => c in s.calls && s.calls[c].Forgetting?
    case Answer => c in s.calls && s.calls[c].Answering? && s.calls[c].chans != []
  }

  /** A deliver loop of Forget over ws. */
  function Deliveries(calls: map<Caller, Call>, c: Caller, app: App, ws: seq<Chan>): map<Caller, Call> {
    if ws == [] then calls - {c} else calls[c := Answering(app, ws)]
  }

  ghost function CallMove(s: State, c: Caller, k: CallKind): State
    requires CallEnabled(s, c, k)
  {
    match k
    case Enqueue(req) => s.(f := s.f.Merge(req), calls := s.calls[c := Signalling])
    case Signal => s.(f := s.f.(wake := true), calls := s.calls - {c})
    case EnqueueApp(app, ch) =>
      s.(f := s.f.Register(app, ch), calls := s.calls[c := Registered(app, ch)], book := s.book.Issue(ch, app, s.clock))
    case MergeApp => s.(f := s.f.Merge(Request([], [s.calls[c].app])), calls := s.calls[c := Signalling])
    case Forget(app) => s.(f := s.f.MarkForgotten(app), calls := s.calls[c := Forgetting(app)])
    case TakeForgotten =>
      var app := s.calls[c].app;
      var ws := s.f.WaitersOf(app);
      s.(f := s.f.Unregister(app), calls := Deliveries(s.calls, c, app, ws), book := s.book.Give(ws, OfCall(c)))
    case Answer =>
      var a := s.calls[c];
      s.(calls := Deliveries(s.calls, c, a.app, a.chans[1..]), book := s.book.Send(a.chans[0], Deleted(a.app)))
  }

  // ---- The worker ----

  /** The resolved ids go to the queue, each once. */
  function Merged(w: Worker): Worker {
    var (q, k) := AddNew(w.queue, w.queued, w.out);
    w.(queue := q, queued := k, out := [], pc := Deciding)
  }

  /** candidates after its all/names request: the ids request, if there are ids. */
  function AfterScope(w: Worker): Worker {
    w.(pc := if w.batch.apps != {} then LookingUpApps else LeavingOut({}))
  }

  ghost predicate QuietEnabled(w: Worker, f: Fields, q: QuietKind) {
    match q
    case Wake => w.pc == Select && f.wake
    case Begin => w.pc == Woken
    case Take => w.pc.Taking?
    case Present => w.pc.Resolving? && w.pc.left != []
    case Resolved => w.pc.Resolving? && w.pc.left == []
    case LookedUp(_) => w.pc == LookingUp || w.pc == LookingUpApps
    case LookupFails => w.pc == LookingUp || w.pc == LookingUpApps
    case FailedAll => w.pc.Failing? && w.pc.left == []
    case AlreadySeen(app) => w.pc.LeavingOut? && app in w.pc.rest && app in w.seen
    case LeftOut => w.pc.LeavingOut? && w.pc.rest == {}
    case Decide => w.pc == Deciding
    case Check => w.pc.Checking?
    case Halt => w.pc.Sweeping? && w.pc.all == map[]
  }

  /** The shared fields after a quiet step. */
  function QuietFields(w: Worker, f: Fields, done: bool, q: QuietKind): Fields {
    match q
    case Wake => f.(wake := false)
    case Begin => f.(busy := true)
    case Take => f.(pending := NEW_BATCH)
    case Decide => if w.queue == [] || done then f.EndPass() else f
    case _ => f
  }

  /** take and the start of resolve or candidates. */
  ghost function Taken(w: Worker, f: Fields): Worker {
    var b := f.pending;
    if b.Empty() then w.(pc := Deciding)
    else if f.WaitedOnly() then w.(batch := b, out := [], pc := Resolving(SortedKeys(b.apps)))
    else if b.all || b.names != {} then w.(batch := b, out := [], seen := {}, pc := LookingUp)
    else AfterScope(w.(batch := b, out := [], seen := {}))
  }

  ghost function QuietMove(w: Worker, f: Fields, done: bool, q: QuietKind): Worker
    requires QuietEnabled(w, f, q)
  {
    match q
    case Wake => w.(pc := Woken)
    case Begin => Worker(Taking(true), [], {}, NEW_BATCH, [], {})
    case Take => Taken(w, f)
    case Present => w.(out := w.out + [w.pc.left[0]], pc := Resolving(w.pc.left[1..]))
    case Resolved => Merged(w)
    case LookedUp(ids) =>
      var (o, k) := AddNew(w.out, w.seen, ids);
      if w.pc == LookingUp then AfterScope(w.(out := o, seen := k))
      else w.(out := o, seen := k, pc := LeavingOut(w.batch.apps))
    case LookupFails =>
      if w.pc == LookingUp then AfterScope(w) else w.(pc := Failing(SortedKeys(w.batch.apps)))
    case FailedAll => w.(pc := LeavingOut(w.batch.apps))
    case AlreadySeen(app) => w.(pc := LeavingOut(w.pc.rest - {app}))
    case LeftOut => Merged(w)
    case Decide =>
      if w.queue == [] || done then w.(queue := [], queued := {}, pc := Select)
      else w.(queue := w.queue[1..], queued := w.queued - {w.queue[0]}, pc := Checking(w.queue[0]))
    case Check => w.(pc := if w.pc.app in f.dropped then Taking(false) else Claiming(w.pc.app))
    case Halt => w.(pc := Halted(w.pc.sweptAt))
  }

  ghost predicate TakeEnabled(w: Worker, t: TakeKind) {
    match t
    case Gone => w.pc.Resolving? && w.pc.left != []
    case FailOne => w.pc.Failing? && w.pc.left != []
    case LeaveOut(app) => w.pc.LeavingOut? && app in w.pc.rest && app !in w.seen
  }

  function TakeApp(w: Worker, t: TakeKind): App
    requires TakeEnabled(w, t)
  {
    if t.LeaveOut? then t.app else w.pc.left[0]
  }

  function TakeReply(t: TakeKind, app: App): Outcome { if t.FailOne? then LookupFailed(app) else Skipped(app) }

  function TakeMove(w: Worker, t: TakeKind): Worker
    requires TakeEnabled(w, t)
  {
    match t
    case Gone => w.(pc := Resolving(w.pc.left[1..]))
    case FailOne => w.(pc := Failing(w.pc.left[1..]), seen := w.seen + {w.pc.left[0]})
    case LeaveOut(app) => w.(pc := LeavingOut(w.pc.rest - {app}))
  }

  function ResultOf(done: bool, skipped: bool, failed: bool): Result {
    if done then Cancelled else if skipped && !failed then NotRunning else if failed then Failed else Applied
  }

  ghost predicate Enabled(s: State, e: Step) {
    match e
    case Cancel => true
    case CallStep(c, k) => CallEnabled(s, c, k)
    case Deliver => s.outbox != []
    case Quiet(q) => s.outbox == [] && QuietEnabled(s.w, s.f, q)
    case TakeFor(t) => s.outbox == [] && TakeEnabled(s.w, t)
    case Claim => s.outbox == [] && s.w.pc.Claiming?
    case ReloadEnds(_, _) => s.outbox == [] && s.w.pc.Reloading?
    case SweepStart => s.outbox == [] && s.w.pc == Select && s.done
    case SweepOne(app) => s.outbox == [] && s.w.pc.Sweeping? && app in s.w.pc.all
  }

  ghost function Move(s: State, e: Step): State
    requires Enabled(s, e)
  {
    match e
    case Cancel => s.(done := true)
    case CallStep(c, k) => CallMove(s, c, k)
    case Deliver => s.(book := s.book.Send(s.outbox[0], s.reply), outbox := s.outbox[1..])
    case Quiet(q) => s.(w := QuietMove(s.w, s.f, s.done, q), f := QuietFields(s.w, s.f, s.done, q))
    case TakeFor(t) =>
      var app := TakeApp(s.w, t);
      var ws := s.f.WaitersOf(app);
      s.(w := TakeMove(s.w, t), f := s.f.Unregister(app),
         outbox := ws, reply := TakeReply(t, app), book := s.book.Give(ws, Outbox))
    case Claim =>
      var ws := s.f.WaitersOf(s.w.pc.app);
      s.(w := s.w.(pc := Reloading(s.w.pc.app, ws, s.clock)),
         f := s.f.Unregister(s.w.pc.app), book := s.book.Give(ws, Reload))
    case ReloadEnds(skipped, failed) =>
      s.(w := s.w.(pc := Taking(false)), outbox := s.w.pc.waiting, book := s.book.Give(s.w.pc.waiting, Outbox),
         reply := Reloaded(s.w.pc.app, s.w.pc.started, ResultOf(s.done, skipped, failed)))
    case SweepStart =>
      s.(w := s.w.(pc := Sweeping(s.f.waiters, s.clock)), f := s.f.(waiters := map[]), book := s.book.SweepAll())
    case SweepOne(app) =>
      var ws := s.w.pc.all[app];
      s.(w := s.w.(pc := Sweeping(s.w.pc.all - {app}, s.w.pc.sweptAt)),
         outbox := ws, reply := Stopped, book := s.book.Give(ws, Outbox))
  }

  ghost function Do(s: State, e: Step): State
    requires Enabled(s, e)
  {
    Move(s, e).(clock := s.clock + 1)
  }

  // ---- Who answers a channel ----

  /** The channels standing at one place. */
  function HeldBy(s: State, o: Owner): seq<Chan> {
    match o
    case Waiting(a) => s.f.WaitersOf(a)
    case Outbox => s.outbox
    case Reload => HeldByReload(s.w.pc)
    case Sweep(a) => HeldBySweep(s.w.pc, a)
    case OfCall(c) => HeldByCall(s.calls, c)
    case Answered => []
  }

  function HeldByReload(pc: Pc): seq<Chan> { if pc.Reloading? then pc.waiting else [] }

  function HeldBySweep(pc: Pc, a: App): seq<Chan> { if pc.Sweeping? && a in pc.all then pc.all[a] else [] }

  function HeldByCall(calls: map<Caller, Call>, c: Caller): seq<Chan> {
    if c in calls && calls[c].Answering? then calls[c].chans else []
  }

  type Places = Owner -> seq<Chan>

  ghost function PlacesOf(s: State): Places { o => HeldBy(s, o) }

  /** Every channel stands once, with its owner and nowhere else, or has been answered. */
  ghost predicate Accounted(h: Places, owner: map<Chan, Owner>, sent: set<Chan>) {
    && (forall o :: NoDup(h(o)))
    && (forall o, ch :: ch in h(o) ==> ch in owner && owner[ch] == o && o != Answered)
    && (forall ch :: ch in owner ==> owner[ch] == Answered || ch in h(owner[ch]))
    && (forall ch :: ch in sent <==> ch in owner && owner[ch] == Answered)
  }

  ghost predicate Owned(s: State) {
    s.book.owner.Keys == s.book.reg.Keys && Accounted(PlacesOf(s), s.book.owner, s.book.sent.Keys)
  }

  /** All the channels at one place move to an empty one. */
  lemma MovedTo(h: Places, g: Places, owner: map<Chan, Owner>, sent: set<Chan>, from: Owner, to: Owner)
    requires Accounted(h, owner, sent) && from != to && to != Answered
    requires h(to) == [] && g(to) == h(from) && g(from) == []
    requires forall o :: o != from && o != to ==> g(o) == h(o)
    ensures Accounted(g, Given(owner, h(from), to), sent)
  {
    forall o ensures NoDup(g(o)) { assert NoDup(h(if o == to then from else o)); }
    forall o, ch | ch in g(o) ensures ch in owner && Given(owner, h(from), to)[ch] == o && o != Answered {
      assert ch in h(if o == to then from else o);
    }
  }

  /** The first channel at a place is answered: nothing was sent on it before. */
  lemma FirstAnswered(h: Places, g: Places, owner: map<Chan, Owner>, sent: set<Chan>, from: Owner)
    requires Accounted(h, owner, sent) && h(from) != [] && g(from) == h(from)[1..]
    requires forall o :: o != from ==> g(o) == h(o)
    ensures Accounted(g, Given(owner, [h(from)[0]], Answered), sent + {h(from)[0]}) && h(from)[0] !in sent
  {
    var held := h(from);
    var ch := held[0];
    assert ch in held && held == [ch] + held[1..];
    NoDupTail(held);
    forall o ensures NoDup(g(o)) { assert NoDup(h(o)); }
    forall o, x | x in g(o) ensures x in owner && Given(owner, [ch], Answered)[x] == o && o != Answered {
      assert x in h(o);
    }
    forall x | x in owner && Given(owner, [ch], Answered)[x] != Answered
      ensures x in g(Given(owner, [ch], Answered)[x])
    {
      assert x != ch && x in h(owner[x]);
    }
  }

  lemma NoDupTail(held: seq<Chan>)
    requires held != [] && NoDup(held)
    ensures NoDup(held[1..]) && held[0] !in held[1..] && forall x :: x in held <==> x == held[0] || x in held[1..]
  {
    assert held == [held[0]] + held[1..];
    forall x | x in held[1..] ensures x != held[0] {
      var k :| 0 <= k < |held[1..]| && held[1..][k] == x;
      assert held[k + 1] == x;
    }
  }

  lemma OneRegistered(h: Places, g: Places, owner: map<Chan, Owner>, sent: set<Chan>, at: Owner, ch: Chan)
    requires Accounted(h, owner, sent) && ch !in owner && at != Answered && g(at) == h(at) + [ch]
    requires forall o :: o != at ==> g(o) == h(o)
    ensures Accounted(g, owner[ch := at], sent)
  {
    forall o ensures NoDup(g(o)) { assert NoDup(h(o)) && ch !in h(o); }
    forall o, x | x in g(o) ensures x in owner[ch := at] && owner[ch := at][x] == o && o != Answered {
      if x != ch { assert x in h(o); }
    }
  }

  lemma AllSwept(h: Places, g: Places, owner: map<Chan, Owner>, sent: set<Chan>)
    requires Accounted(h, owner, sent)
    requires forall a :: h(Sweep(a)) == []
    requires forall o: Owner :: g(o) == if o.Waiting? then [] else if o.Sweep? then h(Waiting(o.app)) else h(o)
    ensures Accounted(g, GivenToSweep(owner), sent)
  {
    forall o: Owner ensures NoDup(g(o)) { assert NoDup(h(if o.Sweep? then Waiting(o.app) else o)); }
    forall o: Owner, ch | ch in g(o) ensures ch in owner && GivenToSweep(owner)[ch] == o && o != Answered {
      assert ch in h(if o.Sweep? then Waiting(o.app) else o);
    }
    forall ch | ch in owner && GivenToSweep(owner)[ch] != Answered ensures ch in g(GivenToSweep(owner)[ch]) {
      assert ch in h(owner[ch]);
    }
  }

  lemma Unmoved(h: Places, g: Places, owner: map<Chan, Owner>, sent: set<Chan>)
    requires Accounted(h, owner, sent) && forall o :: g(o) == h(o)
    ensures Accounted(g, owner, sent)
  {
    forall o ensures NoDup(g(o)) { assert NoDup(h(o)); }
    forall o, ch | ch in g(o) ensures ch in owner && owner[ch] == o && o != Answered { assert ch in h(o); }
  }

  lemma QuietFrame(w: Worker, f: Fields, done: bool, q: QuietKind)
    requires QuietEnabled(w, f, q)
    ensures QuietFields(w, f, done, q).waiters == f.waiters
    ensures var v := QuietMove(w, f, done, q); HeldByReload(v.pc) == HeldByReload(w.pc) == []
    ensures var v := QuietMove(w, f, done, q); forall a :: HeldBySweep(v.pc, a) == HeldBySweep(w.pc, a) == []
  {
  }

  lemma CallFrame(s: State, c: Caller, k: CallKind)
    requires CallEnabled(s, c, k) && (k.Enqueue? || k.Signal? || k.MergeApp? || k.Forget?)
    ensures var t := CallMove(s, c, k);
            t.f.waiters == s.f.waiters && t.outbox == s.outbox && t.w == s.w && t.book == s.book
    ensures forall d :: HeldByCall(CallMove(s, c, k).calls, d) == HeldByCall(s.calls, d)
  {
  }

  lemma OwnedQuietCall(s: State, c: Caller, k: CallKind)
    requires Owned(s) && CallEnabled(s, c, k) && (k.Enqueue? || k.Signal? || k.MergeApp? || k.Forget?)
    ensures Owned(CallMove(s, c, k))
  {
    CallFrame(s, c, k);
    Unmoved(PlacesOf(s), PlacesOf(CallMove(s, c, k)), s.book.owner, s.book.sent.Keys);
  }

  lemma OwnedEnqueueApp(s: State, c: Caller, app: App, ch: Chan)
    requires Owned(s) && CallEnabled(s, c, EnqueueApp(app, ch))
    ensures Owned(CallMove(s, c, EnqueueApp(app, ch)))
  {
    var t := CallMove(s, c, EnqueueApp(app, ch));
    OneRegistered(PlacesOf(s), PlacesOf(t), s.book.owner, s.book.sent.Keys, Waiting(app), ch);
  }

  lemma OwnedTakeForgotten(s: State, c: Caller)
    requires Owned(s) && CallEnabled(s, c, TakeForgotten)
    ensures Owned(CallMove(s, c, TakeForgotten))
  {
    var t := CallMove(s, c, TakeForgotten);
    MovedTo(PlacesOf(s), PlacesOf(t), s.book.owner, s.book.sent.Keys, Waiting(s.calls[c].app), OfCall(c));
  }

  lemma SentKeys(b: Ledger, ch: Chan, r: Outcome)
    ensures b.Send(ch, r).sent.Keys == b.sent.Keys + {ch}
    ensures b.Send(ch, r).owner == Given(b.owner, [ch], Answered) && b.Send(ch, r).reg == b.reg
  {
  }

  lemma OwnedAnswer(s: State, c: Caller)
    requires Owned(s) && CallEnabled(s, c, Answer)
    ensures Owned(CallMove(s, c, Answer)) && s.calls[c].chans[0] !in s.book.sent
  {
    var t := CallMove(s, c, Answer);
    var h, g := PlacesOf(s), PlacesOf(t);
    var ch := s.calls[c].chans[0];
    assert h(OfCall(c)) == s.calls[c].chans && g(OfCall(c)) == s.calls[c].chans[1..];
    assert forall o :: o != OfCall(c) ==> g(o) == h(o);
    hide Accounted;
    FirstAnswered(h, g, s.book.owner, s.book.sent.Keys, OfCall(c));
    SentKeys(s.book, ch, Deleted(s.calls[c].app));
  }

  lemma OwnedDeliver(s: State)
    requires Owned(s) && Enabled(s, Deliver)
    ensures Owned(Move(s, Deliver)) && s.outbox[0] !in s.book.sent
  {
    FirstAnswered(PlacesOf(s), PlacesOf(Move(s, Deliver)), s.book.owner, s.book.sent.Keys, Outbox);
    SentKeys(s.book, s.outbox[0], s.reply);
  }

  lemma OwnedQuiet(s: State, q: QuietKind)
    requires Owned(s) && Enabled(s, Quiet(q))
    ensures Owned(Move(s, Quiet(q)))
  {
    QuietFrame(s.w, s.f, s.done, q);
    Unmoved(PlacesOf(s), PlacesOf(Move(s, Quiet(q))), s.book.owner, s.book.sent.Keys);
  }

  lemma OwnedTakeFor(s: State, k: TakeKind)
    requires Owned(s) && Enabled(s, TakeFor(k))
    ensures Owned(Move(s, TakeFor(k)))
  {
    MovedTo(PlacesOf(s), PlacesOf(Move(s, TakeFor(k))), s.book.owner, s.book.sent.Keys,
            Waiting(TakeApp(s.w, k)), Outbox);
  }

  lemma OwnedReload(s: State, e: Step)
    requires Owned(s) && Enabled(s, e) && (e.Claim? || e.ReloadEnds?)
    ensures Owned(Move(s, e))
  {
    var from, to := if e.Claim? then Waiting(s.w.pc.app) else Reload, if e.Claim? then Reload else Outbox;
    MovedTo(PlacesOf(s), PlacesOf(Move(s, e)), s.book.owner, s.book.sent.Keys, from, to);
  }

  lemma OwnedSweep(s: State, e: Step)
    requires Owned(s) && Enabled(s, e) && (e.SweepStart? || e.SweepOne?)
    ensures Owned(Move(s, e))
  {
    var h, g := PlacesOf(s), PlacesOf(Move(s, e));
    match e
    case SweepStart => AllSwept(h, g, s.book.owner, s.book.sent.Keys);
    case SweepOne(app) => MovedTo(h, g, s.book.owner, s.book.sent.Keys, Sweep(app), Outbox);
  }

  lemma OwnedMove(s: State, e: Step)
    requires Owned(s) && Enabled(s, e)
    ensures Owned(Move(s, e))
  {
    match e
    case Cancel => Unmoved(PlacesOf(s), PlacesOf(Move(s, e)), s.book.owner, s.book.sent.Keys);
    case CallStep(c, k) =>
      match k {
        case EnqueueApp(app, ch) => OwnedEnqueueApp(s, c, app, ch);
        case TakeForgotten => OwnedTakeForgotten(s, c);
        case Answer => OwnedAnswer(s, c);
        case _ => OwnedQuietCall(s, c, k);
      }
    case Quiet(q) => OwnedQuiet(s, q);
    case Deliver => OwnedDeliver(s);
    case TakeFor(k) => OwnedTakeFor(s, k);
    case Claim => OwnedReload(s, e);
    case ReloadEnds(_, _) => OwnedReload(s, e);
    case SweepStart => OwnedSweep(s, e);
    case SweepOne(app) => OwnedSweep(s, e);
  }

  lemma OwnedStep(s: State, e: Step)
    requires Owned(s) && Enabled(s, e)
    ensures Owned(Do(s, e))
  {
    OwnedMove(s, e);
    Unmoved(PlacesOf(Move(s, e)), PlacesOf(Do(s, e)), Do(s, e).book.owner, Do(s, e).book.sent.Keys);
  }
}
